/**
 What a whole connection does: where produced messages end up, what the
 acknowledgements mean, and that the client reads back every reply.
 */
module Sessions {
  import opened Bytes
  import opened Wire
  import opened DataServer
  import opened Replicas
  import H = Heartbeats

  /** The payloads the requests produce to one partition, in order. */
  function Produced(rs: seq<Request>, k: Key): seq<Data> {
    if rs == [] then [] else
      var r := rs[|rs| - 1];
      Produced(rs[..|rs| - 1], k) + if r.Produce? && KeyOf(r) == k then [r.payload] else []
  }

  /** Every partition grows by exactly the messages sent to it, in order, and no
      other request touches any log. */
  lemma {:induction false} LogsGrowByProduced(v: Store, rs: seq<Request>, k: Key)
    requires Total(v)
    ensures Effects(v, rs)[k].log == v[k].log + Produced(rs, k)
  {
    if rs != [] {
      LogsGrowByProduced(v, rs[..|rs| - 1], k);
    }
  }

  /** Later requests never shorten or change a log. */
  lemma {:induction false} LogsOnlyGrow(v: Store, rs: seq<Request>, more: seq<Request>, k: Key)
    requires Total(v)
    ensures Effects(v, rs)[k].log <= Effects(v, rs + more)[k].log
    decreases |more|
  {
    if more == [] {
      assert rs + more == rs;
    } else {
      var init, last := Unsnoc(more);
      LogsOnlyGrow(v, rs, init, k);
      assert rs + more == (rs + init) + [last];
      OneMore(v, rs + init, last);
    }
  }

  /** The offset in an acknowledgement is where the message is, then and whatever
      else the connection asks for afterwards. */
  lemma AckedStays(v: Store, before: seq<Request>, r: Request, after: seq<Request>)
    requires Total(v) && r.Produce?
    ensures
      var ack := ReplyTo(Effects(v, before), r);
      var log := Effects(v, before + [r] + after)[KeyOf(r)].log;
      ack.Stored? && ack.offset < |log| && log[ack.offset] == r.payload
  {
    LogsOnlyGrow(v, before + [r], after, KeyOf(r));
    AckedThen(v, before, r, Effects(v, before + [r] + after)[KeyOf(r)].log);
  }

  lemma AckedThen(v: Store, before: seq<Request>, r: Request, log: seq<Data>)
    requires Total(v) && r.Produce? && Effects(v, before + [r])[KeyOf(r)].log <= log
    ensures
      var ack := ReplyTo(Effects(v, before), r);
      ack.Stored? && ack.offset < |log| && log[ack.offset] == r.payload
  {
    OneMore(v, before, r);
    ProduceEffect(Effects(v, before), r);
    PrefixHolds(Effects(v, before)[KeyOf(r)].log, r.payload, log);
  }

  lemma ProduceEffect(v: Store, r: Request)
    requires Total(v) && r.Produce?
    ensures ReplyTo(v, r) == Stored(|v[KeyOf(r)].log|)
    ensures Effect(v, r)[KeyOf(r)].log == v[KeyOf(r)].log + [r.payload]
  {
  }

  lemma PrefixHolds<T>(a: seq<T>, d: T, b: seq<T>)
    requires a + [d] <= b
    ensures |a| < |b| && b[|a|] == d
  {
    assert (a + [d])[|a|] == d;
  }

  /** Two messages to one partition are acknowledged with increasing offsets. */
  lemma AcksIncrease(v: Store, before: seq<Request>, r: Request, between: seq<Request>, r': Request)
    requires Total(v) && r.Produce? && r'.Produce? && KeyOf(r) == KeyOf(r')
    ensures ReplyTo(Effects(v, before), r).offset < ReplyTo(Effects(v, before + [r] + between), r').offset
  {
    AckedStays(v, before, r, between);
    ProduceEffect(Effects(v, before + [r] + between), r');
  }

  // ---- what each request does, field by field ----

  /** Requests address the same partition exactly if topic and number agree. */
  lemma KeysApart(r: Request, r': Request)
    ensures KeyOf(r) == KeyOf(r') <==> r.topic == r'.topic && r.partition == r'.partition
  {
  }

  /** A consumer gets a message exactly if the offset is below the high watermark and
      the message there is readable, and then its first bytes. */
  lemma FetchReply(v: Store, r: Request)
    requires Total(v) && r.Fetch?
    ensures
      var c, reply := v[KeyOf(r)], ReplyTo(v, r);
      && (reply.Message? <==> r.offset < c.hw && r.offset < |c.log| && |c.log[r.offset]| % U32 > 0 && r.max > 0)
      && (reply.Message? ==> Served(c.log[r.offset], r.max, reply.data))
      && (!reply.Message? ==> reply == NoData)
  {
    var c := v[KeyOf(r)];
    if r.offset < c.hw && Read(c.log, r.offset, r.max).Some? {
      ReadExact(c.log, r.offset, r.max, Read(c.log, r.offset, r.max).value);
    }
  }

  /** A follower gets it whatever the watermark is. */
  lemma ReplicaFetchReply(v: Store, r: Request)
    requires Total(v) && r.ReplicaFetch?
    ensures
      var c, reply := v[KeyOf(r)], ReplyTo(v, r);
      && (reply.Message? <==> r.offset < |c.log| && |c.log[r.offset]| % U32 > 0 && r.max > 0)
      && (reply.Message? ==> Served(c.log[r.offset], r.max, reply.data))
      && (!reply.Message? ==> reply == NoData)
  {
    var c := v[KeyOf(r)];
    if Read(c.log, r.offset, r.max).Some? {
      ReadExact(c.log, r.offset, r.max, Read(c.log, r.offset, r.max).value);
    }
  }

  /** The bytes sent for a message under a budget. */
  predicate Served(message: Data, max: nat, data: Data) {
    data <= message && |data| == Min(|message| % U32, max)
  }

  /** The reply to each request of a connection is the reply on the state that the
      requests before it leave. */
  lemma ReplyAt(v: Store, before: seq<Request>, r: Request, after: seq<Request>)
    requires Total(v)
    ensures Replies(v, before + [r] + after)[|before|] == ReplyTo(Effects(v, before), r)
  {
    OneMore(v, before, r);
    RepliesGrow(v, before + [r], after);
    PrefixHolds(Replies(v, before), ReplyTo(Effects(v, before), r), Replies(v, before + [r] + after));
  }

  lemma {:induction false} RepliesGrow(v: Store, rs: seq<Request>, more: seq<Request>)
    requires Total(v)
    ensures Replies(v, rs) <= Replies(v, rs + more)
    decreases |more|
  {
    if more == [] {
      assert rs + more == rs;
    } else {
      var init, last := Unsnoc(more);
      RepliesGrow(v, rs, init);
      assert rs + more == (rs + init) + [last];
      OneMore(v, rs + init, last);
    }
  }

  /** Over a whole connection no consumer is sent anything but committed bytes. */
  lemma FetchReplyAt(v: Store, before: seq<Request>, r: Request, after: seq<Request>)
    requires Total(v) && r.Fetch?
    ensures
      var c, reply := Effects(v, before)[KeyOf(r)], Replies(v, before + [r] + after)[|before|];
      && (reply.Message? <==> r.offset < c.hw && r.offset < |c.log| && |c.log[r.offset]| % U32 > 0 && r.max > 0)
      && (reply.Message? ==> Served(c.log[r.offset], r.max, reply.data))
      && (!reply.Message? ==> reply == NoData)
  {
    ReplyAt(v, before, r, after);
    FetchReply(Effects(v, before), r);
  }

  /** The offset a follower asked for last, if it asked at all. */
  function LastAsked(rs: seq<Request>, k: Key, f: nat): Option<nat> {
    if rs == [] then None else
      var r := rs[|rs| - 1];
      if r.ReplicaFetch? && r.topic == k.topic && r.partition == k.partition && r.replica == f then Some(r.offset)
      else LastAsked(rs[..|rs| - 1], k, f)
  }

  /** Besides the logs a connection changes only the recorded progress, to what each
      follower asked for last, and keeps watermarks current. */
  lemma {:induction false} RecordsAfter(v: Store, rs: seq<Request>, k: Key, f: nat)
    requires Total(v)
    ensures
      var c, c' := v[k], Effects(v, rs)[k];
      && c'.id == c.id && c'.replicaIds == c.replicaIds && (Current(c) ==> Current(c'))
      && match LastAsked(rs, k, f)
         case Some(n) => f in c'.recorded && c'.recorded[f] == n
         case None => (f in c'.recorded <==> f in c.recorded) && (f in c.recorded ==> c'.recorded[f] == c.recorded[f])
  {
    if rs != [] {
      RecordsAfter(v, rs[..|rs| - 1], k, f);
    }
  }

  // ---- telling leaders their replicas ----

  /** The replica list the last assignment of a partition carries. */
  function LastList(leaders: seq<H.Assignment>, k: Key): Option<seq<nat>> {
    if leaders == [] then None else
      var a := leaders[|leaders| - 1];
      if a.topic == k.topic && a.partition == k.partition then Some(a.replicas) else LastList(leaders[..|leaders| - 1], k)
  }

  /** A listed partition ends with its list, its log and recorded progress as they
      were and a current watermark; any other is as it was. */
  lemma {:induction false} ToldIs(v: Store, leaders: seq<H.Assignment>, k: Key)
    requires Total(v)
    ensures
      var c, c' := v[k], Told(v, leaders)[k];
      && (LastList(leaders, k) == None ==> c' == c)
      && (LastList(leaders, k).Some? ==>
            && c'.replicaIds == LastList(leaders, k).value && Current(c')
            && c'.id == c.id && c'.log == c.log && c'.recorded == c.recorded)
  {
    if leaders != [] {
      ToldIs(v, leaders[..|leaders| - 1], k);
    }
  }

  lemma {:induction false} LastListIs(leaders: seq<H.Assignment>, i: nat)
    requires i < |leaders|
    requires forall a, b :: 0 <= a < b < |leaders| ==>
      leaders[a].topic != leaders[b].topic || leaders[a].partition != leaders[b].partition
    ensures LastList(leaders, Key(leaders[i].topic, leaders[i].partition)) == Some(leaders[i].replicas)
  {
    if i < |leaders| - 1 {
      LastListIs(leaders[..|leaders| - 1], i);
    }
  }

  /** So after a heartbeat reply that lists partition i with its replicas, its leader
      knows exactly these, and everything below its watermark is recorded for each. */
  lemma ToldListed(v: Store, leaders: seq<H.Assignment>, i: nat, f: nat)
    requires Total(v) && i < |leaders|
    requires forall a, b :: 0 <= a < b < |leaders| ==>
      leaders[a].topic != leaders[b].topic || leaders[a].partition != leaders[b].partition
    ensures
      var k := Key(leaders[i].topic, leaders[i].partition);
      var c, c' := v[k], Told(v, leaders)[k];
      && c'.replicaIds == leaders[i].replicas && c'.log == c.log && c'.recorded == c.recorded
      && c'.hw <= |c.log| && (f in leaders[i].replicas && f != c.id ==> c'.hw <= if f in c.recorded then c.recorded[f] else 0)
  {
    var k := Key(leaders[i].topic, leaders[i].partition);
    LastListIs(leaders, i);
    ToldIs(v, leaders, k);
    var c' := Told(v, leaders)[k];
    WatermarkIsMinimum(c'.id, |c'.log|, c'.replicaIds, c'.recorded);
  }

  // ---- the client's side of the reply stream ----

  /** Reads the reply to one request, as the sender of that request does. */
  function ReadReply(r: Request, s: Data): Received<Reply> {
    match r
    case Produce(_, _, _) =>
      (match ReadStored(s) case Got(offset, rest) => Got(Stored(offset), rest) case Failed => Failed)
    case Fetch(_, _, _, _) =>
      (match ReadFetched(s) case Got(data, rest) => Got(Answer(data), rest) case Failed => Failed)
    case ReplicaFetch(_, _, _, _, _) =>
      (match ReadReplicated(s) case Got(data, rest) => Got(Answer(data), rest) case Failed => Failed)
  }

  function ReadReplies(rs: seq<Request>, s: Data): Received<seq<Reply>> {
    if rs == [] then Got([], s) else
      match ReadReply(rs[0], s)
      case Failed => Failed
      case Got(a, rest) =>
        match ReadReplies(rs[1..], rest)
        case Failed => Failed
        case Got(more, end) => Got([a] + more, end)
  }

  lemma ReplyReadBack(v: Store, r: Request, rest: Data)
    requires Total(v) && |v[KeyOf(r)].log| < U64
    ensures ReadReply(r, ReplyBytes(ReplyTo(v, r)) + rest) == Got(ReplyTo(v, r), rest)
  {
    ReplyBack(ReplyTo(v, r), rest);
  }

  /** Peeling the first request off. */
  lemma {:induction false} FirstReply(v: Store, r: Request, rs: seq<Request>)
    requires Total(v)
    ensures Peeled(v, r, rs)
    decreases |rs|
  {
    if rs == [] {
      OnlyReply(v, r);
    } else {
      var init, last := Unsnoc(rs);
      FirstReply(v, r, init);
      LastReply(v, r, init, last);
    }
  }

  lemma Unsnoc(rs: seq<Request>) returns (init: seq<Request>, last: Request)
    requires rs != []
    ensures rs == init + [last]
  {
    init, last := rs[..|rs| - 1], rs[|rs| - 1];
  }

  lemma OnlyReply(v: Store, r: Request)
    requires Total(v)
    ensures Peeled(v, r, [])
  {
    assert [r] + [] == [] + [r];
    OneMore(v, [], r);
  }

  ghost predicate Peeled(v: Store, r: Request, rs: seq<Request>)
    requires Total(v)
  {
    && Replies(v, [r] + rs) == [ReplyTo(v, r)] + Replies(Effect(v, r), rs)
    && Effects(v, [r] + rs) == Effects(Effect(v, r), rs)
  }

  lemma LastReply(v: Store, r: Request, init: seq<Request>, last: Request)
    requires Total(v) && Peeled(v, r, init)
    ensures Peeled(v, r, init + [last])
  {
    var v' := Effect(v, r);
    Regrouped(r, init, last);
    OneMore(v, [r] + init, last);
    OneMore(v', init, last);
    Regrouped(ReplyTo(v, r), Replies(v', init), ReplyTo(Effects(v', init), last));
  }

  lemma Regrouped<T>(x: T, a: seq<T>, y: T)
    ensures [x] + (a + [y]) == ([x] + a) + [y]
  {
  }

  ghost predicate Short(v: Store, n: nat)
    requires Total(v)
  {
    forall k: Key :: |v[k].log| + n < U64
  }

  /** However many requests are sent down one connection, the sender reads exactly
      one reply for each, in order, and nothing is left over. */
  lemma {:induction false} RepliesReadBack(v: Store, rs: seq<Request>)
    requires Total(v) && Short(v, |rs|)
    ensures ReadReplies(rs, Stream(Replies(v, rs))) == Got(Replies(v, rs), [])
    decreases |rs|
  {
    if rs != [] {
      var v', first := Effect(v, rs[0]), ReplyTo(v, rs[0]);
      assert rs == [rs[0]] + rs[1..];
      FirstReply(v, rs[0], rs[1..]);
      var rest := Replies(v', rs[1..]);
      assert Replies(v, rs)[1..] == rest;
      ReplyReadBack(v, rs[0], Stream(rest));
      assert Short(v', |rs[1..]|);
      RepliesReadBack(v', rs[1..]);
    }
  }
}
