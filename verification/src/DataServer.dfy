/**
 The broker's data port: the table of open partition logs and the loop that takes
 requests off a connection, runs them on the logs and answers.
 */
module DataServer {
  import opened Bytes
  import opened LogFiles
  import opened Replicas
  import opened TieredLog
  import opened Wire
  import H = Heartbeats

  datatype Key = Key(topic: Data, partition: nat)

  /** A partition's directories as a stopped broker left them. */
  datatype Directory = Directory(local: Dir, cold: Dir)

  /** Every partition's copy on one broker, opened or not. */
  type Store = imap<Key, Replica>

  function KeyOf(r: Request): Key {
    Key(r.topic, r.partition)
  }

  // ---- what the requests mean ----

  ghost predicate Total(v: Store) {
    forall k: Key :: k in v
  }

  function Answer(data: Option<Data>): Reply {
    match data case Some(d) => Message(d) case None => NoData
  }

  ghost function Effect(v: Store, r: Request): (v': Store)
    requires Total(v)
    ensures Total(v')
  {
    var k := KeyOf(r);
    match r
    case Produce(_, _, payload) => v[k := Appended(v[k], payload)]
    case Fetch(_, _, _, _) => v
    case ReplicaFetch(replica, _, _, offset, _) => v[k := FetchedBy(v[k], replica, offset)]
  }

  ghost function ReplyTo(v: Store, r: Request): Reply
    requires Total(v)
  {
    var c := v[KeyOf(r)];
    match r
    case Produce(_, _, _) => Stored(|c.log|)
    case Fetch(_, _, offset, max) => Answer(if offset < c.hw then Read(c.log, offset, max) else None)
    case ReplicaFetch(_, _, _, offset, max) => Answer(Read(c.log, offset, max))
  }

  lemma ReplicaFetchMeans(v: Store, r: Request, v': Store, data: Option<Data>)
    requires Total(v) && r.ReplicaFetch?
    requires v' == v[KeyOf(r) := FetchedBy(v[KeyOf(r)], r.replica, r.offset)] && data == Read(v[KeyOf(r)].log, r.offset, r.max)
    ensures v' == Effect(v, r) && Answer(data) == ReplyTo(v, r)
  {
  }

  ghost function Effects(v: Store, rs: seq<Request>): (v': Store)
    requires Total(v)
    ensures Total(v')
  {
    if rs == [] then v else Effect(Effects(v, rs[..|rs| - 1]), rs[|rs| - 1])
  }

  /** The replies to some requests, each on the state the ones before it leave. */
  ghost function Replies(v: Store, rs: seq<Request>): (a: seq<Reply>)
    requires Total(v)
    ensures |a| == |rs|
  {
    if rs == [] then [] else
      Replies(v, rs[..|rs| - 1]) + [ReplyTo(Effects(v, rs[..|rs| - 1]), rs[|rs| - 1])]
  }

  lemma OneMore(v: Store, rs: seq<Request>, r: Request)
    requires Total(v)
    ensures Effects(v, rs + [r]) == Effect(Effects(v, rs), r)
    ensures Replies(v, rs + [r]) == Replies(v, rs) + [ReplyTo(Effects(v, rs), r)]
  {
    assert (rs + [r])[..|rs|] == rs;
  }

  /** Every listed partition is told its replicas, one after the other. */
  ghost function Told(v: Store, leaders: seq<H.Assignment>): (v': Store)
    requires Total(v)
    ensures Total(v')
  {
    if leaders == [] then v else ToldOne(Told(v, leaders[..|leaders| - 1]), leaders[|leaders| - 1])
  }

  ghost function ToldFirst(v: Store, leaders: seq<H.Assignment>, n: nat): (v': Store)
    requires Total(v) && n <= |leaders|
    ensures Total(v')
  {
    Told(v, leaders[..n])
  }

  lemma ToldMore(v: Store, leaders: seq<H.Assignment>, n: nat)
    requires Total(v) && n < |leaders|
    ensures ToldFirst(v, leaders, n + 1) == ToldOne(ToldFirst(v, leaders, n), leaders[n])
  {
    assert leaders[..n + 1][..n] == leaders[..n];
  }

  ghost function ToldOne(v: Store, a: H.Assignment): (v': Store)
    requires Total(v)
    ensures Total(v')
  {
    var k := Key(a.topic, a.partition);
    v[k := Reconciled(v[k], a.replicas)]
  }

  // ---- capacity ----

  predicate RoomIn(c: Replica, n: nat) {
    |c.log| + n < U64 && |Flat(c.log)| + n < U64
  }

  /** Offsets and file lengths stay below 2^64 after another `n` bytes of requests. */
  ghost predicate Room(v: Store, n: nat)
    requires Total(v)
  {
    forall k: Key :: RoomIn(v[k], n)
  }

  lemma {:induction false} FlatTail(a: seq<Data>, b: seq<Data>)
    ensures |Flat(b)| <= |Flat(a + b)|
  {
    if b != [] {
      var init := b[..|b| - 1];
      FlatTail(a, init);
      assert (a + b)[..|a + b| - 1] == a + init;
    }
  }

  lemma ActiveFits(log: PartitionLog)
    requires log.Valid()
    ensures log.nextOffset == |log.View().log|
    ensures FileLen(log.local, log.activeLog) <= |Flat(log.View().log)|
  {
    FlatTail(Payloads(log.parts.closed), log.parts.active.msgs);
  }

  lemma RoomAfter(v: Store, r: Request, n: nat, n': nat)
    requires Total(v) && Room(v, n) && n' <= n
    requires r.Produce? ==> n' + |r.payload| + 1 <= n
    ensures Room(Effect(v, r), n')
  {
    if r.Produce? {
      FlatSnoc(0, v[KeyOf(r)].log, r.payload);
    }
  }

  // ---- one read under the lock, and the consumer's retries ----

  /** The bytes sent for a read: the designated slice of the log file. */
  method Transfer(log: PartitionLog, k: nat, max: nat) returns (data: Option<Data>)
    requires log.Valid()
    ensures data == Read(log.View().log, k, max)
  {
    var found := log.ReadFromOffset(k, max);
    match found
    case None => data := None;
    case Some(e) =>
      var dir := if e.fromCold then log.cold else log.local;
      data := Some(dir[e.path].data[e.position..e.position + e.length]);
  }

  /** The leader's side of a follower's fetch, under one lock: the progress is
      recorded first, and the watermark does not limit the read. */
  method RecordAndRead(log: PartitionLog, replica: nat, offset: nat, max: nat) returns (data: Option<Data>)
    requires log.Valid()
    modifies log`replicaOffsets, log`highWatermark
    ensures log.Valid() && log.View() == FetchedBy(old(log.View()), replica, offset)
    ensures data == Read(old(log.View()).log, offset, max)
  {
    log.UpdateFollowerOffset(replica, offset);
    data := Transfer(log, offset, max);
  }

  /** The consumer's fetch: up to ten looks at the log, each under the lock, until
      the offset is below the high watermark.  `looks[i]` is the log as the i-th
      acquisition of the lock finds it; between two looks others may change it. */
  method FetchCommitted(looks: seq<PartitionLog>, k: nat, max: nat) returns (data: Option<Data>, n: nat)
    requires |looks| == 10 && forall i :: 0 <= i < 10 ==> looks[i].Valid()
    ensures n < 10 && forall i :: 0 <= i < n ==> looks[i].highWatermark <= k
    ensures
      if k < looks[n].highWatermark then data == Read(looks[n].View().log, k, max)
      else data == None && n == 9
  {
    var attempts := 0;
    while true
      invariant 0 <= attempts < 10
      invariant forall i :: 0 <= i < attempts ==> looks[i].highWatermark <= k
      decreases 10 - attempts
    {
      if k < looks[attempts].highWatermark {
        data := Transfer(looks[attempts], k, max);
        return data, attempts;
      }
      attempts := attempts + 1;
      if attempts >= 10 {
        return None, attempts - 1;
      }
    }
  }

  // ---- the open partitions ----

  class LogManager {
    const brokerId: nat
    const maxSegmentSize: nat
    const maxRetentionSize: Option<nat>
    const maxRetentionAge: Option<int>

    var partitions: map<Key, PartitionLog>
    var directories: map<Key, Directory>

    /** The segments the unopened directories stand for. */
    ghost var kept: map<Key, Parts>

    /** The open logs. */
    ghost var logs: set<PartitionLog>

    /** The log belongs to this broker and has its limits. */
    predicate Configured(log: PartitionLog) {
      && log.brokerId == brokerId && log.maxSegmentSize == maxSegmentSize
      && log.maxRetentionSize == maxRetentionSize && log.maxRetentionAge == maxRetentionAge
    }

    /** The directories not opened yet can be. */
    ghost predicate KeptValid()
      reads this`directories, this`kept
    {
      && directories.Keys == kept.Keys
      && forall k :: k in kept ==>
           Openable(directories[k].local, directories[k].cold, kept[k])
    }

    ghost predicate Valid()
      reads this, logs
    {
      && KeptValid()
      && (forall k :: k in partitions ==>
            partitions[k] in logs && partitions[k].Valid() && Configured(partitions[k]))
      && (forall j, k :: j in partitions && k in partitions && j != k ==> partitions[j] != partitions[k])
    }

    ghost function At(k: Key): Replica
      reads this, logs
    {
      if k in partitions && partitions[k] in logs then partitions[k].View()
      else Refreshed(Replica(brokerId, if k in kept then kept[k].Log() else [], [], map[], 0))
    }

    ghost function View(): (v: Store)
      reads this, logs
      ensures Total(v)
    {
      imap k: Key :: At(k)
    }

    constructor (brokerId: nat, maxSegmentSize: nat, maxRetentionSize: Option<nat>, maxRetentionAge: Option<int>,
                 directories: map<Key, Directory>, ghost kept: map<Key, Parts>)
      requires directories.Keys == kept.Keys
      requires forall k :: k in kept ==>
        Openable(directories[k].local, directories[k].cold, kept[k])
      ensures Valid() && this.kept == kept && partitions == map[] && this.brokerId == brokerId
      ensures this.maxSegmentSize == maxSegmentSize && this.maxRetentionSize == maxRetentionSize && this.maxRetentionAge == maxRetentionAge
      ensures forall k: Key :: At(k).log == (if k in kept then kept[k].Log() else []) && At(k).replicaIds == []
    {
      this.brokerId, this.maxSegmentSize := brokerId, maxSegmentSize;
      this.maxRetentionSize, this.maxRetentionAge := maxRetentionSize, maxRetentionAge;
      this.partitions, this.directories, this.kept, this.logs := map[], directories, kept, {};
    }

    /** The same logs are open, and all but one of them are as they were. */
    twostate predicate OnlyChanged(key: Key)
      reads this, logs
    {
      && key in old(partitions)
      && partitions == old(partitions) && directories == old(directories) && kept == old(kept) && logs == old(logs)
      && forall k :: k in partitions && k != key ==> partitions[k] in logs && unchanged(partitions[k])
    }

    twostate lemma ChangeKeeps(key: Key)
      requires old(Valid()) && OnlyChanged(key) && partitions[key].Valid()
      ensures Valid()
    {
    }

    twostate lemma ChangeShows(key: Key)
      requires OnlyChanged(key) && partitions[key] in logs
      ensures View() == old(View())[key := partitions[key].View()]
    {
    }

    /** One more log is open. */
    twostate predicate OnlyOpened(key: Key, new log: PartitionLog)
      reads this, logs
    {
      && key !in old(partitions) && fresh(log) && Configured(log)
      && partitions == old(partitions)[key := log] && logs == old(logs) + {log}
      && directories == old(directories) - {key} && kept == old(kept) - {key}
      && forall k :: k in partitions && k != key ==> partitions[k] in logs && unchanged(partitions[k])
    }

    twostate lemma OpenKeeps(key: Key, new log: PartitionLog)
      requires old(Valid()) && OnlyOpened(key, log) && log.Valid()
      ensures Valid()
    {
    }

    twostate lemma OpenShows(key: Key, new log: PartitionLog)
      requires OnlyOpened(key, log) && log.View() == old(At(key))
      ensures View() == old(View())
    {
    }

    /** The log of a partition, opened on first use.  Opening changes no copy. */
    method GetPartition(key: Key, t: int) returns (log: PartitionLog)
      requires Valid()
      modifies this
      ensures Valid() && View() == old(View())
      ensures key in partitions && log == partitions[key]
      ensures fresh(logs - old(logs))
    {
      if key in partitions {
        return partitions[key];
      }
      log := Open(key, t);
    }

    method Open(key: Key, t: int) returns (log: PartitionLog)
      requires Valid() && key !in partitions
      modifies this
      ensures Valid() && View() == old(View())
      ensures key in partitions && log == partitions[key] && fresh(logs - old(logs))
    {
      log := OpenLog(key, t);
      partitions := partitions[key := log];
      directories, kept, logs := directories - {key}, kept - {key}, logs + {log};
      OpenKeeps(key, log);
      OpenShows(key, log);
    }

    method OpenLog(key: Key, t: int) returns (log: PartitionLog)
      requires Valid() && key !in partitions
      ensures fresh(log) && log.Valid() && Configured(log) && log.View() == At(key)
    {
      var d := if key in directories then directories[key] else Directory(map[], map[]);
      ghost var p := if key in kept then kept[key] else FRESH;
      log := new PartitionLog(brokerId, maxSegmentSize, maxRetentionSize, maxRetentionAge, d.local, d.cold, t, p);
    }

    method HandleProduce(key: Key, payload: Data, t: int, now: int) returns (offset: nat)
      requires Valid() && key in partitions && RoomIn(At(key), |payload| + 1)
      modifies partitions[key]
      ensures Valid() && View() == old(View())[key := Appended(old(View())[key], payload)]
      ensures offset == |old(View())[key].log| && key in partitions && StoredAt(partitions[key], t, now)
    {
      var log := partitions[key];
      ActiveFits(log);
      offset := log.Append(payload, t, now);
      ChangeKeeps(key);
      ChangeShows(key);
    }

    /** The log's last append wrote at time t and applied retention at time `now`. */
    ghost predicate StoredAt(log: PartitionLog, t: int, now: int)
      reads log
    {
      log.Written(log.activeLog, t) && log.Written(log.activeIdx, t) && log.WithinLimits(now)
    }

    method HandleReplicaFetch(key: Key, replica: nat, offset: nat, max: nat) returns (data: Option<Data>)
      requires Valid() && key in partitions
      modifies partitions[key]
      ensures Valid() && View() == old(View())[key := FetchedBy(old(View())[key], replica, offset)]
      ensures data == Read(old(View())[key].log, offset, max)
    {
      var log := partitions[key];
      data := RecordAndRead(log, replica, offset, max);
      ChangeKeeps(key);
      ChangeShows(key);
    }

    /** A consumer's fetch when no other connection is served meanwhile. */
    method HandleFetch(key: Key, offset: nat, max: nat) returns (data: Option<Data>)
      requires Valid() && key in partitions
      ensures data == if offset < View()[key].hw then Read(View()[key].log, offset, max) else None
    {
      var log := partitions[key];
      var n;
      data, n := FetchCommitted(seq(10, _ => log), offset, max);
    }

    /** What the broker reports on a heartbeat: every open partition once, in any
        order, with its length as a signed 64-bit number. */
    method AllOffsets() returns (offsets: seq<(Key, int)>)
      ensures |offsets| == |partitions|
      ensures forall k :: k in partitions ==> (k, Signed(partitions[k].nextOffset)) in offsets
      ensures forall e :: e in offsets ==> e.0 in partitions && e.1 == Signed(partitions[e.0].nextOffset)
    {
      offsets := [];
      var left := partitions.Keys;
      while left != {}
        invariant left <= partitions.Keys && |offsets| + |left| == |partitions|
        invariant forall e :: e in offsets ==> e.0 in partitions && e.1 == Signed(partitions[e.0].nextOffset)
        invariant forall k :: k in partitions && k !in left ==> (k, Signed(partitions[k].nextOffset)) in offsets
        decreases |left|
      {
        var k :| k in left;
        offsets := offsets + [(k, Signed(partitions[k].nextOffset))];
        left := left - {k};
      }
    }

    method ReconcileLog(key: Key, ids: seq<nat>)
      requires Valid() && key in partitions
      modifies partitions[key]
      ensures Valid() && View() == old(View())[key := Reconciled(old(View())[key], ids)]
    {
      partitions[key].Reconcile(ids);
      ChangeKeeps(key);
      ChangeShows(key);
    }

    method ReconcileOne(a: H.Assignment, t: int)
      requires Valid()
      modifies this, logs
      ensures Valid() && View() == ToldOne(old(View()), a)
      ensures fresh(logs - old(logs))
    {
      var key := Key(a.topic, a.partition);
      var log := GetPartition(key, t);
      ReconcileLog(key, a.replicas);
    }

    /** Opens every partition this broker leads and hands it its replica list. */
    method ReconcileLeaders(leaders: seq<H.Assignment>, t: int)
      requires Valid()
      modifies this, logs
      ensures Valid() && View() == Told(old(View()), leaders)
    {
      ghost var v := View();
      for i := 0 to |leaders|
        invariant Valid() && fresh(logs - old(logs))
        invariant View() == ToldFirst(v, leaders, i)
      {
        ReconcileOne(leaders[i], t);
        ToldMore(v, leaders, i);
      }
      assert leaders[..|leaders|] == leaders;
    }

    /** Runs one request; `t` and `now` are the clock readings of an append. */
    method Handle(r: Request, t: int, now: int) returns (reply: Reply)
      requires Valid()
      requires r.Produce? ==> RoomIn(View()[KeyOf(r)], |r.payload| + 1)
      modifies this, logs
      ensures Valid() && View() == Effect(old(View()), r) && reply == ReplyTo(old(View()), r)
      ensures r.Produce? ==> KeyOf(r) in partitions && StoredAt(partitions[KeyOf(r)], t, now)
      ensures fresh(logs - old(logs))
    {
      var log := GetPartition(KeyOf(r), t);
      reply := Dispatch(r, t, now);
    }

    method Dispatch(r: Request, t: int, now: int) returns (reply: Reply)
      requires Valid() && KeyOf(r) in partitions
      requires r.Produce? ==> RoomIn(View()[KeyOf(r)], |r.payload| + 1)
      modifies partitions[KeyOf(r)]
      ensures Valid() && View() == Effect(old(View()), r) && reply == ReplyTo(old(View()), r)
      ensures r.Produce? ==> KeyOf(r) in partitions && StoredAt(partitions[KeyOf(r)], t, now)
    {
      match r
      case Produce(_, _, _) => reply := DispatchProduce(r, t, now);
      case Fetch(_, _, _, _) => reply := DispatchFetch(r);
      case ReplicaFetch(_, _, _, _, _) => reply := DispatchReplicaFetch(r);
    }

    method DispatchProduce(r: Request, t: int, now: int) returns (reply: Reply)
      requires Valid() && KeyOf(r) in partitions && r.Produce? && RoomIn(View()[KeyOf(r)], |r.payload| + 1)
      modifies partitions[KeyOf(r)]
      ensures Valid() && View() == Effect(old(View()), r) && reply == ReplyTo(old(View()), r)
      ensures KeyOf(r) in partitions && StoredAt(partitions[KeyOf(r)], t, now)
    {
      var offset := HandleProduce(KeyOf(r), r.payload, t, now);
      reply := Stored(offset);
    }

    method DispatchReplicaFetch(r: Request) returns (reply: Reply)
      requires Valid() && KeyOf(r) in partitions && r.ReplicaFetch?
      modifies partitions[KeyOf(r)]
      ensures Valid() && View() == Effect(old(View()), r) && reply == ReplyTo(old(View()), r)
    {
      ghost var v := View();
      var data := HandleReplicaFetch(KeyOf(r), r.replica, r.offset, r.max);
      ReplicaFetchMeans(v, r, View(), data);
      reply := Answer(data);
    }

    method DispatchFetch(r: Request) returns (reply: Reply)
      requires Valid() && KeyOf(r) in partitions && r.Fetch?
      ensures Valid() && View() == old(View()) && reply == ReplyTo(old(View()), r)
    {
      var data := HandleFetch(KeyOf(r), r.offset, r.max);
      reply := Answer(data);
    }

    /** Serves the next request of a connection that has had `done` served. */
    method Serve(r: Request, t: int, now: int, sent: Data, ghost v: Store, ghost done: seq<Request>, ghost n: nat, ghost n': nat)
      returns (sent': Data)
      requires Valid() && Total(v) && Progress(v, done, sent) && Room(View(), n) && n' <= n
      requires r.Produce? ==> n' + |r.payload| + 1 <= n
      modifies this, logs
      ensures Valid() && Progress(v, done + [r], sent') && Room(View(), n')
      ensures fresh(logs - old(logs))
    {
      RoomAfter(View(), r, n, n');
      assert RoomIn(View()[KeyOf(r)], n);
      var reply := Handle(r, t, now);
      OneMore(v, done, r);
      StreamSnoc(Replies(v, done), reply);
      sent' := sent + ReplyBytes(reply);
    }

    ghost predicate Progress(v: Store, done: seq<Request>, sent: Data)
      requires Total(v)
      reads this, logs
    {
      View() == Effects(v, done) && sent == Stream(Replies(v, done))
    }

    /** A connection with requests `done` behind it and bytes `rest` ahead. */
    ghost predicate Serving(input: Data, rest: Data, v: Store, done: seq<Request>, sent: Data)
      requires Total(v)
      reads this, logs
    {
      Valid() && Room(View(), |rest|) && Progress(v, done, sent) && Follows(input, done, rest)
    }

    /** A connection that has ended. */
    ghost predicate Served(input: Data, v: Store, sent: Data, error: Option<Error>)
      requires Total(v)
      reads this, logs
    {
      Valid() && Progress(v, Decode(input).requests, sent) && error == Decode(input).error
    }

    /** One turn of the connection loop. */
    method Turn(ghost input: Data, rest: Data, clock: nat -> int, sent: Data, ghost v: Store, ghost done: seq<Request>)
      returns (next: Incoming, sent': Data)
      requires Total(v) && Serving(input, rest, v, done, sent)
      modifies this, logs
      ensures fresh(logs - old(logs))
      ensures next.Last? ==> Served(input, v, sent', next.error)
      ensures next.Another? ==> |next.rest| < |rest| && Serving(input, next.rest, v, done + [next.request], sent')
    {
      next := ReadRequest(input, done, rest);
      sent' := sent;
      if next.Another? {
        sent' := Serve(next.request, clock(2 * |rest|), clock(2 * |rest| + 1), sent, v, done, |rest|, |next.rest|);
      }
    }

    /** The connection loop: everything that came in, everything that goes out,
        and the error the connection ended with, if any. */
    method HandleConnection(input: Data, clock: nat -> int) returns (output: Data, error: Option<Error>)
      requires Valid() && Room(View(), |input|)
      modifies this, logs
      ensures Valid()
      ensures View() == Effects(old(View()), Decode(input).requests)
      ensures output == Stream(Replies(old(View()), Decode(input).requests))
      ensures error == Decode(input).error
    {
      output, error := Loop(input, clock, View());
    }

    method Loop(input: Data, clock: nat -> int, ghost v: Store) returns (output: Data, error: Option<Error>)
      requires Valid() && v == View() && Room(v, |input|)
      modifies this, logs
      ensures Served(input, v, output, error)
    {
      output := [];
      var rest := input;
      ghost var done: seq<Request> := [];
      FollowsAll(input);
      while true
        invariant Serving(input, rest, v, done, output) && fresh(logs - old(logs))
        decreases |rest|
      {
        var next;
        next, output := Turn(input, rest, clock, output, v, done);
        if next.Last? {
          return output, next.error;
        }
        rest, done := next.rest, done + [next.request];
      }
    }
  }

  // ---- the loop's position in the stream ----

  datatype Incoming = Last(error: Option<Error>) | Another(request: Request, rest: Data)

  /** Takes the next request off the stream. */
  method ReadRequest(ghost input: Data, ghost done: seq<Request>, s: Data) returns (next: Incoming)
    requires Follows(input, done, s)
    ensures next.Last? ==> Decode(input) == Decoded(done, next.error)
    ensures next.Another? ==> Follows(input, done + [next.request], next.rest) && |next.rest| < |s|
    ensures next.Another? && next.request.Produce? ==> |next.rest| + |next.request.payload| + 1 <= |s|
  {
    var scanned := Scan(s);
    match scanned
    case Ended => return Last(None);
    case Broken(e) => return Last(Some(e));
    case Framed(command, body, rest) =>
      var parsed := Parse(command, body);
      match parsed
      case Bad(e) => return Last(Some(e));
      case Good(r) =>
        if r.Produce? {
          PayloadFits(command, body);
        }
        DecodeStep(s);
        FollowsMore(input, done, s, r, rest);
        return Another(r, rest);
  }

  lemma PayloadFits(command: byte, body: Data)
    requires Parse(command, body).Good? && Parse(command, body).request.Produce?
    ensures |Parse(command, body).request.payload| <= |body|
  {
  }

  lemma DecodeStep(s: Data)
    requires Scan(s).Framed? && Parse(Scan(s).command, Scan(s).body).Good?
    ensures
      var f := Scan(s);
      Decode(s) == Decoded([Parse(f.command, f.body).request] + Decode(f.rest).requests, Decode(f.rest).error)
  {
  }

  /** What has been served plus what the rest holds is what came in. */
  ghost predicate Follows(input: Data, done: seq<Request>, rest: Data) {
    Decode(input) == Decoded(done + Decode(rest).requests, Decode(rest).error)
  }

  lemma FollowsAll(input: Data)
    ensures Follows(input, [], input)
  {
    assert [] + Decode(input).requests == Decode(input).requests;
  }

  lemma FollowsMore(input: Data, done: seq<Request>, rest: Data, r: Request, more: Data)
    requires Follows(input, done, rest)
    requires Decode(rest) == Decoded([r] + Decode(more).requests, Decode(more).error)
    ensures Follows(input, done + [r], more)
  {
    Regrouped(done, r, Decode(more).requests);
  }

  lemma Regrouped(done: seq<Request>, r: Request, left: seq<Request>)
    ensures done + ([r] + left) == done + [r] + left
  {
  }
}
