/**
 The binary protocol of the data port.  A request is a frame: two magic bytes, a
 command byte, a 32-bit body length and the body.  The client and the follower
 build frames in byte buffers; the broker takes a byte stream apart again.
 */
module Wire {
  import opened Bytes
  import opened Utf8

  type u32 = x: int | 0 <= x < 0x1_0000_0000
  type u64 = x: int | 0 <= x < 0x1_0000_0000_0000_0000

  const MAGIC: Data := [0xAE, 0x01]

  /** Topics are byte strings here; the broker insists that they are UTF-8. */
  datatype Request =
    | Produce(topic: Data, partition: u32, payload: Data)
    | Fetch(topic: Data, partition: u32, offset: u64, max: u32)
    | ReplicaFetch(replica: u32, topic: Data, partition: u32, offset: u64, max: u32)

  datatype Error =
    | BadMagic
    | CutOff
    | BodyTooShort
    | TopicTooLong
    | TopicNotUtf8
    | PayloadTooLong
    | UnknownCommand

  // ---- encoding ----

  function Command(r: Request): byte {
    match r
    case Produce(_, _, _) => 1
    case Fetch(_, _, _, _) => 2
    case ReplicaFetch(_, _, _, _, _) => 3
  }

  function Body(r: Request): Data {
    match r
    case Produce(topic, partition, payload) =>
      Put(|topic|, 2) + topic + Put(partition, 4) + Put(|payload|, 4) + payload
    case Fetch(topic, partition, offset, max) =>
      Put(|topic|, 2) + topic + Put(partition, 4) + Put(offset, 8) + Put(max, 4)
    case ReplicaFetch(replica, topic, partition, offset, max) =>
      Put(replica, 4) + Put(|topic|, 2) + topic + Put(partition, 4) + Put(offset, 8) + Put(max, 4)
  }

  function Frame(r: Request): Data {
    MAGIC + [Command(r)] + Put(|Body(r)|, 4) + Body(r)
  }

  function Frames(rs: seq<Request>): Data {
    if rs == [] then [] else Frame(rs[0]) + Frames(rs[1..])
  }

  predicate TopicOk(topic: Data) {
    |topic| < U16 && ValidUtf8(topic)
  }

  /** The requests whose lengths fit their length fields and whose topic is text. */
  predicate Sendable(r: Request) {
    TopicOk(r.topic) && |Body(r)| < U32
  }

  /** Writes the low `w` bytes of `n` at position `at`, as the big-endian stores do. */
  method PutAt(a: array<byte>, at: nat, n: nat, w: nat)
    requires at + w <= a.Length
    modifies a
    ensures a[..at + w] == old(a[..at]) + Put(n, w)
  {
    var m, i := n, w;
    while i > 0
      invariant 0 <= i <= w && 0 <= m && Put(n, w) == Put(m, i) + a[at + i..at + w]
      invariant a[..at] == old(a[..at])
    {
      i := i - 1;
      ghost var done := a[at + i + 1..at + w];
      a[at + i] := m % 256;
      assert a[at + i..at + w] == [m % 256] + done;
      m := m / 256;
    }
    assert a[..at + w] == a[..at] + a[at..at + w];
  }

  method CopyAt(a: array<byte>, at: nat, data: Data)
    requires at + |data| <= a.Length
    modifies a
    ensures a[..at + |data|] == old(a[..at]) + data
  {
    for i := 0 to |data|
      invariant a[..at + i] == old(a[..at]) + data[..i]
    {
      a[at + i] := data[i];
      assert a[..at + i + 1] == a[..at + i] + [data[i]];
    }
    assert data[..|data|] == data;
  }

  method FillHeader(command: byte, bodyLen: nat) returns (header: array<byte>)
    ensures fresh(header) && header[..] == MAGIC + [command] + Put(bodyLen, 4)
  {
    header := new byte[7];
    header[0] := 0xAE;
    header[1] := 0x01;
    header[2] := command;
    assert header[..3] == MAGIC + [command];
    PutAt(header, 3, bodyLen, 4);
    assert header[..] == header[..7];
  }

  /** The start both of the client's bodies share. */
  method FillTopic(body: array<byte>, topic: Data, partition: u32)
    requires body.Length >= 6 + |topic|
    modifies body
    ensures body[..6 + |topic|] == Put(|topic|, 2) + topic + Put(partition, 4)
  {
    PutAt(body, 0, |topic|, 2);
    CopyAt(body, 2, topic);
    PutAt(body, 2 + |topic|, partition, 4);
  }

  /** The produce request as the client fills its buffers. */
  method WriteProduce(topic: Data, partition: u32, message: Data) returns (sent: Data)
    ensures sent == Frame(Produce(topic, partition, message))
  {
    var bodyLen := 2 + |topic| + 4 + 4 + |message|;
    var header := FillHeader(1, bodyLen);
    var body := new byte[bodyLen];
    FillTopic(body, topic, partition);
    var offset := 2 + |topic|;
    PutAt(body, offset + 4, |message|, 4);
    CopyAt(body, offset + 8, message);
    assert body[..] == body[..bodyLen];
    sent := header[..] + body[..];
  }

  /** The fetch request, with the client's fixed byte budget. */
  method WriteFetch(topic: Data, partition: u32, startOffset: u64, maxBytes: u32) returns (sent: Data)
    ensures sent == Frame(Fetch(topic, partition, startOffset, maxBytes))
  {
    var bodyLen := 2 + |topic| + 4 + 8 + 4;
    var header := FillHeader(2, bodyLen);
    var body := new byte[bodyLen];
    FillTopic(body, topic, partition);
    var offset := 2 + |topic|;
    PutAt(body, offset + 4, startOffset, 8);
    PutAt(body, offset + 12, maxBytes, 4);
    assert body[..] == body[..bodyLen];
    sent := header[..] + body[..];
  }

  lemma Nest(head: Data, z: Data, a: Data, b: Data, c: Data, d: Data, e: Data)
    ensures head + z + a + b + c + d + e == head + (z + a + b + c + d + e)
    ensures z + a + b + c + d + e == z + (a + b + c + d + e)
  {
  }

  /** The follower's request, appended piece by piece. */
  method WriteReplicaFetch(brokerId: u32, topic: Data, partition: u32, nextOffset: u64, maxBytes: u32) returns (sent: Data)
    ensures sent == Frame(ReplicaFetch(brokerId, topic, partition, nextOffset, maxBytes))
  {
    var bodyLen := 4 + 2 + |topic| + 4 + 8 + 4;
    sent := MAGIC;
    sent := sent + [3];
    sent := sent + Put(bodyLen, 4);
    ghost var head := sent;
    Nest(head, Put(brokerId, 4), Put(|topic|, 2), topic, Put(partition, 4), Put(nextOffset, 8), Put(maxBytes, 4));
    sent := sent + Put(brokerId, 4);
    sent := sent + Put(|topic|, 2);
    sent := sent + topic;
    sent := sent + Put(partition, 4);
    sent := sent + Put(nextOffset, 8);
    sent := sent + Put(maxBytes, 4);
  }

  // ---- decoding ----

  function Field(s: Data, at: nat, w: nat): (n: nat)
    requires at + w <= |s|
    ensures n < Pow256(w)
  {
    PutGet(s[at..at + w]);
    Get(s[at..at + w])
  }

  function Field4(s: Data, at: nat): u32
    requires at + 4 <= |s|
  {
    Widths();
    Field(s, at, 4)
  }

  function Field8(s: Data, at: nat): u64
    requires at + 8 <= |s|
  {
    Widths();
    Field(s, at, 8)
  }

  datatype Parsed = Good(request: Request) | Bad(error: Error)

  function ParseProduce(body: Data): Parsed {
    if |body| < 10 then Bad(BodyTooShort) else
      var n := Field(body, 0, 2);
      if |body| < 10 + n then Bad(TopicTooLong)
      else if !ValidUtf8(body[2..2 + n]) then Bad(TopicNotUtf8)
      else ParsePayload(body, n, body[2..2 + n])
  }

  /** The part of a produce body behind its topic of n bytes. */
  function ParsePayload(body: Data, n: nat, topic: Data): Parsed
    requires |body| >= 10 + n
  {
    var size := Field4(body, 6 + n);
    if |body| < 10 + n + size then Bad(PayloadTooLong)
    else Good(Produce(topic, Field4(body, 2 + n), body[10 + n..10 + n + size]))
  }

  function ParseFetch(body: Data): Parsed {
    if |body| < 18 then Bad(BodyTooShort) else
      var n := Field(body, 0, 2);
      if |body| < 18 + n then Bad(TopicTooLong)
      else if !ValidUtf8(body[2..2 + n]) then Bad(TopicNotUtf8)
      else Good(Fetch(body[2..2 + n], Field4(body, 2 + n), Field8(body, 6 + n), Field4(body, 14 + n)))
  }

  function ParseReplicaFetch(body: Data): Parsed {
    if |body| < 22 then Bad(BodyTooShort) else
      var n := Field(body, 4, 2);
      if |body| < 22 + n then Bad(TopicTooLong)
      else if !ValidUtf8(body[6..6 + n]) then Bad(TopicNotUtf8)
      else Good(ReplicaFetch(Field4(body, 0), body[6..6 + n], Field4(body, 6 + n), Field8(body, 10 + n), Field4(body, 18 + n)))
  }

  function Parse(command: byte, body: Data): Parsed {
    match command
    case 1 => ParseProduce(body)
    case 2 => ParseFetch(body)
    case 3 => ParseReplicaFetch(body)
    case _ => Bad(UnknownCommand)
  }

  /** What the start of a stream holds.  A stream that ends inside a header ends
      the connection quietly; one that ends inside a body is an error. */
  datatype Scanned = Ended | Broken(error: Error) | Framed(command: byte, body: Data, rest: Data)

  function Scan(s: Data): (r: Scanned)
    ensures r.Framed? ==> |r.body| + |r.rest| + 7 == |s|
  {
    if |s| < 7 then Ended
    else if s[0] != 0xAE || s[1] != 0x01 then Broken(BadMagic)
    else
      var n := Field4(s, 3);
      if |s| - 7 < n then Broken(CutOff) else Framed(s[2], s[7..7 + n], s[7 + n..])
  }

  datatype Decoded = Decoded(requests: seq<Request>, error: Option<Error>)

  /** The requests a connection gets through before it ends or fails. */
  function Decode(s: Data): Decoded
    decreases |s|
  {
    match Scan(s)
    case Ended => Decoded([], None)
    case Broken(e) => Decoded([], Some(e))
    case Framed(command, body, rest) =>
      match Parse(command, body)
      case Bad(e) => Decoded([], Some(e))
      case Good(r) =>
        var d := Decode(rest);
        Decoded([r] + d.requests, d.error)
  }

  // ---- what decoding gives back ----

  lemma Assoc(a: Data, b: Data, c: Data)
    ensures a + b + c == a + (b + c)
  {
  }

  lemma Regroup(a: Data, b: Data, c: Data, d: Data)
    ensures a + b + c + d == a + (b + c + d)
  {
  }

  lemma SliceIs(a: Data, m: Data, b: Data)
    ensures (a + m + b)[|a|..|a| + |m|] == m
  {
  }

  /** Cutting a sequence of five or six pieces apart again. */
  lemma Pieces(a: Data, b: Data, c: Data, d: Data, e: Data)
    ensures
      var s := a + b + c + d + e;
      var j := |a| + |b|;
      var k := j + |c|;
      && |s| == k + |d| + |e|
      && s[..|a|] == a && s[|a|..j] == b && s[j..k] == c && s[k..k + |d|] == d && s[k + |d|..k + |d| + |e|] == e
  {
  }

  lemma FieldIs(s: Data, at: nat, w: nat, n: nat)
    requires at + w <= |s| && Get(s[at..at + w]) == n
    ensures Field(s, at, w) == n
  {
  }

  lemma PayloadIs(s: Data, n: nat, topic: Data, partition: u32, payload: Data)
    requires |s| >= 10 + n + |payload|
    requires Get(s[2 + n..6 + n]) == partition && Get(s[6 + n..10 + n]) == |payload|
    requires s[10 + n..10 + n + |payload|] == payload
    ensures ParsePayload(s, n, topic) == Good(Produce(topic, partition, payload))
  {
    FieldIs(s, 2 + n, 4, partition);
    FieldIs(s, 6 + n, 4, |payload|);
  }

  lemma TopicIs(s: Data, n: nat, topic: Data)
    requires |s| >= 10 + n && Get(s[0..2]) == n && s[2..2 + n] == topic && ValidUtf8(topic)
    ensures ParseProduce(s) == ParsePayload(s, n, topic)
  {
    FieldIs(s, 0, 2, n);
  }

  lemma ProduceIs(s: Data, topic: Data, partition: u32, payload: Data)
    requires |s| >= 10 + |topic| + |payload| && ValidUtf8(topic)
    requires Get(s[0..2]) == |topic| && s[2..2 + |topic|] == topic
    requires Get(s[2 + |topic|..6 + |topic|]) == partition && Get(s[6 + |topic|..10 + |topic|]) == |payload|
    requires s[10 + |topic|..10 + |topic| + |payload|] == payload
    ensures ParseProduce(s) == Good(Produce(topic, partition, payload))
  {
    TopicIs(s, |topic|, topic);
    PayloadIs(s, |topic|, topic, partition, payload);
  }

  lemma FetchIs(s: Data, topic: Data, partition: u32, offset: u64, max: u32)
    requires |s| >= 18 + |topic| && ValidUtf8(topic)
    requires Get(s[0..2]) == |topic| && s[2..2 + |topic|] == topic
    requires Get(s[2 + |topic|..6 + |topic|]) == partition && Get(s[6 + |topic|..14 + |topic|]) == offset
    requires Get(s[14 + |topic|..18 + |topic|]) == max
    ensures ParseFetch(s) == Good(Fetch(topic, partition, offset, max))
  {
    var n := |topic|;
    FieldIs(s, 0, 2, n);
    FieldIs(s, 2 + n, 4, partition);
    FieldIs(s, 6 + n, 8, offset);
    FieldIs(s, 14 + n, 4, max);
  }

  lemma Shifted(z: Data, body: Data, i: nat, j: nat)
    requires |z| == 4 && i <= j <= |body|
    ensures (z + body)[0..4] == z && (z + body)[4 + i..4 + j] == body[i..j]
  {
  }

  /** The follower's body is its id in front of a consumer's body. */
  lemma ReplicaFetchIs(z: Data, body: Data, replica: u32)
    requires |z| == 4 && Get(z) == replica && ParseFetch(body).Good?
    ensures
      var r := ParseFetch(body).request;
      ParseReplicaFetch(z + body) == Good(ReplicaFetch(replica, r.topic, r.partition, r.offset, r.max))
  {
    var n := Field(body, 0, 2);
    Shifted(z, body, 0, 2);
    Shifted(z, body, 2, 2 + n);
    Shifted(z, body, 2 + n, 6 + n);
    Shifted(z, body, 6 + n, 14 + n);
    Shifted(z, body, 14 + n, 18 + n);
  }

  lemma Padded(a: Data, b: Data, c: Data, d: Data, e: Data, x: Data)
    ensures a + b + c + d + e + x == a + b + c + d + (e + x)
    ensures (e + x)[0..|e|] == e
  {
  }

  lemma InnerSlice(s: Data, i: nat, e: Data, x: Data)
    requires i + |e| + |x| <= |s| && s[i..i + |e| + |x|] == e + x
    ensures s[i..i + |e|] == e
  {
    assert s[i..i + |e|] == s[i..i + |e| + |x|][..|e|];
  }

  lemma ProduceBack(topic: Data, partition: u32, payload: Data, x: Data)
    requires Sendable(Produce(topic, partition, payload))
    ensures ParseProduce(Body(Produce(topic, partition, payload)) + x) == Good(Produce(topic, partition, payload))
  {
    Widths();
    GetPutFits(|topic|, 2);
    GetPutFits(partition, 4);
    GetPutFits(|payload|, 4);
    var s := Body(Produce(topic, partition, payload)) + x;
    Padded(Put(|topic|, 2), topic, Put(partition, 4), Put(|payload|, 4), payload, x);
    Pieces(Put(|topic|, 2), topic, Put(partition, 4), Put(|payload|, 4), payload + x);
    InnerSlice(s, 10 + |topic|, payload, x);
    ProduceIs(s, topic, partition, payload);
  }

  lemma FetchBack(topic: Data, partition: u32, offset: u64, max: u32, x: Data)
    requires Sendable(Fetch(topic, partition, offset, max))
    ensures ParseFetch(Body(Fetch(topic, partition, offset, max)) + x) == Good(Fetch(topic, partition, offset, max))
  {
    Widths();
    GetPutFits(|topic|, 2);
    GetPutFits(partition, 4);
    GetPutFits(offset, 8);
    GetPutFits(max, 4);
    var s := Body(Fetch(topic, partition, offset, max)) + x;
    Padded(Put(|topic|, 2), topic, Put(partition, 4), Put(offset, 8), Put(max, 4), x);
    Pieces(Put(|topic|, 2), topic, Put(partition, 4), Put(offset, 8), Put(max, 4) + x);
    InnerSlice(s, 14 + |topic|, Put(max, 4), x);
    FetchIs(s, topic, partition, offset, max);
  }

  lemma ReplicaFetchBack(replica: u32, topic: Data, partition: u32, offset: u64, max: u32, x: Data)
    requires Sendable(ReplicaFetch(replica, topic, partition, offset, max))
    ensures ParseReplicaFetch(Body(ReplicaFetch(replica, topic, partition, offset, max)) + x)
         == Good(ReplicaFetch(replica, topic, partition, offset, max))
  {
    Widths();
    GetPutFits(replica, 4);
    FetchBack(topic, partition, offset, max, x);
    Nest([], Put(replica, 4), Put(|topic|, 2), topic, Put(partition, 4), Put(offset, 8), Put(max, 4));
    Assoc(Put(replica, 4), Body(Fetch(topic, partition, offset, max)), x);
    ReplicaFetchIs(Put(replica, 4), Body(Fetch(topic, partition, offset, max)) + x, replica);
  }

  /** A request is read from its body, whatever bytes follow. */
  lemma PaddedBack(r: Request, x: Data)
    requires Sendable(r)
    ensures Parse(Command(r), Body(r) + x) == Good(r)
  {
    match r
    case Produce(t, p, d) => ProduceBack(t, p, d, x);
    case Fetch(t, p, k, m) => FetchBack(t, p, k, m, x);
    case ReplicaFetch(f, t, p, k, m) => ReplicaFetchBack(f, t, p, k, m, x);
  }

  lemma BodyBack(r: Request)
    requires Sendable(r)
    ensures Parse(Command(r), Body(r)) == Good(r)
  {
    PaddedBack(r, []);
    Padding(Body(r));
  }

  lemma ScanIs(command: byte, size: Data, body: Data, rest: Data)
    requires |size| == 4 && Get(size) == |body|
    ensures Scan(MAGIC + [command] + size + body + rest) == Framed(command, body, rest)
  {
    var s := MAGIC + [command] + size + body + rest;
    Pieces(MAGIC, [command], size, body, rest);
    assert s[0] == s[..2][0] && s[1] == s[..2][1] && s[2] == s[2..3][0];
    assert s[7 + |body|..] == rest;
  }

  /** Framing is self-delimiting: the scan stops exactly where the frame ends. */
  lemma FrameBack(r: Request, rest: Data)
    requires |Body(r)| < U32
    ensures Scan(Frame(r) + rest) == Framed(Command(r), Body(r), rest)
  {
    Widths();
    GetPutFits(|Body(r)|, 4);
    ScanIs(Command(r), Put(|Body(r)|, 4), Body(r), rest);
  }

  lemma FirstFrame(r: Request, rest: Data)
    requires Sendable(r)
    ensures Decode(Frame(r) + rest) == Decoded([r] + Decode(rest).requests, Decode(rest).error)
  {
    FrameBack(r, rest);
    BodyBack(r);
  }

  ghost predicate AllSendable(rs: seq<Request>) {
    forall i :: 0 <= i < |rs| ==> Sendable(rs[i])
  }

  lemma Prepend(r: Request, rs: seq<Request>, tail: Data, d: Decoded)
    requires Sendable(r) && Decode(tail) == Decoded(rs + d.requests, d.error)
    ensures Decode(Frame(r) + tail) == Decoded([r] + rs + d.requests, d.error)
  {
    FirstFrame(r, tail);
    assert [r] + (rs + d.requests) == [r] + rs + d.requests;
  }

  lemma FramesFirst(rs: seq<Request>, rest: Data)
    requires rs != []
    ensures Frames(rs) + rest == Frame(rs[0]) + (Frames(rs[1..]) + rest) && rs == [rs[0]] + rs[1..]
  {
    Assoc(Frame(rs[0]), Frames(rs[1..]), rest);
  }

  /** A request that is sent alone arrives as it was. */
  method Receive(ghost r: Request, sent: Data) returns (r': Request)
    requires Sendable(r) && sent == Frame(r)
    ensures r' == r
  {
    FrameBack(r, []);
    BodyBack(r);
    assert Frame(r) + [] == Frame(r);
    var scanned := Scan(sent);
    r' := Parse(scanned.command, scanned.body).request;
  }

  /** A stream of encoded requests followed by anything decodes to those requests
      followed by what the rest decodes to. */
  lemma {:induction false} StreamBack(rs: seq<Request>, rest: Data)
    requires AllSendable(rs)
    ensures Decode(Frames(rs) + rest) == Decoded(rs + Decode(rest).requests, Decode(rest).error)
  {
    if rs == [] {
      assert Frames(rs) + rest == rest;
    } else {
      FramesFirst(rs, rest);
      StreamBack(rs[1..], rest);
      Prepend(rs[0], rs[1..], Frames(rs[1..]) + rest, Decode(rest));
    }
  }

  lemma ParsedSendable(command: byte, body: Data)
    requires |body| < U32 && Parse(command, body).Good?
    ensures
      var r := Parse(command, body).request;
      Sendable(r) && Command(r) == command && |Body(r)| <= |body|
  {
    Widths();
  }

  /** Whatever bytes arrive, every request that gets through is one that could
      have been sent. */
  lemma {:induction false} DecodedSendable(s: Data)
    ensures AllSendable(Decode(s).requests)
    decreases |s|
  {
    var f := Scan(s);
    if f.Framed? && Parse(f.command, f.body).Good? {
      ParsedSendable(f.command, f.body);
      DecodedSendable(f.rest);
    }
  }

  /** Decoding the concatenation of encoded requests returns exactly those
      requests if and only if each is sendable. */
  lemma StreamRoundTrip(rs: seq<Request>)
    ensures Decode(Frames(rs)) == Decoded(rs, None) <==> AllSendable(rs)
  {
    if AllSendable(rs) {
      StreamBack(rs, []);
      assert Frames(rs) + [] == Frames(rs) && rs + [] == rs;
    } else {
      DecodedSendable(Frames(rs));
    }
  }

  // ---- decoding, then encoding again ----

  lemma Rejoined(s: Data, i: nat, j: nat, k: nat, l: nat, m: nat)
    requires i <= j <= k <= l <= m <= |s|
    ensures s[0..i] + s[i..j] + s[j..k] + s[k..l] + s[l..m] == s[..m]
  {
  }

  lemma ProduceBytes(body: Data)
    requires ParseProduce(body).Good?
    ensures Body(ParseProduce(body).request) <= body
  {
    var n := Field(body, 0, 2);
    var size := Field4(body, 6 + n);
    PutGet(body[0..2]);
    PutGet(body[2 + n..6 + n]);
    PutGet(body[6 + n..10 + n]);
    Rejoined(body, 2, 2 + n, 6 + n, 10 + n, 10 + n + size);
  }

  lemma FetchBytes(body: Data)
    requires ParseFetch(body).Good?
    ensures Body(ParseFetch(body).request) <= body
  {
    var n := Field(body, 0, 2);
    PutGet(body[0..2]);
    PutGet(body[2 + n..6 + n]);
    PutGet(body[6 + n..14 + n]);
    PutGet(body[14 + n..18 + n]);
    Rejoined(body, 2, 2 + n, 6 + n, 14 + n, 18 + n);
  }

  lemma TailParses(body: Data)
    requires ParseReplicaFetch(body).Good?
    ensures ParseFetch(body[4..]).Good?
    ensures
      var r, f := ParseReplicaFetch(body).request, ParseFetch(body[4..]).request;
      && r.replica == Field4(body, 0) && f.topic == r.topic && f.partition == r.partition
      && f.offset == r.offset && f.max == r.max
  {
    var n := Field(body, 4, 2);
    assert body == body[..4] + body[4..];
    Shifted(body[..4], body[4..], 0, 2);
    Shifted(body[..4], body[4..], 2, 2 + n);
    Shifted(body[..4], body[4..], 2 + n, 6 + n);
    Shifted(body[..4], body[4..], 6 + n, 14 + n);
    Shifted(body[..4], body[4..], 14 + n, 18 + n);
  }

  lemma ReplicaFetchBytes(body: Data)
    requires ParseReplicaFetch(body).Good?
    ensures Body(ParseReplicaFetch(body).request) <= body
  {
    TailParses(body);
    FetchBytes(body[4..]);
    PutGet(body[0..4]);
    var r := ParseReplicaFetch(body).request;
    var tail := Body(Fetch(r.topic, r.partition, r.offset, r.max));
    Nest([], Put(r.replica, 4), Put(|r.topic|, 2), r.topic, Put(r.partition, 4), Put(r.offset, 8), Put(r.max, 4));
    Behind(body, 4, tail);
  }

  lemma Behind(s: Data, i: nat, tail: Data)
    requires i <= |s| && tail <= s[i..]
    ensures s[0..i] + tail <= s
  {
    assert s == s[0..i] + s[i..];
  }

  /** A request that was read was at the front of its body. */
  lemma ParsedBytes(command: byte, body: Data)
    requires Parse(command, body).Good?
    ensures Body(Parse(command, body).request) <= body
  {
    if command == 1 {
      ProduceBytes(body);
    } else if command == 2 {
      FetchBytes(body);
    } else {
      ReplicaFetchBytes(body);
    }
  }

  lemma Remainder(a: Data, s: Data) returns (x: Data)
    requires a <= s
    ensures s == a + x
  {
    x := s[|a|..];
  }

  lemma ParsedIs(command: byte, body: Data, r: Request)
    requires |body| < U32 && Parse(command, body) == Good(r)
    ensures Command(r) == command && Sendable(r) && Body(r) <= body
  {
    ParsedSendable(command, body);
    ParsedBytes(command, body);
  }

  lemma FrontParses(body: Data, r: Request)
    requires Sendable(r) && Body(r) <= body
    ensures Parse(Command(r), body) == Good(r)
  {
    var x := Remainder(Body(r), body);
    PaddedBack(r, x);
  }

  /** The parser in full: a body of a command is read as r exactly if r can be sent, is
      of that command, and its encoding starts the body. */
  lemma ParsesIff(command: byte, body: Data, r: Request)
    requires |body| < U32
    ensures Parse(command, body) == Good(r) <==> Command(r) == command && Sendable(r) && Body(r) <= body
  {
    if Parse(command, body) == Good(r) {
      ParsedIs(command, body, r);
    } else if Command(r) == command && Sendable(r) && Body(r) <= body {
      FrontParses(body, r);
    }
  }

  lemma ScannedBytes(s: Data)
    requires Scan(s).Framed?
    ensures
      var f := Scan(s);
      |f.body| < U32 && s == MAGIC + [f.command] + Put(|f.body|, 4) + f.body + f.rest
  {
    var n: nat := Field4(s, 3);
    PutGet(s[3..7]);
    assert s[0..2] == MAGIC && s[2..3] == [s[2]];
    Rejoined(s, 2, 3, 7, 7 + n, |s|);
    assert s[..|s|] == s && s[7 + n..|s|] == s[7 + n..];
  }

  lemma SameFrame(command: byte, a: Data, b: Data, rest: Data)
    requires a <= b && |b| < U32
    ensures MAGIC + [command] + Put(|a|, 4) + a + rest == MAGIC + [command] + Put(|b|, 4) + b + rest <==> |a| == |b|
  {
    if |a| == |b| {
      assert a == b;
    }
  }

  /** A frame that was read is the encoding of its request if and only if its body
      has nothing after the last field; any longer body is read as well. */
  lemma ReencodesIff(s: Data)
    requires Scan(s).Framed? && Parse(Scan(s).command, Scan(s).body).Good?
    ensures
      var f := Scan(s);
      var r := Parse(f.command, f.body).request;
      Frame(r) + f.rest == s <==> |Body(r)| == |f.body|
  {
    var f := Scan(s);
    var r := Parse(f.command, f.body).request;
    ScannedBytes(s);
    ParsedSendable(f.command, f.body);
    ParsedBytes(f.command, f.body);
    SameFrame(f.command, Body(r), f.body, f.rest);
  }

  lemma ScanMore(s: Data, more: Data)
    requires Scan(s).Framed?
    ensures Scan(s + more) == Scan(s).(rest := Scan(s).rest + more)
  {
    assert (s + more)[3..7] == s[3..7];
    var n := |Scan(s).body|;
    assert (s + more)[7..7 + n] == s[7..7 + n] && (s + more)[7 + n..] == s[7 + n..] + more;
  }

  /** However the stream is cut into pieces, a decoded request is never taken back. */
  lemma {:induction false} MoreBytes(s: Data, more: Data)
    ensures Decode(s).requests <= Decode(s + more).requests
    decreases |s|
  {
    var f := Scan(s);
    if f.Framed? && Parse(f.command, f.body).Good? {
      ScanMore(s, more);
      MoreBytes(f.rest, more);
    }
  }

  lemma CutHeader(command: byte, size: Data, body: Data, n: nat)
    requires |size| == 4 && Get(size) == |body| && 7 <= n < 7 + |body|
    ensures Scan((MAGIC + [command] + size + body)[..n]) == Broken(CutOff)
  {
    var whole := MAGIC + [command] + size + body;
    var s := whole[..n];
    assert s[0] == 0xAE && s[1] == 0x01;
    assert s[3..7] == size;
  }

  /** A stream that is cut off inside a frame delivers everything before it, and then
      ends quietly inside a header and with an error inside a body. */
  lemma CutStream(rs: seq<Request>, r: Request, n: nat)
    requires AllSendable(rs) && |Body(r)| < U32 && n < |Frame(r)|
    ensures Decode(Frames(rs) + Frame(r)[..n]) == Decoded(rs, if n < 7 then None else Some(CutOff))
  {
    Widths();
    StreamBack(rs, Frame(r)[..n]);
    if n >= 7 {
      GetPutFits(|Body(r)|, 4);
      CutHeader(Command(r), Put(|Body(r)|, 4), Body(r), n);
    }
    assert rs + [] == rs;
  }

  /** The first frame that cannot be read ends the connection with its error: what is
      before it is delivered, and nothing behind it is looked at. */
  lemma StopsAt(rs: seq<Request>, s: Data, e: Error)
    requires AllSendable(rs)
    requires Scan(s) == Broken(e) || (Scan(s).Framed? && Parse(Scan(s).command, Scan(s).body) == Bad(e))
    ensures Decode(Frames(rs) + s) == Decoded(rs, Some(e))
  {
    StreamBack(rs, s);
    assert rs + [] == rs;
  }

  /** What ends a connection with an error at once. */
  lemma Rejections(s: Data, command: byte, body: Data)
    ensures Scan(s) == Ended <==> |s| < 7
    ensures Scan(s) == Broken(BadMagic) <==> |s| >= 7 && !(s[0] == 0xAE && s[1] == 0x01)
    ensures Parse(command, body) == Bad(UnknownCommand) <==> command < 1 || command > 3
  {
  }

  /** Different lists of sendable requests never look alike on the wire. */
  lemma FramesInjective(a: seq<Request>, b: seq<Request>)
    requires AllSendable(a) && AllSendable(b)
    requires Frames(a) == Frames(b)
    ensures a == b
  {
    StreamRoundTrip(a);
    StreamRoundTrip(b);
  }

  // ---- replies ----

  datatype Reply = Stored(offset: nat) | Message(data: Data) | NoData

  function ReplyBytes(r: Reply): Data {
    match r
    case Stored(offset) => MAGIC + [0] + Put(offset, 8)
    case Message(data) => MAGIC + [2] + Put(|data|, 4) + data
    case NoData => MAGIC + [1]
  }

  /** Where everything is in a frame and in a reply; numbers are most significant byte
      first. */
  lemma FrameLayout(r: Request)
    ensures
      var s, n := Frame(r), |r.topic|;
      && |s| == 7 + |Body(r)| && s[0] == 0xAE && s[1] == 0x01 && s[3..7] == Put(|s| - 7, 4)
      && match r
         case Produce(topic, partition, payload) =>
           && |s| == 17 + n + |payload| && s[2] == 1 && s[7..9] == Put(n, 2) && s[9..9 + n] == topic
           && s[9 + n..13 + n] == Put(partition, 4) && s[13 + n..17 + n] == Put(|payload|, 4) && s[17 + n..] == payload
         case Fetch(topic, partition, offset, max) =>
           && |s| == 25 + n && s[2] == 2 && s[7..9] == Put(n, 2) && s[9..9 + n] == topic
           && s[9 + n..13 + n] == Put(partition, 4) && s[13 + n..21 + n] == Put(offset, 8) && s[21 + n..] == Put(max, 4)
         case ReplicaFetch(replica, topic, partition, offset, max) =>
           && |s| == 29 + n && s[2] == 3 && s[7..11] == Put(replica, 4) && s[11..13] == Put(n, 2) && s[13..13 + n] == topic
           && s[13 + n..17 + n] == Put(partition, 4) && s[17 + n..25 + n] == Put(offset, 8) && s[25 + n..] == Put(max, 4)
  {
    match r
    case Produce(topic, partition, payload) => ProduceLayout(topic, partition, payload);
    case Fetch(topic, partition, offset, max) => FetchLayout(topic, partition, offset, max);
    case ReplicaFetch(replica, topic, partition, offset, max) => ReplicaFetchLayout(replica, topic, partition, offset, max);
  }

  /** The seven bytes in front of a body. */
  lemma Header(command: byte, size: Data, body: Data)
    requires |size| == 4
    ensures
      var s := MAGIC + [command] + size + body;
      && |s| == 7 + |body| && s[0] == 0xAE && s[1] == 0x01 && s[2] == command && s[3..7] == size && s[7..] == body
  {
  }

  lemma Behead(s: Data, body: Data, i: nat, j: nat)
    requires |s| == 7 + |body| && s[7..] == body && i <= j <= |body|
    ensures s[7 + i..7 + j] == body[i..j]
  {
    assert s[7 + i..7 + j] == s[7..][i..j];
  }

  lemma ProduceLayout(topic: Data, partition: u32, payload: Data)
    ensures
      var s, n := Frame(Produce(topic, partition, payload)), |topic|;
      && |s| == 17 + n + |payload| && s[0] == 0xAE && s[1] == 0x01 && s[2] == 1 && s[3..7] == Put(|s| - 7, 4)
      && s[7..9] == Put(n, 2) && s[9..9 + n] == topic
      && s[9 + n..13 + n] == Put(partition, 4) && s[13 + n..17 + n] == Put(|payload|, 4) && s[17 + n..] == payload
  {
    var body, n := Body(Produce(topic, partition, payload)), |topic|;
    var s := Frame(Produce(topic, partition, payload));
    Pieces(Put(n, 2), topic, Put(partition, 4), Put(|payload|, 4), payload);
    Header(1, Put(|body|, 4), body);
    Behead(s, body, 0, 2);
    Behead(s, body, 2, 2 + n);
    Behead(s, body, 2 + n, 6 + n);
    Behead(s, body, 6 + n, 10 + n);
    Behead(s, body, 10 + n, |body|);
  }

  lemma FetchLayout(topic: Data, partition: u32, offset: u64, max: u32)
    ensures
      var s, n := Frame(Fetch(topic, partition, offset, max)), |topic|;
      && |s| == 25 + n && s[0] == 0xAE && s[1] == 0x01 && s[2] == 2 && s[3..7] == Put(|s| - 7, 4)
      && s[7..9] == Put(n, 2) && s[9..9 + n] == topic
      && s[9 + n..13 + n] == Put(partition, 4) && s[13 + n..21 + n] == Put(offset, 8) && s[21 + n..] == Put(max, 4)
  {
    var body, n := Body(Fetch(topic, partition, offset, max)), |topic|;
    var s := Frame(Fetch(topic, partition, offset, max));
    Pieces(Put(n, 2), topic, Put(partition, 4), Put(offset, 8), Put(max, 4));
    Header(2, Put(|body|, 4), body);
    Behead(s, body, 0, 2);
    Behead(s, body, 2, 2 + n);
    Behead(s, body, 2 + n, 6 + n);
    Behead(s, body, 6 + n, 14 + n);
    Behead(s, body, 14 + n, |body|);
  }

  lemma ReplicaFetchLayout(replica: u32, topic: Data, partition: u32, offset: u64, max: u32)
    ensures
      var s, n := Frame(ReplicaFetch(replica, topic, partition, offset, max)), |topic|;
      && |s| == 29 + n && s[0] == 0xAE && s[1] == 0x01 && s[2] == 3 && s[3..7] == Put(|s| - 7, 4)
      && s[7..11] == Put(replica, 4) && s[11..13] == Put(n, 2) && s[13..13 + n] == topic
      && s[13 + n..17 + n] == Put(partition, 4) && s[17 + n..25 + n] == Put(offset, 8) && s[25 + n..] == Put(max, 4)
  {
    var body, n := Body(ReplicaFetch(replica, topic, partition, offset, max)), |topic|;
    var s := Frame(ReplicaFetch(replica, topic, partition, offset, max));
    Pieces(Put(replica, 4) + Put(n, 2), topic, Put(partition, 4), Put(offset, 8), Put(max, 4));
    assert (Put(replica, 4) + Put(n, 2))[0..4] == Put(replica, 4) && (Put(replica, 4) + Put(n, 2))[4..6] == Put(n, 2);
    assert body[0..4] == body[..6][0..4] && body[4..6] == body[..6][4..6];
    Header(3, Put(|body|, 4), body);
    Behead(s, body, 0, 4);
    Behead(s, body, 4, 6);
    Behead(s, body, 6, 6 + n);
    Behead(s, body, 6 + n, 10 + n);
    Behead(s, body, 10 + n, 18 + n);
    Behead(s, body, 18 + n, |body|);
  }

  lemma ReplyLayout(r: Reply)
    ensures
      var s := ReplyBytes(r);
      && |s| >= 3 && s[0] == 0xAE && s[1] == 0x01
      && match r
         case Stored(offset) => |s| == 11 && s[2] == 0 && s[3..] == Put(offset, 8)
         case Message(data) => |s| == 7 + |data| && s[2] == 2 && s[3..7] == Put(|data|, 4) && s[7..] == data
         case NoData => |s| == 3 && s[2] == 1
  {
  }

  function Stream(replies: seq<Reply>): Data {
    if replies == [] then [] else ReplyBytes(replies[0]) + Stream(replies[1..])
  }

  lemma {:induction false} StreamSnoc(replies: seq<Reply>, r: Reply)
    ensures Stream(replies + [r]) == Stream(replies) + ReplyBytes(r)
  {
    if replies == [] {
      assert Stream([r]) == ReplyBytes(r) + Stream([]);
      Padding(ReplyBytes(r));
    } else {
      StreamSnoc(replies[1..], r);
      assert (replies + [r])[1..] == replies[1..] + [r];
      Assoc(ReplyBytes(replies[0]), Stream(replies[1..]), ReplyBytes(r));
    }
  }

  lemma Padding(d: Data)
    ensures [] + d == d + [] == d
  {
  }

  datatype Received<T> = Got(value: T, rest: Data) | Failed

  /** The client's reading of a produce reply. */
  function ReadStored(s: Data): Received<u64> {
    if |s| < 11 || s[0] != 0xAE || s[1] != 0x01 || s[2] != 0 then Failed
    else Got(Field8(s, 3), s[11..])
  }

  function ReadMessage(s: Data): Received<Option<Data>> {
    if |s| < 4 then Failed else
      var n := Field4(s, 0);
      if |s| < 4 + n then Failed else Got(Some(s[4..4 + n]), s[4 + n..])
  }

  /** The client's reading of a fetch reply; other statuses are errors. */
  function ReadFetched(s: Data): Received<Option<Data>> {
    if |s| < 3 || s[0] != 0xAE || s[1] != 0x01 then Failed
    else if s[2] == 1 then Got(None, s[3..])
    else if s[2] != 2 then Failed
    else ReadMessage(s[3..])
  }

  /** The follower's reading of a fetch reply; it appends only on status 2. */
  function ReadReplicated(s: Data): Received<Option<Data>> {
    if |s| < 3 || s[0] != 0xAE || s[1] != 0x01 then Failed
    else if s[2] == 2 then ReadMessage(s[3..])
    else Got(None, s[3..])
  }

  lemma StoredIs(value: Data, rest: Data, offset: u64)
    requires |value| == 8 && Get(value) == offset
    ensures ReadStored(MAGIC + [0] + value + rest) == Got(offset, rest)
  {
    var s := MAGIC + [0] + value + rest;
    assert s[3..11] == value && s[11..] == rest;
  }

  lemma StatusIs(t: Data)
    ensures ReadFetched(MAGIC + [1] + t) == ReadReplicated(MAGIC + [1] + t) == Got(None, t)
    ensures ReadFetched(MAGIC + [2] + t) == ReadReplicated(MAGIC + [2] + t) == ReadMessage(t)
  {
    assert (MAGIC + [1] + t)[3..] == t && (MAGIC + [2] + t)[3..] == t;
  }

  lemma MessageIs(size: Data, data: Data, rest: Data)
    requires |size| == 4 && Get(size) == |data|
    ensures ReadMessage(size + data + rest) == Got(Some(data), rest)
  {
    var s := size + data + rest;
    assert s[0..4] == size && s[4 + |data|..] == rest;
    SliceIs(size, data, rest);
  }

  lemma MessageBack(data: Data, rest: Data)
    requires |data| < U32
    ensures ReadMessage(Put(|data|, 4) + data + rest) == Got(Some(data), rest)
  {
    Widths();
    GetPutFits(|data|, 4);
    MessageIs(Put(|data|, 4), data, rest);
  }

  /** Each side reads back the reply the broker wrote, and not a byte more. */
  lemma ReplyBack(r: Reply, rest: Data)
    requires match r case Stored(offset) => offset < U64 case Message(data) => |data| < U32 case NoData => true
    ensures r.Stored? ==> ReadStored(ReplyBytes(r) + rest) == Got(r.offset, rest)
    ensures r.Message? ==> ReadFetched(ReplyBytes(r) + rest) == Got(Some(r.data), rest)
    ensures r.NoData? ==> ReadFetched(ReplyBytes(r) + rest) == Got(None, rest)
    ensures !r.Stored? ==> ReadReplicated(ReplyBytes(r) + rest) == ReadFetched(ReplyBytes(r) + rest)
  {
    match r
    case Stored(offset) =>
      Widths();
      GetPutFits(offset, 8);
      StoredIs(Put(offset, 8), rest, offset);
    case Message(data) =>
      MessageBack(data, rest);
      Regroup(MAGIC + [2], Put(|data|, 4), data, rest);
      StatusIs(Put(|data|, 4) + data + rest);
    case NoData =>
      StatusIs(rest);
  }
}
