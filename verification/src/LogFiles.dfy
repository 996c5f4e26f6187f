/**
 What a partition's files mean.  The simple thing is a growing sequence of
 payloads, `Payloads(chain)`, cut into a chain of segments.  `Stored` says that a
 directory holds exactly a chain, byte for byte, and the lemmas follow each file
 operation the broker performs.
 */
module LogFiles {
  import opened Bytes
  import opened FileNames

  datatype File = File(data: Data, modified: int)
  type Dir = map<FileId, File>

  /** Contents of a segment's log file. */
  function Flat(msgs: seq<Data>): Data {
    if msgs == [] then [] else Flat(msgs[..|msgs| - 1]) + msgs[|msgs| - 1]
  }

  /** Contents of its index: per message, offset and start position. */
  function Index(base: nat, msgs: seq<Data>): (s: Data)
    ensures |s| == 16 * |msgs|
  {
    if msgs == [] then [] else
      var init := msgs[..|msgs| - 1];
      Index(base, init) + (Put(base + |init|, 8) + Put(|Flat(init)|, 8))
  }

  lemma FlatSnoc(base: nat, msgs: seq<Data>, d: Data)
    ensures Flat(msgs + [d]) == Flat(msgs) + d
    ensures Index(base, msgs + [d]) == Index(base, msgs) + (Put(base + |msgs|, 8) + Put(|Flat(msgs)|, 8))
  {
    assert (msgs + [d])[..|msgs|] == msgs;
  }

  /** Message i occupies the bytes between the lengths of its two prefixes. */
  lemma {:induction false} FlatSlice(msgs: seq<Data>, i: nat)
    requires i < |msgs|
    ensures |Flat(msgs[..i])| + |msgs[i]| == |Flat(msgs[..i + 1])| <= |Flat(msgs)|
    ensures Flat(msgs)[|Flat(msgs[..i])|..|Flat(msgs[..i + 1])|] == msgs[i]
  {
    var n := |msgs| - 1;
    var init := msgs[..n];
    assert msgs[..i + 1][..i] == msgs[..i];
    if i < n {
      FlatSlice(init, i);
      assert init[..i] == msgs[..i] && init[..i + 1] == msgs[..i + 1];
    } else {
      assert msgs[..i + 1] == msgs;
    }
  }

  lemma {:induction false} IndexEntry(base: nat, msgs: seq<Data>, i: nat)
    requires i < |msgs|
    ensures Index(base, msgs)[16 * i..16 * i + 8] == Put(base + i, 8)
    ensures Index(base, msgs)[16 * i + 8..16 * i + 16] == Put(|Flat(msgs[..i])|, 8)
  {
    var n := |msgs| - 1;
    var init := msgs[..n];
    var whole, part := Index(base, msgs), Index(base, init);
    assert whole[..16 * n] == part;
    if i < n {
      IndexEntry(base, init, i);
      assert init[..i] == msgs[..i];
      assert whole[16 * i..16 * i + 8] == part[16 * i..16 * i + 8];
      assert whole[16 * i + 8..16 * i + 16] == part[16 * i + 8..16 * i + 16];
    }
  }

  datatype Segment = Segment(base: nat, msgs: seq<Data>)

  /** Segments in offset order, newest outermost. */
  datatype Chain = Root | Link(prev: Chain, seg: Segment)

  function Count(c: Chain): nat {
    if c.Root? then 0 else Count(c.prev) + 1
  }

  /** The payloads of a chain in offset order. */
  function Payloads(c: Chain): seq<Data> {
    if c.Root? then [] else Payloads(c.prev) + c.seg.msgs
  }

  function Bases(c: Chain): (r: seq<nat>)
    ensures |r| == Count(c)
  {
    if c.Root? then [] else Bases(c.prev) + [c.seg.base]
  }

  /** Segments cover contiguous offset ranges from 0; only the newest may be empty. */
  ghost predicate Contiguous(c: Chain) {
    c.Link? ==>
      && Contiguous(c.prev)
      && c.seg.base == |Payloads(c.prev)|
      && (c.prev.Link? ==> c.prev.seg.msgs != [])
  }

  /** `c` is what is left of `d` after deleting oldest segments. */
  ghost predicate Suffix(c: Chain, d: Chain) {
    c.Link? ==> d.Link? && c.seg == d.seg && Suffix(c.prev, d.prev)
  }

  /** A segment beyond the size limit has all its bytes in its last message. */
  ghost predicate SizeRule(s: Segment, max: nat) {
    |Flat(s.msgs)| > max ==> s.msgs != [] && |Flat(s.msgs)| == |s.msgs[|s.msgs| - 1]|
  }

  ghost predicate SizeRules(c: Chain, max: nat) {
    c.Link? ==> SizeRule(c.seg, max) && SizeRules(c.prev, max)
  }

  /** No segment was closed early: the next segment's first message would have taken
      it past the size limit. */
  ghost predicate Tight(c: Chain, max: nat) {
    c.Link? ==>
      && Tight(c.prev, max)
      && (c.prev.Link? && c.seg.msgs != [] ==>
            0 < |Flat(c.prev.seg.msgs)| && |Flat(c.prev.seg.msgs)| + |c.seg.msgs[0]| > max)
  }

  ghost predicate Holds(dir: Dir, s: Segment) {
    && LogFile(s.base) in dir && dir[LogFile(s.base)].data == Flat(s.msgs)
    && IdxFile(s.base) in dir && dir[IdxFile(s.base)].data == Index(s.base, s.msgs)
    && |Flat(s.msgs)| < U64
  }

  function Remove(dir: Dir, base: nat): Dir {
    dir - {LogFile(base), IdxFile(base)}
  }

  function Write(dir: Dir, base: nat, log: File, idx: File): Dir {
    dir[LogFile(base) := log][IdxFile(base) := idx]
  }

  /** `dir` holds exactly the segments of `c`, byte for byte, with increasing
      u64 base offsets, and no other file. */
  ghost predicate Stored(dir: Dir, c: Chain) {
    if c.Root? then dir == map[] else
      && c.seg.base < U64
      && (c.prev.Link? ==> c.prev.seg.base < c.seg.base)
      && Holds(dir, c.seg)
      && Stored(Remove(dir, c.seg.base), c.prev)
  }

  /** The segments of a partition: all closed ones, the closed ones that are
      still local, and the active one. */
  datatype Parts = Parts(closed: Chain, live: Chain, active: Segment) {
    function All(): Chain {
      Link(closed, active)
    }
    function Local(): Chain {
      Link(live, active)
    }
    function Log(): seq<Data> {
      Payloads(All())
    }
  }

  /** A partition at rest: live and active segments are local, and every closed
      segment has a byte-identical cold copy of log and index. */
  ghost predicate OnDisk(local: Dir, cold: Dir, p: Parts) {
    && Contiguous(p.All()) && |p.Log()| < U64
    && Suffix(p.live, p.closed)
    && Stored(local, p.Local())
    && Stored(cold, p.closed)
  }

  // ---- finding an offset ----

  /** The newest segment based at or below offset k. */
  ghost function Seek(c: Chain, k: nat): Option<Segment> {
    if c.Root? then None
    else if c.seg.base <= k then Some(c.seg)
    else Seek(c.prev, k)
  }

  /** Every offset of the partition is found in the segment `Seek` names. */
  lemma {:induction false} SeekReads(c: Chain, k: nat)
    requires Contiguous(c) && c.Link?
    ensures Seek(c, k).Some?
    ensures
      var s := Seek(c, k).value;
      && s.base <= k && s.base + |s.msgs| <= |Payloads(c)|
      && (k < |Payloads(c)| <==> k - s.base < |s.msgs|)
      && (k < |Payloads(c)| ==> Payloads(c)[k] == s.msgs[k - s.base])
  {
    if c.prev.Link? && c.seg.base > k {
      SeekReads(c.prev, k);
    }
  }

  lemma {:induction false} SeekSuffix(c: Chain, d: Chain, k: nat)
    requires Suffix(c, d) && Seek(c, k).Some?
    ensures Seek(d, k) == Seek(c, k)
  {
    if c.seg.base > k {
      SeekSuffix(c.prev, d.prev, k);
    }
  }

  lemma {:induction false} SeekHolds(dir: Dir, c: Chain, k: nat)
    requires Stored(dir, c) && Seek(c, k).Some?
    ensures Holds(dir, Seek(c, k).value)
  {
    if c.seg.base > k {
      SeekHolds(Remove(dir, c.seg.base), c.prev, k);
    }
  }

  // ---- file operations ----

  /** A base offset above all stored ones has no file yet. */
  lemma {:induction false} FreshName(dir: Dir, c: Chain, b: nat)
    requires Stored(dir, c) && b < U64 && (c.Link? ==> c.seg.base < b)
    ensures LogFile(b) !in dir && IdxFile(b) !in dir
  {
    if c.Link? {
      FreshName(Remove(dir, c.seg.base), c.prev, b);
    }
  }

  lemma RemoveWrite(dir: Dir, b: nat, log: File, idx: File)
    requires b < U64
    ensures Remove(Write(dir, b, log, idx), b) == Remove(dir, b)
    ensures LogFile(b) !in dir && IdxFile(b) !in dir ==> Remove(dir, b) == dir
    ensures LogFile(b) in Write(dir, b, log, idx) && IdxFile(b) in Write(dir, b, log, idx)
    ensures Write(dir, b, log, idx)[LogFile(b)] == log && Write(dir, b, log, idx)[IdxFile(b)] == idx
  {
  }

  /** The two writes of an append, as the broker makes them. */
  function WriteMessage(dir: Dir, base: nat, offset: nat, d: Data, t: int): Dir
    requires LogFile(base) in dir && IdxFile(base) in dir
  {
    var log, idx := dir[LogFile(base)].data, dir[IdxFile(base)].data;
    Write(dir, base, File(log + d, t), File(idx + (Put(offset, 8) + Put(|log|, 8)), t))
  }

  function WithMessage(s: Segment, d: Data): Segment {
    s.(msgs := s.msgs + [d])
  }

  lemma StoreMessage(dir: Dir, c: Chain, s: Segment, d: Data, t: int)
    requires Stored(dir, Link(c, s)) && |Flat(s.msgs)| + |d| < U64
    ensures Stored(WriteMessage(dir, s.base, s.base + |s.msgs|, d, t), Link(c, WithMessage(s, d)))
  {
    var log, idx := dir[LogFile(s.base)].data, dir[IdxFile(s.base)].data;
    RemoveWrite(dir, s.base, File(log + d, t), File(idx + (Put(s.base + |s.msgs|, 8) + Put(|log|, 8)), t));
    FlatSnoc(s.base, s.msgs, d);
  }

  /** Adding a segment's two files to a directory. */
  lemma StoreSegment(dir: Dir, c: Chain, s: Segment, log: File, idx: File)
    requires Stored(dir, c) && s.base < U64 && (c.Link? ==> c.seg.base < s.base)
    requires log.data == Flat(s.msgs) && idx.data == Index(s.base, s.msgs) && |log.data| < U64
    ensures Stored(Write(dir, s.base, log, idx), Link(c, s))
    ensures LogFile(s.base) !in dir && IdxFile(s.base) !in dir
  {
    FreshName(dir, c, s.base);
    RemoveWrite(dir, s.base, log, idx);
  }

  lemma OtherHeld(dir: Dir, s: Segment, b: nat)
    requires Holds(dir, s) && s.base < U64 && b < U64 && s.base != b
    ensures Holds(Remove(dir, b), s)
  {
  }

  function Oldest(c: Chain): Segment
    requires c.Link?
  {
    if c.prev.Root? then c.seg else Oldest(c.prev)
  }

  /** `c` without its oldest segment. */
  function Beheaded(c: Chain): Chain
    requires c.Link?
  {
    if c.prev.Root? then Root else Link(Beheaded(c.prev), c.seg)
  }

  /** Deleting the oldest segment's files. */
  lemma {:induction false} DropOldest(dir: Dir, c: Chain)
    requires c.Link? && Stored(dir, c)
    ensures Stored(Remove(dir, Oldest(c).base), Beheaded(c))
    ensures Oldest(c).base <= c.seg.base < U64
    ensures c.prev.Link? ==> Oldest(c).base < c.seg.base
  {
    if c.prev.Link? {
      var s, b := c.seg, Oldest(c).base;
      DropOldest(Remove(dir, s.base), c.prev);
      OtherHeld(dir, s, b);
      RemoveCommutes(dir, s.base, b);
    }
  }

  lemma RemoveCommutes(dir: Dir, a: nat, b: nat)
    ensures Remove(Remove(dir, a), b) == Remove(Remove(dir, b), a)
  {
  }

  lemma {:induction false} BeheadedSuffix(c: Chain, d: Chain)
    requires c.Link? && Suffix(c, d)
    ensures Suffix(Beheaded(c), d)
  {
    if c.prev.Link? {
      BeheadedSuffix(c.prev, d.prev);
    }
  }
}
