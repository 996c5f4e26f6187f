/**
 The broker's tiered, segmented partition log.  `PartitionLog` follows the
 broker step by step over a file system of two directories; its contracts say
 that it behaves as `Messages(segs)`, a sequence that only grows.
 */
module TieredLog {
  import opened Bytes
  import opened FileNames
  import opened LogFiles
  import opened Search
  import opened Recovery
  import opened Replicas

  datatype LogSegment = LogSegment(base: nat, logPath: FileId, idxPath: FileId)

  function Entry(base: nat): LogSegment {
    LogSegment(base, LogFile(base), IdxFile(base))
  }

  /** `entries` are the in-memory records of the segments of `c`. */
  ghost predicate Records(entries: seq<LogSegment>, c: Chain) {
    && |entries| == Count(c)
    && (c.Link? ==>
          entries[|entries| - 1] == Entry(c.seg.base) && Records(entries[..|entries| - 1], c.prev))
  }

  function EntryBases(entries: seq<LogSegment>): (r: seq<nat>)
    ensures |r| == |entries|
  {
    if entries == [] then [] else EntryBases(entries[..|entries| - 1]) + [entries[|entries| - 1].base]
  }

  lemma {:induction false} RecordsBases(entries: seq<LogSegment>, c: Chain)
    requires Records(entries, c)
    ensures EntryBases(entries) == Bases(c)
  {
    if c.Link? {
      RecordsBases(entries[..|entries| - 1], c.prev);
    }
  }

  lemma {:induction false} RecordsAt(entries: seq<LogSegment>, c: Chain, i: nat)
    requires Records(entries, c) && i < |entries|
    ensures entries[i] == Entry(Bases(c)[i])
  {
    if i < |entries| - 1 {
      RecordsAt(entries[..|entries| - 1], c.prev, i);
    }
  }

  lemma {:induction false} RecordsOldest(entries: seq<LogSegment>, c: Chain)
    requires c.Link? && Records(entries, c)
    ensures entries[0] == Entry(Oldest(c).base) && Records(entries[1..], Beheaded(c))
  {
    if c.prev.Link? {
      var n := |entries| - 1;
      RecordsOldest(entries[..n], c.prev);
      assert entries[1..][..n - 1] == entries[..n][1..];
    }
  }

  /** The binary search over base offsets finds the segment `Seek` names. */
  lemma {:induction false} SearchSeeks(c: Chain, k: nat)
    ensures LastAtMost(Bases(c), k).None? ==> Seek(c, k).None?
    ensures LastAtMost(Bases(c), k).Some? ==>
      Seek(c, k).Some? && Seek(c, k).value.base == Bases(c)[LastAtMost(Bases(c), k).value]
  {
    if c.Link? {
      SearchSeeks(c.prev, k);
      assert Bases(c)[..Count(c) - 1] == Bases(c.prev);
    }
  }

  /** Where a read found its bytes. */
  datatype Extent = Extent(fromCold: bool, path: FileId, position: nat, length: nat)

  // ---- facts about one segment's files ----

  lemma IndexReads(s: Segment, i: nat)
    requires i < |s.msgs| && s.base + |s.msgs| <= U64 && |Flat(s.msgs)| < U64
    ensures EntryOffset(Index(s.base, s.msgs), i) == s.base + i
    ensures EntryPosition(Index(s.base, s.msgs), i) == |Flat(s.msgs[..i])|
  {
    IndexEntry(s.base, s.msgs, i);
    FlatSlice(s.msgs, i);
    Widths();
    GetPutFits(s.base + i, 8);
    GetPutFits(|Flat(s.msgs[..i])|, 8);
  }

  lemma DenseLookup(idx: Data, n: nat, base: nat, k: nat)
    requires |idx| == 16 * n && base <= k
    requires forall i :: 0 <= i < n ==> EntryOffset(idx, i) == base + i
    ensures SortedIndex(idx)
    ensures FirstAtLeast(idx, 0, k) == if k - base < n then Some(k - base) else None
  {
    var r := FirstAtLeast(idx, 0, k);
    if r.Some? && r.value > 0 {
      assert EntryOffset(idx, r.value - 1) < k;
    }
    if k - base < n {
      assert EntryOffset(idx, k - base) == k;
    }
  }

  /** Index entries are dense, so the search lands on message k - base. */
  lemma IndexLookup(s: Segment, k: nat)
    requires s.base + |s.msgs| <= U64 && |Flat(s.msgs)| < U64 && s.base <= k
    ensures SortedIndex(Index(s.base, s.msgs))
    ensures FirstAtLeast(Index(s.base, s.msgs), 0, k)
         == if k - s.base < |s.msgs| then Some(k - s.base) else None
  {
    forall i | 0 <= i < |s.msgs| ensures EntryOffset(Index(s.base, s.msgs), i) == s.base + i {
      IndexReads(s, i);
    }
    DenseLookup(Index(s.base, s.msgs), |s.msgs|, s.base, k);
  }

  /** End of message i: the next entry's position, or the end of the log file. */
  function EntryEnd(idx: Data, i: nat, logLen: nat): nat
    requires 16 * i + 16 <= |idx|
  {
    if i + 1 < |idx| / 16 then EntryPosition(idx, i + 1) else logLen
  }

  /** The bytes between consecutive positions are the message. */
  lemma MessageBytes(s: Segment, i: nat)
    requires i < |s.msgs| && s.base + |s.msgs| <= U64 && |Flat(s.msgs)| < U64
    ensures
      var idx, log := Index(s.base, s.msgs), Flat(s.msgs);
      var pos, end := EntryPosition(idx, i), EntryEnd(idx, i, |log|);
      pos <= end <= |log| && log[pos..end] == s.msgs[i]
  {
    IndexReads(s, i);
    FlatSlice(s.msgs, i);
    if i + 1 < |s.msgs| {
      IndexReads(s, i + 1);
    } else {
      assert s.msgs[..i + 1] == s.msgs;
    }
  }

  lemma CutBytes(log: Data, pos: nat, end: nat, msgs: seq<Data>, i: nat, max: nat)
    requires i < |msgs| && pos <= end <= |log| && log[pos..end] == msgs[i]
    ensures
      var n := Min((end - pos) % U32, max);
      pos + n <= end && Read(msgs, i, max) == if n == 0 then None else Some(log[pos..pos + n])
  {
    var n := Min((end - pos) % U32, max);
    assert msgs[i][..n] == log[pos..pos + n];
  }

  /** The tail of `read_from_offset`: search one segment's index, designate the bytes. */
  method ReadSegment(log: Data, idx: Data, k: nat, max: nat, ghost s: Segment) returns (r: Option<(nat, nat)>)
    requires log == Flat(s.msgs) && idx == Index(s.base, s.msgs) && |log| < U64
    requires s.base + |s.msgs| <= U64 && s.base <= k
    ensures r.None? ==> Read(s.msgs, k - s.base, max) == None
    ensures r.Some? ==> r.value.0 + r.value.1 <= |log|
    ensures r.Some? ==> Read(s.msgs, k - s.base, max) == Some(log[r.value.0..r.value.0 + r.value.1])
  {
    var entries := |idx| / 16;
    if entries == 0 {
      return None;
    }
    IndexLookup(s, k);
    var found := SearchIndex(idx, k);
    if found.None? {
      return None;
    }
    var position := EntryPosition(idx, found.value);
    var end := EntryEnd(idx, found.value, |log|);
    MessageBytes(s, found.value);
    CutBytes(log, position, end, s.msgs, found.value, max);
    var length := Min((end - position) % U32, max);
    if length == 0 {
      return None;
    }
    r := Some((position, length));
  }

  /** The lookup among local segments. */
  method FindLocalSegment(segments: seq<LogSegment>, k: nat, ghost dir: Dir, ghost c: Chain) returns (r: Option<LogSegment>)
    requires Records(segments, c) && Stored(dir, c)
    ensures r == match Seek(c, k) case Some(s) => Some(Entry(s.base)) case None => None
  {
    var bases := EntryBases(segments);
    RecordsBases(segments, c);
    StoredIncreasing(dir, c);
    SearchSeeks(c, k);
    r := None;
    if segments != [] {
      RecordsAt(segments, c, 0);
    }
    if segments != [] && k >= segments[0].base {
      var found := SearchLastAtMost(bases, k);
      if found.Some? {
        RecordsAt(segments, c, found.value);
        r := Some(segments[found.value]);
      }
    } else if segments != [] {
      NothingBelow(bases, k);
    }
  }

  lemma NothingBelow(bases: seq<nat>, k: nat)
    requires bases != [] && StrictlyIncreasing(bases) && k < bases[0]
    ensures LastAtMost(bases, k).None?
  {
  }

  /** `find_cold_segment`: the lookup in cold storage. */
  method FindColdSegment(cold: Dir, k: nat, ghost c: Chain) returns (r: Option<LogSegment>)
    requires Stored(cold, c)
    ensures r == match Seek(c, k) case Some(s) => Some(Entry(s.base)) case None => None
  {
    var bases;
    ghost var names;
    StoredBases(cold, c);
    bases, names := ScanDirectory(cold);
    ScanRecovers(cold, c, names);
    StoredIncreasing(cold, c);
    SearchSeeks(c, k);
    if bases == [] {
      return None;
    }
    var found := SearchLastAtMost(bases, k);
    if found.None? {
      return None;
    }
    r := Some(Entry(bases[found.value]));
  }

  // ---- retention ----

  function FileLen(dir: Dir, path: FileId): nat {
    if path in dir then |dir[path].data| else 0
  }

  /** Total size of the files of some segments. */
  function TotalSize(dir: Dir, entries: seq<LogSegment>): nat {
    if entries == [] then 0 else
      var e := entries[|entries| - 1];
      TotalSize(dir, entries[..|entries| - 1]) + FileLen(dir, e.logPath) + FileLen(dir, e.idxPath)
  }

  /** The directory after deleting the files of some segments. */
  function RemoveAll(dir: Dir, entries: seq<LogSegment>): Dir {
    if entries == [] then dir else
      var e := entries[|entries| - 1];
      RemoveAll(dir, entries[..|entries| - 1]) - {e.logPath, e.idxPath}
  }

  lemma {:induction false} TailSize(dir: Dir, entries: seq<LogSegment>)
    requires entries != []
    ensures TotalSize(dir, entries[1..]) <= TotalSize(dir, entries)
  {
    if |entries| > 1 {
      TailSize(dir, entries[..|entries| - 1]);
      assert entries[1..][..|entries| - 2] == entries[..|entries| - 1][1..];
    }
  }

  lemma {:induction false} RemovedSize(dir: Dir, paths: set<FileId>, entries: seq<LogSegment>)
    ensures TotalSize(dir - paths, entries) <= TotalSize(dir, entries)
  {
    if entries != [] {
      RemovedSize(dir, paths, entries[..|entries| - 1]);
    }
  }

  /** The age test: the file's metadata is readable and it is older than `age`. */
  predicate Expired(dir: Dir, path: FileId, age: int, now: int) {
    path in dir && now >= dir[path].modified && now - dir[path].modified > age
  }

  /** When the i oldest of `entries` are deleted, the rest exceed the size limit. */
  ghost predicate OverAt(dir: Dir, entries: seq<LogSegment>, i: nat, max: nat)
    requires i <= |entries|
  {
    TotalSize(RemoveAll(dir, entries[..i]), entries[i..]) > max
  }

  /** Deleting more never brings the size back over the limit. */
  lemma {:induction false} StaysUnder(dir: Dir, entries: seq<LogSegment>, i: nat, j: nat, max: nat)
    requires i <= j <= |entries| && !OverAt(dir, entries, i, max)
    ensures !OverAt(dir, entries, j, max)
    decreases j
  {
    if i < j {
      StaysUnder(dir, entries, i, j - 1, max);
      var before, rest := RemoveAll(dir, entries[..j - 1]), entries[j - 1..];
      TailSize(before, rest);
      assert rest[1..] == entries[j..];
      assert entries[..j][..j - 1] == entries[..j - 1];
      RemovedSize(before, {entries[j - 1].logPath, entries[j - 1].idxPath}, entries[j..]);
    }
  }

  /** When the i oldest of `entries` are deleted, the next one is too old. */
  ghost predicate ExpiredAt(dir: Dir, entries: seq<LogSegment>, i: nat, age: int, now: int)
    requires i < |entries|
  {
    Expired(RemoveAll(dir, entries[..i]), entries[i].logPath, age, now)
  }

  /** Retention by size: delete from the oldest end, never the last segment,
      as long as the rest exceeds the limit. */
  method TrimBySize(dir0: Dir, entries0: seq<LogSegment>, max: nat)
    returns (dir: Dir, entries: seq<LogSegment>, ghost j: nat)
    requires entries0 != []
    ensures j < |entries0| && entries == entries0[j..] && dir == RemoveAll(dir0, entries0[..j])
    ensures |entries| == 1 || TotalSize(dir, entries) <= max
    ensures forall i :: 0 <= i < j ==> OverAt(dir0, entries0, i, max)
  {
    dir, entries, j := dir0, entries0, 0;
    while |entries| > 1
      invariant j < |entries0| && entries == entries0[j..] && dir == RemoveAll(dir0, entries0[..j])
      invariant forall i :: 0 <= i < j ==> OverAt(dir0, entries0, i, max)
      decreases |entries|
    {
      var total := LocalSize(dir, entries);
      if total <= max {
        break;
      }
      assert entries0[..j + 1][..j] == entries0[..j];
      dir := dir - {entries[0].logPath, entries[0].idxPath};
      entries := entries[1..];
      j := j + 1;
    }
  }

  /** Retention by age: likewise, as long as the oldest log file is too old.
      It continues where `start` segments have been deleted already. */
  method TrimByAge(dir1: Dir, entries1: seq<LogSegment>, age: int, now: int,
                   ghost dir0: Dir, ghost entries0: seq<LogSegment>, ghost start: nat)
    returns (dir: Dir, entries: seq<LogSegment>, ghost j: nat)
    requires start < |entries0| && entries1 == entries0[start..] && dir1 == RemoveAll(dir0, entries0[..start])
    ensures start <= j < |entries0| && entries == entries0[j..] && dir == RemoveAll(dir0, entries0[..j])
    ensures 1 <= |entries| <= |entries1| && (|entries| == 1 || !Expired(dir, entries[0].logPath, age, now))
    ensures |entries| == 1 || !ExpiredAt(dir0, entries0, j, age, now)
    ensures forall i :: start <= i < j ==> ExpiredAt(dir0, entries0, i, age, now)
  {
    dir, entries, j := dir1, entries1, start;
    while |entries| > 1 && Expired(dir, entries[0].logPath, age, now)
      invariant start <= j < |entries0| && entries == entries0[j..] && dir == RemoveAll(dir0, entries0[..j])
      invariant forall i :: start <= i < j ==> ExpiredAt(dir0, entries0, i, age, now)
      decreases |entries|
    {
      assert entries0[..j + 1][..j] == entries0[..j];
      dir := dir - {entries[0].logPath, entries[0].idxPath};
      entries := entries[1..];
      j := j + 1;
    }
  }

  /** With the i oldest of `entries` deleted, retention wants the next one
      deleted too: the rest exceed the size limit, or it is too old. */
  ghost predicate DueAt(dir: Dir, entries: seq<LogSegment>, i: nat, size: Option<nat>, age: Option<int>, now: int)
    requires i < |entries|
  {
    || (size.Some? && OverAt(dir, entries, i, size.value))
    || (age.Some? && ExpiredAt(dir, entries, i, age.value, now))
  }

  /** Retention has nothing to delete: only the active segment is left, or the
      rest are within the size limit and the oldest is young enough. */
  ghost predicate Settled(dir: Dir, entries: seq<LogSegment>, size: Option<nat>, age: Option<int>, now: int) {
    |entries| > 1 ==>
      && (size.Some? ==> TotalSize(dir, entries) <= size.value)
      && (age.Some? ==> !Expired(dir, entries[0].logPath, age.value, now))
  }

  /** Retention as a whole deletes the shortest run of oldest segments that
      leaves nothing due, and never the last segment. */
  method Trim(dir0: Dir, entries0: seq<LogSegment>, size: Option<nat>, age: Option<int>, now: int)
    returns (dir: Dir, entries: seq<LogSegment>, ghost j: nat)
    requires entries0 != []
    ensures j < |entries0| && entries == entries0[j..] && dir == RemoveAll(dir0, entries0[..j])
    ensures Settled(dir, entries, size, age, now)
    ensures forall i :: 0 <= i < j ==> DueAt(dir0, entries0, i, size, age, now)
  {
    dir, entries, j := dir0, entries0, 0;
    if size.Some? {
      dir, entries, j := TrimBySize(dir, entries, size.value);
    }
    if age.Some? {
      ghost var start := j;
      dir, entries, j := TrimByAge(dir, entries, age.value, now, dir0, entries0, start);
      if size.Some? && |entries| > 1 {
        StaysUnder(dir0, entries0, start, j, size.value);
      }
    }
  }

  /** Apart from some files nothing in the directory is new or changed. */
  ghost predicate Spared(dir: Dir, dir': Dir, but: set<FileId>) {
    forall f :: f in dir' && f !in but ==> f in dir && dir'[f] == dir[f]
  }

  lemma {:induction false} RemovedSpares(dir: Dir, entries: seq<LogSegment>)
    ensures Spared(dir, RemoveAll(dir, entries), {})
  {
    if entries != [] {
      RemovedSpares(dir, entries[..|entries| - 1]);
    }
  }

  ghost predicate HeldAll(dir: Dir, c: Chain) {
    c.Link? ==> Holds(dir, c.seg) && HeldAll(dir, c.prev)
  }

  lemma {:induction false} HeldBefore(dir: Dir, b: nat, c: Chain)
    requires HeldAll(Remove(dir, b), c)
    ensures HeldAll(dir, c)
  {
    if c.Link? {
      HeldBefore(dir, b, c.prev);
    }
  }

  lemma {:induction false} StoredHeld(dir: Dir, c: Chain)
    requires Stored(dir, c)
    ensures HeldAll(dir, c)
  {
    if c.Link? {
      StoredHeld(Remove(dir, c.seg.base), c.prev);
      HeldBefore(dir, c.seg.base, c.prev);
    }
  }

  lemma {:induction false} FlatLength(a: seq<Data>, b: seq<Data>)
    ensures |Flat(a + b)| == |Flat(a)| + |Flat(b)|
  {
    if b == [] {
      assert a + b == a;
    } else {
      FlatLength(a, b[..|b| - 1]);
      assert (a + b)[..|a + b| - 1] == a + b[..|b| - 1];
    }
  }

  /** What the files of a chain weigh: its payloads and 16 bytes per message. */
  lemma {:induction false} TotalSizeIs(dir: Dir, entries: seq<LogSegment>, c: Chain)
    requires Records(entries, c) && HeldAll(dir, c)
    ensures TotalSize(dir, entries) == |Flat(Payloads(c))| + 16 * |Payloads(c)|
  {
    if c.Link? {
      TotalSizeIs(dir, entries[..|entries| - 1], c.prev);
      FlatLength(Payloads(c.prev), c.seg.msgs);
    }
  }

  /** Retention in numbers: nothing is left to delete in bytes and clock readings. */
  lemma RetentionMeans(dir: Dir, entries: seq<LogSegment>, size: Option<nat>, age: Option<int>, now: int, c: Chain)
    requires Settled(dir, entries, size, age, now) && Records(entries, c) && Stored(dir, c)
    ensures |entries| > 1 && size.Some? ==> |Flat(Payloads(c))| + 16 * |Payloads(c)| <= size.value
    ensures |entries| > 1 && age.Some? && entries[0].logPath in dir ==>
      now < dir[entries[0].logPath].modified || now - dir[entries[0].logPath].modified <= age.value
  {
    StoredHeld(dir, c);
    TotalSizeIs(dir, entries, c);
  }

  method LocalSize(dir: Dir, entries: seq<LogSegment>) returns (total: nat)
    ensures total == TotalSize(dir, entries)
  {
    total := 0;
    for i := 0 to |entries|
      invariant total == TotalSize(dir, entries[..i])
    {
      assert entries[..i + 1][..i] == entries[..i];
      total := total + FileLen(dir, entries[i].logPath);
      total := total + FileLen(dir, entries[i].idxPath);
    }
    assert entries[..|entries|] == entries;
  }

  // ---- the steps of the log, on values ----

  /** Opening with create and without truncate. */
  function OpenCreate(dir: Dir, path: FileId, t: int): Dir {
    if path in dir then dir else dir[path := File([], t)]
  }

  lemma AppendSize(s: Segment, d: Data, max: nat)
    requires |Flat(s.msgs)| + |d| <= max || Flat(s.msgs) == []
    ensures SizeRule(WithMessage(s, d), max)
  {
    FlatSnoc(s.base, s.msgs, d);
  }

  lemma ExtendNewest(c: Chain, s: Segment, d: Data)
    requires Contiguous(Link(c, s))
    ensures Contiguous(Link(c, WithMessage(s, d)))
    ensures Payloads(Link(c, WithMessage(s, d))) == Payloads(Link(c, s)) + [d]
    ensures s.base + |s.msgs| == |Payloads(Link(c, s))|
  {
  }

  /** Writing message and index entry. */
  lemma AppendOnDisk(local: Dir, cold: Dir, p: Parts, d: Data, t: int) returns (p': Parts)
    requires OnDisk(local, cold, p) && |p.Log()| + 1 < U64 && |Flat(p.active.msgs)| + |d| < U64
    ensures p' == p.(active := WithMessage(p.active, d))
    ensures Holds(local, p.active) && p'.Log() == p.Log() + [d]
    ensures OnDisk(WriteMessage(local, p.active.base, |p.Log()|, d, t), cold, p')
  {
    ExtendNewest(p.closed, p.active, d);
    StoreMessage(local, p.live, p.active, d, t);
    p' := p.(active := WithMessage(p.active, d));
  }

  function Rolled(p: Parts): Parts {
    Parts(Link(p.closed, p.active), Link(p.live, p.active), Segment(|p.Log()|, []))
  }

  lemma ClosedBelow(p: Parts)
    requires Contiguous(p.All()) && Suffix(p.live, p.closed)
    ensures p.closed.Link? ==> p.closed.seg.base < p.active.base
    ensures p.live.Link? ==> p.live.seg.base < p.active.base
  {
  }

  /** Copying the active segment to cold storage and opening an empty one. */
  lemma RollOnDisk(local: Dir, cold: Dir, p: Parts, t: int)
    requires OnDisk(local, cold, p) && p.active.msgs != [] && Holds(local, p.active)
    ensures
      var b, next := p.active.base, |p.Log()|;
      var cold' := Write(cold, b, File(local[LogFile(b)].data, t), File(local[IdxFile(b)].data, t));
      OnDisk(OpenCreate(OpenCreate(local, LogFile(next), t), IdxFile(next), t), cold', Rolled(p))
    ensures Rolled(p).Log() == p.Log()
  {
    var b, next := p.active.base, |p.Log()|;
    ClosedBelow(p);
    StoreSegment(cold, p.closed, p.active, File(local[LogFile(b)].data, t), File(local[IdxFile(b)].data, t));
    StoreSegment(local, p.Local(), Segment(next, []), File([], t), File([], t));
  }

  lemma RollStep(local: Dir, cold: Dir, entries: seq<LogSegment>, p: Parts, max: nat, t: int) returns (p': Parts)
    requires OnDisk(local, cold, p) && Records(entries, p.Local())
    requires p.active.msgs != []
    ensures entries[|entries| - 1] == Entry(p.active.base) && Holds(local, p.active)
    ensures
      var b, next := p.active.base, |p.Log()|;
      var cold' := Write(cold, b, File(local[LogFile(b)].data, t), File(local[IdxFile(b)].data, t));
      && OnDisk(OpenCreate(OpenCreate(local, LogFile(next), t), IdxFile(next), t), cold', p')
      && Records(entries + [Entry(next)], p'.Local()) && (SizeRules(p.All(), max) ==> SizeRules(p'.All(), max))
      && p'.active == Segment(next, []) && p'.closed == Link(p.closed, p.active) && p'.Log() == p.Log()
      && p'.live == Link(p.live, p.active)
  {
    RollOnDisk(local, cold, p, t);
    p' := Rolled(p);
    assert (entries + [Entry(|p.Log()|)])[..|entries|] == entries;
  }

  /** A chain without its j oldest segments. */
  function Dropped(c: Chain, j: nat): Chain {
    if j == 0 then c else
      var d := Dropped(c, j - 1);
      if d.Root? then d else Beheaded(d)
  }

  /** With i segments of a partition deleted, the next one, which is not the active
      one, has to go: what is left weighs too much, or it was written too long ago. */
  ghost predicate DueIn(dir: Dir, p: Parts, i: nat, size: Option<nat>, age: Option<int>, now: int) {
    var c := Link(Dropped(p.live, i), p.active);
    var file := LogFile(Oldest(c).base);
    && Oldest(c).base < p.active.base
    && (|| (size.Some? && |Flat(Payloads(c))| + 16 * |Payloads(c)| > size.value)
        || (age.Some? && file in dir && now - dir[file].modified > age.value))
  }

  lemma DueMeans(local: Dir, cold: Dir, entries: seq<LogSegment>, p: Parts, i: nat, size: Option<nat>, age: Option<int>, now: int)
    requires OnDisk(local, cold, p) && Records(entries, p.Local()) && i + 1 < |entries|
    requires DueAt(local, entries, i, size, age, now)
    ensures DueIn(local, p, i, size, age, now)
  {
    var live, rest, dir := p.live, entries, local;
    if i > 0 {
      live := DropOnDisk(local, cold, entries, p, i);
      rest, dir := entries[i..], RemoveAll(local, entries[..i]);
    } else {
      assert entries[0..] == entries && entries[..0] == [];
    }
    var c := Link(live, p.active);
    StoredHeld(dir, c);
    TotalSizeIs(dir, rest, c);
    RecordsOldest(rest, c);
    DropOldest(dir, c);
    RemovedSpares(local, entries[..i]);
  }

  lemma AllDue(local: Dir, cold: Dir, entries: seq<LogSegment>, p: Parts, j: nat, size: Option<nat>, age: Option<int>, now: int)
    requires OnDisk(local, cold, p) && Records(entries, p.Local()) && j < |entries|
    requires forall i :: 0 <= i < j ==> DueAt(local, entries, i, size, age, now)
    ensures forall i :: 0 <= i < j ==> DueIn(local, p, i, size, age, now)
  {
    forall i | 0 <= i < j ensures DueIn(local, p, i, size, age, now) {
      DueMeans(local, cold, entries, p, i, size, age, now);
    }
  }

  /** Deleting the j oldest local segments, short of the active one. */
  lemma {:induction false} DropOnDisk(local: Dir, cold: Dir, entries: seq<LogSegment>, p: Parts, j: nat)
    returns (live: Chain)
    requires OnDisk(local, cold, p) && Records(entries, p.Local()) && 0 < j < |entries|
    ensures OnDisk(RemoveAll(local, entries[..j]), cold, p.(live := live))
    ensures Records(entries[j..], Link(live, p.active)) && live == Dropped(p.live, j)
    decreases j
  {
    var q, rest, dir := p.live, entries, local;
    if j > 1 {
      q := DropOnDisk(local, cold, entries, p, j - 1);
      rest, dir := entries[j - 1..], RemoveAll(local, entries[..j - 1]);
      assert rest[1..] == entries[j..];
    }
    DropOldest(dir, Link(q, p.active));
    RecordsOldest(rest, Link(q, p.active));
    BeheadedSuffix(q, p.closed);
    live := Beheaded(q);
    assert entries[..j][..j - 1] == entries[..j - 1];
  }

  // ---- reopening ----

  /** The state a new partition starts from. */
  const FRESH := Parts(Root, Root, Segment(0, []))

  lemma FreshOnDisk(t: int)
    ensures OnDisk(Write(map[], 0, File([], t), File([], t)), map[], FRESH)
    ensures Write(map[], 0, File([], t), File([], t)) == OpenCreate(OpenCreate(map[], LogFile(0), t), IdxFile(0), t)
  {
    StoreSegment(map[], Root, Segment(0, []), File([], t), File([], t));
  }

  /** In-memory records rebuilt from base offsets. */
  method BuildRecords(bases: seq<nat>) returns (entries: seq<LogSegment>)
    ensures |entries| == |bases| && forall i :: 0 <= i < |bases| ==> entries[i] == Entry(bases[i])
  {
    entries := [];
    for i := 0 to |bases|
      invariant |entries| == i && forall k :: 0 <= k < i ==> entries[k] == Entry(bases[k])
    {
      entries := entries + [Entry(bases[i])];
    }
  }

  lemma {:induction false} BuiltRecords(entries: seq<LogSegment>, c: Chain)
    requires |entries| == Count(c) && forall i :: 0 <= i < |entries| ==> entries[i] == Entry(Bases(c)[i])
    ensures Records(entries, c)
  {
    if c.Link? {
      BuiltRecords(entries[..|entries| - 1], c.prev);
    }
  }

  /** The directories a partition may be opened on: fresh, or left behind by
      completed appends and retention deletions. */
  ghost predicate Openable(local: Dir, cold: Dir, p: Parts) {
    (local == map[] && cold == map[] && p == FRESH) || OnDisk(local, cold, p)
  }

  /** Segment discovery: rebuilds the in-memory list from the local directory. */
  method DiscoverSegments(local: Dir, ghost p: Parts) returns (entries: seq<LogSegment>)
    requires (local == map[] && p == FRESH) || Stored(local, p.Local())
    ensures Records(entries, p.Local())
  {
    var bases;
    ghost var names;
    StoredBases(local, if local == map[] then Root else p.Local());
    bases, names := ScanDirectory(local);
    if local != map[] {
      ScanRecovers(local, p.Local(), names);
    } else {
      ScanRecovers(local, Root, names);
    }
    if bases == [] {
      bases := [0];
    }
    entries := BuildRecords(bases);
    BuiltRecords(entries, p.Local());
  }

  lemma Reopened(local: Dir, cold: Dir, p: Parts, t: int)
    requires Openable(local, cold, p)
    ensures
      var b := p.active.base;
      var dir := OpenCreate(OpenCreate(local, LogFile(b), t), IdxFile(b), t);
      && OnDisk(dir, cold, p) && (local != map[] ==> dir == local)
      && IdxFile(b) in dir && RecoveredOffset(b, dir[IdxFile(b)].data) == |p.Log()|
  {
    OffsetRecovers(p.active);
    if local == map[] && p == FRESH {
      FreshOnDisk(t);
    }
  }

  /** An append keeps the cut tight, whether it closes a segment or not. */
  lemma GreedyStep(p: Parts, p': Parts, d: Data, max: nat)
    requires
      if 0 < |Flat(p.active.msgs)| && |Flat(p.active.msgs)| + |d| > max
      then p'.closed == Link(p.closed, p.active) && p'.active.msgs == [d]
      else p'.closed == p.closed && p'.active.msgs == p.active.msgs + [d]
    ensures p'.active.msgs != []
    ensures Tight(p.All(), max) && (p.active.msgs == [] ==> p.closed.Root?) ==> Tight(p'.All(), max)
  {
  }

  // ---- the log ----

  class PartitionLog {
    const brokerId: nat
    const maxSegmentSize: nat
    const maxRetentionSize: Option<nat>
    const maxRetentionAge: Option<int>

    var segments: seq<LogSegment>
    var activeLog: FileId
    var activeIdx: FileId
    var nextOffset: nat
    var highWatermark: nat
    var replicaOffsets: map<nat, nat>
    var replicaIds: seq<nat>

    var local: Dir
    var cold: Dir

    /** The segments the files stand for. */
    ghost var parts: Parts

    /** Everything but the watermark. */
    ghost predicate StoreValid()
      reads this`local, this`cold, this`parts, this`segments, this`activeLog, this`activeIdx, this`nextOffset
    {
      && OnDisk(local, cold, parts)
      && Records(segments, parts.Local())
      && activeLog == LogFile(parts.active.base) && activeIdx == IdxFile(parts.active.base)
      && nextOffset == |parts.Log()|
    }

    /** A segment over the size limit has all its bytes from one message; a directory
        written under a larger limit may not start out that way. */
    ghost predicate SizesOk()
      reads this`parts
    {
      SizeRules(parts.All(), maxSegmentSize)
    }

    /** The messages are cut into segments as full as the limit allows. */
    ghost predicate Greedy()
      reads this`parts
    {
      && SizesOk() && Tight(parts.All(), maxSegmentSize)
      && (parts.active.msgs == [] ==> parts.closed.Root?)
    }

    /** A message of this size takes a segment that has bytes past the limit. */
    ghost predicate RollsFor(size: nat)
      reads this`parts
    {
      0 < |Flat(parts.active.msgs)| && |Flat(parts.active.msgs)| + size > maxSegmentSize
    }

    /** The closed local segments when retention comes to them. */
    ghost function LiveFor(size: nat): Chain
      reads this`parts
    {
      if RollsFor(size) then Link(parts.live, parts.active) else parts.live
    }

    /** Unless only the active segment is local, the local payloads and 16 bytes of
        index per message fit the size limit and the oldest file is young enough. */
    ghost predicate WithinLimits(now: int)
      reads this`segments, this`local, this`parts
    {
      |segments| > 1 ==>
        && (maxRetentionSize.Some? ==>
              |Flat(Payloads(parts.Local()))| + 16 * |Payloads(parts.Local())| <= maxRetentionSize.value)
        && (maxRetentionAge.Some? && segments[0].logPath in local ==>
              now < local[segments[0].logPath].modified || now - local[segments[0].logPath].modified <= maxRetentionAge.value)
    }

    /** Of the closed segments `live` retention deleted the oldest, one after the other
        and each only when it was due; `dir` has the times of their files. */
    ghost predicate Shed(live: Chain, dir: Dir, now: int)
      reads this`parts
    {
      exists j: nat :: parts.live == Dropped(live, j)
        && forall i :: 0 <= i < j ==> DueIn(dir, parts.(live := live), i, maxRetentionSize, maxRetentionAge, now)
    }

    lemma ShedBefore(live: Chain, dir0: Dir, dir: Dir, now: int)
      requires Shed(live, dir, now) && Spared(dir0, dir, {LogFile(parts.active.base), IdxFile(parts.active.base)})
      ensures Shed(live, dir0, now)
    {
      var j: nat :| parts.live == Dropped(live, j)
        && forall i :: 0 <= i < j ==> DueIn(dir, parts.(live := live), i, maxRetentionSize, maxRetentionAge, now);
      forall i | 0 <= i < j ensures DueIn(dir0, parts.(live := live), i, maxRetentionSize, maxRetentionAge, now) {
        assert DueIn(dir, parts.(live := live), i, maxRetentionSize, maxRetentionAge, now);
      }
    }

    /** The file was last written at time t. */
    ghost predicate Written(path: FileId, t: int)
      reads this`local
    {
      path in local && local[path].modified == t
    }

    ghost predicate Valid()
      reads this
    {
      StoreValid() && highWatermark == Watermark(brokerId, nextOffset, replicaIds, replicaOffsets)
    }

    ghost function View(): Replica
      reads this
    {
      Replica(brokerId, parts.Log(), replicaIds, replicaOffsets, highWatermark)
    }

    /** Opens a partition directory: a fresh one, or one left behind by completed
        appends and retention deletions. */
    constructor (brokerId: nat, maxSegmentSize: nat, maxRetentionSize: Option<nat>, maxRetentionAge: Option<int>,
                 local: Dir, cold: Dir, t: int, ghost p: Parts)
      requires Openable(local, cold, p)
      ensures Valid() && parts == p && View() == Refreshed(Replica(brokerId, p.Log(), [], map[], 0))
      ensures this.cold == cold && (local != map[] ==> this.local == local) && (p == FRESH ==> Greedy())
      ensures this.brokerId == brokerId && this.maxSegmentSize == maxSegmentSize
      ensures this.maxRetentionSize == maxRetentionSize && this.maxRetentionAge == maxRetentionAge
    {
      var entries := DiscoverSegments(local, p);
      var active := entries[|entries| - 1];
      var dir := OpenCreate(OpenCreate(local, active.logPath, t), active.idxPath, t);
      Reopened(local, cold, p, t);
      var next := RecoveredOffset(active.base, dir[active.idxPath].data);

      this.brokerId, this.maxSegmentSize := brokerId, maxSegmentSize;
      this.maxRetentionSize, this.maxRetentionAge := maxRetentionSize, maxRetentionAge;
      this.segments, this.activeLog, this.activeIdx := entries, active.logPath, active.idxPath;
      this.nextOffset, this.local, this.cold := next, dir, cold;
      this.highWatermark, this.replicaOffsets, this.replicaIds := 0, map[], [];
      this.parts := p;
      new;
      RecomputeHighWatermark();
    }

    method RecomputeHighWatermark()
      modifies this`highWatermark
      ensures highWatermark == Watermark(brokerId, nextOffset, replicaIds, replicaOffsets)
    {
      var others: seq<nat> := [];
      for i := 0 to |replicaIds|
        invariant Watermark(brokerId, nextOffset, replicaIds[..i], replicaOffsets)
               == Watermark(brokerId, nextOffset, others, replicaOffsets)
        invariant brokerId !in others
      {
        assert replicaIds[..i + 1][..i] == replicaIds[..i];
        if replicaIds[i] != brokerId {
          assert (others + [replicaIds[i]])[..|others|] == others;
          others := others + [replicaIds[i]];
        }
      }
      assert replicaIds[..|replicaIds|] == replicaIds;
      if others == [] {
        highWatermark := nextOffset;
        return;
      }
      var minOffset := nextOffset;
      for i := 0 to |others|
        invariant minOffset == Watermark(brokerId, nextOffset, others[..i], replicaOffsets)
      {
        assert others[..i + 1][..i] == others[..i];
        var offset := if others[i] in replicaOffsets then replicaOffsets[others[i]] else 0;
        if offset < minOffset {
          minOffset := offset;
        }
      }
      assert others[..|others|] == others;
      highWatermark := minOffset;
    }

    method UpdateFollowerOffset(replicaId: nat, offset: nat)
      requires Valid()
      modifies this`replicaOffsets, this`highWatermark
      ensures Valid() && View() == FetchedBy(old(View()), replicaId, offset)
    {
      replicaOffsets := replicaOffsets[replicaId := offset];
      RecomputeHighWatermark();
    }

    /** Leader reconciliation on a heartbeat reply. */
    method Reconcile(ids: seq<nat>)
      requires Valid()
      modifies this`replicaIds, this`highWatermark
      ensures Valid() && View() == Reconciled(old(View()), ids)
    {
      replicaIds := ids;
      RecomputeHighWatermark();
    }

    method RollOver(t: int)
      requires StoreValid() && parts.active.msgs != []
      modifies this`local, this`cold, this`segments, this`activeLog, this`activeIdx, this`parts
      ensures StoreValid() && parts.active == Segment(nextOffset, []) && parts.Log() == old(parts.Log())
      ensures parts.closed == Link(old(parts.closed), old(parts.active)) && segments == old(segments) + [Entry(nextOffset)]
      ensures parts.live == Link(old(parts.live), old(parts.active))
      ensures Spared(old(local), local, {activeLog, activeIdx})
      ensures old(SizesOk()) ==> SizesOk()
    {
      ghost var p' := RollStep(local, cold, segments, parts, maxSegmentSize, t);
      var oldActive := segments[|segments| - 1];
      var archive := Write(cold, oldActive.base, File(local[oldActive.logPath].data, t), File(local[oldActive.idxPath].data, t));
      var newActive := Entry(nextOffset);
      var hot := OpenCreate(OpenCreate(local, newActive.logPath, t), newActive.idxPath, t);
      cold, local := archive, hot;
      activeLog, activeIdx := newActive.logPath, newActive.idxPath;
      segments := segments + [newActive];
      parts := p';
    }

    method CleanRetention(now: int) returns (ghost j: nat)
      requires StoreValid()
      modifies this`local, this`segments, this`parts
      ensures StoreValid() && parts == old(parts).(live := parts.live)
      ensures SizesOk() == old(SizesOk()) && Spared(old(local), local, {})
      ensures j < |old(segments)| && segments == if j == 0 then old(segments) else old(segments)[j..]
      ensures Settled(local, segments, maxRetentionSize, maxRetentionAge, now)
      ensures forall i :: 0 <= i < j ==>
        DueAt(old(local), old(segments), i, maxRetentionSize, maxRetentionAge, now)
      ensures WithinLimits(now) && Shed(old(parts.live), old(local), now)
    {
      var dir, entries;
      dir, entries, j := Trim(local, segments, maxRetentionSize, maxRetentionAge, now);
      RemovedSpares(local, segments[..j]);
      if |entries| < |segments| {
        ghost var live := DropOnDisk(local, cold, segments, parts, j);
        local, segments, parts := dir, entries, parts.(live := live);
      }
      RetentionMeans(local, segments, maxRetentionSize, maxRetentionAge, now, parts.Local());
      AllDue(old(local), cold, old(segments), old(parts), j, maxRetentionSize, maxRetentionAge, now);
      assert parts.live == Dropped(old(parts.live), j) && parts.(live := old(parts.live)) == old(parts);
    }

    /** Appends a message; `t` is the time of the writes, `now` the time at which
        retention looks at the clock. */
    method Append(data: Data, t: int, now: int) returns (offset: nat)
      requires Valid() && nextOffset + 1 < U64 && FileLen(local, activeLog) + |data| < U64
      modifies this`local, this`cold, this`segments, this`activeLog, this`activeIdx, this`parts,
               this`nextOffset, this`highWatermark
      ensures Valid() && View() == Appended(old(View()), data)
      ensures offset == |old(View()).log| && (old(SizesOk()) ==> SizesOk()) && (old(Greedy()) ==> Greedy())
      ensures old(RollsFor(|data|)) ==>
        parts.closed == Link(old(parts.closed), old(parts.active)) && parts.active == Segment(offset, [data])
      ensures !old(RollsFor(|data|)) ==>
        parts.closed == old(parts.closed) && parts.active == Segment(old(parts.active.base), old(parts.active.msgs) + [data])
      ensures Spared(old(local), local, {activeLog, activeIdx}) && Written(activeLog, t) && Written(activeIdx, t)
      ensures WithinLimits(now) && Shed(old(LiveFor(|data|)), old(local), now)
    {
      offset := Store(data, t);
      ghost var live, dir := parts.live, local;
      Finish(now, t);
      ShedBefore(live, old(local), dir, now);
    }

    /** The end of an append: retention and the watermark. */
    method Finish(now: int, ghost t: int)
      requires StoreValid() && Written(activeLog, t) && Written(activeIdx, t)
      modifies this`local, this`segments, this`parts, this`highWatermark
      ensures Valid() && parts == old(parts).(live := parts.live) && Greedy() == old(Greedy()) && SizesOk() == old(SizesOk())
      ensures Spared(old(local), local, {}) && Written(activeLog, t) && Written(activeIdx, t) && WithinLimits(now)
      ensures Shed(old(parts.live), old(local), now)
    {
      ghost var j := CleanRetention(now);
      RecomputeHighWatermark();
    }

    /** The writes of an append, after a rollover if one is due. */
    method Store(data: Data, t: int) returns (offset: nat)
      requires StoreValid() && nextOffset + 1 < U64 && |Flat(parts.active.msgs)| + |data| < U64
      modifies this`local, this`cold, this`segments, this`activeLog, this`activeIdx, this`parts, this`nextOffset
      ensures StoreValid() && offset == old(nextOffset) && (old(SizesOk()) ==> SizesOk()) && (old(Greedy()) ==> Greedy())
      ensures parts.Log() == old(parts.Log()) + [data]
      ensures old(RollsFor(|data|)) ==>
        parts.closed == Link(old(parts.closed), old(parts.active)) && parts.active == Segment(offset, [data])
      ensures !old(RollsFor(|data|)) ==>
        parts.closed == old(parts.closed) && parts.active == Segment(old(parts.active.base), old(parts.active.msgs) + [data])
      ensures parts.live == old(LiveFor(|data|))
      ensures Spared(old(local), local, {activeLog, activeIdx}) && Written(activeLog, t) && Written(activeIdx, t)
    {
      MakeRoom(|data|, t);
      offset := WriteActive(data, t);
      GreedyStep(old(parts), parts, data, maxSegmentSize);
    }

    /** Rolls over when the message would take a non-empty segment past the limit. */
    method MakeRoom(size: nat, t: int)
      requires StoreValid() && |Flat(parts.active.msgs)| + size < U64
      modifies this`local, this`cold, this`segments, this`activeLog, this`activeIdx, this`parts
      ensures StoreValid() && parts.Log() == old(parts.Log()) && |Flat(parts.active.msgs)| + size < U64
      ensures old(SizesOk()) ==> SizesOk()
      ensures |Flat(parts.active.msgs)| + size <= maxSegmentSize || Flat(parts.active.msgs) == []
      ensures !old(RollsFor(size)) ==>
        segments == old(segments) && cold == old(cold) && local == old(local) && parts == old(parts)
        && activeLog == old(activeLog) && activeIdx == old(activeIdx)
      ensures old(RollsFor(size)) ==>
        && segments == old(segments) + [Entry(nextOffset)] && parts.active == Segment(nextOffset, [])
        && parts.closed == Link(old(parts.closed), old(parts.active)) && parts.live == Link(old(parts.live), old(parts.active))
        && Spared(old(local), local, {activeLog, activeIdx})
    {
      var curLen := |local[activeLog].data|;
      if curLen + size > maxSegmentSize && curLen > 0 {
        RollOver(t);
      }
    }

    /** Writes the message at the end of the active log file and its entry at the
        end of the active index file. */
    method WriteActive(data: Data, t: int) returns (offset: nat)
      requires StoreValid() && nextOffset + 1 < U64 && |Flat(parts.active.msgs)| + |data| < U64
      requires |Flat(parts.active.msgs)| + |data| <= maxSegmentSize || Flat(parts.active.msgs) == []
      modifies this`local, this`parts, this`nextOffset
      ensures StoreValid() && offset == old(nextOffset) && (old(SizesOk()) ==> SizesOk())
      ensures parts.Log() == old(parts.Log()) + [data] && parts.closed == old(parts.closed) && parts.live == old(parts.live)
      ensures parts.active == Segment(old(parts.active.base), old(parts.active.msgs) + [data])
      ensures Spared(old(local), local, {activeLog, activeIdx}) && Written(activeLog, t) && Written(activeIdx, t)
    {
      ghost var p' := AppendOnDisk(local, cold, parts, data, t);
      AppendSize(parts.active, data, maxSegmentSize);
      var pos := |local[activeLog].data|;
      offset := nextOffset;
      local := local[activeLog := File(local[activeLog].data + data, t)];
      local := local[activeIdx := File(local[activeIdx].data + (Put(offset, 8) + Put(pos, 8)), t)];
      nextOffset := nextOffset + 1;
      parts := p';
    }

    /** The bytes an extent designates. */
    ghost function Designated(e: Option<Extent>): Option<Data>
      reads this
    {
      match e
      case None => None
      case Some(x) =>
        var dir := if x.fromCold then cold else local;
        if x.path in dir && x.position + x.length <= |dir[x.path].data|
        then Some(dir[x.path].data[x.position..x.position + x.length])
        else None
    }

    /** Finds where the bytes of offset k are: locally, else in cold storage. */
    method ReadFromOffset(k: nat, max: nat) returns (r: Option<Extent>)
      requires Valid()
      ensures r.None? <==> Read(View().log, k, max).None?
      ensures Designated(r) == Read(View().log, k, max)
      ensures r.Some? ==> (r.value.fromCold <==> Seek(parts.Local(), k).None?)
    {
      SeekReads(parts.All(), k);
      ghost var s := Seek(parts.All(), k).value;
      var fromCold := false;
      var seg := FindLocalSegment(segments, k, local, parts.Local());
      if seg.None? {
        fromCold := true;
        seg := FindColdSegment(cold, k, parts.closed);
        SeekHolds(cold, parts.closed, k);
      } else {
        SeekSuffix(parts.Local(), parts.All(), k);
        SeekHolds(local, parts.Local(), k);
      }
      var dir := if fromCold then cold else local;
      var path := seg.value.logPath;
      var found := ReadSegment(dir[path].data, dir[seg.value.idxPath].data, k, max, s);
      ReadSame(View().log, s, k, max);
      r := match found case Some(e) => Some(Extent(fromCold, path, e.0, e.1)) case None => None;
    }
  }

  lemma {:induction false} RecordsUnique(a: seq<LogSegment>, b: seq<LogSegment>, c: Chain)
    requires Records(a, c) && Records(b, c)
    ensures a == b
  {
    if c.Link? {
      RecordsUnique(a[..|a| - 1], b[..|b| - 1], c.prev);
      assert a == a[..|a| - 1] + [a[|a| - 1]] && b == b[..|b| - 1] + [b[|b| - 1]];
    }
  }

  /** Reopening a partition's directories rebuilds the same segment list and the
      same next offset over the same payloads, so every read answers the same. */
  method Reopen(log: PartitionLog, t: int) returns (log': PartitionLog)
    requires log.Valid()
    ensures fresh(log') && log'.Valid()
    ensures log'.segments == log.segments && log'.nextOffset == log.nextOffset
    ensures log'.local == log.local && log'.cold == log.cold && log'.brokerId == log.brokerId
    ensures log'.View() == Restarted(log.View())
  {
    log' := new PartitionLog(log.brokerId, log.maxSegmentSize, log.maxRetentionSize, log.maxRetentionAge,
                             log.local, log.cold, t, log.parts);
    RecordsUnique(log'.segments, log.segments, log.parts.Local());
  }

  lemma ReadSame(log: seq<Data>, s: Segment, k: nat, max: nat)
    requires s.base <= k && (k < |log| <==> k - s.base < |s.msgs|)
    requires k < |log| ==> log[k] == s.msgs[k - s.base]
    ensures Read(log, k, max) == Read(s.msgs, k - s.base, max)
  {
  }
}
