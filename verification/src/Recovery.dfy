/**
 Rebuilding the segment list from a directory listing, in whatever order the
 operating system lists it.
 */
module Recovery {
  import opened Bytes
  import opened FileNames
  import opened LogFiles
  import opened Search

  predicate StrictlyIncreasing(s: seq<nat>) {
    forall i, j :: 0 <= i < j < |s| ==> s[i] < s[j]
  }

  function Insert(s: seq<nat>, x: nat): (r: seq<nat>)
    ensures multiset(r) == multiset(s) + multiset{x}
    ensures forall y :: y in r <==> y in s || y == x
  {
    if s == [] || s[|s| - 1] <= x then
      s + [x]
    else
      var init, l := s[..|s| - 1], s[|s| - 1];
      assert s == init + [l];
      Insert(init, x) + [l]
  }

  lemma {:induction false} InsertSorts(s: seq<nat>, x: nat)
    requires Sorted(s)
    ensures Sorted(Insert(s, x))
  {
    if s != [] && s[|s| - 1] > x {
      var init, l := s[..|s| - 1], s[|s| - 1];
      InsertSorts(init, x);
      var r := Insert(init, x);
      assert forall i :: 0 <= i < |r| ==> r[i] in init || r[i] == x;
      assert forall y :: y in init ==> y <= l;
    }
  }

  lemma SortedDistinct(s: seq<nat>)
    requires Sorted(s) && NoDup(s)
    ensures StrictlyIncreasing(s)
  {
  }

  lemma {:induction false} InsertNoDup(s: seq<nat>, x: nat)
    requires NoDup(s) && x !in s
    ensures NoDup(Insert(s, x))
  {
    if s != [] && s[|s| - 1] > x {
      var init, l := s[..|s| - 1], s[|s| - 1];
      InsertNoDup(init, x);
      assert l !in init;
    }
  }

  /** The library sort: a sorted permutation of its input. */
  function Sort(s: seq<nat>): (r: seq<nat>)
    ensures multiset(r) == multiset(s)
    ensures forall y :: y in r <==> y in s
  {
    if s == [] then [] else
      var init, l := s[..|s| - 1], s[|s| - 1];
      assert s == init + [l];
      Insert(Sort(init), l)
  }

  lemma {:induction false} SortSorts(s: seq<nat>)
    ensures Sorted(Sort(s))
    ensures NoDup(s) ==> NoDup(Sort(s))
  {
    if s != [] {
      var init, l := s[..|s| - 1], s[|s| - 1];
      SortSorts(init);
      InsertSorts(Sort(init), l);
      if NoDup(s) {
        assert l !in init;
        InsertNoDup(Sort(init), l);
      }
    }
  }

  ghost predicate Names(dir: Dir, n: string) {
    exists f :: f in dir && n == FileName(f)
  }

  /** `names` lists the name of every file of `dir` once, in some order. */
  ghost predicate Listing(names: seq<string>, dir: Dir) {
    && NoDup(names)
    && (forall n :: n in names ==> Names(dir, n))
    && (forall f :: f in dir ==> FileName(f) in names)
  }

  /** The base offsets found along a listing. */
  function ScanAll(names: seq<string>): seq<nat> {
    if names == [] then [] else
      var r := ScanAll(names[..|names| - 1]);
      match ScanName(names[|names| - 1])
      case Some(b) => r + [b]
      case None => r
  }

  /** The directory walk of opening a partition and of cold lookup. */
  method ScanDirectory(dir: Dir) returns (bases: seq<nat>, ghost names: seq<string>)
    requires forall f :: f in dir ==> f.base < U64
    ensures Listing(names, dir) && bases == Sort(ScanAll(names))
    ensures StrictlyIncreasing(bases) && forall b :: b in bases <==> LogFile(b) in dir
  {
    bases, names := WalkDirectory(dir);
    bases := Sort(bases);
    ScanFinds(dir, names);
  }

  lemma ScanFinds(dir: Dir, names: seq<string>)
    requires Listing(names, dir) && forall f :: f in dir ==> f.base < U64
    ensures
      var bases := Sort(ScanAll(names));
      StrictlyIncreasing(bases) && forall b :: b in bases <==> LogFile(b) in dir
  {
    ScanAllElements(dir, names);
    SortSorts(ScanAll(names));
    SortedDistinct(Sort(ScanAll(names)));
  }

  method WalkDirectory(dir: Dir) returns (bases: seq<nat>, ghost names: seq<string>)
    requires forall f :: f in dir ==> f.base < U64
    ensures Listing(names, dir) && bases == ScanAll(names)
  {
    var todo := dir.Keys;
    bases, names := [], [];
    while todo != {}
      invariant todo <= dir.Keys && NoDup(names)
      invariant forall n :: n in names ==> Names(dir - todo, n)
      invariant forall f :: f in dir && f !in todo ==> FileName(f) in names
      invariant bases == ScanAll(names)
    {
      var file :| file in todo;
      var name := FileName(file);
      assert name !in names by {
        if name in names {
          var f :| f in dir - todo && name == FileName(f);
          NamesDistinct(f, file);
        }
      }
      assert (names + [name])[..|names|] == names;
      match ScanName(name) {
        case Some(b) => bases := bases + [b];
        case None =>
      }
      forall n | n in names + [name] ensures Names(dir - (todo - {file}), n) {
        if n in names {
          var f :| f in dir - todo && n == FileName(f);
          assert f in dir - (todo - {file});
        } else {
          assert file in dir - (todo - {file});
        }
      }
      names := names + [name];
      todo := todo - {file};
    }
    assert dir - {} == dir;
  }

  lemma {:induction false} StoredBases(dir: Dir, c: Chain)
    requires Stored(dir, c)
    ensures forall f :: f in dir ==> f.base < U64 && f.base in Bases(c)
    ensures forall b :: b in Bases(c) ==> LogFile(b) in dir
  {
    if c.Link? {
      StoredBases(Remove(dir, c.seg.base), c.prev);
    }
  }

  lemma {:induction false} ScanAllElements(dir: Dir, names: seq<string>)
    requires NoDup(names) && forall f :: f in dir ==> f.base < U64
    requires forall n :: n in names ==> Names(dir, n)
    ensures forall b :: b in ScanAll(names) ==> LogFile(b) in dir && FileName(LogFile(b)) in names
    ensures forall f :: f in dir && f.LogFile? && FileName(f) in names ==> f.base in ScanAll(names)
    ensures NoDup(ScanAll(names))
  {
    if names != [] {
      var init, l := names[..|names| - 1], names[|names| - 1];
      assert names == init + [l] && l !in init;
      ScanAllElements(dir, init);
      assert Names(dir, l);
      var file :| file in dir && l == FileName(file);
      NameRoundTrip(file);
      forall f | f in dir && f.LogFile? && FileName(f) in names ensures f.base in ScanAll(names) {
        if FileName(f) == l {
          NamesDistinct(f, file);
        }
      }
    }
  }

  lemma SameLast(a: seq<nat>, b: seq<nat>)
    requires StrictlyIncreasing(a) && StrictlyIncreasing(b) && forall x :: x in a <==> x in b
    requires a != [] && b != []
    ensures a[|a| - 1] == b[|b| - 1]
  {
    assert a[|a| - 1] in b && b[|b| - 1] in a;
  }

  lemma {:induction false} SameElements(a: seq<nat>, b: seq<nat>)
    requires StrictlyIncreasing(a) && StrictlyIncreasing(b) && forall x :: x in a <==> x in b
    ensures a == b
  {
    if a != [] {
      assert a[0] in b;
    }
    if b != [] {
      assert b[0] in a;
      SameLast(a, b);
      var a', b', l := a[..|a| - 1], b[..|b| - 1], a[|a| - 1];
      assert a == a' + [l] && b == b' + [l];
      assert l !in a' && l !in b';
      forall x ensures x in a' <==> x in b' {
        assert x in a <==> x in a' || x == l;
        assert x in b <==> x in b' || x == l;
      }
      SameElements(a', b');
    }
  }

  lemma {:induction false} StoredIncreasing(dir: Dir, c: Chain)
    requires Stored(dir, c)
    ensures StrictlyIncreasing(Bases(c))
    ensures c.Link? ==> forall b :: b in Bases(c) ==> b <= c.seg.base
  {
    if c.Link? {
      StoredIncreasing(Remove(dir, c.seg.base), c.prev);
      assert forall i :: 0 <= i < Count(c.prev) ==> Bases(c.prev)[i] in Bases(c.prev);
    }
  }

  /** Whatever the listing order, the walk finds exactly the stored segments. */
  lemma ScanRecovers(dir: Dir, c: Chain, names: seq<string>)
    requires Stored(dir, c) && Listing(names, dir)
    ensures Sort(ScanAll(names)) == Bases(c)
  {
    StoredBases(dir, c);
    ScanAllElements(dir, names);
    var found := ScanAll(names);
    forall b ensures b in found <==> b in Bases(c) {
      if b in found {
        assert LogFile(b).base in Bases(c);
      }
      if b in Bases(c) {
        assert LogFile(b).base in found;
      }
    }
    SortSorts(found);
    SortedDistinct(Sort(found));
    StoredIncreasing(dir, c);
    SameElements(Sort(found), Bases(c));
  }

  /** The next offset `new` derives from the active segment's index file. */
  function RecoveredOffset(base: nat, idx: Data): nat {
    if |idx| >= 16 then Get(idx[|idx| - 16..][..8]) + 1 else base
  }

  lemma OffsetRecovers(s: Segment)
    requires s.base + |s.msgs| < U64
    ensures RecoveredOffset(s.base, Index(s.base, s.msgs)) == s.base + |s.msgs|
  {
    if s.msgs != [] {
      var n := |s.msgs| - 1;
      var idx := Index(s.base, s.msgs);
      IndexEntry(s.base, s.msgs, n);
      assert idx[|idx| - 16..][..8] == idx[16 * n..16 * n + 8];
      Widths();
      GetPutFits(s.base + n, 8);
    }
  }
}
