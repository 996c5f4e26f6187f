/**
 The broker's binary searches, each against the linear scan it stands for.
 Indices are naturals, so `mid - 1` never underflows.
 */
module Search {
  import opened Bytes

  predicate Sorted(s: seq<nat>) {
    forall i, j :: 0 <= i < j < |s| ==> s[i] <= s[j]
  }

  /** Linear scan from the back: the last index whose value is at most k. */
  function LastAtMost(s: seq<nat>, k: nat): (r: Option<nat>)
    ensures r.Some? ==> r.value < |s| && s[r.value] <= k && forall j :: r.value < j < |s| ==> s[j] > k
    ensures r.None? ==> forall j :: 0 <= j < |s| ==> s[j] > k
  {
    if s == [] then None
    else if s[|s| - 1] <= k then Some(|s| - 1)
    else LastAtMost(s[..|s| - 1], k)
  }

  /** The search over local segments and the one over cold segments. */
  method SearchLastAtMost(s: seq<nat>, k: nat) returns (r: Option<nat>)
    requires s != [] && Sorted(s)
    ensures r == LastAtMost(s, k)
  {
    var low: nat, high: nat := 0, |s| - 1;
    r := None;
    while low <= high
      invariant low <= high + 1 <= |s|
      invariant forall j :: 0 <= j < low ==> s[j] <= k
      invariant forall j :: high < j < |s| ==> s[j] > k
      invariant r == if low == 0 then None else Some(low - 1)
      decreases high + 1 - low
    {
      var mid := low + (high - low) / 2;
      if s[mid] <= k {
        r := Some(mid);
        low := mid + 1;
      } else {
        assert forall j :: mid <= j < |s| ==> s[j] > k;
        if mid == 0 {
          break;
        }
        high := mid - 1;
      }
    }
    ghost var scan := LastAtMost(s, k);
    assert scan.Some? ==> s[scan.value] <= k;
    assert r.Some? ==> s[r.value] <= k;
  }

  /** Offset stored in entry i of an index file. */
  function EntryOffset(idx: Data, i: nat): nat
    requires 16 * i + 16 <= |idx|
  {
    Get(idx[16 * i..16 * i + 8])
  }

  function EntryPosition(idx: Data, i: nat): nat
    requires 16 * i + 16 <= |idx|
  {
    Get(idx[16 * i + 8..16 * i + 16])
  }

  ghost predicate SortedIndex(idx: Data) {
    forall i, j :: 0 <= i < j < |idx| / 16 ==> EntryOffset(idx, i) <= EntryOffset(idx, j)
  }

  /** Linear scan from entry i: the first entry with offset at least k. */
  function FirstAtLeast(idx: Data, i: nat, k: nat): (r: Option<nat>)
    ensures r.Some? ==> i <= r.value < |idx| / 16 && EntryOffset(idx, r.value) >= k
    ensures r.Some? ==> forall j :: i <= j < r.value ==> EntryOffset(idx, j) < k
    ensures r.None? ==> forall j :: i <= j < |idx| / 16 ==> EntryOffset(idx, j) < k
    decreases |idx| / 16 - i
  {
    if i >= |idx| / 16 then None
    else if EntryOffset(idx, i) >= k then Some(i)
    else FirstAtLeast(idx, i + 1, k)
  }

  /** The search over a segment's index file. */
  method SearchIndex(idx: Data, k: nat) returns (r: Option<nat>)
    requires |idx| / 16 > 0 && SortedIndex(idx)
    ensures r == FirstAtLeast(idx, 0, k)
  {
    var n := |idx| / 16;
    var low: nat, high: nat := 0, n - 1;
    r := None;
    while low <= high
      invariant low <= high + 1 <= n
      invariant forall j :: 0 <= j < low ==> EntryOffset(idx, j) < k
      invariant forall j :: high < j < n ==> EntryOffset(idx, j) >= k
      invariant r == if high + 1 == n then None else Some(high + 1)
      decreases high + 1 - low
    {
      var mid := low + (high - low) / 2;
      if EntryOffset(idx, mid) >= k {
        r := Some(mid);
        assert forall j :: mid <= j < n ==> EntryOffset(idx, j) >= k;
        if mid == 0 {
          break;
        }
        high := mid - 1;
      } else {
        low := mid + 1;
      }
    }
    ghost var scan := FirstAtLeast(idx, 0, k);
    assert scan.Some? ==> EntryOffset(idx, scan.value) >= k;
    assert r.Some? ==> EntryOffset(idx, r.value) >= k;
  }
}
