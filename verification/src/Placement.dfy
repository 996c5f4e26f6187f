/**
 Round-robin distribution: topic creation places partitions on a ring of active
 brokers, and group rebalancing deals partitions to a ring of members.
 */
module Placement {
  import opened Bytes
  import opened ClusterState

  // ---- taking turns on a ring ----

  /** How many of the turns 0..turns-1 fall to `x`. */
  function Turns<T(==)>(ring: seq<T>, turns: nat, x: T): nat
    requires ring != []
  {
    if turns == 0 then 0
    else Turns(ring, turns - 1, x) + if ring[(turns - 1) % |ring|] == x then 1 else 0
  }

  lemma DivStep(m: nat, n: nat)
    requires n > 0
    ensures m % n + 1 < n ==> (m + 1) / n == m / n && (m + 1) % n == m % n + 1
    ensures m % n + 1 == n ==> (m + 1) / n == m / n + 1 && (m + 1) % n == 0
  {
    if m % n + 1 < n {
      ModUnique(m + 1, n, m / n, m % n + 1);
    } else {
      assert m + 1 == n * (m / n) + n == n * (m / n + 1) + 0;
      ModUnique(m + 1, n, m / n + 1, 0);
    }
  }

  /** On a ring without repetitions position j gets the floor of the average, and
      one more if it is among the first `turns % n`. */
  lemma {:induction false} TurnsFair<T>(ring: seq<T>, turns: nat, j: nat)
    requires ring != [] && NoDup(ring) && j < |ring|
    ensures Turns(ring, turns, ring[j]) == turns / |ring| + if j < turns % |ring| then 1 else 0
  {
    var n := |ring|;
    if turns == 0 {
      ModUnique(0, n, 0, 0);
    } else {
      TurnsFair(ring, turns - 1, j);
      DivStep(turns - 1, n);
      assert ring[(turns - 1) % n] == ring[j] <==> (turns - 1) % n == j;
    }
  }

  // ---- placing partitions ----

  function ReplicasFor(ring: seq<nat>, i: nat, k: nat): (r: seq<nat>)
    requires k <= |ring|
    ensures |r| == k
  {
    if k == 0 then [] else ReplicasFor(ring, i, k - 1) + [ring[(i + (k - 1)) % |ring|]]
  }

  function Placed(ring: seq<nat>, i: nat, factor: nat): Partition {
    var leader := if ring == [] then 0 else ring[i % |ring|];
    var replicas := ReplicasFor(ring, i, Min(factor, |ring|));
    Partition(i, leader, replicas, replicas, 0, map id | id in replicas :: 0)
  }

  function PlacedTopic(name: Data, ring: seq<nat>, count: nat, factor: nat): Topic {
    Topic(name, map i | 0 <= i < count :: Placed(ring, i, factor))
  }

  /** One turn of the placement loop. */
  method PlacePartition(ring: seq<nat>, i: nat, factor: nat) returns (p: Partition)
    ensures p == Placed(ring, i, factor)
  {
    var leader, replicas: seq<nat> := 0, [];
    if |ring| > 0 {
      leader := ring[i % |ring|];
      var r := 0;
      while r < factor && r < |ring|
        invariant r <= Min(factor, |ring|) && replicas == ReplicasFor(ring, i, r)
      {
        replicas := replicas + [ring[(i + r) % |ring|]];
        r := r + 1;
      }
    }
    var offsets: map<nat, int> := map[];
    for j := 0 to |replicas|
      invariant offsets == map id | id in replicas[..j] :: 0
    {
      offsets := offsets[replicas[j] := 0];
    }
    assert replicas[..|replicas|] == replicas;
    p := Partition(i, leader, replicas, replicas, 0, offsets);
  }

  lemma {:induction false} ReplicaAt(ring: seq<nat>, i: nat, k: nat, r: nat)
    requires r < k <= |ring|
    ensures ReplicasFor(ring, i, k)[r] == ring[(i + r) % |ring|]
  {
    if r < k - 1 {
      ReplicaAt(ring, i, k - 1, r);
    }
  }

  lemma TurnsApart(i: nat, a: nat, b: nat, n: nat)
    requires a < b < n
    ensures (i + a) % n != (i + b) % n
  {
    if (i + a) % n == (i + b) % n {
      var q, p := (i + b) / n, (i + a) / n;
      assert n * (q - p) == n * q - n * p == b - a;
      NoMultipleBetween(n, q - p, b - a);
    }
  }

  /** Every partition gets k distinct active replicas, the leader first. */
  lemma PlacedWell(ring: seq<nat>, i: nat, factor: nat)
    requires NoDup(ring)
    ensures
      var p, k := Placed(ring, i, factor), Min(factor, |ring|);
      && |p.replicas| == k && NoDup(p.replicas) && (forall id :: id in p.replicas ==> id in ring)
      && (k > 0 ==> p.replicas[0] == p.leader)
      && (ring != [] ==> p.leader in ring)
  {
    var p, k := Placed(ring, i, factor), Min(factor, |ring|);
    forall a, b | 0 <= a < b < k ensures p.replicas[a] != p.replicas[b] {
      ReplicaAt(ring, i, k, a);
      ReplicaAt(ring, i, k, b);
      TurnsApart(i, a, b, |ring|);
    }
    forall id | id in p.replicas ensures id in ring {
      var r :| 0 <= r < k && p.replicas[r] == id;
      ReplicaAt(ring, i, k, r);
    }
    if k > 0 {
      ReplicaAt(ring, i, k, 0);
    }
  }

  /** How many of the first `count` partitions broker `b` leads. */
  function Led(t: Topic, count: nat, b: nat): nat
    requires forall i :: 0 <= i < count ==> i in t.partitions
  {
    if count == 0 then 0
    else Led(t, count - 1, b) + if t.partitions[count - 1].leader == b then 1 else 0
  }

  lemma {:induction false} LedIsTurns(name: Data, ring: seq<nat>, total: nat, factor: nat, count: nat, b: nat)
    requires ring != [] && count <= total
    ensures Led(PlacedTopic(name, ring, total, factor), count, b) == Turns(ring, count, b)
  {
    if count > 0 {
      LedIsTurns(name, ring, total, factor, count - 1, b);
    }
  }

  /** Each broker leads the floor or the ceiling of the average. */
  lemma LeadershipBalanced(name: Data, ring: seq<nat>, count: nat, factor: nat, j: nat)
    requires NoDup(ring) && j < |ring|
    ensures Led(PlacedTopic(name, ring, count, factor), count, ring[j])
         == count / |ring| + if j < count % |ring| then 1 else 0
  {
    LedIsTurns(name, ring, count, factor, count, ring[j]);
    TurnsFair(ring, count, j);
  }

  function Times<T(==)>(s: seq<T>, x: T): nat {
    if s == [] then 0 else Times(s[..|s| - 1], x) + if s[|s| - 1] == x then 1 else 0
  }

  lemma TimesSnoc<T>(s: seq<T>, y: T, x: T)
    ensures Times(s + [y], x) == Times(s, x) + if y == x then 1 else 0
  {
    assert (s + [y])[..|s|] == s;
  }

  function Sum(s: seq<nat>): nat {
    if s == [] then 0 else Sum(s[..|s| - 1]) + s[|s| - 1]
  }

  lemma {:induction false} SumsAdd(a: seq<nat>, b: seq<nat>, c: seq<nat>)
    requires |a| == |b| == |c| && forall i :: 0 <= i < |a| ==> a[i] == b[i] + c[i]
    ensures Sum(a) == Sum(b) + Sum(c)
  {
    if a != [] {
      SumsAdd(a[..|a| - 1], b[..|b| - 1], c[..|c| - 1]);
    }
  }

  /** How often `b` occurs in some lists. */
  function Copies(lists: seq<seq<nat>>, b: nat): nat {
    if lists == [] then 0 else Copies(lists[..|lists| - 1], b) + Times(lists[|lists| - 1], b)
  }

  /** How many of some lists have `b` at position r. */
  function Column(lists: seq<seq<nat>>, r: nat, b: nat): nat {
    if lists == [] then 0 else
      var l := lists[|lists| - 1];
      Column(lists[..|lists| - 1], r, b) + if r < |l| && l[r] == b then 1 else 0
  }

  /** Where `b` is in one list. */
  lemma {:induction false} Marks(l: seq<nat>, b: nat) returns (t: seq<nat>)
    ensures |t| == |l| && Sum(t) == Times(l, b)
    ensures forall r :: 0 <= r < |l| ==> t[r] == if l[r] == b then 1 else 0
  {
    t := [];
    if l != [] {
      var init := Marks(l[..|l| - 1], b);
      t := init + [if l[|l| - 1] == b then 1 else 0];
      assert t[..|t| - 1] == init;
    }
  }

  lemma {:induction false} NoMarks(k: nat) returns (t: seq<nat>)
    ensures |t| == k && Sum(t) == 0 && forall r :: 0 <= r < k ==> t[r] == 0
  {
    t := [];
    if k > 0 {
      var init := NoMarks(k - 1);
      t := init + [0];
      assert t[..|t| - 1] == init;
    }
  }

  /** Occurrences counted position by position. */
  lemma {:induction false} ByColumn(lists: seq<seq<nat>>, k: nat, b: nat) returns (t: seq<nat>)
    requires forall i :: 0 <= i < |lists| ==> |lists[i]| == k
    ensures |t| == k && Copies(lists, b) == Sum(t)
    ensures forall r :: 0 <= r < k ==> t[r] == Column(lists, r, b)
    decreases |lists|
  {
    if lists == [] {
      t := NoMarks(k);
    } else {
      var before := ByColumn(lists[..|lists| - 1], k, b);
      var marks := Marks(lists[|lists| - 1], b);
      t := seq(k, r requires 0 <= r < k => before[r] + marks[r]);
      SumsAdd(t, before, marks);
    }
  }

  /** The replica lists of the first `count` partitions. */
  function AllReplicas(ring: seq<nat>, count: nat, k: nat): (lists: seq<seq<nat>>)
    requires k <= |ring|
    ensures |lists| == count && forall i :: 0 <= i < count ==> |lists[i]| == k
  {
    if count == 0 then [] else AllReplicas(ring, count - 1, k) + [ReplicasFor(ring, count - 1, k)]
  }

  /** How many of the first `count` partitions have `b` as replica number r. */
  function SlotTurns(ring: seq<nat>, count: nat, r: nat, b: nat): nat
    requires ring != []
  {
    if count == 0 then 0 else SlotTurns(ring, count - 1, r, b) + if SlotAt(ring, count - 1, r) == b then 1 else 0
  }

  lemma {:induction false} ColumnIsTurns(ring: seq<nat>, count: nat, k: nat, r: nat, b: nat)
    requires r < k <= |ring|
    ensures Column(AllReplicas(ring, count, k), r, b) == SlotTurns(ring, count, r, b)
    decreases count
  {
    if count > 0 {
      ColumnIsTurns(ring, count - 1, k, r, b);
      ReplicaAt(ring, count - 1, k, r);
      var lists := AllReplicas(ring, count, k);
      assert lists[..|lists| - 1] == AllReplicas(ring, count - 1, k);
    }
  }

  /** Replica number r of partition i. */
  function SlotAt(ring: seq<nat>, i: nat, r: nat): nat
    requires ring != []
  {
    ring[(i + r) % |ring|]
  }

  lemma {:induction false} SlotTurnsShift(ring: seq<nat>, count: nat, r: nat, b: nat)
    requires ring != []
    ensures SlotTurns(ring, count, r, b) == Turns(ring, count + r, b) - Turns(ring, r, b)
  {
    if count > 0 {
      SlotTurnsShift(ring, count - 1, r, b);
    }
  }

  lemma SlotTurnsBounds(ring: seq<nat>, count: nat, r: nat, j: nat)
    requires NoDup(ring) && j < |ring| && r < |ring|
    ensures count / |ring| <= SlotTurns(ring, count, r, ring[j]) <= (count + (|ring| - 1)) / |ring|
  {
    var n := |ring|;
    SlotTurnsShift(ring, count, r, ring[j]);
    TurnsFair(ring, count + r, j);
    TurnsFair(ring, r, j);
    ModUnique(r, n, 0, r);
    ShiftBounds(count, r, n, j);
  }

  lemma DivAdd(count: nat, r: nat, n: nat)
    requires r < n
    ensures count % n + r < n ==> (count + r) / n == count / n && (count + r) % n == count % n + r
    ensures count % n + r >= n ==> (count + r) / n == count / n + 1 && (count + r) % n == count % n + r - n
  {
    var q, m := count / n, count % n;
    assert count == n * q + m;
    if m + r < n {
      ModUnique(count + r, n, q, m + r);
    } else {
      assert n * (q + 1) == n * q + n;
      ModUnique(count + r, n, q + 1, m + r - n);
    }
  }

  lemma ShiftBounds(count: nat, r: nat, n: nat, j: nat)
    requires r < n && j < n
    ensures
      var d := (count + r) / n + (if j < (count + r) % n then 1 else 0) - (if j < r then 1 else 0);
      count / n <= d <= (count + (n - 1)) / n
  {
    DivAdd(count, r, n);
    DivAdd(count, n - 1, n);
    assert 0 <= count % n < n;
  }

  lemma {:induction false} SumBetween(t: seq<nat>, lo: nat, hi: nat)
    requires forall r :: 0 <= r < |t| ==> lo <= t[r] <= hi
    ensures |t| * lo <= Sum(t) <= |t| * hi
  {
    if t != [] {
      SumBetween(t[..|t| - 1], lo, hi);
      MulStep(|t|, lo);
      MulStep(|t|, hi);
    }
  }

  lemma MulStep(k: nat, x: nat)
    requires k > 0
    ensures k * x == (k - 1) * x + x
  {
  }

  /** Each broker holds between k times the floor and k times the ceiling of the
      average number of partitions in replica slots. */
  lemma SlotsBalanced(ring: seq<nat>, count: nat, k: nat, j: nat, lo: nat, hi: nat)
    requires NoDup(ring) && j < |ring| && k <= |ring|
    requires lo == count / |ring| && hi == (count + (|ring| - 1)) / |ring|
    ensures k * lo <= Copies(AllReplicas(ring, count, k), ring[j]) <= k * hi
  {
    var t := ByColumn(AllReplicas(ring, count, k), k, ring[j]);
    forall r | 0 <= r < k ensures lo <= t[r] <= hi {
      ColumnIsTurns(ring, count, k, r, ring[j]);
      SlotTurnsBounds(ring, count, r, j);
    }
    SumBetween(t, lo, hi);
  }

  /** These are the replica lists of the topic placed. */
  lemma {:induction false} AllReplicasPlaced(name: Data, ring: seq<nat>, total: nat, factor: nat, count: nat, i: nat)
    requires i < count <= total
    ensures AllReplicas(ring, count, Min(factor, |ring|))[i] == PlacedTopic(name, ring, total, factor).partitions[i].replicas
    decreases count
  {
    if i < count - 1 {
      AllReplicasPlaced(name, ring, total, factor, count - 1, i);
    }
  }
}
