/**
 What a failover sweep guarantees, for every order in which it visits brokers
 and every fallback it may pick: brokers expiring together, and leaders elected
 early in a sweep that expire later in it, included.
 */
module Failover {
  import opened Bytes
  import opened ClusterState

  // ---- one election ----

  /** First active replica other than the failed broker. */
  function FirstLive(ids: seq<nat>, failed: nat, brokers: Brokers): (r: Option<nat>)
    ensures r.Some? ==> r.value in ids && r.value != failed && IsActive(brokers, r.value)
    ensures r.None? ==> forall id :: id in ids && id != failed ==> !IsActive(brokers, id)
  {
    if ids == [] then None
    else if ids[0] != failed && IsActive(brokers, ids[0]) then Some(ids[0])
    else FirstLive(ids[1..], failed, brokers)
  }

  /** It is the first: everybody listed before it is the failed broker or not active. */
  lemma {:induction false} FirstLiveIsFirst(ids: seq<nat>, failed: nat, brokers: Brokers) returns (i: nat)
    requires FirstLive(ids, failed, brokers).Some?
    ensures i < |ids| && FirstLive(ids, failed, brokers) == Some(ids[i])
    ensures forall j :: 0 <= j < i ==> ids[j] == failed || !(ids[j] in brokers && brokers[ids[j]].active)
  {
    if ids[0] != failed && IsActive(brokers, ids[0]) {
      i := 0;
    } else {
      var k := FirstLiveIsFirst(ids[1..], failed, brokers);
      i := k + 1;
    }
  }

  lemma {:induction false} PickIsFirstLive(ids: seq<nat>, failed: nat, brokers: Brokers)
    ensures PickReplica(ids, failed, brokers) == match FirstLive(ids, failed, brokers) case Some(id) => id case None => 0
  {
    if ids != [] {
      PickIsFirstLive(ids[1..], failed, brokers);
    }
  }

  /** The elected leader is a replica exactly when the first live replica is not
      broker 0, which the code takes for "none found", or the fallback happens to
      be a replica. */
  lemma ElectsReplica(p: Partition, failed: nat, brokers: Brokers, fallback: nat)
    ensures Elected(p, failed, brokers, fallback) in p.replicas <==>
      || (FirstLive(p.replicas, failed, brokers).Some? && FirstLive(p.replicas, failed, brokers).value != 0)
      || fallback in p.replicas
  {
    PickIsFirstLive(p.replicas, failed, brokers);
  }

  lemma ElectsActive(p: Partition, failed: nat, brokers: Brokers, fallback: nat)
    requires IsActive(brokers, fallback)
    ensures IsActive(brokers, Elected(p, failed, brokers, fallback))
  {
    PickIsFirstLive(p.replicas, failed, brokers);
  }

  /** A live replica numbered 0 is passed over for a broker without the data. */
  lemma BrokerZeroPassedOver()
    ensures
      var b0, b1, b2 := Broker(0, [], 0, 0, true), Broker(1, [], 0, 0, true), Broker(2, [], 0, 0, false);
      var brokers := map[0 := b0, 1 := b1, 2 := b2];
      var p := Partition(0, 2, [2, 0], [], 0, map[]);
      IsActive(brokers, 0) && 0 in p.replicas && Elected(p, 2, brokers, 1) == 1 && 1 !in p.replicas
  {
    var brokers := map[0 := Broker(0, [], 0, 0, true), 1 := Broker(1, [], 0, 0, true), 2 := Broker(2, [], 0, 0, false)];
    PickIsFirstLive([2, 0], 2, brokers);
    assert FirstLive([0], 2, brokers) == Some(0);
    assert [2, 0][1..] == [0];
  }

  // ---- a whole sweep ----

  /** A sweep keeps the topics, partitions and replica lists; it moves leaders only. */
  ghost predicate SameShape(topics: Topics, topics': Topics) {
    && topics'.Keys == topics.Keys
    && forall t :: t in topics ==>
         && topics'[t].partitions.Keys == topics[t].partitions.Keys
         && forall q :: q in topics[t].partitions ==>
              topics'[t].partitions[q] == topics[t].partitions[q].(leader := topics'[t].partitions[q].leader)
  }

  lemma VisitShape(s: Cluster, v: Visit, now: int)
    ensures SameShape(s.topics, Visited(s, v, now).topics)
    ensures Visited(s, v, now).groups == s.groups && Visited(s, v, now).offsets == s.offsets
  {
  }

  lemma {:induction false} SweepShape(s: Cluster, visits: seq<Visit>, now: int)
    ensures SameShape(s.topics, Sweep(s, visits, now).topics)
    ensures Sweep(s, visits, now).groups == s.groups && Sweep(s, visits, now).offsets == s.offsets
  {
    if visits != [] {
      var init := visits[..|visits| - 1];
      SweepShape(s, init, now);
      VisitShape(Sweep(s, init, now), visits[|visits| - 1], now);
    }
  }

  /** A sweep changes brokers in one way: the visited expired ones become inactive. */
  lemma {:induction false} SweepBrokers(s: Cluster, visits: seq<Visit>, now: int, id: nat)
    ensures id in Sweep(s, visits, now).brokers <==> id in s.brokers
    ensures id in s.brokers ==>
      Sweep(s, visits, now).brokers[id] == s.brokers[id].(active := s.brokers[id].active && !(Visits(visits, id) && Expired(s.brokers[id], now)))
  {
    if visits != [] {
      var init, l := visits[..|visits| - 1], visits[|visits| - 1];
      SweepBrokers(s, init, now, id);
      SweepBrokers(s, init, now, l.id);
      assert visits == init + [l];
      if Visits(init, id) {
        var i :| 0 <= i < |init| && init[i].id == id;
        assert visits[i].id == id;
      } else if id == l.id {
        assert visits[|init|].id == id;
      } else {
        assert !Visits(visits, id);
      }
    }
  }

  /** Exactly the survivors are active after a full sweep. */
  lemma ActiveAfterSweep(s: Cluster, visits: seq<Visit>, now: int, id: nat)
    requires FullSweep(s, visits, now)
    ensures IsActive(Sweep(s, visits, now).brokers, id) <==> Survives(s, id, now)
  {
    SweepBrokers(s, visits, now, id);
  }

  lemma VisitLeader(s: Cluster, v: Visit, now: int, at: TopicPartition, survivor: nat)
    requires VisitOk(s, v, now) && Survives(s, survivor, now)
    requires Exists(s.topics, at) && IsActive(s.brokers, PartAt(s.topics, at).leader)
    ensures
      var s' := Visited(s, v, now);
      && Exists(s'.topics, at)
      && IsActive(s'.brokers, PartAt(s'.topics, at).leader)
  {
    if Expired(s.brokers[v.id], now) {
      var brokers := Deactivated(s.brokers, v.id);
      assert survivor in ActiveIds(brokers);
      ElectsActive(PartAt(s.topics, at), v.id, brokers, v.fallback);
    }
  }

  /** If any broker survives, a partition led by an active broker is led by an
      active broker after the sweep. */
  lemma {:induction false} LeadersStayActive(s: Cluster, visits: seq<Visit>, now: int, at: TopicPartition, survivor: nat)
    requires SweepOk(s, visits, now) && Survives(s, survivor, now)
    requires Exists(s.topics, at) && IsActive(s.brokers, PartAt(s.topics, at).leader)
    ensures
      var s' := Sweep(s, visits, now);
      && Exists(s'.topics, at)
      && IsActive(s'.brokers, PartAt(s'.topics, at).leader)
  {
    if visits != [] {
      var init := visits[..|visits| - 1];
      LeadersStayActive(s, init, now, at, survivor);
      SweepBrokers(s, init, now, survivor);
      VisitLeader(Sweep(s, init, now), visits[|visits| - 1], now, at, survivor);
    }
  }

  /** And only then: with no survivor every leader is inactive after the sweep. */
  lemma LeaderActiveIff(s: Cluster, visits: seq<Visit>, now: int, at: TopicPartition)
    requires FullSweep(s, visits, now)
    requires Exists(s.topics, at) && IsActive(s.brokers, PartAt(s.topics, at).leader)
    ensures
      var s' := Sweep(s, visits, now);
      && Exists(s'.topics, at)
      && (IsActive(s'.brokers, PartAt(s'.topics, at).leader) <==> exists id :: Survives(s, id, now))
  {
    SweepShape(s, visits, now);
    var s' := Sweep(s, visits, now);
    var leader := PartAt(s'.topics, at).leader;
    ActiveAfterSweep(s, visits, now, leader);
    if id :| Survives(s, id, now) {
      LeadersStayActive(s, visits, now, at, id);
    }
  }

  /** The replicas listed before broker 0. */
  function BeforeZero(ids: seq<nat>): seq<nat> {
    if ids == [] || ids[0] == 0 then [] else [ids[0]] + BeforeZero(ids[1..])
  }

  /** When an election finds broker 0, which the code takes for "none found". */
  lemma {:induction false} FindsZero(ids: seq<nat>, failed: nat, brokers: Brokers)
    ensures FirstLive(ids, failed, brokers) == Some(0) <==>
      && 0 in ids && failed != 0 && IsActive(brokers, 0)
      && forall id :: id in BeforeZero(ids) ==> id == failed || !IsActive(brokers, id)
  {
    if ids != [] && ids[0] != 0 {
      FindsZero(ids[1..], failed, brokers);
      assert ids[0] in BeforeZero(ids);
      assert forall id :: id in BeforeZero(ids) <==> id == ids[0] || id in BeforeZero(ids[1..]);
      assert 0 in ids <==> 0 in ids[1..];
    }
  }

  lemma {:induction false} BeforeZeroIn(ids: seq<nat>, id: nat)
    requires id in BeforeZero(ids)
    ensures id in ids && id != 0
  {
    if id != ids[0] {
      BeforeZeroIn(ids[1..], id);
    }
  }

  /** What one visit does to one partition's leader. */
  lemma VisitMoves(s: Cluster, v: Visit, now: int, at: TopicPartition)
    requires VisitOk(s, v, now) && Exists(s.topics, at)
    ensures Exists(Visited(s, v, now).topics, at)
    ensures
      var p, p' := PartAt(s.topics, at), PartAt(Visited(s, v, now).topics, at);
      p' == if Expired(s.brokers[v.id], now) && p.leader == v.id && ActiveIds(Deactivated(s.brokers, v.id)) != {}
            then p.(leader := Elected(p, v.id, Deactivated(s.brokers, v.id), v.fallback)) else p
  {
  }

  /** A visit that does not come upon broker 0 keeps the leader among the replicas,
      as long as one of them survives. */
  lemma VisitReplica(s: Cluster, v: Visit, now: int, at: TopicPartition, survivor: nat)
    requires VisitOk(s, v, now) && Survives(s, survivor, now) && Exists(s.topics, at)
    requires survivor in PartAt(s.topics, at).replicas && PartAt(s.topics, at).leader in PartAt(s.topics, at).replicas
    requires PartAt(s.topics, at).leader == v.id ==>
      FirstLive(PartAt(s.topics, at).replicas, v.id, Deactivated(s.brokers, v.id)) != Some(0)
    ensures
      var s' := Visited(s, v, now);
      && Exists(s'.topics, at) && PartAt(s'.topics, at).replicas == PartAt(s.topics, at).replicas
      && PartAt(s'.topics, at).leader in PartAt(s.topics, at).replicas
  {
    VisitMoves(s, v, now, at);
    if Expired(s.brokers[v.id], now) {
      var brokers, p := Deactivated(s.brokers, v.id), PartAt(s.topics, at);
      assert IsActive(brokers, survivor) && survivor != v.id;
      ElectsReplica(p, v.id, brokers, v.fallback);
    }
  }

  /** Some replica before broker 0 survives, or broker 0 is out of the question:
      it leads, is no replica or is not active. */
  ghost predicate ZeroHarmless(s: Cluster, p: Partition, now: int) {
    || p.leader == 0 || 0 !in p.replicas || !IsActive(s.brokers, 0)
    || exists id :: id in BeforeZero(p.replicas) && Survives(s, id, now)
  }

  lemma VisitHarmless(s: Cluster, v: Visit, now: int, at: TopicPartition, survivor: nat)
    requires VisitOk(s, v, now) && Survives(s, survivor, now) && Exists(s.topics, at)
    requires survivor in PartAt(s.topics, at).replicas && PartAt(s.topics, at).leader in PartAt(s.topics, at).replicas
    requires ZeroHarmless(s, PartAt(s.topics, at), now)
    ensures
      var s' := Visited(s, v, now);
      && Exists(s'.topics, at) && PartAt(s'.topics, at).replicas == PartAt(s.topics, at).replicas
      && PartAt(s'.topics, at).leader in PartAt(s.topics, at).replicas && ZeroHarmless(s', PartAt(s'.topics, at), now)
  {
    var p, s' := PartAt(s.topics, at), Visited(s, v, now);
    VisitMoves(s, v, now, at);
    if Expired(s.brokers[v.id], now) {
      FindsZero(p.replicas, v.id, Deactivated(s.brokers, v.id));
      if id :| id in BeforeZero(p.replicas) && Survives(s, id, now) {
        assert IsActive(Deactivated(s.brokers, v.id), id) && id != v.id;
        assert Survives(s', id, now);
      }
    }
    if Expired(s.brokers[v.id], now) {
      VisitReplica(s, v, now, at, survivor);
    }
  }

  /** If a replica survives and broker 0 is harmless, a partition led by one of its
      replicas is still led by one of its replicas, for every order of the sweep. */
  lemma {:induction false} LeaderStaysReplica(s: Cluster, visits: seq<Visit>, now: int, at: TopicPartition, survivor: nat)
    requires SweepOk(s, visits, now) && Survives(s, survivor, now) && Exists(s.topics, at)
    requires survivor in PartAt(s.topics, at).replicas && PartAt(s.topics, at).leader in PartAt(s.topics, at).replicas
    requires ZeroHarmless(s, PartAt(s.topics, at), now)
    ensures
      var s' := Sweep(s, visits, now);
      && Exists(s'.topics, at) && PartAt(s'.topics, at).replicas == PartAt(s.topics, at).replicas
      && PartAt(s'.topics, at).leader in PartAt(s.topics, at).replicas && ZeroHarmless(s', PartAt(s'.topics, at), now)
  {
    if visits != [] {
      var init := visits[..|visits| - 1];
      LeaderStaysReplica(s, init, now, at, survivor);
      SweepBrokers(s, init, now, survivor);
      VisitHarmless(Sweep(s, init, now), visits[|visits| - 1], now, at, survivor);
    }
  }

  /** A leader that does not expire is never replaced. */
  lemma {:induction false} LeaderUntouched(s: Cluster, visits: seq<Visit>, now: int, at: TopicPartition)
    requires SweepOk(s, visits, now) && Exists(s.topics, at)
    requires PartAt(s.topics, at).leader in s.brokers ==> !Expired(s.brokers[PartAt(s.topics, at).leader], now)
    ensures Exists(Sweep(s, visits, now).topics, at) && PartAt(Sweep(s, visits, now).topics, at) == PartAt(s.topics, at)
  {
    if visits != [] {
      var init, l := visits[..|visits| - 1], visits[|visits| - 1];
      LeaderUntouched(s, init, now, at);
      SweepBrokers(s, init, now, PartAt(s.topics, at).leader);
      VisitMoves(Sweep(s, init, now), l, now, at);
    }
  }

  // ---- when a sweep can lose the replicas ----

  /** The leader expires, an active broker 0 is in the way, and a broker without
      the data is there to be elected. */
  ghost predicate CanLose(s: Cluster, p: Partition, now: int) {
    && p.leader in s.brokers && Expired(s.brokers[p.leader], now)
    && !ZeroHarmless(s, p, now)
    && exists id :: id !in p.replicas && Survives(s, id, now)
  }

  /** A sweep over some brokers, none of them the partition's leader. */
  lemma {:induction false} SweepOthers(s: Cluster, now: int, ids: set<nat>, x: nat, at: TopicPartition) returns (visits: seq<Visit>)
    requires ids <= s.brokers.Keys && Survives(s, x, now) && Exists(s.topics, at) && PartAt(s.topics, at).leader !in ids
    ensures SweepOk(s, visits, now) && forall id :: Visits(visits, id) <==> id in ids
    ensures Exists(Sweep(s, visits, now).topics, at) && PartAt(Sweep(s, visits, now).topics, at) == PartAt(s.topics, at)
    decreases |ids|
  {
    visits := [];
    if ids != {} {
      var id :| id in ids;
      var init := SweepOthers(s, now, ids - {id}, x, at);
      visits := OneVisit(s, init, now, id, x);
      VisitMoves(Sweep(s, init, now), Visit(id, x), now, at);
    }
  }

  /** A surviving broker can always be the fallback. */
  lemma OneVisit(s: Cluster, init: seq<Visit>, now: int, id: nat, x: nat) returns (visits: seq<Visit>)
    requires SweepOk(s, init, now) && id in s.brokers && Survives(s, x, now)
    ensures visits == init + [Visit(id, x)] && SweepOk(s, visits, now)
    ensures VisitOk(Sweep(s, init, now), Visit(id, x), now)
    ensures Sweep(s, visits, now) == Visited(Sweep(s, init, now), Visit(id, x), now)
    ensures forall i :: Visits(visits, i) <==> Visits(init, i) || i == id
  {
    var m, v := Sweep(s, init, now), Visit(id, x);
    SweepBrokers(s, init, now, id);
    SweepBrokers(s, init, now, x);
    assert Expired(m.brokers[id], now) ==> x in ActiveIds(Deactivated(m.brokers, id));
    SweepSnoc(s, init, v, now);
    visits := init + [v];
    forall i | Visits(visits, i) ensures Visits(init, i) || i == id {
      var k :| 0 <= k < |visits| && visits[k].id == i;
      if k < |init| {
        assert init[k].id == i;
      }
    }
  }

  /** The losing order: everyone but the leader and broker 0, then the leader, whose
      election comes upon broker 0 and falls back to x, then broker 0. */
  lemma LosingSweep(s: Cluster, now: int, at: TopicPartition, x: nat) returns (visits: seq<Visit>)
    requires Exists(s.topics, at) && CanLose(s, PartAt(s.topics, at), now)
    requires x !in PartAt(s.topics, at).replicas && Survives(s, x, now)
    ensures FullSweep(s, visits, now) && Exists(Sweep(s, visits, now).topics, at) && PartAt(Sweep(s, visits, now).topics, at).leader == x
  {
    var p := PartAt(s.topics, at);
    var others := s.brokers.Keys - {p.leader, 0};
    var first := SweepOthers(s, now, others, x, at);
    LeaderLost(s, first, now, at, x);
    var second := OneVisit(s, first, now, p.leader, x);
    VisitMoves(Sweep(s, first, now), Visit(p.leader, x), now, at);
    visits := OneVisit(s, second, now, 0, x);
    VisitMoves(Sweep(s, second, now), Visit(0, x), now, at);
  }

  lemma LeaderLost(s: Cluster, first: seq<Visit>, now: int, at: TopicPartition, x: nat)
    requires SweepOk(s, first, now) && Exists(s.topics, at) && CanLose(s, PartAt(s.topics, at), now)
    requires Survives(s, x, now)
    requires forall id :: Visits(first, id) <==> id in s.brokers && id != PartAt(s.topics, at).leader && id != 0
    ensures
      var p, m := PartAt(s.topics, at), Sweep(s, first, now);
      && p.leader in m.brokers && Expired(m.brokers[p.leader], now)
      && ActiveIds(Deactivated(m.brokers, p.leader)) != {}
      && Elected(p, p.leader, Deactivated(m.brokers, p.leader), x) == x
  {
    var p, m := PartAt(s.topics, at), Sweep(s, first, now);
    SweepBrokers(s, first, now, p.leader);
    SweepBrokers(s, first, now, 0);
    SweepBrokers(s, first, now, x);
    var brokers := Deactivated(m.brokers, p.leader);
    assert x in ActiveIds(brokers);
    forall id | id in BeforeZero(p.replicas) ensures id == p.leader || !IsActive(brokers, id) {
      BeforeZeroIn(p.replicas, id);
      SweepBrokers(s, first, now, id);
      assert !Survives(s, id, now);
    }
    FindsZero(p.replicas, p.leader, brokers);
    PickIsFirstLive(p.replicas, p.leader, brokers);
  }

  /** For a partition led by a replica of which a replica survives: some full sweep
      leaves it with a leader that is no replica if and only if its leader expires,
      broker 0 is an active replica other than the leader with no surviving replica
      listed before it, and a broker that is no replica survives. */
  lemma ReplicaLostIff(s: Cluster, now: int, at: TopicPartition, survivor: nat)
    requires Exists(s.topics, at) && PartAt(s.topics, at).leader in PartAt(s.topics, at).replicas
    requires survivor in PartAt(s.topics, at).replicas && Survives(s, survivor, now)
    ensures CanLose(s, PartAt(s.topics, at), now) <==>
      exists visits :: FullSweep(s, visits, now) && LosesReplica(s, visits, now, at)
  {
    var p := PartAt(s.topics, at);
    if CanLose(s, p, now) {
      var x :| x !in p.replicas && Survives(s, x, now);
      var visits := LosingSweep(s, now, at, x);
      assert LosesReplica(s, visits, now, at);
    }
    if visits :| FullSweep(s, visits, now) && LosesReplica(s, visits, now, at) {
      LostMeansCanLose(s, visits, now, at, survivor);
    }
  }

  ghost predicate LosesReplica(s: Cluster, visits: seq<Visit>, now: int, at: TopicPartition)
    requires Exists(s.topics, at)
  {
    Exists(Sweep(s, visits, now).topics, at) && PartAt(Sweep(s, visits, now).topics, at).leader !in PartAt(s.topics, at).replicas
  }

  lemma LostMeansCanLose(s: Cluster, visits: seq<Visit>, now: int, at: TopicPartition, survivor: nat)
    requires Exists(s.topics, at) && PartAt(s.topics, at).leader in PartAt(s.topics, at).replicas
    requires survivor in PartAt(s.topics, at).replicas && Survives(s, survivor, now)
    requires FullSweep(s, visits, now) && LosesReplica(s, visits, now, at)
    ensures CanLose(s, PartAt(s.topics, at), now)
  {
    var p := PartAt(s.topics, at);
    if !(p.leader in s.brokers && Expired(s.brokers[p.leader], now)) {
      LeaderUntouched(s, visits, now, at);
    } else if ZeroHarmless(s, p, now) {
      LeaderStaysReplica(s, visits, now, at, survivor);
    } else {
      LeadersStayActive(s, visits, now, at, survivor);
      ActiveAfterSweep(s, visits, now, PartAt(Sweep(s, visits, now).topics, at).leader);
    }
  }
}
