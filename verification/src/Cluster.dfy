/**
 The controller's replicated state and what its commands mean.  Clock readings
 are inputs.  Where the program iterates over a map, the order is an input too,
 so that every statement holds for all orders.
 */
module ClusterState {
  import opened Bytes

  /** A broker silent for longer than this is expired; 8 seconds in nanoseconds. */
  const TIMEOUT: int := 8_000_000_000
  /** A replica at most this many messages behind the leader is in sync. */
  const MAX_LAG: int := 10

  datatype Broker = Broker(id: nat, host: Data, port: int, lastSeen: int, active: bool)

  datatype Partition = Partition(
    id: nat,
    leader: nat,
    replicas: seq<nat>,
    isr: seq<nat>,
    hw: int,
    offsets: map<nat, int>)

  datatype Topic = Topic(name: Data, partitions: map<nat, Partition>)
  datatype Member = Member(id: Data, topics: seq<Data>, lastSeen: int)
  datatype TopicPartition = TopicPartition(topic: Data, partition: nat)
  datatype Group = Group(id: Data, generation: nat, members: map<Data, Member>, assignments: map<Data, seq<TopicPartition>>)

  type Brokers = map<nat, Broker>
  type Topics = map<Data, Topic>

  datatype Cluster = Cluster(brokers: Brokers, topics: Topics, groups: map<Data, Group>, offsets: map<Data, int>)

  predicate Exists(topics: Topics, at: TopicPartition) {
    at.topic in topics && at.partition in topics[at.topic].partitions
  }

  function PartAt(topics: Topics, at: TopicPartition): Partition
    requires Exists(topics, at)
  {
    topics[at.topic].partitions[at.partition]
  }

  const EMPTY := Cluster(map[], map[], map[], map[])

  predicate IsActive(brokers: Brokers, id: nat) {
    id in brokers && brokers[id].active
  }

  function ActiveIds(brokers: Brokers): set<nat> {
    set id | id in brokers && brokers[id].active
  }

  // ---- in-sync replicas and high watermark ----

  predicate Alive(brokers: Brokers, id: nat, now: int) {
    IsActive(brokers, id) && now - brokers[id].lastSeen <= TIMEOUT
  }

  function OffsetOf(p: Partition, id: nat): int {
    if id in p.offsets then p.offsets[id] else 0
  }

  predicate Follows(p: Partition, brokers: Brokers, now: int, id: nat) {
    id != p.leader && Alive(brokers, id, now) && OffsetOf(p, p.leader) - OffsetOf(p, id) <= MAX_LAG
  }

  function InSyncFollowers(p: Partition, brokers: Brokers, now: int, ids: seq<nat>): seq<nat> {
    if ids == [] then [] else
      var r := InSyncFollowers(p, brokers, now, ids[..|ids| - 1]);
      if Follows(p, brokers, now, ids[|ids| - 1]) then r + [ids[|ids| - 1]] else r
  }

  function IsrOf(p: Partition, brokers: Brokers, now: int): seq<nat> {
    (if Alive(brokers, p.leader, now) then [p.leader] else []) + InSyncFollowers(p, brokers, now, p.replicas)
  }

  function LeastOffset(p: Partition, ids: seq<nat>): int
    requires ids != []
  {
    var off := OffsetOf(p, ids[|ids| - 1]);
    if |ids| == 1 then off else
      var m := LeastOffset(p, ids[..|ids| - 1]);
      if off < m then off else m
  }

  function HwOf(p: Partition, isr: seq<nat>): int {
    if isr == [] then 0 else LeastOffset(p, isr)
  }

  function Refreshed(p: Partition, brokers: Brokers, now: int): Partition {
    p.(isr := IsrOf(p, brokers, now), hw := HwOf(p, IsrOf(p, brokers, now)))
  }

  function RefreshedTopic(t: Topic, brokers: Brokers, now: int): Topic {
    t.(partitions := map q | q in t.partitions :: Refreshed(t.partitions[q], brokers, now))
  }

  function RefreshedTopics(topics: Topics, brokers: Brokers, now: int): Topics {
    map t | t in topics :: RefreshedTopic(topics[t], brokers, now)
  }

  /** What every reachable controller state says about a partition. */
  ghost predicate IsrOk(p: Partition, brokers: Brokers) {
    && NoDup(p.isr)
    && (forall id :: id in p.isr ==> (id == p.leader || id in p.replicas) && IsActive(brokers, id))
    && (forall id :: id in p.isr ==> OffsetOf(p, p.leader) - OffsetOf(p, id) <= MAX_LAG)
    && p.hw == HwOf(p, p.isr)
  }

  lemma {:induction false} FollowersSound(p: Partition, brokers: Brokers, now: int, ids: seq<nat>)
    ensures forall id :: id in InSyncFollowers(p, brokers, now, ids) <==> id in ids && Follows(p, brokers, now, id)
    ensures NoDup(ids) ==> NoDup(InSyncFollowers(p, brokers, now, ids))
  {
    if ids != [] {
      var init, l := ids[..|ids| - 1], ids[|ids| - 1];
      FollowersSound(p, brokers, now, init);
      assert ids == init + [l];
      if NoDup(ids) {
        assert l !in init;
      }
    }
  }

  lemma {:induction false} LeastIsLeast(p: Partition, ids: seq<nat>)
    requires ids != []
    ensures forall id :: id in ids ==> LeastOffset(p, ids) <= OffsetOf(p, id)
    ensures exists id :: id in ids && LeastOffset(p, ids) == OffsetOf(p, id)
  {
    var init, l := ids[..|ids| - 1], ids[|ids| - 1];
    assert ids == init + [l];
    if init != [] {
      LeastIsLeast(p, init);
      var id :| id in init && LeastOffset(p, init) == OffsetOf(p, id);
      assert id in ids && l in ids;
    } else {
      assert l in ids;
    }
  }

  /** Refreshing establishes the ISR invariant whatever the state before. */
  lemma RefreshedOk(p: Partition, brokers: Brokers, now: int)
    requires NoDup(p.replicas)
    ensures IsrOk(Refreshed(p, brokers, now), brokers)
    ensures forall id :: id in Refreshed(p, brokers, now).isr <==>
      (id == p.leader && Alive(brokers, id, now)) || (id in p.replicas && Follows(p, brokers, now, id))
  {
    FollowersSound(p, brokers, now, p.replicas);
    var fs, isr := InSyncFollowers(p, brokers, now, p.replicas), IsrOf(p, brokers, now);
    assert forall id :: id in isr <==> (id == p.leader && Alive(brokers, id, now)) || id in fs;
    assert p.leader !in fs;
    assert forall ids, id :: OffsetOf(p.(isr := ids), id) == OffsetOf(p, id);
    SameLeast(p, Refreshed(p, brokers, now), isr);
  }

  lemma {:induction false} SameLeast(p: Partition, q: Partition, ids: seq<nat>)
    requires p.offsets == q.offsets
    ensures HwOf(p, ids) == HwOf(q, ids)
  {
    if |ids| > 1 {
      SameLeast(p, q, ids[..|ids| - 1]);
    }
  }

  /** What the invariant says about the watermark: it is the least in-sync offset,
      within the lag limit below the leader and not above it. */
  lemma WatermarkBounds(p: Partition, brokers: Brokers)
    requires IsrOk(p, brokers)
    ensures p.isr == [] ==> p.hw == 0
    ensures forall id :: id in p.isr ==> p.hw <= OffsetOf(p, id)
    ensures p.isr != [] ==> exists id :: id in p.isr && p.hw == OffsetOf(p, id)
    ensures p.isr != [] ==> p.hw >= OffsetOf(p, p.leader) - MAX_LAG
    ensures p.leader in p.isr ==> p.hw <= OffsetOf(p, p.leader)
  {
    if p.isr != [] {
      LeastIsLeast(p, p.isr);
    }
  }

  // ---- failover ----

  /** First replica that is active and not the failed broker; 0 stands for none. */
  function PickReplica(ids: seq<nat>, failed: nat, brokers: Brokers): nat {
    if ids == [] then 0
    else if ids[0] != failed && IsActive(brokers, ids[0]) then ids[0]
    else PickReplica(ids[1..], failed, brokers)
  }

  function Elected(p: Partition, failed: nat, brokers: Brokers, fallback: nat): nat {
    var pick := PickReplica(p.replicas, failed, brokers);
    if pick == 0 then fallback else pick
  }

  function FailedOver(p: Partition, failed: nat, brokers: Brokers, fallback: nat): Partition {
    if p.leader == failed then p.(leader := Elected(p, failed, brokers, fallback)) else p
  }

  function FailedOverTopic(t: Topic, failed: nat, brokers: Brokers, fallback: nat): Topic {
    t.(partitions := map q | q in t.partitions :: FailedOver(t.partitions[q], failed, brokers, fallback))
  }

  function FailedOverTopics(topics: Topics, failed: nat, brokers: Brokers, fallback: nat): Topics {
    map t | t in topics :: FailedOverTopic(topics[t], failed, brokers, fallback)
  }

  predicate Expired(b: Broker, now: int) {
    b.active && now - b.lastSeen > TIMEOUT
  }

  /** The sweep looks at broker `id`; `fallback` heads the list of active brokers
      the failover of that broker would fall back to. */
  datatype Visit = Visit(id: nat, fallback: nat)

  function Deactivated(brokers: Brokers, id: nat): Brokers
    requires id in brokers
  {
    brokers[id := brokers[id].(active := false)]
  }

  function Visited(s: Cluster, v: Visit, now: int): Cluster {
    if v.id !in s.brokers || !Expired(s.brokers[v.id], now) then s else
      var brokers := Deactivated(s.brokers, v.id);
      s.(brokers := brokers,
         topics := if ActiveIds(brokers) == {} then s.topics
                   else FailedOverTopics(s.topics, v.id, brokers, v.fallback))
  }

  predicate VisitOk(s: Cluster, v: Visit, now: int) {
    && v.id in s.brokers
    && (Expired(s.brokers[v.id], now) ==>
          var active := ActiveIds(Deactivated(s.brokers, v.id));
          active != {} ==> v.fallback in active)
  }

  function Sweep(s: Cluster, visits: seq<Visit>, now: int): Cluster {
    if visits == [] then s else Visited(Sweep(s, visits[..|visits| - 1], now), visits[|visits| - 1], now)
  }

  predicate SweepOk(s: Cluster, visits: seq<Visit>, now: int) {
    visits != [] ==>
      && SweepOk(s, visits[..|visits| - 1], now)
      && VisitOk(Sweep(s, visits[..|visits| - 1], now), visits[|visits| - 1], now)
  }

  predicate Visits(visits: seq<Visit>, id: nat) {
    exists i :: 0 <= i < |visits| && visits[i].id == id
  }

  /** A sweep visits every broker. */
  predicate FullSweep(s: Cluster, visits: seq<Visit>, now: int) {
    && SweepOk(s, visits, now)
    && forall id :: id in s.brokers ==> Visits(visits, id)
  }

  /** Active, and not expired at the time of the sweep. */
  predicate Survives(s: Cluster, id: nat, now: int) {
    id in s.brokers && s.brokers[id].active && !Expired(s.brokers[id], now)
  }

  lemma SweepSnoc(s: Cluster, visits: seq<Visit>, v: Visit, now: int)
    requires SweepOk(s, visits, now) && VisitOk(Sweep(s, visits, now), v, now)
    ensures SweepOk(s, visits + [v], now)
    ensures Sweep(s, visits + [v], now) == Visited(Sweep(s, visits, now), v, now)
    ensures forall id :: Visits(visits, id) || id == v.id ==> Visits(visits + [v], id)
  {
    assert (visits + [v])[..|visits|] == visits;
    forall id | Visits(visits, id) || id == v.id ensures Visits(visits + [v], id) {
      if id == v.id {
        assert (visits + [v])[|visits|].id == id;
      } else {
        var i :| 0 <= i < |visits| && visits[i].id == id;
        assert (visits + [v])[i].id == id;
      }
    }
  }
}
