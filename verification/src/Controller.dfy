/**
 The controller's state machine: the step each command makes, the machine that
 makes it, and what holds in every reachable state.
 */
module Controller {
  import opened Bytes
  import opened ClusterState
  import opened Placement
  import opened Groups
  import opened OffsetKeys

  datatype Report = Report(topic: Data, partition: nat, offset: int)

  /** A command with the clock readings its application makes. */
  datatype Command =
    | RegisterBroker(id: nat, host: Data, port: int, now: int)
    | BrokerHeartbeat(id: nat, reports: seq<Report>, now: int, later: int)
    | CreateTopic(name: Data, partitions: nat, factor: nat, now: int)
    | JoinConsumerGroup(group: Data, member: Data, topics: seq<Data>, now: int)
    | CommitOffset(group: Data, topic: Data, partition: nat, offset: int)
    | CleanInactive(now: int, later: int)

  // ---- the steps ----

  function Registered(s: Cluster, id: nat, host: Data, port: int, now: int): Cluster {
    s.(brokers := s.brokers[id := Broker(id, host, port, now, true)])
  }

  function ReportedOne(topics: Topics, id: nat, r: Report): Topics {
    if r.topic in topics && r.partition in topics[r.topic].partitions then
      var t := topics[r.topic];
      var p := t.partitions[r.partition];
      topics[r.topic := t.(partitions := t.partitions[r.partition := p.(offsets := p.offsets[id := r.offset])])]
    else
      topics
  }

  function Reported(topics: Topics, id: nat, reports: seq<Report>): Topics {
    if reports == [] then topics
    else ReportedOne(Reported(topics, id, reports[..|reports| - 1]), id, reports[|reports| - 1])
  }

  function Seen(brokers: Brokers, id: nat, now: int): Brokers {
    if id in brokers then brokers[id := brokers[id].(lastSeen := now, active := true)] else brokers
  }

  function Beaten(s: Cluster, id: nat, reports: seq<Report>, now: int, later: int): Cluster {
    var brokers := Seen(s.brokers, id, now);
    s.(brokers := brokers, topics := RefreshedTopics(Reported(s.topics, id, reports), brokers, later))
  }

  /** `ring` lists the active brokers in some order. */
  ghost predicate Ring(ring: seq<nat>, brokers: Brokers) {
    NoDup(ring) && forall id :: id in ring <==> IsActive(brokers, id)
  }

  function Created(s: Cluster, name: Data, count: nat, factor: nat, ring: seq<nat>, now: int): Cluster {
    s.(topics := RefreshedTopics(s.topics[name := PlacedTopic(name, ring, count, factor)], s.brokers, now))
  }

  function WithMember(s: Cluster, group: Data, member: Data, topics: seq<Data>, now: int): Group {
    var g := if group in s.groups then s.groups[group] else Group(group, 0, map[], map[]);
    g.(members := g.members[member := Member(member, topics, now)])
  }

  function Joined(s: Cluster, group: Data, g: Group, assignments: map<Data, seq<TopicPartition>>): Cluster {
    s.(groups := s.groups[group := g.(generation := (g.generation + 1) % U32, assignments := assignments)])
  }

  ghost predicate Next(s: Cluster, c: Command, s': Cluster) {
    match c
    case RegisterBroker(id, host, port, now) => s' == Registered(s, id, host, port, now)
    case BrokerHeartbeat(id, reports, now, later) => s' == Beaten(s, id, reports, now, later)
    case CreateTopic(name, count, factor, now) =>
      if name in s.topics then s' == s
      else exists ring :: Ring(ring, s.brokers) && s' == Created(s, name, count, factor, ring, now)
    case JoinConsumerGroup(group, member, topics, now) =>
      var g := WithMember(s, group, member, topics, now);
      exists order, a :: Dealt(g.members, order, s.topics, a) && s' == Joined(s, group, g, a)
    case CommitOffset(group, topic, partition, offset) =>
      s' == s.(offsets := s.offsets[Key(group, topic, partition) := offset])
    case CleanInactive(now, later) =>
      exists visits :: FullSweep(s, visits, now) && s' == Swept(s, visits, now, later)
  }

  function Swept(s: Cluster, visits: seq<Visit>, now: int, later: int): Cluster {
    var s' := Sweep(s, visits, now);
    s'.(topics := RefreshedTopics(s'.topics, s'.brokers, later))
  }

  // ---- the loops over partitions ----

  method CollectIsr(p: Partition, brokers: Brokers, now: int) returns (isr: seq<nat>)
    ensures isr == IsrOf(p, brokers, now)
  {
    var leaderOffset := OffsetOf(p, p.leader);
    isr := if Alive(brokers, p.leader, now) then [p.leader] else [];
    ghost var head := isr;
    for i := 0 to |p.replicas|
      invariant isr == head + InSyncFollowers(p, brokers, now, p.replicas[..i])
    {
      var id := p.replicas[i];
      assert p.replicas[..i + 1][..i] == p.replicas[..i];
      if id == p.leader || !Alive(brokers, id, now) {
        continue;
      }
      if leaderOffset - OffsetOf(p, id) <= MAX_LAG {
        isr := isr + [id];
      }
    }
    assert p.replicas[..|p.replicas|] == p.replicas;
  }

  method ComputeHw(p: Partition, isr: seq<nat>) returns (hw: int)
    ensures hw == HwOf(p, isr)
  {
    hw := 0;
    for i := 0 to |isr|
      invariant hw == HwOf(p, isr[..i])
    {
      assert isr[..i + 1][..i] == isr[..i];
      var off := OffsetOf(p, isr[i]);
      if i == 0 || off < hw {
        hw := off;
      }
    }
    assert isr[..|isr|] == isr;
  }

  /** ISR and watermark of one partition. */
  method RefreshPartition(p: Partition, brokers: Brokers, now: int) returns (p': Partition)
    ensures p' == Refreshed(p, brokers, now)
  {
    var isr := CollectIsr(p, brokers, now);
    var hw := ComputeHw(p, isr);
    p' := p.(isr := isr, hw := hw);
  }

  method RefreshTopic(t: Topic, brokers: Brokers, now: int) returns (t': Topic)
    ensures t' == RefreshedTopic(t, brokers, now)
  {
    var done: map<nat, Partition> := map[];
    var todo := t.partitions.Keys;
    while todo != {}
      invariant todo <= t.partitions.Keys && done.Keys == t.partitions.Keys - todo
      invariant forall q :: q in done ==> done[q] == Refreshed(t.partitions[q], brokers, now)
    {
      var q :| q in todo;
      var p := RefreshPartition(t.partitions[q], brokers, now);
      done, todo := done[q := p], todo - {q};
    }
    t' := t.(partitions := done);
  }

  /** Election of one partition's leader. */
  method ElectLeader(p: Partition, failed: nat, brokers: Brokers, fallback: nat) returns (p': Partition)
    ensures p' == FailedOver(p, failed, brokers, fallback)
  {
    p' := p;
    if p.leader == failed {
      var newLeader := 0;
      var i := 0;
      while i < |p.replicas|
        invariant i <= |p.replicas|
        invariant PickReplica(p.replicas, failed, brokers) == PickReplica(p.replicas[i..], failed, brokers)
        invariant newLeader == 0
      {
        var id := p.replicas[i];
        assert p.replicas[i..][1..] == p.replicas[i + 1..];
        if id != failed && IsActive(brokers, id) {
          newLeader := id;
          break;
        }
        i := i + 1;
      }
      if newLeader == 0 {
        newLeader := fallback;
      }
      p' := p.(leader := newLeader);
    }
  }

  method FailOverTopic(t: Topic, failed: nat, brokers: Brokers, fallback: nat) returns (t': Topic)
    ensures t' == FailedOverTopic(t, failed, brokers, fallback)
  {
    var done: map<nat, Partition> := map[];
    var todo := t.partitions.Keys;
    while todo != {}
      invariant todo <= t.partitions.Keys && done.Keys == t.partitions.Keys - todo
      invariant forall q :: q in done ==> done[q] == FailedOver(t.partitions[q], failed, brokers, fallback)
    {
      var q :| q in todo;
      var p := ElectLeader(t.partitions[q], failed, brokers, fallback);
      done, todo := done[q := p], todo - {q};
    }
    t' := t.(partitions := done);
  }

  // ---- the machine ----

  class FSM {
    var brokers: Brokers
    var topics: Topics
    var groups: map<Data, Group>
    var offsets: map<Data, int>

    ghost function State(): Cluster
      reads this
    {
      Cluster(brokers, topics, groups, offsets)
    }

    ghost predicate Valid()
      reads this`brokers
    {
      forall id :: id in brokers ==> brokers[id].id == id
    }

    constructor ()
      ensures Valid() && State() == EMPTY
    {
      brokers, topics, groups, offsets := map[], map[], map[], map[];
    }

    method ActiveBrokerIds() returns (ids: seq<nat>)
      ensures Ring(ids, brokers)
    {
      ids := [];
      var todo := brokers.Keys;
      while todo != {}
        invariant todo <= brokers.Keys && NoDup(ids)
        invariant forall id :: id in ids <==> IsActive(brokers, id) && id !in todo
      {
        var id :| id in todo;
        if brokers[id].active {
          ids := ids + [id];
        }
        todo := todo - {id};
      }
    }

    method UpdateIsrAndHw(now: int)
      modifies this`topics
      ensures topics == RefreshedTopics(old(topics), brokers, now)
    {
      var todo := topics.Keys;
      while todo != {}
        invariant todo <= old(topics).Keys && topics.Keys == old(topics).Keys
        invariant forall t :: t in topics ==>
          topics[t] == if t in todo then old(topics)[t] else RefreshedTopic(old(topics)[t], brokers, now)
      {
        var name :| name in todo;
        var topic := RefreshTopic(topics[name], brokers, now);
        topics, todo := topics[name := topic], todo - {name};
      }
    }

    method HandleBrokerFailure(failed: nat) returns (ghost fallback: nat)
      modifies this`topics
      ensures topics == if ActiveIds(brokers) == {} then old(topics) else FailedOverTopics(old(topics), failed, brokers, fallback)
      ensures ActiveIds(brokers) != {} ==> fallback in ActiveIds(brokers)
    {
      fallback := 0;
      var active := ActiveBrokerIds();
      if active == [] {
        assert forall id :: id in ActiveIds(brokers) ==> id in active;
        return;
      }
      var head := active[0];
      assert head in active && head in ActiveIds(brokers);
      fallback := head;
      var todo := topics.Keys;
      while todo != {}
        invariant todo <= old(topics).Keys && topics.Keys == old(topics).Keys
        invariant forall t :: t in topics ==>
          topics[t] == if t in todo then old(topics)[t] else FailedOverTopic(old(topics)[t], failed, brokers, head)
      {
        var name :| name in todo;
        var topic := FailOverTopic(topics[name], failed, brokers, head);
        topics, todo := topics[name := topic], todo - {name};
      }
    }

    /** The inactivity sweep. */
    method SweepInactive(now: int) returns (ghost visits: seq<Visit>)
      requires Valid()
      modifies this`brokers, this`topics
      ensures Valid() && FullSweep(old(State()), visits, now) && State() == Sweep(old(State()), visits, now)
    {
      visits := [];
      var todo := brokers.Keys;
      while todo != {}
        invariant Valid() && brokers.Keys == old(brokers).Keys && todo <= brokers.Keys
        invariant SweepOk(old(State()), visits, now) && State() == Sweep(old(State()), visits, now)
        invariant forall id :: id in brokers && id !in todo ==> Visits(visits, id)
      {
        var id :| id in todo;
        ghost var before := State();
        ghost var fallback := 0;
        if Expired(brokers[id], now) {
          brokers := brokers[id := brokers[id].(active := false)];
          fallback := HandleBrokerFailure(brokers[id].id);
        }
        ghost var v := Visit(id, fallback);
        assert VisitOk(before, v, now) && State() == Visited(before, v, now);
        SweepSnoc(old(State()), visits, v, now);
        visits, todo := visits + [v], todo - {id};
      }
    }

    method RecordReports(id: nat, reports: seq<Report>)
      modifies this`topics
      ensures topics == Reported(old(topics), id, reports)
    {
      for i := 0 to |reports|
        invariant topics == Reported(old(topics), id, reports[..i])
      {
        var r := reports[i];
        assert reports[..i + 1][..i] == reports[..i];
        if r.topic in topics && r.partition in topics[r.topic].partitions {
          var t := topics[r.topic];
          var p := t.partitions[r.partition];
          topics := topics[r.topic := t.(partitions := t.partitions[r.partition := p.(offsets := p.offsets[id := r.offset])])];
        }
      }
      assert reports[..|reports|] == reports;
    }

    method PlaceTopic(name: Data, count: nat, factor: nat) returns (t: Topic, ghost ring: seq<nat>)
      ensures Ring(ring, brokers) && t == PlacedTopic(name, ring, count, factor)
    {
      var active := ActiveBrokerIds();
      ring := active;
      var partitions: map<nat, Partition> := map[];
      for i := 0 to count
        invariant partitions == map q | 0 <= q < i :: Placed(active, q, factor)
      {
        var p := PlacePartition(active, i, factor);
        partitions := partitions[i := p];
      }
      t := Topic(name, partitions);
    }

    /** Applies one command. */
    method Apply(c: Command)
      requires Valid()
      modifies this
      ensures Valid() && Next(old(State()), c, State())
    {
      match c
      case RegisterBroker(id, host, port, now) =>
        brokers := brokers[id := Broker(id, host, port, now, true)];
      case BrokerHeartbeat(id, reports, now, later) =>
        if id in brokers {
          brokers := brokers[id := brokers[id].(lastSeen := now, active := true)];
        }
        RecordReports(id, reports);
        UpdateIsrAndHw(later);
      case CreateTopic(name, count, factor, now) =>
        if name !in topics {
          var t;
          ghost var ring;
          t, ring := PlaceTopic(name, count, factor);
          topics := topics[name := t];
          UpdateIsrAndHw(now);
          assert Ring(ring, brokers) && State() == Created(old(State()), name, count, factor, ring, now);
        }
      case JoinConsumerGroup(group, member, list, now) =>
        var g := if group in groups then groups[group] else Group(group, 0, map[], map[]);
        g := g.(members := g.members[member := Member(member, list, now)]);
        assert g == WithMember(old(State()), group, member, list, now);
        var a;
        ghost var order;
        a, order := Deal(g.members, topics);
        groups := groups[group := g.(generation := (g.generation + 1) % U32, assignments := a)];
        assert Dealt(g.members, order, topics, a) && State() == Joined(old(State()), group, g, a);
      case CommitOffset(group, topic, partition, offset) =>
        offsets := offsets[Key(group, topic, partition) := offset];
      case CleanInactive(now, later) =>
        ghost var visits := SweepInactive(now);
        UpdateIsrAndHw(later);
        assert FullSweep(old(State()), visits, now) && State() == Swept(old(State()), visits, now, later);
    }

    method GetOffset(group: Data, topic: Data, partition: nat) returns (r: int)
      ensures r == OffsetIn(State(), group, topic, partition)
    {
      var key := Key(group, topic, partition);
      if key in offsets {
        return offsets[key];
      }
      return -1;
    }
  }

  function OffsetIn(s: Cluster, group: Data, topic: Data, partition: nat): int {
    var key := Key(group, topic, partition);
    if key in s.offsets then s.offsets[key] else -1
  }
}
