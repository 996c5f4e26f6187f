/**
 What each command does to the controller's state, in plain numbers and field by
 field, and what that makes of a broker's liveness and of the replica offsets over
 whole runs.
 */
module ControllerEffects {
  import opened Bytes
  import opened ClusterState
  import opened Placement
  import opened Groups
  import opened Failover
  import opened OffsetKeys
  import opened Controller
  import opened ControllerRuns

  // ---- liveness ----

  /** When a broker was last heard of, and whether it counts as active. */
  datatype Life = Unknown | Known(heard: int, active: bool)

  /** One command in the life of a broker: it registers, it is heard of if it is
      registered, and it is given up once it has been silent for over 8 seconds. */
  function Lived(life: Life, id: nat, c: Command): Life {
    match c
    case RegisterBroker(b, _, _, now) => if b == id then Known(now, true) else life
    case BrokerHeartbeat(b, _, now, _) => if b == id && life.Known? then Known(now, true) else life
    case CleanInactive(now, _) =>
      if life.Known? && life.active && now - life.heard > 8_000_000_000 then Known(life.heard, false) else life
    case _ => life
  }

  function LifeOf(commands: seq<Command>, id: nat): Life {
    if commands == [] then Unknown else Lived(LifeOf(commands[..|commands| - 1], id), id, commands[|commands| - 1])
  }

  /** The state shows the life. */
  predicate Shows(s: Cluster, id: nat, life: Life) {
    match life
    case Unknown => id !in s.brokers
    case Known(heard, active) => id in s.brokers && s.brokers[id].lastSeen == heard && s.brokers[id].active == active
  }

  lemma SweptShows(s: Cluster, visits: seq<Visit>, now: int, later: int, id: nat, life: Life)
    requires Shows(s, id, life) && FullSweep(s, visits, now)
    ensures Shows(Swept(s, visits, now, later), id, Lived(life, id, CleanInactive(now, later)))
  {
    SweepBrokers(s, visits, now, id);
  }

  lemma StepShows(s: Cluster, c: Command, s': Cluster, id: nat, life: Life)
    requires Next(s, c, s') && Shows(s, id, life)
    ensures Shows(s', id, Lived(life, id, c))
  {
    match c
    case CleanInactive(now, later) =>
      var visits :| FullSweep(s, visits, now) && s' == Swept(s, visits, now, later);
      SweptShows(s, visits, now, later, id, life);
    case CreateTopic(name, count, factor, now) =>
    case _ =>
  }

  /** In every run a broker is known, last seen and active as its life says, whatever
      the order of every sweep. */
  lemma {:induction false} LivesShow(states: seq<Cluster>, commands: seq<Command>, i: nat, id: nat)
    requires Run(states, commands) && i <= |commands|
    ensures Shows(states[i], id, LifeOf(commands[..i], id))
  {
    if i > 0 {
      LivesShow(states, commands, i - 1, id);
      StepShows(states[i - 1], commands[i - 1], states[i], id, LifeOf(commands[..i - 1], id));
      assert commands[..i][..i - 1] == commands[..i - 1];
    }
  }

  /** A registered broker that sends a heartbeat at time t survives a sweep at `now`
      exactly if at most 8 seconds have passed. */
  lemma HeartbeatKeepsAlive(s: Cluster, s1: Cluster, s2: Cluster, id: nat, reports: seq<Report>, t: int, u: int, now: int, later: int)
    requires id in s.brokers && Next(s, BrokerHeartbeat(id, reports, t, u), s1) && Next(s1, CleanInactive(now, later), s2)
    ensures id in s2.brokers && (s2.brokers[id].active <==> now - t <= 8_000_000_000)
  {
    var life := Known(s.brokers[id].lastSeen, s.brokers[id].active);
    StepShows(s, BrokerHeartbeat(id, reports, t, u), s1, id, life);
    StepShows(s1, CleanInactive(now, later), s2, id, Known(t, true));
  }

  // ---- reported offsets ----

  /** The offset the last report about a partition carries. */
  function LastReport(reports: seq<Report>, at: TopicPartition): Option<int> {
    if reports == [] then None else
      var r := reports[|reports| - 1];
      if r.topic == at.topic && r.partition == at.partition then Some(r.offset) else LastReport(reports[..|reports| - 1], at)
  }

  lemma {:induction false} ReportedIs(topics: Topics, id: nat, reports: seq<Report>, at: TopicPartition)
    requires Exists(topics, at)
    ensures Exists(Reported(topics, id, reports), at)
    ensures
      var p, p' := PartAt(topics, at), PartAt(Reported(topics, id, reports), at);
      p' == match LastReport(reports, at) case Some(n) => p.(offsets := p.offsets[id := n]) case None => p
  {
    if reports != [] {
      var init, last := reports[..|reports| - 1], reports[|reports| - 1];
      ReportedIs(topics, id, init, at);
      if LastReport(init, at).Some? {
        Overwritten(PartAt(topics, at).offsets, id, LastReport(init, at).value, last.offset);
      }
      ReportedOneIs(Reported(topics, id, init), id, last, at);
    }
  }

  lemma Overwritten(m: map<nat, int>, id: nat, a: int, b: int)
    ensures m[id := a][id := b] == m[id := b]
  {
  }

  lemma ReportedOneIs(topics: Topics, id: nat, r: Report, at: TopicPartition)
    requires Exists(topics, at)
    ensures Exists(ReportedOne(topics, id, r), at)
    ensures
      var p, p' := PartAt(topics, at), PartAt(ReportedOne(topics, id, r), at);
      p' == if r.topic == at.topic && r.partition == at.partition then p.(offsets := p.offsets[id := r.offset]) else p
  {
  }

  /** A heartbeat records, for each existing partition, the last offset it reports,
      and leaves leader, replicas and all other offsets alone. */
  lemma HeartbeatRecords(s: Cluster, id: nat, reports: seq<Report>, now: int, later: int, s': Cluster, at: TopicPartition)
    requires Next(s, BrokerHeartbeat(id, reports, now, later), s') && Exists(s.topics, at)
    ensures Exists(s'.topics, at)
    ensures
      var p, p' := PartAt(s.topics, at), PartAt(s'.topics, at);
      && p'.leader == p.leader && p'.replicas == p.replicas
      && p'.offsets == match LastReport(reports, at) case Some(n) => p.offsets[id := n] case None => p.offsets
  {
    ReportedIs(s.topics, id, reports, at);
  }

  lemma SweptOffsets(s: Cluster, visits: seq<Visit>, now: int, at: TopicPartition)
    requires Exists(s.topics, at)
    ensures Exists(Sweep(s, visits, now).topics, at)
    ensures PartAt(Sweep(s, visits, now).topics, at).offsets == PartAt(s.topics, at).offsets
    ensures PartAt(Sweep(s, visits, now).topics, at).replicas == PartAt(s.topics, at).replicas
  {
    SweepShape(s, visits, now);
  }

  /** Every other command leaves an existing partition's offsets and replicas alone,
      and only a sweep moves its leader. */
  lemma OffsetsStay(s: Cluster, c: Command, s': Cluster, at: TopicPartition)
    requires Next(s, c, s') && !c.BrokerHeartbeat? && Exists(s.topics, at)
    ensures Exists(s'.topics, at) && PartAt(s'.topics, at).offsets == PartAt(s.topics, at).offsets
    ensures PartAt(s'.topics, at).replicas == PartAt(s.topics, at).replicas
    ensures !c.CleanInactive? ==> PartAt(s'.topics, at).leader == PartAt(s.topics, at).leader
  {
    match c
    case CreateTopic(name, count, factor, now) =>
      if name !in s.topics {
        var ring :| Ring(ring, s.brokers) && s' == Created(s, name, count, factor, ring, now);
      }
    case CleanInactive(now, later) =>
      var visits :| FullSweep(s, visits, now) && s' == Swept(s, visits, now, later);
      SweptOffsets(s, visits, now, at);
    case _ =>
  }

  /** Broker id's offset for a partition: 0 from its creation on if it is a replica,
      then whatever the broker's last heartbeat about it said. */
  function OffsetFor(states: seq<Cluster>, commands: seq<Command>, i: nat, at: TopicPartition, id: nat): Option<int>
    requires |states| == |commands| + 1 && i <= |commands|
  {
    if i == 0 || !Exists(states[i].topics, at) then None
    else if !Exists(states[i - 1].topics, at) then (if id in PartAt(states[i].topics, at).replicas then Some(0) else None)
    else
      var c := commands[i - 1];
      if c.BrokerHeartbeat? && c.id == id && LastReport(c.reports, at).Some? then LastReport(c.reports, at)
      else OffsetFor(states, commands, i - 1, at, id)
  }

  /** Exactly the replicas have offsets, all 0. */
  ghost predicate AllZero(p: Partition) {
    (forall id :: id in p.offsets <==> id in p.replicas) && (forall id :: id in p.offsets ==> p.offsets[id] == 0)
  }

  lemma BirthOffsets(s: Cluster, c: Command, s': Cluster, at: TopicPartition)
    requires Next(s, c, s') && !Exists(s.topics, at) && Exists(s'.topics, at)
    ensures AllZero(PartAt(s'.topics, at))
  {
    match c
    case BrokerHeartbeat(id, reports, now, later) => ReportsAddNothing(s.topics, id, reports, at);
    case CreateTopic(name, count, factor, now) => BornAtZero(s, name, count, factor, now, s', at);
    case CleanInactive(now, later) =>
      var visits :| FullSweep(s, visits, now) && s' == Swept(s, visits, now, later);
      SweepShape(s, visits, now);
    case _ =>
  }

  lemma BornAtZero(s: Cluster, name: Data, count: nat, factor: nat, now: int, s': Cluster, at: TopicPartition)
    requires Next(s, CreateTopic(name, count, factor, now), s') && !Exists(s.topics, at) && Exists(s'.topics, at)
    ensures AllZero(PartAt(s'.topics, at))
  {
    CreateMakes(s, name, count, factor, now, s', at.partition);
    if at.topic != name {
      OldTopicsStay(s, name, count, factor, now, s', at);
    }
  }

  lemma OldTopicsStay(s: Cluster, name: Data, count: nat, factor: nat, now: int, s': Cluster, at: TopicPartition)
    requires Next(s, CreateTopic(name, count, factor, now), s') && at.topic != name
    ensures Exists(s'.topics, at) <==> Exists(s.topics, at)
  {
    if name !in s.topics {
      var ring :| Ring(ring, s.brokers) && s' == Created(s, name, count, factor, ring, now);
    }
  }

  lemma {:induction false} ReportsAddNothing(topics: Topics, id: nat, reports: seq<Report>, at: TopicPartition)
    requires !Exists(topics, at)
    ensures !Exists(Reported(topics, id, reports), at)
  {
    if reports != [] {
      ReportsAddNothing(topics, id, reports[..|reports| - 1], at);
    }
  }

  /** In every run the offsets the controller holds are exactly those. */
  lemma {:induction false} OffsetsAre(states: seq<Cluster>, commands: seq<Command>, i: nat, at: TopicPartition, id: nat)
    requires Run(states, commands) && i <= |commands| && Exists(states[i].topics, at)
    ensures
      var p, n := PartAt(states[i].topics, at), OffsetFor(states, commands, i, at, id);
      (id in p.offsets <==> n.Some?) && (id in p.offsets ==> p.offsets[id] == n.value)
  {
    if i > 0 {
      var s, c, s' := states[i - 1], commands[i - 1], states[i];
      assert Next(s, c, s');
      if !Exists(s.topics, at) {
        BirthOffsets(s, c, s', at);
      } else {
        OffsetsAre(states, commands, i - 1, at, id);
        if c.BrokerHeartbeat? {
          HeartbeatRecords(s, c.id, c.reports, c.now, c.later, s', at);
        } else {
          OffsetsStay(s, c, s', at);
        }
      }
    }
  }

  // ---- in-sync replicas in numbers ----

  /** A broker heard of within 8 seconds of `now` and not given up. */
  predicate HeardOf(brokers: Brokers, id: nat, now: int) {
    id in brokers && brokers[id].active && now - brokers[id].lastSeen <= 8_000_000_000
  }

  /** The offset of a broker, 0 if it has none. */
  function OffsetOrZero(p: Partition, id: nat): int {
    if id in p.offsets then p.offsets[id] else 0
  }

  /** Broker id is in sync exactly if it was heard of within 8 seconds and leads, or is
      a replica at most 10 behind the leader; the watermark is the least offset in
      sync, 0 for none. */
  ghost predicate InSync(p: Partition, brokers: Brokers, now: int, id: nat) {
    && (id in p.isr <==>
          && HeardOf(brokers, id, now)
          && (id == p.leader || (id in p.replicas && OffsetOrZero(p, p.leader) - OffsetOrZero(p, id) <= 10)))
    && (p.isr == [] ==> p.hw == 0) && (id in p.isr ==> p.hw <= OffsetOrZero(p, id))
    && (p.isr != [] ==> exists b :: b in p.isr && p.hw == OffsetOrZero(p, b))
  }

  lemma RefreshedExactly(p: Partition, brokers: Brokers, now: int, id: nat)
    requires NoDup(p.replicas)
    ensures InSync(Refreshed(p, brokers, now), brokers, now, id)
  {
    RefreshedOk(p, brokers, now);
    var q := Refreshed(p, brokers, now);
    WatermarkBounds(q, brokers);
    if q.isr != [] {
      var b :| b in q.isr && q.hw == OffsetOf(q, b);
      assert q.hw == OffsetOrZero(q, b);
    }
  }

  /** The clock reading at which a command refreshes the in-sync lists, if it does. */
  function RefreshTime(s: Cluster, c: Command): Option<int> {
    match c
    case BrokerHeartbeat(_, _, _, later) => Some(later)
    case CreateTopic(name, _, _, now) => if name in s.topics then None else Some(now)
    case CleanInactive(_, later) => Some(later)
    case _ => None
  }

  lemma NoDupAt(s: Cluster, c: Command, s': Cluster, at: TopicPartition)
    requires Ok(s) && Next(s, c, s') && Exists(s'.topics, at)
    ensures NoDup(PartAt(s'.topics, at).replicas)
  {
    NextKeeps(s, c, s');
    assert TopicOk(s'.topics[at.topic], s'.brokers);
    assert PartitionOk(PartAt(s'.topics, at), s'.brokers);
  }

  lemma RefreshedAt(topics: Topics, brokers: Brokers, now: int, at: TopicPartition)
    requires Exists(RefreshedTopics(topics, brokers, now), at)
    ensures Exists(topics, at) && PartAt(RefreshedTopics(topics, brokers, now), at) == Refreshed(PartAt(topics, at), brokers, now)
  {
  }

  lemma RefreshedFrom(s: Cluster, c: Command, s': Cluster, at: TopicPartition) returns (p: Partition)
    requires Ok(s) && Next(s, c, s') && RefreshTime(s, c).Some? && Exists(s'.topics, at)
    ensures NoDup(p.replicas) && PartAt(s'.topics, at) == Refreshed(p, s'.brokers, RefreshTime(s, c).value)
  {
    NoDupAt(s, c, s', at);
    match c
    case BrokerHeartbeat(id, reports, now, later) =>
      RefreshedAt(Reported(s.topics, id, reports), s'.brokers, later, at);
      p := PartAt(Reported(s.topics, id, reports), at);
    case CreateTopic(name, count, factor, now) =>
      var ring :| Ring(ring, s.brokers) && s' == Created(s, name, count, factor, ring, now);
      RefreshedAt(s.topics[name := PlacedTopic(name, ring, count, factor)], s'.brokers, now, at);
      p := PartAt(s.topics[name := PlacedTopic(name, ring, count, factor)], at);
    case CleanInactive(now, later) =>
      var visits :| FullSweep(s, visits, now) && s' == Swept(s, visits, now, later);
      RefreshedAt(Sweep(s, visits, now).topics, s'.brokers, later, at);
      p := PartAt(Sweep(s, visits, now).topics, at);
  }

  /** After every heartbeat, creation and sweep the in-sync lists and watermarks are as
      the clock and the reported offsets say. */
  lemma InSyncExactly(s: Cluster, c: Command, s': Cluster, at: TopicPartition, id: nat)
    requires Ok(s) && Next(s, c, s') && RefreshTime(s, c).Some? && Exists(s'.topics, at)
    ensures InSync(PartAt(s'.topics, at), s'.brokers, RefreshTime(s, c).value, id)
  {
    var q := RefreshedFrom(s, c, s', at);
    RefreshedExactly(q, s'.brokers, RefreshTime(s, c).value, id);
  }

  // ---- the other commands ----

  /** Registering enters the broker as active and touches nothing else. */
  lemma RegisterEnters(s: Cluster, id: nat, host: Data, port: int, now: int, s': Cluster)
    requires Next(s, RegisterBroker(id, host, port, now), s')
    ensures id in s'.brokers && s'.brokers[id].id == id && s'.brokers[id].host == host && s'.brokers[id].port == port
    ensures s'.brokers[id].active && s'.brokers[id].lastSeen == now
    ensures forall b :: b != id ==> (b in s'.brokers <==> b in s.brokers) && (b in s.brokers ==> s'.brokers[b] == s.brokers[b])
    ensures s'.topics == s.topics && s'.groups == s.groups && s'.offsets == s.offsets
  {
  }

  /** A heartbeat touches one broker and no groups or committed offsets. */
  lemma HeartbeatTouches(s: Cluster, id: nat, reports: seq<Report>, now: int, later: int, s': Cluster, b: nat)
    requires Next(s, BrokerHeartbeat(id, reports, now, later), s') && b in s.brokers
    ensures b in s'.brokers
    ensures s'.brokers[b] == if b == id then s.brokers[b].(lastSeen := now, active := true) else s.brokers[b]
    ensures s'.groups == s.groups && s'.offsets == s.offsets
  {
  }

  lemma {:induction false} RingLength(ring: seq<nat>, ids: set<nat>)
    requires NoDup(ring) && forall id :: id in ring <==> id in ids
    ensures |ring| == |ids|
  {
    if ring != [] {
      var init, last := ring[..|ring| - 1], ring[|ring| - 1];
      assert ring == init + [last];
      RingLength(init, ids - {last});
    } else {
      assert ids == {};
    }
  }

  /** A partition as creation leaves it. */
  ghost predicate NewPartition(p: Partition, brokers: Brokers, factor: nat) {
    && |p.replicas| == Min(factor, |ActiveIds(brokers)|) && NoDup(p.replicas)
    && (forall id :: id in p.replicas ==> IsActive(brokers, id))
    && (p.replicas != [] ==> p.leader == p.replicas[0])
    && (if ActiveIds(brokers) == {} then p.leader == 0 else IsActive(brokers, p.leader))
    && AllZero(p)
  }

  lemma PlacedIsNew(brokers: Brokers, ring: seq<nat>, i: nat, factor: nat, now: int)
    requires Ring(ring, brokers)
    ensures NewPartition(Refreshed(Placed(ring, i, factor), brokers, now), brokers, factor)
  {
    RingLength(ring, ActiveIds(brokers));
    PlacedWell(ring, i, factor);
  }

  lemma CreatedTopic(s: Cluster, name: Data, count: nat, factor: nat, ring: seq<nat>, now: int, q: nat)
    ensures
      var topics := Created(s, name, count, factor, ring, now).topics;
      && topics.Keys == s.topics.Keys + {name}
      && topics[name].name == name && (q in topics[name].partitions <==> q < count)
      && (q < count ==> topics[name].partitions[q] == Refreshed(Placed(ring, q, factor), s.brokers, now))
  {
  }

  lemma CreatedNew(s: Cluster, name: Data, count: nat, factor: nat, ring: seq<nat>, now: int, q: nat)
    requires Ring(ring, s.brokers)
    ensures
      var topics := Created(s, name, count, factor, ring, now).topics;
      && topics.Keys == s.topics.Keys + {name}
      && topics[name].name == name && (q in topics[name].partitions <==> q < count)
      && (q < count ==> topics[name].partitions[q].id == q && NewPartition(topics[name].partitions[q], s.brokers, factor))
  {
    CreatedTopic(s, name, count, factor, ring, now, q);
    PlacedIsNew(s.brokers, ring, q, factor, now);
  }

  /** Creating a topic that exists changes nothing.  A new topic has exactly the
      partitions 0 to count - 1, each with min(factor, active brokers) distinct active
      replicas, the leader first, all at offset 0; nothing else is new. */
  lemma CreateMakes(s: Cluster, name: Data, count: nat, factor: nat, now: int, s': Cluster, q: nat)
    requires Next(s, CreateTopic(name, count, factor, now), s')
    ensures name in s.topics ==> s' == s
    ensures name !in s.topics ==>
      && s'.brokers == s.brokers && s'.groups == s.groups && s'.offsets == s.offsets && s'.topics.Keys == s.topics.Keys + {name}
      && s'.topics[name].name == name && (q in s'.topics[name].partitions <==> q < count)
      && (q < count ==> s'.topics[name].partitions[q].id == q && NewPartition(s'.topics[name].partitions[q], s.brokers, factor))
  {
    if name !in s.topics {
      var ring :| Ring(ring, s.brokers) && s' == Created(s, name, count, factor, ring, now);
      CreatedNew(s, name, count, factor, ring, now, q);
    }
  }

  lemma {:induction false} LedSame(t: Topic, t': Topic, count: nat, b: nat)
    requires forall i :: 0 <= i < count ==> i in t.partitions && i in t'.partitions && t'.partitions[i].leader == t.partitions[i].leader
    ensures Led(t', count, b) == Led(t, count, b)
  {
    if count > 0 {
      LedSame(t, t', count - 1, b);
    }
  }

  /** Each active broker leads the floor or the ceiling of the new topic's partitions
      per active broker. */
  lemma CreateBalances(s: Cluster, name: Data, count: nat, factor: nat, now: int, s': Cluster, b: nat)
    requires Next(s, CreateTopic(name, count, factor, now), s') && name !in s.topics && IsActive(s.brokers, b)
    ensures name in s'.topics && forall i :: 0 <= i < count ==> i in s'.topics[name].partitions
    ensures |ActiveIds(s.brokers)| > 0
    ensures
      var n := |ActiveIds(s.brokers)|;
      count / n <= Led(s'.topics[name], count, b) <= count / n + if count % n == 0 then 0 else 1
  {
    var ring :| Ring(ring, s.brokers) && s' == Created(s, name, count, factor, ring, now);
    forall i: nat | i < count ensures i in s'.topics[name].partitions {
      CreatedTopic(s, name, count, factor, ring, now, i);
    }
    CreatedTopic(s, name, count, factor, ring, now, 0);
    RingLength(ring, ActiveIds(s.brokers));
    LedThere(s, name, count, factor, ring, now, b);
  }

  lemma LedThere(s: Cluster, name: Data, count: nat, factor: nat, ring: seq<nat>, now: int, b: nat)
    requires NoDup(ring) && b in ring
    ensures
      var t := Created(s, name, count, factor, ring, now).topics;
      && name in t && (forall i :: 0 <= i < count ==> i in t[name].partitions)
      && count / |ring| <= Led(t[name], count, b) <= count / |ring| + if count % |ring| == 0 then 0 else 1
  {
    LedPlaced(name, ring, count, factor, b);
    LedSame(PlacedTopic(name, ring, count, factor), Created(s, name, count, factor, ring, now).topics[name], count, b);
  }

  lemma LedPlaced(name: Data, ring: seq<nat>, count: nat, factor: nat, b: nat)
    requires NoDup(ring) && b in ring
    ensures
      var led := Led(PlacedTopic(name, ring, count, factor), count, b);
      count / |ring| <= led <= count / |ring| + if count % |ring| == 0 then 0 else 1
  {
    var j :| 0 <= j < |ring| && ring[j] == b;
    LeadershipBalanced(name, ring, count, factor, j);
  }

  /** Joining puts the member into the group with its topics, keeps the other members,
      counts the generation up and deals the partitions anew; nothing else changes. */
  lemma JoinEnters(s: Cluster, group: Data, member: Data, topics: seq<Data>, now: int, s': Cluster)
    requires Next(s, JoinConsumerGroup(group, member, topics, now), s')
    ensures s'.brokers == s.brokers && s'.topics == s.topics && s'.offsets == s.offsets
    ensures s'.groups.Keys == s.groups.Keys + {group} && forall g :: g in s.groups && g != group ==> s'.groups[g] == s.groups[g]
    ensures
      var g := s'.groups[group];
      var generation, members := if group in s.groups then s.groups[group].generation else 0,
                                 if group in s.groups then s.groups[group].members else map[];
      && g.id == (if group in s.groups then s.groups[group].id else group)
      && g.members == members[member := Member(member, topics, now)]
      && g.generation == (generation + 1) % 0x1_0000_0000
      && exists order :: Dealt(g.members, order, s.topics, g.assignments)
  {
    var g := WithMember(s, group, member, topics, now);
    var order, a :| Dealt(g.members, order, s.topics, a) && s' == Joined(s, group, g, a);
    assert Dealt(s'.groups[group].members, order, s.topics, s'.groups[group].assignments);
  }

  /** After a join every partition of a topic the member asked for has exactly one
      owner in the group, and that owner asked for the topic. */
  lemma JoinDeals(s: Cluster, group: Data, member: Data, topics: seq<Data>, now: int, s': Cluster, at: TopicPartition)
    requires Next(s, JoinConsumerGroup(group, member, topics, now), s') && Exists(s.topics, at) && at.topic in topics
    ensures group in s'.groups
    ensures exists o :: Has(s'.groups[group].assignments, o, at) && Subscribed(s'.groups[group].members, o, at.topic)
    ensures forall o, o' :: Has(s'.groups[group].assignments, o, at) && Has(s'.groups[group].assignments, o', at) ==> o == o'
  {
    JoinEnters(s, group, member, topics, now, s');
    var g := s'.groups[group];
    var order :| Dealt(g.members, order, s.topics, g.assignments);
    assert Subscribed(g.members, member, at.topic);
    DealtToOne(g.members, order, s.topics, g.assignments, at, member);
  }

  /** A sweep changes no groups, committed offsets, replica lists or replica offsets. */
  lemma SweepTouches(s: Cluster, now: int, later: int, s': Cluster)
    requires Next(s, CleanInactive(now, later), s')
    ensures s'.groups == s.groups && s'.offsets == s.offsets && s'.topics.Keys == s.topics.Keys && s'.brokers.Keys == s.brokers.Keys
  {
    var visits :| FullSweep(s, visits, now) && s' == Swept(s, visits, now, later);
    SweepShape(s, visits, now);
    forall id ensures id in s'.brokers <==> id in s.brokers {
      SweepBrokers(s, visits, now, id);
    }
  }

  /** A commit sets the value under one key and touches nothing else. */
  lemma CommitTouches(s: Cluster, group: Data, topic: Data, partition: nat, offset: int, s': Cluster)
    requires Next(s, CommitOffset(group, topic, partition, offset), s')
    ensures s'.brokers == s.brokers && s'.topics == s.topics && s'.groups == s.groups
    ensures OffsetIn(s', group, topic, partition) == offset
    ensures forall k :: k != Key(group, topic, partition) ==>
      (k in s'.offsets <==> k in s.offsets) && (k in s.offsets ==> s'.offsets[k] == s.offsets[k])
  {
  }

  // ---- one broker's failure ----

  /** Only the leader of a partition has been silent for over 8 seconds, and replica i
      is the first of the others that is active. */
  ghost predicate SoleFailure(s: Cluster, p: Partition, now: int, i: nat) {
    && p.leader in s.brokers && s.brokers[p.leader].active && now - s.brokers[p.leader].lastSeen > 8_000_000_000
    && (forall b :: b in s.brokers && b != p.leader && s.brokers[b].active ==> now - s.brokers[b].lastSeen <= 8_000_000_000)
    && i < |p.replicas| && p.replicas[i] != p.leader && IsActive(s.brokers, p.replicas[i])
    && (forall j :: 0 <= j < i ==> p.replicas[j] == p.leader || !IsActive(s.brokers, p.replicas[j]))
  }

  lemma {:induction false} FirstIs(ids: seq<nat>, failed: nat, brokers: Brokers, i: nat)
    requires i < |ids| && ids[i] != failed && IsActive(brokers, ids[i])
    requires forall j :: 0 <= j < i ==> ids[j] == failed || !IsActive(brokers, ids[j])
    ensures PickReplica(ids, failed, brokers) == ids[i]
  {
    if i > 0 {
      FirstIs(ids[1..], failed, brokers, i - 1);
    }
  }

  lemma OneElection(s: Cluster, visits: seq<Visit>, now: int, p: Partition, i: nat, fallback: nat)
    requires SoleFailure(s, p, now, i) && p.replicas[i] != 0
    ensures p.leader in Sweep(s, visits, now).brokers
    ensures Elected(p, p.leader, Deactivated(Sweep(s, visits, now).brokers, p.leader), fallback) == p.replicas[i]
  {
    var m := Sweep(s, visits, now);
    SweepBrokers(s, visits, now, p.leader);
    var brokers := Deactivated(m.brokers, p.leader);
    forall j | 0 <= j <= i && p.replicas[j] != p.leader
      ensures IsActive(brokers, p.replicas[j]) == IsActive(s.brokers, p.replicas[j])
    {
      SweepBrokers(s, visits, now, p.replicas[j]);
    }
    FirstIs(p.replicas, p.leader, brokers, i);
  }

  /** The other replica is active and stays so. */
  lemma StandInLives(s: Cluster, visits: seq<Visit>, now: int, p: Partition, i: nat)
    requires SoleFailure(s, p, now, i)
    ensures
      var m, r := Sweep(s, visits, now), p.replicas[i];
      && r in m.brokers && m.brokers[r].active && !Expired(m.brokers[r], now)
      && (!Visits(visits, p.leader) ==> p.leader in m.brokers && Expired(m.brokers[p.leader], now))
      && (p.leader in m.brokers ==> r in ActiveIds(Deactivated(m.brokers, p.leader)))
  {
    SweepBrokers(s, visits, now, p.replicas[i]);
    SweepBrokers(s, visits, now, p.leader);
  }

  lemma VisitsSnoc(visits: seq<Visit>, v: Visit, id: nat)
    ensures Visits(visits + [v], id) <==> Visits(visits, id) || v.id == id
  {
    var all := visits + [v];
    if Visits(visits, id) {
      var i :| 0 <= i < |visits| && visits[i].id == id;
      assert all[i].id == id;
    }
    assert all[|visits|] == v;
  }

  /** Until the sweep comes to the leader nothing happens to the partition, and
      nothing after. */
  lemma {:induction false} SoleSweep(s: Cluster, visits: seq<Visit>, now: int, at: TopicPartition, i: nat)
    requires SweepOk(s, visits, now) && Exists(s.topics, at)
    requires SoleFailure(s, PartAt(s.topics, at), now, i) && PartAt(s.topics, at).replicas[i] != 0
    ensures Exists(Sweep(s, visits, now).topics, at)
    ensures
      var p := PartAt(s.topics, at);
      PartAt(Sweep(s, visits, now).topics, at) == if Visits(visits, p.leader) then p.(leader := p.replicas[i]) else p
  {
    if visits != [] {
      var init, v, p := visits[..|visits| - 1], visits[|visits| - 1], PartAt(s.topics, at);
      SoleSweep(s, init, now, at, i);
      VisitMoves(Sweep(s, init, now), v, now, at);
      StandInLives(s, init, now, p, i);
      OneElection(s, init, now, p, i, v.fallback);
      assert visits == init + [v];
      VisitsSnoc(init, v, p.leader);
    }
  }

  /** When a partition's leader alone has gone silent, a sweep in any order hands the
      partition to the first active replica in the list, unless that is broker 0. */
  lemma SoleSuccessor(s: Cluster, now: int, later: int, s': Cluster, at: TopicPartition, i: nat)
    requires Next(s, CleanInactive(now, later), s') && Exists(s.topics, at)
    requires SoleFailure(s, PartAt(s.topics, at), now, i) && PartAt(s.topics, at).replicas[i] != 0
    ensures Exists(s'.topics, at) && PartAt(s'.topics, at).leader == PartAt(s.topics, at).replicas[i]
  {
    var visits :| FullSweep(s, visits, now) && s' == Swept(s, visits, now, later);
    SoleSweep(s, visits, now, at, i);
  }

  /** A leader heard of within 8 seconds keeps the partition. */
  lemma LeaderKept(s: Cluster, now: int, later: int, s': Cluster, at: TopicPartition)
    requires Next(s, CleanInactive(now, later), s') && Exists(s.topics, at)
    requires
      var b := PartAt(s.topics, at).leader;
      b in s.brokers ==> now - s.brokers[b].lastSeen <= 8_000_000_000
    ensures Exists(s'.topics, at) && PartAt(s'.topics, at).leader == PartAt(s.topics, at).leader
  {
    var visits :| FullSweep(s, visits, now) && s' == Swept(s, visits, now, later);
    LeaderUntouched(s, visits, now, at);
  }
}
