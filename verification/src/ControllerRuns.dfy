/**
 What holds in every state the controller can reach, whatever the commands, the
 clock and the map orders.
 */
module ControllerRuns {
  import opened Bytes
  import opened ClusterState
  import opened Placement
  import opened Groups
  import opened OffsetKeys
  import opened Failover
  import opened Controller

  ghost predicate PartitionOk(p: Partition, brokers: Brokers) {
    NoDup(p.replicas) && IsrOk(p, brokers)
  }

  /** Partitions are numbered from 0 without gaps. */
  ghost predicate Numbered(partitions: map<nat, Partition>, n: nat) {
    forall q: nat :: q in partitions <==> q < n
  }

  ghost predicate TopicOk(t: Topic, brokers: Brokers) {
    && (forall q :: q in t.partitions ==> PartitionOk(t.partitions[q], brokers))
    && exists n :: Numbered(t.partitions, n)
  }

  /** No partition belongs to two members, none is listed twice, and all exist. */
  ghost predicate GroupOk(g: Group, topics: Topics) {
    && NoRepeats(g.assignments)
    && (forall m, m', tp :: Has(g.assignments, m, tp) && Has(g.assignments, m', tp) ==> m == m')
    && (forall m, tp :: Has(g.assignments, m, tp) ==> tp.topic in topics && tp.partition in topics[tp.topic].partitions)
  }

  ghost predicate Ok(s: Cluster) {
    && (forall id :: id in s.brokers ==> s.brokers[id].id == id)
    && (forall t :: t in s.topics ==> TopicOk(s.topics[t], s.brokers))
    && (forall g :: g in s.groups ==> GroupOk(s.groups[g], s.topics))
  }

  // ---- pieces ----

  /** What a refresh needs of a partition before it. */
  ghost predicate Refreshable(t: Topic) {
    && (forall q :: q in t.partitions ==> NoDup(t.partitions[q].replicas))
    && exists n :: Numbered(t.partitions, n)
  }

  lemma RefreshEstablishes(t: Topic, brokers: Brokers, now: int)
    requires Refreshable(t)
    ensures TopicOk(RefreshedTopic(t, brokers, now), brokers)
  {
    var t' := RefreshedTopic(t, brokers, now);
    forall q | q in t'.partitions ensures PartitionOk(t'.partitions[q], brokers) {
      RefreshedOk(t.partitions[q], brokers, now);
    }
    var n :| Numbered(t.partitions, n);
    assert Numbered(t'.partitions, n);
  }

  lemma OkRefreshable(t: Topic, brokers: Brokers)
    requires TopicOk(t, brokers)
    ensures Refreshable(t)
  {
    forall q | q in t.partitions ensures NoDup(t.partitions[q].replicas) {
      assert PartitionOk(t.partitions[q], brokers);
    }
  }

  /** Topics and partitions are never removed, and replica lists never change. */
  ghost predicate Extends(topics: Topics, topics': Topics) {
    forall t :: t in topics ==> t in topics' && TopicExtends(topics[t], topics'[t])
  }

  ghost predicate TopicExtends(t: Topic, t': Topic) {
    && t'.partitions.Keys == t.partitions.Keys
    && forall q :: q in t.partitions ==> t'.partitions[q].replicas == t.partitions[q].replicas
  }

  lemma GroupsKeep(groups: map<Data, Group>, topics: Topics, topics': Topics)
    requires Extends(topics, topics') && forall g :: g in groups ==> GroupOk(groups[g], topics)
    ensures forall g :: g in groups ==> GroupOk(groups[g], topics')
  {
    forall g | g in groups ensures GroupOk(groups[g], topics') {
      forall m, tp | Has(groups[g].assignments, m, tp)
        ensures tp.topic in topics' && tp.partition in topics'[tp.topic].partitions
      {
        assert TopicExtends(topics[tp.topic], topics'[tp.topic]);
      }
    }
  }

  lemma RefreshExtends(topics: Topics, brokers: Brokers, now: int)
    ensures Extends(topics, RefreshedTopics(topics, brokers, now))
  {
  }

  lemma ExtendsTrans(a: Topics, b: Topics, c: Topics)
    requires Extends(a, b) && Extends(b, c)
    ensures Extends(a, c)
  {
    forall t | t in a ensures t in c && TopicExtends(a[t], c[t]) {
      assert TopicExtends(a[t], b[t]) && TopicExtends(b[t], c[t]);
    }
  }

  // ---- one command at a time ----

  lemma RegisterKeeps(s: Cluster, id: nat, host: Data, port: int, now: int)
    requires Ok(s)
    ensures Ok(Registered(s, id, host, port, now))
  {
    var s' := Registered(s, id, host, port, now);
    forall t | t in s'.topics ensures TopicOk(s'.topics[t], s'.brokers) {
      assert TopicOk(s.topics[t], s.brokers);
      forall q | q in s.topics[t].partitions ensures PartitionOk(s.topics[t].partitions[q], s'.brokers) {
        assert PartitionOk(s.topics[t].partitions[q], s.brokers);
      }
    }
  }

  lemma ReportOneKeeps(topics: Topics, id: nat, r: Report)
    requires forall t :: t in topics ==> Refreshable(topics[t])
    ensures forall t :: t in ReportedOne(topics, id, r) ==> Refreshable(ReportedOne(topics, id, r)[t])
    ensures Extends(topics, ReportedOne(topics, id, r))
  {
    if r.topic in topics && r.partition in topics[r.topic].partitions {
      var t, t' := topics[r.topic], ReportedOne(topics, id, r)[r.topic];
      assert Refreshable(t);
      var n :| Numbered(t.partitions, n);
      assert Numbered(t'.partitions, n);
      assert Refreshable(t');
    }
  }

  lemma {:induction false} ReportsKeep(topics: Topics, id: nat, reports: seq<Report>)
    requires forall t :: t in topics ==> Refreshable(topics[t])
    ensures forall t :: t in Reported(topics, id, reports) ==> Refreshable(Reported(topics, id, reports)[t])
    ensures Extends(topics, Reported(topics, id, reports))
  {
    if reports != [] {
      var init := reports[..|reports| - 1];
      ReportsKeep(topics, id, init);
      ReportOneKeeps(Reported(topics, id, init), id, reports[|reports| - 1]);
      ExtendsTrans(topics, Reported(topics, id, init), Reported(topics, id, reports));
    }
  }

  lemma RefreshAllEstablishes(topics: Topics, brokers: Brokers, now: int)
    requires forall t :: t in topics ==> Refreshable(topics[t])
    ensures
      var topics' := RefreshedTopics(topics, brokers, now);
      forall t :: t in topics' ==> TopicOk(topics'[t], brokers)
  {
    var topics' := RefreshedTopics(topics, brokers, now);
    forall t | t in topics' ensures TopicOk(topics'[t], brokers) {
      RefreshEstablishes(topics[t], brokers, now);
    }
  }

  lemma AllRefreshable(s: Cluster)
    requires Ok(s)
    ensures forall t :: t in s.topics ==> Refreshable(s.topics[t])
  {
    forall t | t in s.topics ensures Refreshable(s.topics[t]) {
      OkRefreshable(s.topics[t], s.brokers);
    }
  }

  lemma HeartbeatKeeps(s: Cluster, c: Command)
    requires Ok(s) && c.BrokerHeartbeat?
    ensures
      var s' := Beaten(s, c.id, c.reports, c.now, c.later);
      Ok(s') && Extends(s.topics, s'.topics)
  {
    var reported, brokers := Reported(s.topics, c.id, c.reports), Seen(s.brokers, c.id, c.now);
    AllRefreshable(s);
    ReportsKeep(s.topics, c.id, c.reports);
    RefreshAllEstablishes(reported, brokers, c.later);
    RefreshExtends(reported, brokers, c.later);
    ExtendsTrans(s.topics, reported, RefreshedTopics(reported, brokers, c.later));
    GroupsKeep(s.groups, s.topics, RefreshedTopics(reported, brokers, c.later));
  }

  lemma PlacedRefreshable(name: Data, ring: seq<nat>, count: nat, factor: nat)
    requires NoDup(ring)
    ensures Refreshable(PlacedTopic(name, ring, count, factor))
  {
    var t := PlacedTopic(name, ring, count, factor);
    forall q | q in t.partitions ensures NoDup(t.partitions[q].replicas) {
      PlacedWell(ring, q, factor);
    }
    assert Numbered(t.partitions, count);
  }

  lemma CreateKeeps(s: Cluster, name: Data, count: nat, factor: nat, ring: seq<nat>, now: int)
    requires Ok(s) && name !in s.topics && Ring(ring, s.brokers)
    ensures
      var s' := Created(s, name, count, factor, ring, now);
      Ok(s') && Extends(s.topics, s'.topics)
  {
    var topics := s.topics[name := PlacedTopic(name, ring, count, factor)];
    AllRefreshable(s);
    PlacedRefreshable(name, ring, count, factor);
    RefreshAllEstablishes(topics, s.brokers, now);
    RefreshExtends(topics, s.brokers, now);
    assert Extends(s.topics, topics);
    ExtendsTrans(s.topics, topics, RefreshedTopics(topics, s.brokers, now));
    GroupsKeep(s.groups, s.topics, RefreshedTopics(topics, s.brokers, now));
  }

  lemma JoinKeeps(s: Cluster, group: Data, g: Group, order: seq<Data>, a: map<Data, seq<TopicPartition>>)
    requires Ok(s) && Dealt(g.members, order, s.topics, a)
    ensures Ok(Joined(s, group, g, a))
  {
    forall m, tp | Has(a, m, tp) ensures tp.topic in s.topics && tp.partition in s.topics[tp.topic].partitions {
      DealtExists(g.members, order, s.topics, a, tp, m);
    }
    assert GroupOk(g.(generation := (g.generation + 1) % U32, assignments := a), s.topics);
  }

  lemma ShapeRefreshable(t: Topic, t': Topic)
    requires Refreshable(t) && t'.partitions.Keys == t.partitions.Keys
    requires forall q :: q in t.partitions ==> t'.partitions[q] == t.partitions[q].(leader := t'.partitions[q].leader)
    ensures Refreshable(t') && TopicExtends(t, t')
  {
    var n :| Numbered(t.partitions, n);
    assert Numbered(t'.partitions, n);
  }

  lemma SweepKeeps(s: Cluster, visits: seq<Visit>, now: int, later: int)
    requires Ok(s) && SweepOk(s, visits, now)
    ensures Ok(Swept(s, visits, now, later)) && Extends(s.topics, Swept(s, visits, now, later).topics)
  {
    var m := Sweep(s, visits, now);
    AllRefreshable(s);
    SweepShape(s, visits, now);
    forall t | t in m.topics ensures Refreshable(m.topics[t]) && TopicExtends(s.topics[t], m.topics[t]) {
      ShapeRefreshable(s.topics[t], m.topics[t]);
    }
    RefreshAllEstablishes(m.topics, m.brokers, later);
    RefreshExtends(m.topics, m.brokers, later);
    ExtendsTrans(s.topics, m.topics, RefreshedTopics(m.topics, m.brokers, later));
    GroupsKeep(s.groups, s.topics, RefreshedTopics(m.topics, m.brokers, later));
    forall id | id in m.brokers ensures m.brokers[id].id == id {
      SweepBrokers(s, visits, now, id);
    }
  }

  lemma NextKeeps(s: Cluster, c: Command, s': Cluster)
    requires Ok(s) && Next(s, c, s')
    ensures Ok(s') && Extends(s.topics, s'.topics)
  {
    match c
    case RegisterBroker(id, host, port, now) => RegisterKeeps(s, id, host, port, now);
    case BrokerHeartbeat(id, reports, now, later) => HeartbeatKeeps(s, c);
    case CreateTopic(name, count, factor, now) =>
      if name !in s.topics {
        var ring :| Ring(ring, s.brokers) && s' == Created(s, name, count, factor, ring, now);
        CreateKeeps(s, name, count, factor, ring, now);
      }
    case JoinConsumerGroup(group, member, topics, now) =>
      var g := WithMember(s, group, member, topics, now);
      var order, a :| Dealt(g.members, order, s.topics, a) && s' == Joined(s, group, g, a);
      JoinKeeps(s, group, g, order, a);
    case CommitOffset(group, topic, partition, offset) =>
    case CleanInactive(now, later) =>
      var visits :| FullSweep(s, visits, now) && s' == Swept(s, visits, now, later);
      SweepKeeps(s, visits, now, later);
  }

  // ---- runs ----

  /** `states` are the states of a controller applying `commands` from the start. */
  ghost predicate Run(states: seq<Cluster>, commands: seq<Command>) {
    && |states| == |commands| + 1 && states[0] == EMPTY
    && forall i :: 0 <= i < |commands| ==> Next(states[i], commands[i], states[i + 1])
  }

  /** Every reachable state is in order. */
  lemma {:induction false} Reachable(states: seq<Cluster>, commands: seq<Command>, i: nat)
    requires Run(states, commands) && i < |states|
    ensures Ok(states[i])
  {
    if i > 0 {
      Reachable(states, commands, i - 1);
      NextKeeps(states[i - 1], commands[i - 1], states[i]);
    }
  }

  // ---- no offset below what was reported ----

  /** Every replica offset is at least `low`. */
  ghost predicate Floor(topics: Topics, low: int) {
    forall t, q, id :: t in topics && q in topics[t].partitions && id in topics[t].partitions[q].offsets ==>
      topics[t].partitions[q].offsets[id] >= low
  }

  ghost predicate ReportsAbove(c: Command, low: int) {
    c.BrokerHeartbeat? ==> forall i :: 0 <= i < |c.reports| ==> c.reports[i].offset >= low
  }

  lemma {:induction false} ReportedFloor(topics: Topics, id: nat, reports: seq<Report>, low: int)
    requires Floor(topics, low) && forall i :: 0 <= i < |reports| ==> reports[i].offset >= low
    ensures Floor(Reported(topics, id, reports), low)
  {
    if reports != [] {
      ReportedFloor(topics, id, reports[..|reports| - 1], low);
    }
  }

  lemma RefreshedFloor(topics: Topics, brokers: Brokers, now: int, low: int)
    requires Floor(topics, low)
    ensures Floor(RefreshedTopics(topics, brokers, now), low)
  {
  }

  lemma SweptFloor(s: Cluster, visits: seq<Visit>, now: int, low: int)
    requires Floor(s.topics, low)
    ensures Floor(Sweep(s, visits, now).topics, low)
  {
    SweepShape(s, visits, now);
    var topics := Sweep(s, visits, now).topics;
    forall t, q | t in topics && q in topics[t].partitions
      ensures topics[t].partitions[q].offsets == s.topics[t].partitions[q].offsets
    {
    }
  }

  lemma PlacedFloor(topics: Topics, name: Data, ring: seq<nat>, count: nat, factor: nat, low: int)
    requires Floor(topics, low) && low <= 0
    ensures Floor(topics[name := PlacedTopic(name, ring, count, factor)], low)
  {
  }

  lemma NextFloor(s: Cluster, c: Command, s': Cluster, low: int)
    requires Floor(s.topics, low) && Next(s, c, s') && low <= 0 && ReportsAbove(c, low)
    ensures Floor(s'.topics, low)
  {
    match c
    case BrokerHeartbeat(id, reports, now, later) =>
      ReportedFloor(s.topics, id, reports, low);
      RefreshedFloor(Reported(s.topics, id, reports), Seen(s.brokers, id, now), later, low);
    case CreateTopic(name, count, factor, now) =>
      if name !in s.topics {
        var ring :| Ring(ring, s.brokers) && s' == Created(s, name, count, factor, ring, now);
        PlacedFloor(s.topics, name, ring, count, factor, low);
        RefreshedFloor(s.topics[name := PlacedTopic(name, ring, count, factor)], s.brokers, now, low);
      }
    case CleanInactive(now, later) =>
      var visits :| FullSweep(s, visits, now) && s' == Swept(s, visits, now, later);
      SweptFloor(s, visits, now, low);
      RefreshedFloor(Sweep(s, visits, now).topics, Sweep(s, visits, now).brokers, later, low);
    case _ =>
  }

  /** No watermark is ever below 0 or the lowest offset reported so far. */
  lemma {:induction false} WatermarkFloor(states: seq<Cluster>, commands: seq<Command>, i: nat, low: int, t: Data, q: nat)
    requires Run(states, commands) && i < |states| && low <= 0
    requires forall j :: 0 <= j < i ==> ReportsAbove(commands[j], low)
    requires t in states[i].topics && q in states[i].topics[t].partitions
    ensures states[i].topics[t].partitions[q].hw >= low
  {
    Reachable(states, commands, i);
    ReachableFloor(states, commands, i, low);
    var p := states[i].topics[t].partitions[q];
    assert TopicOk(states[i].topics[t], states[i].brokers);
    assert PartitionOk(p, states[i].brokers);
    WatermarkBounds(p, states[i].brokers);
  }

  lemma {:induction false} ReachableFloor(states: seq<Cluster>, commands: seq<Command>, i: nat, low: int)
    requires Run(states, commands) && i < |states| && low <= 0
    requires forall j :: 0 <= j < i ==> ReportsAbove(commands[j], low)
    ensures Floor(states[i].topics, low)
  {
    if i > 0 {
      ReachableFloor(states, commands, i - 1, low);
      NextFloor(states[i - 1], commands[i - 1], states[i], low);
    }
  }

  // ---- committed offsets ----

  /** The offset the last matching commit carried, or -1. */
  function LastCommit(commands: seq<Command>, group: Data, topic: Data, partition: nat): int {
    if commands == [] then -1 else
      var c := commands[|commands| - 1];
      if c.CommitOffset? && c.group == group && c.topic == topic && c.partition == partition then c.offset
      else LastCommit(commands[..|commands| - 1], group, topic, partition)
  }

  lemma NextOffsets(s: Cluster, c: Command, s': Cluster)
    requires Next(s, c, s')
    ensures s'.offsets == if c.CommitOffset? then s.offsets[Key(c.group, c.topic, c.partition) := c.offset] else s.offsets
  {
    if c.CleanInactive? {
      var visits :| FullSweep(s, visits, c.now) && s' == Swept(s, visits, c.now, c.later);
      SweepShape(s, visits, c.now);
    }
  }

  /** Commit c writes the key that is read for the partition: the names joined by a
      slash and the characters of the partition numbers agree. */
  predicate SameKey(c: Command, group: Data, topic: Data, partition: nat) {
    && c.CommitOffset? && c.group + [SLASH] + c.topic == group + [SLASH] + topic
    && Character(c.partition) == Character(partition)
  }

  /** The offset the last commit under that key carried, or -1. */
  function LastUnderKey(commands: seq<Command>, group: Data, topic: Data, partition: nat): int {
    if commands == [] then -1 else
      var c := commands[|commands| - 1];
      if SameKey(c, group, topic, partition) then c.offset
      else LastUnderKey(commands[..|commands| - 1], group, topic, partition)
  }

  lemma OffsetStep(s: Cluster, c: Command, s': Cluster, group: Data, topic: Data, partition: nat)
    requires Next(s, c, s')
    ensures OffsetIn(s', group, topic, partition) ==
      if SameKey(c, group, topic, partition) then c.offset else OffsetIn(s, group, topic, partition)
  {
    NextOffsets(s, c, s');
    if c.CommitOffset? {
      KeysEqualIff(c.group, c.topic, c.partition, group, topic, partition);
    }
  }

  /** After any commands the offset read is that of the last commit whose joined
      names and partition character agree, whatever they hold. */
  lemma {:induction false} OffsetRead(states: seq<Cluster>, commands: seq<Command>, i: nat,
                                      group: Data, topic: Data, partition: nat)
    requires Run(states, commands) && i <= |commands|
    ensures OffsetIn(states[i], group, topic, partition) == LastUnderKey(commands[..i], group, topic, partition)
  {
    if i > 0 {
      OffsetRead(states, commands, i - 1, group, topic, partition);
      OffsetStep(states[i - 1], commands[i - 1], states[i], group, topic, partition);
      assert commands[..i][..i - 1] == commands[..i - 1];
    }
  }

  predicate PlainCommit(c: Command) {
    c.CommitOffset? ==> Plain(c.group, c.partition)
  }

  lemma {:induction false} LastIsLast(commands: seq<Command>, group: Data, topic: Data, partition: nat)
    requires Plain(group, partition) && forall j :: 0 <= j < |commands| ==> PlainCommit(commands[j])
    ensures LastUnderKey(commands, group, topic, partition) == LastCommit(commands, group, topic, partition)
  {
    if commands != [] {
      var c := commands[|commands| - 1];
      LastIsLast(commands[..|commands| - 1], group, topic, partition);
      if SameKey(c, group, topic, partition) {
        SplitAtSlash(c.group, c.topic, group, topic);
      }
    }
  }

  /** With slash-free groups and scalar partition numbers a committed offset is read
      back for exactly its group, topic and partition. */
  lemma OffsetReadBack(states: seq<Cluster>, commands: seq<Command>, i: nat, group: Data, topic: Data, partition: nat)
    requires Run(states, commands) && i <= |commands| && Plain(group, partition)
    requires forall j :: 0 <= j < i ==> PlainCommit(commands[j])
    ensures OffsetIn(states[i], group, topic, partition) == LastCommit(commands[..i], group, topic, partition)
  {
    OffsetRead(states, commands, i, group, topic, partition);
    LastIsLast(commands[..i], group, topic, partition);
  }
}
