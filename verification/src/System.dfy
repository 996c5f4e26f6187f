/**
 The whole system around one partition: brokers replicating it, their heartbeat
 loops reporting offsets, the network between them and the controller, and the
 controller itself.  Heartbeats and their replies may be delayed, reordered,
 repeated or lost.
 */
module System {
  import opened Bytes
  import opened Replicas
  import R = Replication
  import C = Consumer
  import opened ClusterState
  import opened Placement
  import opened Controller
  import opened ControllerRuns
  import opened Failover
  import E = ControllerEffects

  /** A heartbeat on its way to the controller. */
  datatype Beat = Beat(broker: nat, reports: seq<Report>)

  /** A heartbeat reply telling a broker that it leads the partition. */
  datatype Grant = Grant(broker: nat, ids: seq<nat>)

  datatype World = World(
    ctl: Cluster,
    data: R.State,
    drafts: map<nat, seq<Report>>,
    beats: set<Beat>,
    grants: set<Grant>)

  datatype Event =
    | Broker(action: R.Action)
    | Receive(broker: nat, data: Data)
    | TakeOver(broker: nat)
    | ReadOffset(broker: nat)
    | ReadOther(broker: nat, report: Report)
    | SendBeat(broker: nat)
    | LoseBeat(beat: Beat)
    | ApplyBeat(beat: Beat, now: int, later: int)
    | AnswerBeat(broker: nat)
    | TakeGrant(grant: Grant)
    | Control(command: Command)

  /** The real length of a broker's log of the partition. */
  function Length(replicas: map<nat, Replica>, b: nat): nat {
    if b in replicas then |replicas[b].log| else 0
  }

  function Draft(w: World, b: nat): seq<Report> {
    if b in w.drafts then w.drafts[b] else []
  }

  predicate About(r: Report, at: TopicPartition) {
    r.topic == at.topic && r.partition == at.partition
  }

  /** One event.  `Broker` is a step of replication with one acting leader; besides
      that any broker may take a message into its copy, as one does that still
      believes to lead, and any broker may begin to act as the leader. */
  ghost predicate Step(w: World, e: Event, w': World, at: TopicPartition) {
    match e
    case Broker(a) =>
      && !a.Reconcile? && R.Grounded(w.data) && R.Enabled(w.data, a)
      && w' == w.(data := R.Next(w.data, a))
    case Receive(b, d) =>
      && b in w.data.replicas
      && w' == w.(data := w.data.(replicas := w.data.replicas[b := Appended(w.data.replicas[b], d)]))
    case TakeOver(b) =>
      && b in w.data.replicas
      && w' == w.(data := w.data.(leader := b, tasks := map t | t in w.data.tasks && w.data.tasks[t].follower != b :: w.data.tasks[t]))
    case ReadOffset(b) =>
      && b in w.data.replicas
      && w' == w.(drafts := w.drafts[b := Draft(w, b) + [Report(at.topic, at.partition, Signed(Length(w.data.replicas, b)))]])
    case ReadOther(b, r) =>
      && !About(r, at)
      && w' == w.(drafts := w.drafts[b := Draft(w, b) + [r]])
    case SendBeat(b) =>
      w' == w.(drafts := w.drafts[b := []], beats := w.beats + {Beat(b, Draft(w, b))})
    case LoseBeat(beat) =>
      w' == w.(beats := w.beats - {beat})
    case ApplyBeat(beat, now, later) =>
      && beat in w.beats
      && w' == w.(ctl := Beaten(w.ctl, beat.broker, beat.reports, now, later))
    case AnswerBeat(b) =>
      w' == w.(grants := if Exists(w.ctl.topics, at) && PartAt(w.ctl.topics, at).leader == b
                         then w.grants + {Grant(b, PartAt(w.ctl.topics, at).replicas)} else w.grants)
    case TakeGrant(g) =>
      && g in w.grants && g.broker == w.data.leader && R.Grounded(w.data)
      && w' == w.(data := R.Next(w.data, R.Reconcile(g.ids)))
    case Control(c) =>
      !c.BrokerHeartbeat? && Next(w.ctl, c, w'.ctl) && w' == w.(ctl := w'.ctl)
  }

  // ---- the controller never overestimates a log ----

  ghost predicate ReportOk(r: Report, at: TopicPartition, len: nat) {
    About(r, at) ==> r.offset <= len
  }

  ghost predicate ReportsOk(reports: seq<Report>, at: TopicPartition, len: nat) {
    forall i :: 0 <= i < |reports| ==> ReportOk(reports[i], at, len)
  }

  /** The offsets the controller holds for the partition are within the real logs. */
  ghost predicate Within(topics: Topics, at: TopicPartition, replicas: map<nat, Replica>) {
    Exists(topics, at) ==> OffsetsWithin(PartAt(topics, at).offsets, replicas)
  }

  ghost predicate OffsetsWithin(offsets: map<nat, int>, replicas: map<nat, Replica>) {
    forall b :: b in offsets ==> offsets[b] <= Length(replicas, b)
  }

  ghost predicate Bounded(w: World, at: TopicPartition) {
    && R.Grounded(w.data)
    && (forall b :: b in w.drafts ==> ReportsOk(w.drafts[b], at, Length(w.data.replicas, b)))
    && (forall m :: m in w.beats ==> ReportsOk(m.reports, at, Length(w.data.replicas, m.broker)))
    && Within(w.ctl.topics, at, w.data.replicas)
  }

  /** Logs that grew keep everything within bounds. */
  lemma GrowthKeeps(w: World, w': World, at: TopicPartition)
    requires Bounded(w, at) && R.Grounded(w'.data)
    requires w' == w.(data := w'.data)
    requires forall b :: Length(w.data.replicas, b) <= Length(w'.data.replicas, b)
    ensures Bounded(w', at)
  {
    forall b | b in w'.drafts ensures ReportsOk(w'.drafts[b], at, Length(w'.data.replicas, b)) {
      forall i | 0 <= i < |w.drafts[b]| ensures ReportOk(w.drafts[b][i], at, Length(w'.data.replicas, b)) {
        assert ReportOk(w.drafts[b][i], at, Length(w.data.replicas, b));
      }
    }
    forall m | m in w'.beats ensures ReportsOk(m.reports, at, Length(w'.data.replicas, m.broker)) {
      forall i | 0 <= i < |m.reports| ensures ReportOk(m.reports[i], at, Length(w'.data.replicas, m.broker)) {
        assert ReportOk(m.reports[i], at, Length(w.data.replicas, m.broker));
      }
    }
  }

  lemma ActionGrows(s: R.State, a: R.Action, b: nat)
    requires R.Grounded(s) && R.Enabled(s, a)
    ensures Length(s.replicas, b) <= Length(R.Next(s, a).replicas, b)
  {
    R.NextGrounded(s, a);
    if b in s.replicas {
      R.LogsGrow(s, a, b);
    }
  }

  lemma DataKeeps(w: World, a: R.Action, w': World, at: TopicPartition)
    requires Bounded(w, at) && R.Enabled(w.data, a) && w' == w.(data := R.Next(w.data, a))
    ensures Bounded(w', at)
  {
    R.NextGrounded(w.data, a);
    forall b ensures Length(w.data.replicas, b) <= Length(w'.data.replicas, b) {
      ActionGrows(w.data, a, b);
    }
    GrowthKeeps(w, w', at);
  }

  lemma {:induction false} ReportedWithin(topics: Topics, id: nat, reports: seq<Report>, at: TopicPartition, replicas: map<nat, Replica>)
    requires Within(topics, at, replicas) && ReportsOk(reports, at, Length(replicas, id))
    ensures Within(Reported(topics, id, reports), at, replicas)
  {
    if reports != [] {
      var init, l := reports[..|reports| - 1], reports[|reports| - 1];
      assert ReportsOk(init, at, Length(replicas, id)) by {
        assert forall i :: 0 <= i < |init| ==> init[i] == reports[i];
      }
      ReportedWithin(topics, id, init, at, replicas);
      assert ReportOk(l, at, Length(replicas, id));
    }
  }

  lemma RefreshedWithin(topics: Topics, brokers: Brokers, now: int, at: TopicPartition, replicas: map<nat, Replica>)
    requires Within(topics, at, replicas)
    ensures Within(RefreshedTopics(topics, brokers, now), at, replicas)
  {
  }

  lemma SweptWithin(s: Cluster, visits: seq<Visit>, now: int, at: TopicPartition, replicas: map<nat, Replica>)
    requires Within(s.topics, at, replicas)
    ensures Within(Sweep(s, visits, now).topics, at, replicas)
  {
    SweepShape(s, visits, now);
    if Exists(s.topics, at) {
      assert PartAt(Sweep(s, visits, now).topics, at).offsets == PartAt(s.topics, at).offsets;
    }
  }

  lemma PlacedWithin(topics: Topics, name: Data, ring: seq<nat>, count: nat, factor: nat, at: TopicPartition, replicas: map<nat, Replica>)
    requires Within(topics, at, replicas) && name !in topics
    ensures Within(topics[name := PlacedTopic(name, ring, count, factor)], at, replicas)
  {
    if at.topic == name && at.partition < count {
      var p := Placed(ring, at.partition, factor);
      assert forall b :: b in p.offsets ==> p.offsets[b] == 0;
    }
  }

  lemma CommandWithin(s: Cluster, c: Command, s': Cluster, at: TopicPartition, replicas: map<nat, Replica>)
    requires !c.BrokerHeartbeat? && Next(s, c, s') && Within(s.topics, at, replicas)
    ensures Within(s'.topics, at, replicas)
  {
    match c
    case CreateTopic(name, count, factor, now) =>
      if name !in s.topics {
        var ring :| Ring(ring, s.brokers) && s' == Created(s, name, count, factor, ring, now);
        PlacedWithin(s.topics, name, ring, count, factor, at, replicas);
        RefreshedWithin(s.topics[name := PlacedTopic(name, ring, count, factor)], s.brokers, now, at, replicas);
      }
    case CleanInactive(now, later) =>
      var visits :| FullSweep(s, visits, now) && s' == Swept(s, visits, now, later);
      SweptWithin(s, visits, now, at, replicas);
      var m := Sweep(s, visits, now);
      RefreshedWithin(m.topics, m.brokers, later, at, replicas);
    case _ =>
  }

  lemma DraftKeeps(w: World, b: nat, r: Report, w': World, at: TopicPartition)
    requires Bounded(w, at) && ReportOk(r, at, Length(w.data.replicas, b))
    requires w' == w.(drafts := w.drafts[b := Draft(w, b) + [r]])
    ensures Bounded(w', at)
  {
    var draft := Draft(w, b) + [r];
    forall i | 0 <= i < |draft| ensures ReportOk(draft[i], at, Length(w.data.replicas, b)) {
      if i < |draft| - 1 {
        assert ReportOk(w.drafts[b][i], at, Length(w.data.replicas, b));
      }
    }
  }

  lemma ApplyKeeps(w: World, beat: Beat, now: int, later: int, at: TopicPartition)
    requires Bounded(w, at) && beat in w.beats
    ensures Within(Beaten(w.ctl, beat.broker, beat.reports, now, later).topics, at, w.data.replicas)
  {
    ReportedWithin(w.ctl.topics, beat.broker, beat.reports, at, w.data.replicas);
    RefreshedWithin(Reported(w.ctl.topics, beat.broker, beat.reports), Seen(w.ctl.brokers, beat.broker, now), later, at, w.data.replicas);
  }

  /** Whoever appends or leads, copies only grow. */
  lemma TakeoverKeeps(w: World, e: Event, w': World, at: TopicPartition)
    requires Bounded(w, at) && Step(w, e, w', at) && (e.Receive? || e.TakeOver?)
    ensures Bounded(w', at)
  {
    assert R.Grounded(w'.data);
    GrowthKeeps(w, w', at);
  }

  lemma StepBounded(w: World, e: Event, w': World, at: TopicPartition)
    requires Bounded(w, at) && Step(w, e, w', at)
    ensures Bounded(w', at)
  {
    match e
    case Broker(a) => DataKeeps(w, a, w', at);
    case Receive(b, d) => TakeoverKeeps(w, e, w', at);
    case TakeOver(b) => TakeoverKeeps(w, e, w', at);
    case ReadOffset(b) => DraftKeeps(w, b, Report(at.topic, at.partition, Signed(Length(w.data.replicas, b))), w', at);
    case ReadOther(b, r) => DraftKeeps(w, b, r, w', at);
    case SendBeat(b) =>
    case LoseBeat(beat) =>
    case ApplyBeat(beat, now, later) => ApplyKeeps(w, beat, now, later, at);
    case AnswerBeat(b) =>
    case TakeGrant(g) => DataKeeps(w, R.Reconcile(g.ids), w', at);
    case Control(c) => CommandWithin(w.ctl, c, w'.ctl, at, w.data.replicas);
  }

  lemma StepOk(w: World, e: Event, w': World, at: TopicPartition)
    requires Bounded(w, at) && Ok(w.ctl) && Step(w, e, w', at)
    ensures Ok(w'.ctl) && Extends(w.ctl.topics, w'.ctl.topics)
  {
    match e
    case ApplyBeat(beat, now, later) =>
      HeartbeatKeeps(w.ctl, BrokerHeartbeat(beat.broker, beat.reports, now, later));
    case Control(c) => NextKeeps(w.ctl, c, w'.ctl);
    case _ =>
  }

  ghost predicate Run(worlds: seq<World>, events: seq<Event>, at: TopicPartition) {
    && |worlds| == |events| + 1
    && forall i :: 0 <= i < |events| ==> Step(worlds[i], events[i], worlds[i + 1], at)
  }

  /** In every run the controller's offset for a broker is within that broker's
      real log, however heartbeats are delayed, reordered, repeated or lost. */
  lemma {:induction false} NeverOverestimates(worlds: seq<World>, events: seq<Event>, at: TopicPartition, i: nat)
    requires Run(worlds, events, at) && Bounded(worlds[0], at) && Ok(worlds[0].ctl) && i < |worlds|
    ensures Bounded(worlds[i], at) && Ok(worlds[i].ctl)
  {
    if i > 0 {
      NeverOverestimates(worlds, events, at, i - 1);
      StepBounded(worlds[i - 1], events[i - 1], worlds[i], at);
      StepOk(worlds[i - 1], events[i - 1], worlds[i], at);
    }
  }

  /** So its high watermark is within the real log of every in-sync replica. */
  lemma WatermarkWithinLogs(worlds: seq<World>, events: seq<Event>, at: TopicPartition, i: nat, id: nat)
    requires Run(worlds, events, at) && Bounded(worlds[0], at) && Ok(worlds[0].ctl) && i < |worlds|
    requires Exists(worlds[i].ctl.topics, at) && id in PartAt(worlds[i].ctl.topics, at).isr
    ensures PartAt(worlds[i].ctl.topics, at).hw <= Length(worlds[i].data.replicas, id)
  {
    NeverOverestimates(worlds, events, at, i);
    var w := worlds[i];
    var p := PartAt(w.ctl.topics, at);
    assert TopicOk(w.ctl.topics[at.topic], w.ctl.brokers);
    assert PartitionOk(p, w.ctl.brokers);
    WatermarkBounds(p, w.ctl.brokers);
  }

  // ---- failover keeps what consumers have read ----

  /** The controller has the partition led by the broker that acts as its leader. */
  predicate Led(w: World, at: TopicPartition) {
    Exists(w.ctl.topics, at) && PartAt(w.ctl.topics, at).leader == w.data.leader
  }

  /** The leader lists `ids`, or nothing because it has not been told since it started. */
  ghost predicate ListOk(s: R.State, ids: seq<nat>) {
    s.leader in s.replicas && (s.replicas[s.leader].replicaIds == ids || s.replicas[s.leader].replicaIds == [])
  }

  /** A leadership in progress, with replica list `ids`. */
  ghost predicate Reign(w: World, at: TopicPartition, ids: seq<nat>) {
    && Bounded(w, at) && Ok(w.ctl) && Led(w, at) && PartAt(w.ctl.topics, at).replicas == ids
    && R.Inv(w.data, ids) && ListOk(w.data, ids)
    && forall g :: g in w.grants ==> g.ids == ids
  }

  /** During a reign one broker leads, payloads fit the fetch budget, deliveries are
      on time, and consumers are served only by a leader that has been told its
      replicas since it started. */
  ghost predicate EventOk(w: World, e: Event, ids: seq<nat>) {
    match e
    case Broker(a) =>
      if a.Consume? then w.data.leader in w.data.replicas && w.data.replicas[w.data.leader].replicaIds != []
      else R.Disciplined(w.data, a, ids)
    case Receive(_, _) => false
    case TakeOver(_) => false
    case _ => true
  }

  lemma ListStays(s: R.State, a: R.Action, ids: seq<nat>)
    requires R.Grounded(s) && R.Enabled(s, a) && ListOk(s, ids) && (a.Reconcile? ==> a.ids == ids)
    ensures ListOk(R.Next(s, a), ids)
  {
  }

  lemma DataReign(w: World, e: Event, w': World, at: TopicPartition, ids: seq<nat>)
    requires R.Inv(w.data, ids) && ListOk(w.data, ids) && Step(w, e, w', at) && EventOk(w, e, ids)
    requires forall g :: g in w.grants ==> g.ids == ids
    ensures R.Inv(w'.data, ids) && ListOk(w'.data, ids) && w'.data.leader == w.data.leader
  {
    match e
    case Broker(a) =>
      R.StepKeeps(w.data, a, ids);
      R.NextGrounded(w.data, a);
      ListStays(w.data, a, ids);
    case TakeGrant(g) =>
      R.StepKeeps(w.data, R.Reconcile(g.ids), ids);
      ListStays(w.data, R.Reconcile(g.ids), ids);
    case _ =>
  }

  lemma ReplicasStay(topics: Topics, topics': Topics, at: TopicPartition)
    requires Extends(topics, topics') && Exists(topics, at)
    ensures Exists(topics', at) && PartAt(topics', at).replicas == PartAt(topics, at).replicas
  {
    assert TopicExtends(topics[at.topic], topics'[at.topic]);
  }

  /** Whatever is granted is the replica list, which never changes. */
  lemma GrantsReign(w: World, e: Event, w': World, at: TopicPartition, ids: seq<nat>)
    requires Step(w, e, w', at) && Exists(w.ctl.topics, at) && PartAt(w.ctl.topics, at).replicas == ids
    requires forall g :: g in w.grants ==> g.ids == ids
    ensures forall g :: g in w'.grants ==> g.ids == ids
  {
    if e.AnswerBeat? {
      assert w'.grants <= w.grants + {Grant(e.broker, ids)};
    } else {
      assert w'.grants == w.grants;
    }
  }

  lemma StepReign(w: World, e: Event, w': World, at: TopicPartition, ids: seq<nat>)
    requires Reign(w, at, ids) && Step(w, e, w', at) && EventOk(w, e, ids) && Led(w', at)
    ensures Reign(w', at, ids) && w'.data.leader == w.data.leader
  {
    StepBounded(w, e, w', at);
    StepOk(w, e, w', at);
    DataReign(w, e, w', at, ids);
    ReplicasStay(w.ctl.topics, w'.ctl.topics, at);
    GrantsReign(w, e, w', at, ids);
  }

  ghost predicate ReignRun(worlds: seq<World>, events: seq<Event>, at: TopicPartition, ids: seq<nat>) {
    && Run(worlds, events, at)
    && (forall i :: 0 <= i < |events| ==> EventOk(worlds[i], events[i], ids))
    && (forall i :: 0 <= i < |worlds| ==> Led(worlds[i], at))
  }

  /** A reign that has come to the first world goes on in the second. */
  ghost predicate GoesOn(w: World, w': World, at: TopicPartition, ids: seq<nat>) {
    Reign(w, at, ids) ==> Reign(w', at, ids) && w'.data.leader == w.data.leader
  }

  lemma ReignGoesOn(worlds: seq<World>, events: seq<Event>, at: TopicPartition, ids: seq<nat>, i: nat)
    requires ReignRun(worlds, events, at, ids) && i < |events|
    ensures GoesOn(worlds[i], worlds[i + 1], at, ids)
  {
    var w, e, w' := worlds[i], events[i], worlds[i + 1];
    assert Step(w, e, w', at) && EventOk(w, e, ids) && Led(w', at);
    if Reign(w, at, ids) {
      StepReign(w, e, w', at, ids);
    }
  }

  lemma {:induction false} GoesOnAll(worlds: seq<World>, at: TopicPartition, ids: seq<nat>, i: nat)
    requires i < |worlds| && Reign(worlds[0], at, ids)
    requires forall k :: 0 <= k < |worlds| - 1 ==> GoesOn(worlds[k], worlds[k + 1], at, ids)
    ensures Reign(worlds[i], at, ids) && worlds[i].data.leader == worlds[0].data.leader
  {
    if i > 0 {
      GoesOnAll(worlds, at, ids, i - 1);
      assert GoesOn(worlds[i - 1], worlds[i - 1 + 1], at, ids);
    }
  }

  lemma ReignLasts(worlds: seq<World>, events: seq<Event>, at: TopicPartition, ids: seq<nat>, i: nat)
    requires ReignRun(worlds, events, at, ids) && Reign(worlds[0], at, ids) && i < |worlds|
    ensures Reign(worlds[i], at, ids) && worlds[i].data.leader == worlds[0].data.leader
  {
    forall k | 0 <= k < |worlds| - 1 ensures GoesOn(worlds[k], worlds[k + 1], at, ids) {
      ReignGoesOn(worlds, events, at, ids, k);
    }
    GoesOnAll(worlds, at, ids, i);
  }

  /** Broker b holds what was served, at the same offset with the same bytes. */
  ghost predicate Keeps(s: R.State, b: nat, v: R.Served) {
    && s.leader in s.replicas && b in s.replicas
    && v.offset < |s.replicas[b].log| && v.offset < |R.LeaderLog(s)|
    && s.replicas[b].log[v.offset] == R.LeaderLog(s)[v.offset]
    && Read(s.replicas[b].log, v.offset, v.max) == Some(v.data)
  }

  lemma ReplicasKeep(s: R.State, ids: seq<nat>, b: nat, k: nat)
    requires R.Inv(s, ids) && b in ids && k < |s.served|
    ensures Keeps(s, b, s.served[k])
  {
    var v := s.served[k];
    assert R.Durable(s, ids, v);
    ReadPrefix(s.replicas[b].log, R.LeaderLog(s), v.offset, v.max);
  }

  /** A sweep by the controller, in any order, moves the leadership only; with a
      surviving replica and broker 0 harmless it stays among the replicas. */
  lemma SweepElects(w: World, w': World, at: TopicPartition, ids: seq<nat>, now: int, later: int, survivor: nat)
    requires Exists(w.ctl.topics, at) && PartAt(w.ctl.topics, at).replicas == ids && PartAt(w.ctl.topics, at).leader in ids
    requires Step(w, Control(CleanInactive(now, later)), w', at)
    requires survivor in ids && Survives(w.ctl, survivor, now) && ZeroHarmless(w.ctl, PartAt(w.ctl.topics, at), now)
    ensures w'.data == w.data && Exists(w'.ctl.topics, at) && PartAt(w'.ctl.topics, at).leader in ids
  {
    var visits :| FullSweep(w.ctl, visits, now) && w'.ctl == Swept(w.ctl, visits, now, later);
    LeaderStaysReplica(w.ctl, visits, now, at, survivor);
  }

  /** Everything the leader has ever served to a consumer in a run of the system is
      at the same offset with the same bytes on whichever broker the controller's
      next sweep elects, provided a replica survives it and broker 0 is harmless. */
  lemma ServedSurvivesFailover(worlds: seq<World>, events: seq<Event>, at: TopicPartition, ids: seq<nat>, w: World, w': World,
                               now: int, later: int, survivor: nat, k: nat)
    requires ReignRun(worlds, events, at, ids) && Reign(worlds[0], at, ids) && w == worlds[|events|]
    requires worlds[0].data.leader in ids && survivor in ids && Survives(w.ctl, survivor, now)
    requires Step(w, Control(CleanInactive(now, later)), w', at)
    requires ZeroHarmless(w.ctl, PartAt(w.ctl.topics, at), now)
    requires k < |w.data.served|
    ensures Exists(w'.ctl.topics, at) && PartAt(w'.ctl.topics, at).leader in ids
    ensures Keeps(w'.data, PartAt(w'.ctl.topics, at).leader, w.data.served[k])
  {
    ReignLasts(worlds, events, at, ids, |events|);
    SweepElects(w, w', at, ids, now, later, survivor);
    ReplicasKeep(w.data, ids, PartAt(w'.ctl.topics, at).leader, k);
  }

  // ---- what a consumer printed ----

  /** Broker f's copy only grew. */
  ghost predicate Grew(w: World, w': World, f: nat) {
    f in w.data.replicas ==> f in w'.data.replicas && w.data.replicas[f].log <= w'.data.replicas[f].log
  }

  lemma StepGrows(w: World, e: Event, w': World, at: TopicPartition, f: nat)
    requires Step(w, e, w', at) && R.Grounded(w.data)
    ensures Grew(w, w', f)
  {
    if f in w.data.replicas {
      match e
      case Broker(a) => R.LogsGrow(w.data, a, f);
      case TakeGrant(g) => R.LogsGrow(w.data, R.Reconcile(g.ids), f);
      case _ =>
    }
  }

  lemma StepOfRun(worlds: seq<World>, events: seq<Event>, at: TopicPartition, i: nat, f: nat)
    requires Run(worlds, events, at) && Bounded(worlds[0], at) && Ok(worlds[0].ctl) && i < |events|
    ensures Grew(worlds[i], worlds[i + 1], f)
  {
    NeverOverestimates(worlds, events, at, i);
    StepGrows(worlds[i], events[i], worlds[i + 1], at, f);
  }

  lemma {:induction false} GrewAll(worlds: seq<World>, i: nat, j: nat, f: nat)
    requires i <= j < |worlds| && forall k :: 0 <= k < |worlds| - 1 ==> Grew(worlds[k], worlds[k + 1], f)
    ensures Grew(worlds[i], worlds[j], f)
    decreases j
  {
    if i < j {
      GrewAll(worlds, i, j - 1, f);
      assert Grew(worlds[j - 1], worlds[j - 1 + 1], f);
    }
  }

  lemma LogsLast(worlds: seq<World>, events: seq<Event>, at: TopicPartition, i: nat, j: nat, f: nat)
    requires Run(worlds, events, at) && Bounded(worlds[0], at) && Ok(worlds[0].ctl) && i <= j < |worlds|
    ensures Grew(worlds[i], worlds[j], f)
  {
    forall k | 0 <= k < |worlds| - 1 ensures Grew(worlds[k], worlds[k + 1], f) {
      StepOfRun(worlds, events, at, k, f);
    }
    GrewAll(worlds, i, j, f);
  }

  /** Each look finds the leader's log as it is in one of the worlds. */
  ghost predicate Watched(history: C.History, worlds: seq<World>, leader: nat) {
    forall a, i :: 0 <= a < |history| && 0 <= i < |history[a]| ==>
      exists n :: 0 <= n < |worlds| && Shows(worlds[n], leader, history[a][i])
  }

  /** When the a-th message was read the leader had been told its replicas. */
  ghost predicate Told(history: C.History, seen: seq<nat>, a: nat) {
    a < |seen| && a < |history| && seen[a] < |history[a]| && history[a][seen[a]].replicaIds != []
  }

  ghost predicate Shows(w: World, leader: nat, look: Replica) {
    leader in w.data.replicas && w.data.replicas[leader] == look
  }

  /** What a consumer printed from its looks at the leader is, bytes and offsets, on
      every replica at the end of the run. */
  lemma PrintedLasts(worlds: seq<World>, events: seq<Event>, at: TopicPartition, ids: seq<nat>, history: C.History,
                     start: nat, printed: seq<Data>, seen: seq<nat>, a: nat, f: nat)
    requires ReignRun(worlds, events, at, ids) && Reign(worlds[0], at, ids) && f in ids
    requires Watched(history, worlds, worlds[0].data.leader)
    requires C.Session(history, start, printed, seen) && a < |printed| && Told(history, seen, a)
    ensures
      var w := worlds[|events|];
      f in w.data.replicas && Read(w.data.replicas[f].log, start + a, FETCH_BYTES) == Some(printed[a])
  {
    assert C.FetchedAt(history[a], start + a, Some(printed[a]), seen[a]);
    var n :| 0 <= n < |worlds| && Shows(worlds[n], worlds[0].data.leader, history[a][seen[a]]);
    ReignLasts(worlds, events, at, ids, n);
    LogsLast(worlds, events, at, n, |events|, f);
    PrintedThen(worlds[n], worlds[|events|], at, ids, history, start, printed, seen, a, f);
  }

  lemma PrintedThen(v: World, w: World, at: TopicPartition, ids: seq<nat>, history: C.History,
                    start: nat, printed: seq<Data>, seen: seq<nat>, a: nat, f: nat)
    requires R.Inv(v.data, ids) && ListOk(v.data, ids) && f in ids && Grew(v, w, f)
    requires C.Session(history, start, printed, seen) && a < |printed| && Told(history, seen, a)
    requires Shows(v, v.data.leader, history[a][seen[a]])
    ensures f in w.data.replicas && Read(w.data.replicas[f].log, start + a, FETCH_BYTES) == Some(printed[a])
  {
    C.PrintedIsReplicated(history, start, printed, seen, a, v.data, ids, f);
    ReadPrefix(v.data.replicas[f].log, w.data.replicas[f].log, start + a, FETCH_BYTES);
  }

  /** So the consumer can read all of it again, message by message, from whichever
      broker the controller's next sweep elects. */
  lemma PrintedSurvivesFailover(worlds: seq<World>, events: seq<Event>, at: TopicPartition, ids: seq<nat>, w: World, w': World,
                                now: int, later: int, survivor: nat, history: C.History,
                                start: nat, printed: seq<Data>, seen: seq<nat>, a: nat)
    requires ReignRun(worlds, events, at, ids) && Reign(worlds[0], at, ids) && w == worlds[|events|]
    requires worlds[0].data.leader in ids && survivor in ids && Survives(w.ctl, survivor, now)
    requires Step(w, Control(CleanInactive(now, later)), w', at)
    requires ZeroHarmless(w.ctl, PartAt(w.ctl.topics, at), now)
    requires Watched(history, worlds, worlds[0].data.leader)
    requires C.Session(history, start, printed, seen) && a < |printed| && Told(history, seen, a)
    ensures Exists(w'.ctl.topics, at) && PartAt(w'.ctl.topics, at).leader in ids
    ensures
      var b := PartAt(w'.ctl.topics, at).leader;
      b in w'.data.replicas && Read(w'.data.replicas[b].log, start + a, FETCH_BYTES) == Some(printed[a])
  {
    ReignLasts(worlds, events, at, ids, |events|);
    SweepElects(w, w', at, ids, now, later, survivor);
    PrintedLasts(worlds, events, at, ids, history, start, printed, seen, a, PartAt(w'.ctl.topics, at).leader);
  }

  // ---- one round of heartbeats ----

  /** An offset that is read, sent and applied is what the controller holds for that
      broker then, whatever else the heartbeat carries; below 2^63 it is the length
      the log had when it was read. */
  lemma ReportArrives(w: World, w1: World, w2: World, w3: World, at: TopicPartition, b: nat, now: int, later: int)
    requires Exists(w.ctl.topics, at) && b in w.data.replicas
    requires Step(w, ReadOffset(b), w1, at) && Step(w1, SendBeat(b), w2, at)
    requires Step(w2, ApplyBeat(Beat(b, Draft(w1, b)), now, later), w3, at)
    ensures Exists(w3.ctl.topics, at) && b in PartAt(w3.ctl.topics, at).offsets
    ensures
      var n, held := |w.data.replicas[b].log|, PartAt(w3.ctl.topics, at).offsets[b];
      held <= n && (n < 0x8000_0000_0000_0000 ==> held == n)
  {
    var reports := Draft(w1, b);
    assert reports[|reports| - 1] == Report(at.topic, at.partition, Signed(Length(w.data.replicas, b)));
    E.HeartbeatRecords(w2.ctl, b, reports, now, later, w3.ctl, at);
  }

  /** The reply to the leader's heartbeat, once taken, makes the broker list exactly
      the partition's replicas, with its log and the recorded progress as they were. */
  lemma GrantArrives(w: World, w1: World, w2: World, at: TopicPartition)
    requires Exists(w.ctl.topics, at) && PartAt(w.ctl.topics, at).leader == w.data.leader
    requires Step(w, AnswerBeat(w.data.leader), w1, at)
    requires Step(w1, TakeGrant(Grant(w.data.leader, PartAt(w.ctl.topics, at).replicas)), w2, at)
    ensures w.data.leader in w.data.replicas && w.data.leader in w2.data.replicas
    ensures
      var c, c' := w.data.replicas[w.data.leader], w2.data.replicas[w.data.leader];
      && c'.replicaIds == PartAt(w.ctl.topics, at).replicas && Current(c')
      && c'.log == c.log && c'.recorded == c.recorded
  {
  }
}
