/**
 The brokers of one partition as running code: real logs, request and reply bytes
 in flight, runs waiting for their answers.  Every operation is one step of the
 transition system of replication, so in whatever order operations come, the code
 goes along one of its paths.
 */
module Simulation {
  import opened Bytes
  import opened Replicas
  import opened TieredLog
  import opened Wire
  import opened DataServer
  import opened Follower
  import R = Replication

  type Logs = map<nat, PartitionLog>

  /** A replication run in progress and the reply bytes it has received, if any. */
  datatype Pull = Pull(follower: nat, reply: Option<Data>)

  /** What is on its way between the brokers of a partition. */
  datatype Net = Net(topic: Data, partition: u32, requests: map<nat, Data>, pulls: map<nat, Pull>, nextTicket: nat)

  // ---- how code and state correspond ----

  ghost predicate Mirror(log: PartitionLog, b: nat, r: Replica)
    reads log
  {
    log.Valid() && log.brokerId == b && b < U32 && log.View() == r
  }

  /** Each broker's log, an object of its own, shows its replica. */
  ghost predicate Mirrors(logs: Logs, replicas: map<nat, Replica>)
    reads logs.Values
  {
    && logs.Keys == replicas.Keys
    && (forall b :: b in logs ==> Mirror(logs[b], b, replicas[b]))
    && Apart(logs)
  }

  /** The same without broker b. */
  ghost predicate Others(logs: Logs, b: nat, replicas: map<nat, Replica>)
    reads set k | k in logs && k != b :: logs[k]
  {
    logs.Keys == replicas.Keys && forall k :: k in logs && k != b ==> Mirror(logs[k], k, replicas[k])
  }

  predicate Apart(logs: Logs) {
    forall a, b :: a in logs && b in logs && a != b ==> logs[a] != logs[b]
  }

  lemma Together(logs: Logs, b: nat, replicas: map<nat, Replica>, r: Replica)
    requires Apart(logs) && b in logs && Others(logs, b, replicas) && Mirror(logs[b], b, r)
    ensures Mirrors(logs, replicas[b := r])
  {
  }

  /** A follower's request as it travels. */
  predicate SentAs(topic: Data, partition: u32, r: R.Request, bytes: Data) {
    && r.follower < U32 && r.offset < U64
    && bytes == Frame(ReplicaFetch(r.follower, topic, partition, r.offset, FETCH_BYTES))
  }

  ghost predicate InFlight(topic: Data, partition: u32, bytes: map<nat, Data>, requests: map<nat, R.Request>) {
    bytes.Keys == requests.Keys && forall t :: t in bytes ==> SentAs(topic, partition, requests[t], bytes[t])
  }

  /** A run and its reply as it arrived. */
  predicate PullAs(task: R.Task, pull: Pull) {
    && pull.follower == task.follower
    && match task.reply
       case Pending => pull.reply == None
       case Answered(data) => pull.reply == Some(ReplyBytes(Answer(data))) && (data.Some? ==> |data.value| <= FETCH_BYTES)
  }

  ghost predicate Pulling(pulls: map<nat, Pull>, tasks: map<nat, R.Task>) {
    pulls.Keys == tasks.Keys && forall t :: t in pulls ==> PullAs(tasks[t], pulls[t])
  }

  ghost predicate Carries(net: Net, s: R.State) {
    && TopicOk(net.topic) && net.nextTicket == s.nextTicket
    && InFlight(net.topic, net.partition, net.requests, s.requests) && Pulling(net.pulls, s.tasks)
  }

  /** Logs and bytes stand for a state of the transition system. */
  ghost predicate Stands(logs: Logs, net: Net, s: R.State)
    reads logs.Values
  {
    R.Grounded(s) && Mirrors(logs, s.replicas) && Carries(net, s)
  }

  // ---- one log changes ----

  method AppendOne(log: PartitionLog, d: Data, t: int, now: int, ghost b: nat, ghost r: Replica) returns (offset: nat)
    requires Mirror(log, b, r) && RoomIn(r, |d| + 1)
    modifies log
    ensures Mirror(log, b, Appended(r, d)) && offset == |r.log|
  {
    ActiveFits(log);
    offset := log.Append(d, t, now);
  }

  method AppendTo(logs: Logs, b: nat, d: Data, t: int, now: int, ghost replicas: map<nat, Replica>) returns (offset: nat)
    requires Mirrors(logs, replicas) && b in logs && RoomIn(replicas[b], |d| + 1)
    modifies logs[b]
    ensures Mirrors(logs, replicas[b := Appended(replicas[b], d)]) && offset == |replicas[b].log|
  {
    assert Others(logs, b, replicas);
    offset := AppendOne(logs[b], d, t, now, b, replicas[b]);
    Together(logs, b, replicas, Appended(replicas[b], d));
  }

  method TakeOne(log: PartitionLog, reply: Data, t: int, now: int, ghost data: Option<Data>, ghost b: nat, ghost r: Replica)
    requires Mirror(log, b, r) && RoomIn(r, FETCH_BYTES + 1)
    requires reply == ReplyBytes(Answer(data)) && (data.Some? ==> |data.value| <= FETCH_BYTES)
    modifies log
    ensures Mirror(log, b, Replicated(r, data))
  {
    Take(log, reply, t, now, data);
  }

  method TakeInto(logs: Logs, b: nat, reply: Data, t: int, now: int, ghost data: Option<Data>, ghost replicas: map<nat, Replica>)
    requires Mirrors(logs, replicas) && b in logs && RoomIn(replicas[b], FETCH_BYTES + 1)
    requires reply == ReplyBytes(Answer(data)) && (data.Some? ==> |data.value| <= FETCH_BYTES)
    modifies logs[b]
    ensures Mirrors(logs, replicas[b := Replicated(replicas[b], data)])
  {
    assert Others(logs, b, replicas);
    TakeOne(logs[b], reply, t, now, data, b, replicas[b]);
    Together(logs, b, replicas, Replicated(replicas[b], data));
  }

  method RespondOne(log: PartitionLog, sent: Data, ghost q: Request, ghost b: nat, ghost r: Replica)
    returns (reply: Data, ghost data: Option<Data>)
    requires Mirror(log, b, r) && q.ReplicaFetch? && Sendable(q) && sent == Frame(q)
    modifies log
    ensures Mirror(log, b, FetchedBy(r, q.replica, q.offset)) && data == Read(r.log, q.offset, q.max)
    ensures reply == ReplyBytes(Answer(data)) && (data.Some? ==> |data.value| <= q.max)
  {
    reply, data := Respond(log, sent, q);
  }

  method RespondFrom(logs: Logs, b: nat, sent: Data, ghost q: Request, ghost replicas: map<nat, Replica>)
    returns (reply: Data, ghost data: Option<Data>)
    requires Mirrors(logs, replicas) && b in logs && q.ReplicaFetch? && Sendable(q) && sent == Frame(q)
    modifies logs[b]
    ensures Mirrors(logs, replicas[b := FetchedBy(replicas[b], q.replica, q.offset)])
    ensures data == Read(replicas[b].log, q.offset, q.max)
    ensures reply == ReplyBytes(Answer(data)) && (data.Some? ==> |data.value| <= q.max)
  {
    assert Others(logs, b, replicas);
    reply, data := RespondOne(logs[b], sent, q, b, replicas[b]);
    Together(logs, b, replicas, FetchedBy(replicas[b], q.replica, q.offset));
  }

  method TellList(logs: Logs, b: nat, ids: seq<nat>, ghost replicas: map<nat, Replica>)
    requires Mirrors(logs, replicas) && b in logs
    modifies logs[b]
    ensures Mirrors(logs, replicas[b := Reconciled(replicas[b], ids)])
  {
    assert Others(logs, b, replicas);
    TellOne(logs[b], ids, b, replicas[b]);
    Together(logs, b, replicas, Reconciled(replicas[b], ids));
  }

  method TellOne(log: PartitionLog, ids: seq<nat>, ghost b: nat, ghost r: Replica)
    requires Mirror(log, b, r)
    modifies log
    ensures Mirror(log, b, Reconciled(r, ids))
  {
    log.Reconcile(ids);
  }

  /** The others do not change with the log of b. */
  lemma SameOthers(logs: Logs, logs': Logs, b: nat, replicas: map<nat, Replica>)
    requires Others(logs, b, replicas) && logs'.Keys == logs.Keys && forall k :: k in logs && k != b ==> logs'[k] == logs[k]
    ensures Others(logs', b, replicas)
  {
  }

  lemma StillApart(logs: Logs, b: nat, log: PartitionLog)
    requires Apart(logs) && log !in logs.Values
    ensures Apart(logs[b := log])
  {
  }

  method RestartOne(log: PartitionLog, t: int, ghost b: nat, ghost r: Replica) returns (log': PartitionLog)
    requires Mirror(log, b, r)
    ensures fresh(log') && Mirror(log', b, Restarted(r))
  {
    log' := Reopen(log, t);
  }

  method RestartLog(logs: Logs, b: nat, t: int, ghost replicas: map<nat, Replica>) returns (logs': Logs)
    requires Mirrors(logs, replicas) && b in logs
    ensures Mirrors(logs', replicas[b := Restarted(replicas[b])])
    ensures logs'.Keys == logs.Keys && fresh(logs'[b]) && forall k :: k in logs && k != b ==> logs'[k] == logs[k]
  {
    assert Others(logs, b, replicas);
    var log := RestartOne(logs[b], t, b, replicas[b]);
    logs' := logs[b := log];
    SameOthers(logs, logs', b, replicas);
    StillApart(logs, b, log);
    Together(logs', b, replicas, Restarted(replicas[b]));
  }

  // ---- what is in flight changes ----

  lemma OneMoreRequest(topic: Data, partition: u32, bytes: map<nat, Data>, requests: map<nat, R.Request>, n: nat, r: R.Request, sent: Data)
    requires InFlight(topic, partition, bytes, requests) && SentAs(topic, partition, r, sent)
    ensures InFlight(topic, partition, bytes[n := sent], requests[n := r])
  {
  }

  lemma OneMorePull(pulls: map<nat, Pull>, tasks: map<nat, R.Task>, n: nat, task: R.Task, pull: Pull)
    requires Pulling(pulls, tasks) && PullAs(task, pull)
    ensures Pulling(pulls[n := pull], tasks[n := task])
  {
  }

  lemma BeginCarries(net: Net, s: R.State, f: nat, sent: Data) returns (s': R.State)
    requires R.Grounded(s) && Carries(net, s) && R.Enabled(s, R.BeginFetch(f))
    requires SentAs(net.topic, net.partition, R.Request(f, |s.replicas[f].log|), sent)
    ensures R.Step(s, R.BeginFetch(f), s') && R.Grounded(s') && s'.replicas == s.replicas
    ensures Carries(net.(requests := net.requests[net.nextTicket := sent], pulls := net.pulls[net.nextTicket := Pull(f, None)],
                         nextTicket := net.nextTicket + 1), s')
  {
    R.BeginFacts(s, f);
    s' := R.Next(s, R.BeginFetch(f));
    var n := |s.replicas[f].log|;
    OneMoreRequest(net.topic, net.partition, net.requests, s.requests, s.nextTicket, R.Request(f, n), sent);
    OneMorePull(net.pulls, s.tasks, s.nextTicket, R.Task(f, n, R.Pending), Pull(f, None));
  }

  function WithReply(net: Net, t: nat, reply: Data): Net {
    net.(requests := net.requests - {t},
         pulls := if t in net.pulls then net.pulls[t := net.pulls[t].(reply := Some(reply))] else net.pulls)
  }

  lemma ServeCarries(net: Net, s: R.State, t: nat, reply: Data) returns (s': R.State)
    requires R.Grounded(s) && Carries(net, s) && R.Enabled(s, R.Serve(t))
    requires reply == ReplyBytes(Answer(Read(R.LeaderLog(s), s.requests[t].offset, FETCH_BYTES)))
    ensures R.Step(s, R.Serve(t), s') && R.Grounded(s') && Carries(WithReply(net, t, reply), s')
    ensures s'.replicas == s.replicas[s.leader := FetchedBy(s.replicas[s.leader], s.requests[t].follower, s.requests[t].offset)]
  {
    R.NextGrounded(s, R.Serve(t));
    s' := R.Next(s, R.Serve(t));
    forall u | u in WithReply(net, t, reply).pulls ensures PullAs(s'.tasks[u], WithReply(net, t, reply).pulls[u]) {
      assert PullAs(s.tasks[u], net.pulls[u]);
    }
  }

  lemma DeliverCarries(net: Net, s: R.State, t: nat) returns (s': R.State)
    requires R.Grounded(s) && Carries(net, s) && R.Enabled(s, R.Deliver(t))
    ensures R.Step(s, R.Deliver(t), s') && R.Grounded(s') && Carries(net.(pulls := net.pulls - {t}), s')
    ensures s'.replicas == s.replicas[s.tasks[t].follower := Replicated(s.replicas[s.tasks[t].follower], s.tasks[t].reply.data)]
    ensures PullAs(s.tasks[t], net.pulls[t])
  {
    R.NextGrounded(s, R.Deliver(t));
    s' := R.Next(s, R.Deliver(t));
    var task := s.tasks[t];
    assert PullAs(task, net.pulls[t]);
    assert task.reply.data.None? ==> s.replicas[task.follower := s.replicas[task.follower]] == s.replicas;
  }

  function WithoutPulls(net: Net, b: nat): Net {
    net.(pulls := map u | u in net.pulls && net.pulls[u].follower != b :: net.pulls[u])
  }

  lemma RestartCarries(net: Net, s: R.State, b: nat) returns (s': R.State)
    requires R.Grounded(s) && Carries(net, s) && R.Enabled(s, R.Restart(b))
    ensures R.Step(s, R.Restart(b), s') && R.Grounded(s') && Carries(WithoutPulls(net, b), s')
    ensures s'.replicas == s.replicas[b := Restarted(s.replicas[b])]
  {
    R.NextGrounded(s, R.Restart(b));
    s' := R.Next(s, R.Restart(b));
    forall u | u in net.pulls ensures net.pulls[u].follower == s.tasks[u].follower {
      assert PullAs(s.tasks[u], net.pulls[u]);
    }
  }

  /** Steps that leave requests and runs alone. */
  lemma QuietCarries(net: Net, s: R.State, a: R.Action) returns (s': R.State)
    requires R.Grounded(s) && Carries(net, s) && R.Enabled(s, a) && (a.Produce? || a.Reconcile? || a.Consume?)
    ensures R.Step(s, a, s') && s' == R.Next(s, a) && R.Grounded(s') && Carries(net, s')
  {
    R.NextGrounded(s, a);
    s' := R.Next(s, a);
    assert s'.requests == s.requests && s'.tasks == s.tasks && s'.nextTicket == s.nextTicket;
  }

  lemma DropCarries(net: Net, s: R.State, t: nat) returns (s': R.State)
    requires R.Grounded(s) && Carries(net, s)
    ensures t in s.requests ==>
      R.Step(s, R.Lose(t), s') && R.Grounded(s') && s'.replicas == s.replicas && Carries(net.(requests := net.requests - {t}), s')
  {
    s' := s;
    if t in s.requests {
      R.NextGrounded(s, R.Lose(t));
      s' := R.Next(s, R.Lose(t));
    }
  }

  lemma FailCarries(net: Net, s: R.State, t: nat) returns (s': R.State)
    requires R.Grounded(s) && Carries(net, s) && t in s.tasks
    ensures R.Step(s, R.Abort(t), s') && R.Grounded(s') && s'.replicas == s.replicas && Carries(net.(pulls := net.pulls - {t}), s')
  {
    R.NextGrounded(s, R.Abort(t));
    s' := R.Next(s, R.Abort(t));
  }

  // ---- the steps ----

  /** A producer's message reaches the leader. */
  method Produced(logs: Logs, net: Net, ghost s: R.State, leader: nat, d: Data, t: int, now: int) returns (offset: nat, ghost s': R.State)
    requires Stands(logs, net, s) && leader == s.leader && RoomIn(s.replicas[leader], |d| + 1)
    modifies logs[leader]
    ensures R.Step(s, R.Produce(d), s') && Stands(logs, net, s') && offset == |s.replicas[leader].log|
  {
    offset := AppendTo(logs, leader, d, t, now, s.replicas);
    s' := QuietCarries(net, s, R.Produce(d));
  }

  /** A follower begins a run: it reads its length and sends the request. */
  method Begun(logs: Logs, net: Net, ghost s: R.State, f: nat) returns (net': Net, ghost s': R.State)
    requires Stands(logs, net, s) && R.Enabled(s, R.BeginFetch(f))
    ensures R.Step(s, R.BeginFetch(f), s') && Stands(logs, net', s')
  {
    var sent := AskFrom(logs, f, net.topic, net.partition, s.replicas);
    net' := net.(requests := net.requests[net.nextTicket := sent], pulls := net.pulls[net.nextTicket := Pull(f, None)],
                 nextTicket := net.nextTicket + 1);
    s' := BeginCarries(net, s, f, sent);
  }

  method AskFrom(logs: Logs, f: nat, topic: Data, partition: u32, ghost replicas: map<nat, Replica>) returns (sent: Data)
    requires Mirrors(logs, replicas) && f in logs
    ensures Mirrors(logs, replicas) && f < U32 && |replicas[f].log| < U64
    ensures sent == Frame(ReplicaFetch(f, topic, partition, |replicas[f].log|, FETCH_BYTES))
  {
    sent := Ask(logs[f], topic, partition);
  }

  /** The request a travelling frame is the encoding of. */
  lemma RequestOf(net: Net, s: R.State, t: nat) returns (q: Request)
    requires Carries(net, s) && t in s.requests
    ensures t in net.requests && q.ReplicaFetch? && Sendable(q) && net.requests[t] == Frame(q)
    ensures q.replica == s.requests[t].follower && q.offset == s.requests[t].offset && q.max == FETCH_BYTES
  {
    var r := s.requests[t];
    assert SentAs(net.topic, net.partition, r, net.requests[t]);
    q := ReplicaFetch(r.follower, net.topic, net.partition, r.offset, FETCH_BYTES);
  }

  /** The leader serves a request. */
  method Answered(logs: Logs, net: Net, ghost s: R.State, leader: nat, t: nat) returns (net': Net, ghost s': R.State)
    requires Stands(logs, net, s) && leader == s.leader && R.Enabled(s, R.Serve(t))
    modifies logs[leader]
    ensures R.Step(s, R.Serve(t), s') && Stands(logs, net', s')
  {
    ghost var q := RequestOf(net, s, t);
    var reply;
    ghost var data;
    reply, data := RespondFrom(logs, leader, net.requests[t], q, s.replicas);
    net' := WithReply(net, t, reply);
    s' := ServeCarries(net, s, t, reply);
  }

  /** A follower appends what its run received. */
  method Delivered(logs: Logs, net: Net, ghost s: R.State, t: nat, time: int, now: int) returns (net': Net, ghost s': R.State)
    requires Stands(logs, net, s) && R.Enabled(s, R.Deliver(t)) && RoomIn(s.replicas[s.tasks[t].follower], FETCH_BYTES + 1)
    modifies logs[s.tasks[t].follower]
    ensures R.Step(s, R.Deliver(t), s') && Stands(logs, net', s')
  {
    s' := DeliverCarries(net, s, t);
    TakeInto(logs, net.pulls[t].follower, net.pulls[t].reply.value, time, now, s.tasks[t].reply.data, s.replicas);
    net' := net.(pulls := net.pulls - {t});
  }

  /** A request gets lost. */
  method Lost(logs: Logs, net: Net, ghost s: R.State, t: nat) returns (net': Net, ghost s': R.State)
    requires Stands(logs, net, s) && R.Enabled(s, R.Lose(t))
    ensures R.Step(s, R.Lose(t), s') && Stands(logs, net', s')
  {
    net' := net.(requests := net.requests - {t});
    s' := DropCarries(net, s, t);
  }

  /** A run fails. */
  method Aborted(logs: Logs, net: Net, ghost s: R.State, t: nat) returns (net': Net, ghost s': R.State)
    requires Stands(logs, net, s) && R.Enabled(s, R.Abort(t))
    ensures R.Step(s, R.Abort(t), s') && Stands(logs, net', s')
  {
    net' := net.(pulls := net.pulls - {t});
    s' := FailCarries(net, s, t);
  }

  /** The leader is told its replicas. */
  method Told(logs: Logs, net: Net, ghost s: R.State, leader: nat, ids: seq<nat>) returns (ghost s': R.State)
    requires Stands(logs, net, s) && leader == s.leader
    modifies logs[leader]
    ensures R.Step(s, R.Reconcile(ids), s') && Stands(logs, net, s')
  {
    TellList(logs, leader, ids, s.replicas);
    s' := QuietCarries(net, s, R.Reconcile(ids));
  }

  /** One look of a consumer's fetch at the leader. */
  method Consumed(logs: Logs, net: Net, ghost s: R.State, leader: nat, k: nat, max: nat) returns (data: Option<Data>, ghost s': R.State)
    requires Stands(logs, net, s) && leader == s.leader
    ensures R.Step(s, R.Consume(k, max), s') && Stands(logs, net, s')
    ensures s'.served == s.served + match data case Some(d) => [R.Served(k, max, d)] case None => []
  {
    data := LookAt(logs, leader, k, max, s.replicas);
    s' := QuietCarries(net, s, R.Consume(k, max));
    ConsumeShows(s, k, max, data);
  }

  lemma ConsumeShows(s: R.State, k: nat, max: nat, data: Option<Data>)
    requires R.Grounded(s)
    requires data == if k < s.replicas[s.leader].hw then Read(R.LeaderLog(s), k, max) else None
    ensures R.Next(s, R.Consume(k, max)).replicas == s.replicas
    ensures R.Next(s, R.Consume(k, max)).served == s.served + match data case Some(d) => [R.Served(k, max, d)] case None => []
  {
  }

  method LookAt(logs: Logs, b: nat, k: nat, max: nat, ghost replicas: map<nat, Replica>) returns (data: Option<Data>)
    requires Mirrors(logs, replicas) && b in logs
    ensures Mirrors(logs, replicas)
    ensures data == if k < replicas[b].hw then Read(replicas[b].log, k, max) else None
  {
    data := None;
    if k < logs[b].highWatermark {
      data := Transfer(logs[b], k, max);
    }
  }

  /** A broker restarts: its log is opened again and its runs are gone. */
  method RestartedBroker(logs: Logs, net: Net, ghost s: R.State, b: nat, t: int) returns (logs': Logs, net': Net, ghost s': R.State)
    requires Stands(logs, net, s) && R.Enabled(s, R.Restart(b))
    ensures R.Step(s, R.Restart(b), s') && Stands(logs', net', s')
  {
    logs' := RestartLog(logs, b, t, s.replicas);
    net' := WithoutPulls(net, b);
    s' := RestartCarries(net, s, b);
  }
}
