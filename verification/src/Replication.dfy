/**
 Pull replication of one partition within one leadership, as a transition
 system.  A follower's replication run reads its own length, sends a request
 carrying it, and appends the one message it gets back.  The leader records the
 requested offset, recomputes its high watermark and answers.  Requests may be
 delayed, reordered or lost, runs may fail at any point, brokers may restart, and
 consumers are served below the watermark.
 */
module Replication {
  import opened Bytes
  import opened Replicas

  datatype Reply = Pending | Answered(data: Option<Data>)

  /** A replication run in progress on a follower. */
  datatype Task = Task(follower: nat, offset: nat, reply: Reply)

  /** A request on its way to the leader. */
  datatype Request = Request(follower: nat, offset: nat)

  /** A message handed to a consumer. */
  datatype Served = Served(offset: nat, max: nat, data: Data)

  datatype State = State(
    leader: nat,
    replicas: map<nat, Replica>,
    tasks: map<nat, Task>,
    requests: map<nat, Request>,
    nextTicket: nat,
    served: seq<Served>)

  datatype Action =
    | Produce(data: Data)
    | BeginFetch(follower: nat)
    | Serve(ticket: nat)
    | Lose(ticket: nat)
    | Deliver(ticket: nat)
    | Abort(ticket: nat)
    | Reconcile(ids: seq<nat>)
    | Consume(offset: nat, max: nat)
    | Restart(broker: nat)

  /** What holds by construction of the state. */
  ghost predicate Grounded(s: State) {
    && s.leader in s.replicas
    && (forall f :: f in s.replicas ==> s.replicas[f].id == f)
    && (forall t :: t in s.tasks ==> s.tasks[t].follower in s.replicas && s.tasks[t].follower != s.leader && t < s.nextTicket)
    && (forall t :: t in s.requests ==> s.requests[t].follower in s.replicas && t < s.nextTicket)
  }

  ghost predicate Enabled(s: State, a: Action) {
    match a
    case Produce(_) => true
    case BeginFetch(f) => f in s.replicas && f != s.leader
    case Serve(t) => t in s.requests
    case Lose(t) => t in s.requests
    case Deliver(t) => t in s.tasks && s.tasks[t].reply.Answered?
    case Abort(t) => t in s.tasks
    case Reconcile(_) => true
    case Consume(_, _) => true
    case Restart(b) => b in s.replicas
  }

  ghost function Next(s: State, a: Action): State
    requires Grounded(s) && Enabled(s, a)
  {
    var l := s.replicas[s.leader];
    match a
    case Produce(d) =>
      s.(replicas := s.replicas[s.leader := Appended(l, d)])
    case BeginFetch(f) =>
      var offset := |s.replicas[f].log|;
      s.(tasks := s.tasks[s.nextTicket := Task(f, offset, Pending)],
         requests := s.requests[s.nextTicket := Request(f, offset)],
         nextTicket := s.nextTicket + 1)
    case Serve(t) =>
      var r := s.requests[t];
      var reply := Answered(Read(l.log, r.offset, FETCH_BYTES));
      s.(replicas := s.replicas[s.leader := FetchedBy(l, r.follower, r.offset)],
         tasks := if t in s.tasks then s.tasks[t := s.tasks[t].(reply := reply)] else s.tasks,
         requests := s.requests - {t})
    case Lose(t) =>
      s.(requests := s.requests - {t})
    case Deliver(t) =>
      var f, data := s.tasks[t].follower, s.tasks[t].reply.data;
      s.(replicas := if data.Some? then s.replicas[f := Appended(s.replicas[f], data.value)] else s.replicas,
         tasks := s.tasks - {t})
    case Abort(t) =>
      s.(tasks := s.tasks - {t})
    case Reconcile(ids) =>
      s.(replicas := s.replicas[s.leader := Reconciled(l, ids)])
    case Consume(k, max) =>
      if k < l.hw && Read(l.log, k, max).Some?
      then s.(served := s.served + [Served(k, max, Read(l.log, k, max).value)])
      else s
    case Restart(b) =>
      s.(replicas := s.replicas[b := Restarted(s.replicas[b])],
         tasks := map t | t in s.tasks && s.tasks[t].follower != b :: s.tasks[t])
  }

  lemma NextGrounded(s: State, a: Action)
    requires Grounded(s) && Enabled(s, a)
    ensures Grounded(Next(s, a)) && Next(s, a).leader == s.leader && Next(s, a).replicas.Keys == s.replicas.Keys
  {
  }

  /** Every copy only ever grows. */
  lemma LogsGrow(s: State, a: Action, f: nat)
    requires Grounded(s) && Enabled(s, a) && f in s.replicas
    ensures f in Next(s, a).replicas && s.replicas[f].log <= Next(s, a).replicas[f].log
  {
  }

  // ---- single steps ----

  lemma BeginFacts(s: State, f: nat)
    requires Grounded(s) && Enabled(s, BeginFetch(f))
    ensures
      var s', t, n := Next(s, BeginFetch(f)), s.nextTicket, |s.replicas[f].log|;
      && Grounded(s') && s'.replicas == s.replicas && s'.leader == s.leader && s'.nextTicket == t + 1
      && s'.tasks == s.tasks[t := Task(f, n, Pending)] && s'.requests == s.requests[t := Request(f, n)]
  {
    NextGrounded(s, BeginFetch(f));
  }

  lemma ServeFacts(s: State, t: nat)
    requires Grounded(s) && Enabled(s, Serve(t)) && t in s.tasks
    ensures
      var s' := Next(s, Serve(t));
      && Grounded(s') && s'.leader == s.leader && s'.replicas.Keys == s.replicas.Keys
      && (forall f :: f in s.replicas ==> s'.replicas[f].log == s.replicas[f].log)
      && s'.tasks == s.tasks[t := s.tasks[t].(reply := Answered(Read(LeaderLog(s), s.requests[t].offset, FETCH_BYTES)))]
      && s'.requests == s.requests - {t}
  {
    NextGrounded(s, Serve(t));
  }

  // ---- the invariant ----

  function LeaderLog(s: State): seq<Data>
    requires s.leader in s.replicas
  {
    s.replicas[s.leader].log
  }

  /** Each follower's log is a prefix of the leader's. */
  ghost predicate Prefixes(s: State)
    requires Grounded(s)
  {
    forall f :: f in s.replicas ==> s.replicas[f].log <= LeaderLog(s)
  }

  /** No recorded or requested offset exceeds that follower's true length. */
  ghost predicate Honest(s: State)
    requires Grounded(s)
  {
    HonestRecords(s.replicas[s.leader].recorded, s.requests, s.replicas)
  }

  ghost predicate HonestRecords(recorded: map<nat, nat>, requests: map<nat, Request>, replicas: map<nat, Replica>) {
    && (forall f :: f in recorded && f in replicas ==> recorded[f] <= |replicas[f].log|)
    && (forall t :: t in requests ==>
          requests[t].follower in replicas && requests[t].offset <= |replicas[requests[t].follower].log|)
  }

  ghost predicate TaskOk(s: State, t: nat)
    requires Grounded(s) && t in s.tasks
  {
    var task := s.tasks[t];
    && task.offset <= |s.replicas[task.follower].log|
    && (t in s.requests ==> s.requests[t].follower == task.follower && s.requests[t].offset == task.offset)
    && (task.reply.Answered? && task.reply.data.Some? ==>
          task.offset < |LeaderLog(s)| && task.reply.data.value == LeaderLog(s)[task.offset])
  }

  /** Every run asked for an offset its follower had reached, and any answer it has
      is the leader's message at that offset. */
  ghost predicate TasksOk(s: State)
    requires Grounded(s)
  {
    forall t :: t in s.tasks ==> TaskOk(s, t)
  }

  ghost predicate Fits(log: seq<Data>) {
    forall i :: 0 <= i < |log| ==> |log[i]| <= FETCH_BYTES
  }

  /** The leader lists the replicas `ids`. */
  ghost predicate Listed(s: State, ids: seq<nat>)
    requires Grounded(s)
  {
    s.replicas[s.leader].replicaIds == ids
  }

  /** What was served is on every listed replica. */
  ghost predicate ServedOk(s: State, ids: seq<nat>)
    requires Grounded(s)
  {
    forall i :: 0 <= i < |s.served| ==> Durable(s, ids, s.served[i])
  }

  ghost predicate Durable(s: State, ids: seq<nat>, v: Served)
    requires Grounded(s)
  {
    && HoldsAt(LeaderLog(s), v)
    && forall f :: f in ids && f in s.replicas ==> HoldsAt(s.replicas[f].log, v)
  }

  /** The log answers a read of what was served with the same bytes. */
  predicate HoldsAt(log: seq<Data>, v: Served) {
    Read(log, v.offset, v.max) == Some(v.data)
  }

  ghost predicate Inv(s: State, ids: seq<nat>) {
    && Grounded(s) && Current(s.replicas[s.leader]) && (forall f :: f in ids ==> f in s.replicas)
    && Prefixes(s) && Honest(s) && TasksOk(s) && Fits(LeaderLog(s)) && ServedOk(s, ids)
  }

  /** The check a delivery does not make: if the run brings a message, its follower
      still is where the run began. */
  ghost predicate OnTime(s: State, t: nat) {
    t in s.tasks && s.tasks[t].reply.Answered? && s.tasks[t].reply.data.Some? && s.tasks[t].follower in s.replicas ==>
      s.tasks[t].offset == |s.replicas[s.tasks[t].follower].log|
  }

  /** The conditions the code relies on and does not check: payloads within the
      fetch budget, deliveries on time, and consumers served only while the leader
      lists its replicas.  Any number of runs of one follower may overlap, and any
      broker may restart, the leader included. */
  ghost predicate Disciplined(s: State, a: Action, ids: seq<nat>) {
    match a
    case Produce(d) => |d| <= FETCH_BYTES
    case Deliver(t) => OnTime(s, t)
    case Consume(_, _) => s.leader in s.replicas && s.replicas[s.leader].replicaIds == ids
    case _ => true
  }

  /** The start of a leadership: followers behind but consistent, nothing in flight. */
  ghost predicate Init(s: State, ids: seq<nat>) {
    && Grounded(s) && Current(s.replicas[s.leader]) && (forall f :: f in ids ==> f in s.replicas)
    && Prefixes(s) && Honest(s) && Fits(LeaderLog(s))
    && s.tasks == map[] && s.requests == map[] && s.served == []
  }

  // ---- the watermark covers every replica ----

  /** Everything below the high watermark is on every listed replica, at the same
      offset with the same bytes. */
  lemma BelowWatermark(s: State, ids: seq<nat>, k: nat, f: nat)
    requires Grounded(s) && Current(s.replicas[s.leader]) && Listed(s, ids) && Prefixes(s) && Honest(s)
    requires k < s.replicas[s.leader].hw && f in ids && f in s.replicas
    ensures k < |s.replicas[f].log| && k < |LeaderLog(s)| && s.replicas[f].log[k] == LeaderLog(s)[k]
  {
    var l := s.replicas[s.leader];
    WatermarkIsMinimum(l.id, |l.log|, ids, l.recorded);
  }

  // ---- each action keeps the invariant ----

  /** Growing copies keep what was served. */
  lemma ServedKeeps(s: State, s': State, ids: seq<nat>)
    requires Grounded(s) && Grounded(s') && s'.leader == s.leader && s'.replicas.Keys == s.replicas.Keys
    requires forall f :: f in s.replicas ==> s.replicas[f].log <= s'.replicas[f].log
    requires ServedOk(s, ids) && s'.served == s.served
    ensures ServedOk(s', ids)
  {
    forall i | 0 <= i < |s'.served| ensures Durable(s', ids, s'.served[i]) {
      var v := s.served[i];
      assert Durable(s, ids, v);
      ReadPrefix(LeaderLog(s), LeaderLog(s'), v.offset, v.max);
      forall f | f in ids && f in s'.replicas ensures HoldsAt(s'.replicas[f].log, v) {
        assert f in s.replicas && s.replicas[f].log <= s'.replicas[f].log && HoldsAt(s.replicas[f].log, v);
        ReadPrefix(s.replicas[f].log, s'.replicas[f].log, v.offset, v.max);
      }
    }
  }

  /** The parts of the invariant about tasks survive any step that shortens no log
      and keeps the old requests and a prefix of the leader's log. */
  lemma TaskKeeps(s: State, s': State, t: nat)
    requires Grounded(s) && Grounded(s') && t in s.tasks && t in s'.tasks && TaskOk(s, t)
    requires s'.tasks[t] == s.tasks[t] && LeaderLog(s) <= LeaderLog(s')
    requires |s'.replicas[s.tasks[t].follower].log| >= |s.replicas[s.tasks[t].follower].log|
    requires t in s'.requests ==> t in s.requests && s'.requests[t] == s.requests[t]
    ensures TaskOk(s', t)
  {
  }

  lemma ProduceKeeps(s: State, ids: seq<nat>, d: Data)
    requires Inv(s, ids) && Disciplined(s, Produce(d), ids)
    ensures Inv(Next(s, Produce(d)), ids)
  {
    var s' := Next(s, Produce(d));
    NextGrounded(s, Produce(d));
    assert LeaderLog(s') == LeaderLog(s) + [d];
    ServedKeeps(s, s', ids);
    forall t | t in s'.tasks ensures TaskOk(s', t) {
      TaskKeeps(s, s', t);
    }
  }

  lemma BeginTasks(s: State, ids: seq<nat>, f: nat)
    requires Inv(s, ids) && Enabled(s, BeginFetch(f))
    ensures Grounded(Next(s, BeginFetch(f))) && TasksOk(Next(s, BeginFetch(f)))
  {
    var s' := Next(s, BeginFetch(f));
    NextGrounded(s, BeginFetch(f));
    forall t | t in s'.tasks ensures TaskOk(s', t) {
      if t != s.nextTicket {
        TaskKeeps(s, s', t);
      }
    }
  }

  lemma BeginKeeps(s: State, ids: seq<nat>, f: nat)
    requires Inv(s, ids) && Enabled(s, BeginFetch(f))
    ensures Inv(Next(s, BeginFetch(f)), ids)
  {
    BeginTasks(s, ids, f);
    ServedKeeps(s, Next(s, BeginFetch(f)), ids);
  }

  lemma ServeTasks(s: State, ids: seq<nat>, t: nat)
    requires Inv(s, ids) && Enabled(s, Serve(t))
    ensures Grounded(Next(s, Serve(t))) && TasksOk(Next(s, Serve(t)))
  {
    var s' := Next(s, Serve(t));
    NextGrounded(s, Serve(t));
    forall u | u in s'.tasks ensures TaskOk(s', u) {
      assert TaskOk(s, u);
      if u != t {
        TaskKeeps(s, s', u);
      } else {
        ServedTask(s, t);
      }
    }
  }

  /** The answer to a run is the leader's message at the offset it asked for. */
  lemma ServedTask(s: State, t: nat)
    requires Grounded(s) && Enabled(s, Serve(t)) && t in s.tasks && TaskOk(s, t) && Fits(LeaderLog(s))
    ensures Grounded(Next(s, Serve(t))) && TaskOk(Next(s, Serve(t)), t)
  {
    ServeFacts(s, t);
    var log, o := LeaderLog(s), s.tasks[t].offset;
    if o < |log| && |log[o]| > 0 {
      FetchFaithful(log, o);
    }
  }

  lemma ServeKeeps(s: State, ids: seq<nat>, t: nat)
    requires Inv(s, ids) && Enabled(s, Serve(t))
    ensures Inv(Next(s, Serve(t)), ids)
  {
    ServeTasks(s, ids, t);
    ServedKeeps(s, Next(s, Serve(t)), ids);
  }

  lemma DeliverTasks(s: State, ids: seq<nat>, t: nat)
    requires Inv(s, ids) && Enabled(s, Deliver(t))
    ensures Grounded(Next(s, Deliver(t))) && TasksOk(Next(s, Deliver(t)))
  {
    var s' := Next(s, Deliver(t));
    NextGrounded(s, Deliver(t));
    forall u | u in s'.tasks ensures TaskOk(s', u) {
      assert TaskOk(s, u);
      TaskKeeps(s, s', u);
    }
  }

  /** The message delivered is the one that comes next on the leader. */
  ghost predicate InLine(s: State, t: nat)
    requires Grounded(s) && t in s.tasks && TaskOk(s, t)
  {
    s.tasks[t].reply.Answered? && s.tasks[t].reply.data.Some? ==>
      var n := |s.replicas[s.tasks[t].follower].log|;
      n < |LeaderLog(s)| && LeaderLog(s)[n] == LeaderLog(s)[s.tasks[t].offset]
  }

  /** A delivery changes one follower's copy, if it brings a message. */
  lemma DeliverFacts(s: State, t: nat)
    requires Grounded(s) && Enabled(s, Deliver(t))
    ensures
      var s', task := Next(s, Deliver(t)), s.tasks[t];
      && Grounded(s') && s'.leader == s.leader && s'.requests == s.requests && s'.replicas.Keys == s.replicas.Keys
      && (forall f :: f in s.replicas && f != task.follower ==> s'.replicas[f] == s.replicas[f])
      && s'.replicas[task.follower].log == s.replicas[task.follower].log +
           match task.reply.data case Some(d) => [d] case None => []
  {
    NextGrounded(s, Deliver(t));
  }

  lemma NextInLine(log: seq<Data>, leader: seq<Data>)
    requires log <= leader && |log| < |leader|
    ensures log + [leader[|log|]] <= leader
  {
  }

  lemma DeliverCopies(s: State, ids: seq<nat>, t: nat)
    requires Inv(s, ids) && Enabled(s, Deliver(t)) && InLine(s, t)
    ensures Grounded(Next(s, Deliver(t))) && Prefixes(Next(s, Deliver(t))) && Honest(Next(s, Deliver(t)))
  {
    var s', task := Next(s, Deliver(t)), s.tasks[t];
    DeliverFacts(s, t);
    assert TaskOk(s, t);
    forall f | f in s'.replicas ensures |s.replicas[f].log| <= |s'.replicas[f].log| && s'.replicas[f].log <= LeaderLog(s') {
      if f == task.follower && task.reply.data.Some? {
        NextInLine(s.replicas[f].log, LeaderLog(s));
      }
    }
  }

  lemma DeliverKeeps(s: State, ids: seq<nat>, t: nat)
    requires Inv(s, ids) && Enabled(s, Deliver(t)) && InLine(s, t)
    ensures Inv(Next(s, Deliver(t)), ids)
  {
    NextGrounded(s, Deliver(t));
    DeliverCopies(s, ids, t);
    DeliverTasks(s, ids, t);
    ServedKeeps(s, Next(s, Deliver(t)), ids);
  }

  /** Exactly when a delivery keeps the invariant: when the leader's message at the
      follower's end is the one the run asked for, as it is if the run is on time. */
  lemma DeliveryNeedsCheck(s: State, ids: seq<nat>, t: nat)
    requires Inv(s, ids) && Enabled(s, Deliver(t))
    ensures OnTime(s, t) ==> InLine(s, t)
    ensures Inv(Next(s, Deliver(t)), ids) <==> InLine(s, t)
  {
    var task, s' := s.tasks[t], Next(s, Deliver(t));
    assert TaskOk(s, t);
    if InLine(s, t) {
      DeliverKeeps(s, ids, t);
    } else {
      var log := s.replicas[task.follower].log;
      assert s'.replicas[task.follower].log == log + [task.reply.data.value] && LeaderLog(s') == LeaderLog(s);
      assert (log + [task.reply.data.value])[|log|] == task.reply.data.value;
    }
  }

  lemma DropKeeps(s: State, ids: seq<nat>, a: Action)
    requires Inv(s, ids) && Enabled(s, a) && (a.Lose? || a.Abort?)
    ensures Inv(Next(s, a), ids)
  {
    var s' := Next(s, a);
    NextGrounded(s, a);
    forall u | u in s'.tasks ensures TaskOk(s', u) {
      TaskKeeps(s, s', u);
    }
    ServedKeeps(s, s', ids);
  }

  lemma ConsumeServed(s: State, ids: seq<nat>, k: nat, max: nat)
    requires Inv(s, ids) && Listed(s, ids)
    ensures Grounded(Next(s, Consume(k, max))) && ServedOk(Next(s, Consume(k, max)), ids)
  {
    var s' := Next(s, Consume(k, max));
    NextGrounded(s, Consume(k, max));
    forall i | 0 <= i < |s'.served| ensures Durable(s', ids, s'.served[i]) {
      if i < |s.served| {
        assert Durable(s, ids, s.served[i]);
      } else {
        forall f | f in ids && f in s.replicas ensures HoldsAt(s.replicas[f].log, s'.served[i]) {
          BelowWatermark(s, ids, k, f);
        }
      }
    }
  }

  lemma ConsumeKeeps(s: State, ids: seq<nat>, k: nat, max: nat)
    requires Inv(s, ids) && Listed(s, ids)
    ensures Inv(Next(s, Consume(k, max)), ids)
  {
    var s' := Next(s, Consume(k, max));
    ConsumeServed(s, ids, k, max);
    forall u | u in s'.tasks ensures TaskOk(s', u) {
      TaskKeeps(s, s', u);
    }
  }

  /** A new replica list, or a restart, touches no log. */
  lemma QuietKeeps(s: State, ids: seq<nat>, a: Action)
    requires Inv(s, ids) && Enabled(s, a) && (a.Reconcile? || a.Restart?)
    ensures Inv(Next(s, a), ids)
  {
    NextGrounded(s, a);
    NextCurrent(s, a);
    HonestKeeps(s, a);
    QuietLogs(s, a);
    SameLogsKeep(s, Next(s, a), ids);
  }

  lemma QuietLogs(s: State, a: Action)
    requires Grounded(s) && Enabled(s, a) && (a.Reconcile? || a.Restart?)
    ensures
      var s' := Next(s, a);
      && s'.leader == s.leader && s'.requests == s.requests && s'.served == s.served && s'.replicas.Keys == s.replicas.Keys
      && (forall f :: f in s.replicas ==> s'.replicas[f].log == s.replicas[f].log)
      && (forall t :: t in s'.tasks ==> t in s.tasks && s'.tasks[t] == s.tasks[t])
  {
  }

  lemma SameLogsKeep(s: State, s': State, ids: seq<nat>)
    requires Inv(s, ids) && Grounded(s') && Current(s'.replicas[s'.leader]) && Honest(s')
    requires s'.leader == s.leader && s'.requests == s.requests && s'.served == s.served && s'.replicas.Keys == s.replicas.Keys
    requires forall f :: f in s.replicas ==> s'.replicas[f].log == s.replicas[f].log
    requires forall t :: t in s'.tasks ==> t in s.tasks && s'.tasks[t] == s.tasks[t]
    ensures Inv(s', ids)
  {
    forall u | u in s'.tasks ensures TaskOk(s', u) {
      TaskKeeps(s, s', u);
    }
    ServedKeeps(s, s', ids);
  }

  lemma StepKeeps(s: State, a: Action, ids: seq<nat>)
    requires Inv(s, ids) && Enabled(s, a) && Disciplined(s, a, ids)
    ensures Inv(Next(s, a), ids)
  {
    match a
    case Produce(d) => ProduceKeeps(s, ids, d);
    case BeginFetch(f) => BeginKeeps(s, ids, f);
    case Serve(t) => ServeKeeps(s, ids, t);
    case Lose(t) => DropKeeps(s, ids, a);
    case Deliver(t) => DeliveryNeedsCheck(s, ids, t);
    case Abort(t) => DropKeeps(s, ids, a);
    case Consume(k, max) => ConsumeKeeps(s, ids, k, max);
    case _ => QuietKeeps(s, ids, a);
  }

  // ---- whole runs ----

  ghost predicate Step(s: State, a: Action, s': State) {
    Grounded(s) && Enabled(s, a) && s' == Next(s, a)
  }

  /** The states a sequence of actions goes through. */
  ghost predicate Path(states: seq<State>, run: seq<Action>) {
    && |states| == |run| + 1 && Grounded(states[0])
    && forall i :: 0 <= i < |run| ==> Step(states[i], run[i], states[i + 1])
  }

  /** A path that keeps to the conditions of `Disciplined`. */
  ghost predicate Run(states: seq<State>, run: seq<Action>, ids: seq<nat>) {
    Path(states, run) && forall i :: 0 <= i < |run| ==> Disciplined(states[i], run[i], ids)
  }

  /** Along any path at all copies only grow and the leader's watermark is current. */
  lemma {:induction false} PathGrows(states: seq<State>, run: seq<Action>, i: nat, j: nat, f: nat)
    requires Path(states, run) && i <= j < |states| && f in states[i].replicas
    ensures Grounded(states[j]) && states[j].leader == states[i].leader
    ensures f in states[j].replicas && states[i].replicas[f].log <= states[j].replicas[f].log
    decreases j
  {
    if i < j {
      PathGrows(states, run, i, j - 1, f);
      assert Step(states[j - 1], run[j - 1], states[j - 1 + 1]);
      NextGrounded(states[j - 1], run[j - 1]);
      LogsGrow(states[j - 1], run[j - 1], f);
    } else if j > 0 {
      PathGrounded(states, run, j);
    }
  }

  lemma {:induction false} PathGrounded(states: seq<State>, run: seq<Action>, i: nat)
    requires Path(states, run) && i < |states|
    ensures Grounded(states[i]) && states[i].leader == states[0].leader
    ensures Current(states[0].replicas[states[0].leader]) ==> Current(states[i].replicas[states[i].leader])
  {
    if i > 0 {
      PathGrounded(states, run, i - 1);
      assert Step(states[i - 1], run[i - 1], states[i - 1 + 1]);
      NextGrounded(states[i - 1], run[i - 1]);
      if Current(states[i - 1].replicas[states[i - 1].leader]) {
        NextCurrent(states[i - 1], run[i - 1]);
      }
    }
  }

  lemma NextCurrent(s: State, a: Action)
    requires Grounded(s) && Enabled(s, a) && Current(s.replicas[s.leader])
    ensures s.leader in Next(s, a).replicas && Current(Next(s, a).replicas[s.leader])
  {
  }

  /** Every interleaving within a leadership keeps every follower a prefix of the
      leader and everything served on every replica. */
  lemma {:induction false} RunKeeps(states: seq<State>, run: seq<Action>, ids: seq<nat>, i: nat)
    requires Run(states, run, ids) && Inv(states[0], ids) && i < |states|
    ensures Inv(states[i], ids) && states[i].leader == states[0].leader
  {
    if i > 0 {
      RunKeeps(states, run, ids, i - 1);
      assert Step(states[i - 1], run[i - 1], states[i - 1 + 1]);
      StepKeeps(states[i - 1], run[i - 1], ids);
      NextGrounded(states[i - 1], run[i - 1]);
    }
  }

  lemma ServedEverywhere(states: seq<State>, run: seq<Action>, ids: seq<nat>, i: nat, k: nat, f: nat)
    requires Run(states, run, ids) && Init(states[0], ids) && i < |states| && k < |states[i].served| && f in ids
    ensures f in states[i].replicas && HoldsAt(states[i].replicas[f].log, states[i].served[k])
  {
    RunKeeps(states, run, ids, i);
    assert Durable(states[i], ids, states[i].served[k]);
  }

  // ---- the watermark over a run ----

  lemma {:induction false} WatermarkMonotone(self: nat, n: nat, n': nat, ids: seq<nat>, r: map<nat, nat>, r': map<nat, nat>)
    requires n <= n' && forall f :: f in ids ==> Progress(r, f) <= Progress(r', f)
    ensures Watermark(self, n, ids, r) <= Watermark(self, n', ids, r')
  {
    if ids != [] {
      var init := ids[..|ids| - 1];
      assert forall f :: f in init ==> f in ids;
      assert ids[|ids| - 1] in ids;
      WatermarkMonotone(self, n, n', init, r, r');
    }
  }

  /** Requests of one follower are served in the order sent. */
  ghost predicate InOrder(s: State, a: Action) {
    a.Serve? ==>
      forall t :: a.ticket in s.requests && t in s.requests && s.requests[t].follower == s.requests[a.ticket].follower ==> a.ticket <= t
  }

  /** Later requests ask for no less, and for no less than is recorded. */
  ghost predicate Ordered(s: State)
    requires Grounded(s)
  {
    OrderedRequests(s.replicas[s.leader].recorded, s.requests)
  }

  ghost predicate OrderedRequests(recorded: map<nat, nat>, requests: map<nat, Request>) {
    && (forall t, u :: t in requests && u in requests && t < u && requests[t].follower == requests[u].follower ==>
          requests[t].offset <= requests[u].offset)
    && (forall t :: t in requests ==> Progress(recorded, requests[t].follower) <= requests[t].offset)
  }

  /** Where the leader's records and the requests of the next state come from. */
  lemma NextRecords(s: State, a: Action)
    requires Grounded(s) && Enabled(s, a)
    ensures s.leader in Next(s, a).replicas
    ensures Next(s, a).replicas[s.leader].recorded == RecordedAfter(s, a)
    ensures Next(s, a).requests == RequestsAfter(s, a)
  {
  }

  ghost function RecordedAfter(s: State, a: Action): map<nat, nat>
    requires Grounded(s) && Enabled(s, a)
  {
    var recorded := s.replicas[s.leader].recorded;
    match a
    case Serve(t) => recorded[s.requests[t].follower := s.requests[t].offset]
    case Restart(b) => if b == s.leader then map[] else recorded
    case _ => recorded
  }

  ghost function RequestsAfter(s: State, a: Action): map<nat, Request>
    requires Grounded(s) && Enabled(s, a)
  {
    match a
    case BeginFetch(f) => s.requests[s.nextTicket := Request(f, |s.replicas[f].log|)]
    case Serve(t) => s.requests - {t}
    case Lose(t) => s.requests - {t}
    case _ => s.requests
  }

  lemma RecordsAfterHonest(s: State, a: Action)
    requires Grounded(s) && Honest(s) && Enabled(s, a)
    ensures HonestRecords(RecordedAfter(s, a), RequestsAfter(s, a), s.replicas)
  {
  }

  lemma HonestGrows(recorded: map<nat, nat>, requests: map<nat, Request>, replicas: map<nat, Replica>, replicas': map<nat, Replica>)
    requires HonestRecords(recorded, requests, replicas) && replicas'.Keys == replicas.Keys
    requires forall f :: f in replicas ==> replicas[f].log <= replicas'[f].log
    ensures HonestRecords(recorded, requests, replicas')
  {
  }

  /** Recorded and requested offsets stay honest whatever happens: logs only grow. */
  lemma HonestKeeps(s: State, a: Action)
    requires Grounded(s) && Honest(s) && Enabled(s, a)
    ensures Grounded(Next(s, a)) && Honest(Next(s, a))
  {
    NextGrounded(s, a);
    NextRecords(s, a);
    RecordsAfterHonest(s, a);
    forall f | f in s.replicas ensures s.replicas[f].log <= Next(s, a).replicas[f].log {
      LogsGrow(s, a, f);
    }
    HonestGrows(RecordedAfter(s, a), RequestsAfter(s, a), s.replicas, Next(s, a).replicas);
  }

  lemma BeginOrdered(recorded: map<nat, nat>, requests: map<nat, Request>, n: nat, f: nat, len: nat)
    requires OrderedRequests(recorded, requests) && Progress(recorded, f) <= len
    requires forall t :: t in requests ==> t < n && (requests[t].follower == f ==> requests[t].offset <= len)
    ensures OrderedRequests(recorded, requests[n := Request(f, len)])
  {
  }

  lemma ServeOrdered(recorded: map<nat, nat>, requests: map<nat, Request>, t: nat)
    requires OrderedRequests(recorded, requests) && t in requests
    requires forall u :: u in requests && requests[u].follower == requests[t].follower ==> t <= u
    ensures OrderedRequests(recorded[requests[t].follower := requests[t].offset], requests - {t})
  {
  }

  /** Requests stay ordered if each follower's are served in order. */
  lemma StepOrdered(s: State, a: Action)
    requires Grounded(s) && Honest(s) && Ordered(s) && Enabled(s, a) && InOrder(s, a)
    ensures Grounded(Next(s, a)) && Ordered(Next(s, a))
  {
    NextGrounded(s, a);
    NextRecords(s, a);
    var recorded := s.replicas[s.leader].recorded;
    match a
    case BeginFetch(f) => BeginOrdered(recorded, s.requests, s.nextTicket, f, |s.replicas[f].log|);
    case Serve(t) => ServeOrdered(recorded, s.requests, t);
    case _ =>
  }

  lemma ServeRaises(s: State, ids: seq<nat>, t: nat)
    requires Grounded(s) && Current(s.replicas[s.leader]) && Listed(s, ids) && Ordered(s) && Enabled(s, Serve(t))
    ensures s.leader in Next(s, Serve(t)).replicas
    ensures Next(s, Serve(t)).replicas[s.leader].hw >= s.replicas[s.leader].hw
  {
    var l, l' := s.replicas[s.leader], Next(s, Serve(t)).replicas[s.leader];
    WatermarkMonotone(l.id, |l.log|, |l.log|, ids, l.recorded, l'.recorded);
  }

  lemma ProduceRaises(s: State, d: Data)
    requires Grounded(s) && Current(s.replicas[s.leader])
    ensures Next(s, Produce(d)).replicas[s.leader].hw >= s.replicas[s.leader].hw
  {
    var l := s.replicas[s.leader];
    WatermarkMonotone(l.id, |l.log|, |l.log| + 1, l.replicaIds, l.recorded, l.recorded);
  }

  /** The leader is told no other replica list and does not restart. */
  ghost predicate Steady(s: State, a: Action, ids: seq<nat>) {
    match a
    case Reconcile(list) => list == ids
    case Restart(b) => b != s.leader
    case _ => true
  }

  /** What keeps the watermark from falling. */
  ghost predicate Orderly(s: State, ids: seq<nat>) {
    Grounded(s) && Current(s.replicas[s.leader]) && Listed(s, ids) && Honest(s) && Ordered(s)
  }

  lemma LeaderRises(s: State, a: Action, ids: seq<nat>)
    requires Orderly(s, ids) && Enabled(s, a) && Steady(s, a, ids)
    ensures s.leader in Next(s, a).replicas && Next(s, a).replicas[s.leader].replicaIds == ids
    ensures Next(s, a).replicas[s.leader].hw >= s.replicas[s.leader].hw
  {
    match a
    case Produce(d) => ProduceRaises(s, d);
    case Serve(t) => ServeRaises(s, ids, t);
    case _ =>
  }

  lemma StepRises(s: State, a: Action, ids: seq<nat>)
    requires Orderly(s, ids) && Enabled(s, a) && InOrder(s, a) && Steady(s, a, ids)
    ensures Orderly(Next(s, a), ids) && Next(s, a).leader == s.leader
    ensures Next(s, a).replicas[s.leader].hw >= s.replicas[s.leader].hw
  {
    NextGrounded(s, a);
    NextCurrent(s, a);
    HonestKeeps(s, a);
    StepOrdered(s, a);
    LeaderRises(s, a, ids);
  }

  ghost predicate InOrderPath(states: seq<State>, run: seq<Action>, ids: seq<nat>) {
    Path(states, run) && forall i :: 0 <= i < |run| ==> InOrder(states[i], run[i]) && Steady(states[i], run[i], ids)
  }

  lemma {:induction false} StaysOrderly(states: seq<State>, run: seq<Action>, ids: seq<nat>, i: nat)
    requires InOrderPath(states, run, ids) && Orderly(states[0], ids) && i < |states|
    ensures Orderly(states[i], ids) && states[i].leader == states[0].leader
  {
    if i > 0 {
      StaysOrderly(states, run, ids, i - 1);
      assert Step(states[i - 1], run[i - 1], states[i - 1 + 1]);
      StepRises(states[i - 1], run[i - 1], ids);
    }
  }

  /** The watermark of broker l is no lower in the second state. */
  ghost predicate Rose(s: State, s': State, l: nat) {
    l in s.replicas && l in s'.replicas && s.replicas[l].hw <= s'.replicas[l].hw
  }

  lemma {:induction false} RoseAll(states: seq<State>, l: nat, i: nat, j: nat)
    requires i <= j < |states| && l in states[i].replicas
    requires forall k :: 0 <= k < |states| - 1 ==> Rose(states[k], states[k + 1], l)
    ensures Rose(states[i], states[j], l)
    decreases j
  {
    if i < j {
      RoseAll(states, l, i, j - 1);
      assert Rose(states[j - 1], states[j - 1 + 1], l);
    }
  }

  /** With each follower's requests served in order the watermark never goes back,
      whatever is delivered late, however long the payloads are, and even if copies
      have diverged. */
  lemma WatermarkNeverFalls(states: seq<State>, run: seq<Action>, ids: seq<nat>, i: nat, j: nat)
    requires InOrderPath(states, run, ids) && Orderly(states[0], ids) && i <= j < |states|
    ensures Orderly(states[j], ids) && Rose(states[i], states[j], states[0].leader)
  {
    forall k | 0 <= k < |states| - 1 ensures Rose(states[k], states[k + 1], states[0].leader) {
      StaysOrderly(states, run, ids, k);
      assert Step(states[k], run[k], states[k + 1]);
      StepRises(states[k], run[k], ids);
    }
    StaysOrderly(states, run, ids, i);
    StaysOrderly(states, run, ids, j);
    RoseAll(states, states[0].leader, i, j);
  }

  /** Without that, serving a request lowers the watermark exactly when it comes
      from a listed replica and asks for less than the current watermark. */
  lemma ServeLowers(s: State, ids: seq<nat>, t: nat)
    requires Grounded(s) && Current(s.replicas[s.leader]) && Listed(s, ids) && Enabled(s, Serve(t))
    ensures Next(s, Serve(t)).replicas[s.leader].hw < s.replicas[s.leader].hw <==>
      var r := s.requests[t];
      r.follower in ids && r.follower != s.leader && r.offset < s.replicas[s.leader].hw
  {
    var l, l' := s.replicas[s.leader], Next(s, Serve(t)).replicas[s.leader];
    WatermarkIsMinimum(l.id, |l.log|, ids, l.recorded);
    WatermarkIsMinimum(l.id, |l.log|, ids, l'.recorded);
  }
}
