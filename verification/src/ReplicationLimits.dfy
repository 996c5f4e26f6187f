/**
 Where the conditions on replication are needed: what overlapping runs can do to
 a follower, how a watermark can fall, what a leader without a replica list
 serves, and a discipline under which every delivery is on time.
 */
module ReplicationLimits {
  import opened Bytes
  import opened Replicas
  import opened Replication

  // ---- overlapping runs ----

  /** Two runs of follower f, both answered with the leader's last message. */
  ghost predicate Overlap(s: State, f: nat, t: nat, u: nat) {
    && Grounded(s) && f in s.replicas && t != u && |LeaderLog(s)| == |s.replicas[f].log| + 1
    && var task := Task(f, |s.replicas[f].log|, Answered(Some(LeaderLog(s)[|s.replicas[f].log|])));
    && t in s.tasks && s.tasks[t] == task && u in s.tasks && s.tasks[u] == task
  }

  /** Nothing stops a follower from starting two runs at the same offset ... */
  lemma TwoRunsStart(s: State, f: nat) returns (s1: State, s': State)
    requires Grounded(s) && Enabled(s, BeginFetch(f))
    ensures s1 == Next(s, BeginFetch(f)) && Grounded(s1) && Enabled(s1, BeginFetch(f))
    ensures s' == Next(s1, BeginFetch(f)) && TwoRuns(s', f, s.nextTicket, s.nextTicket + 1)
    ensures s'.replicas == s.replicas && s'.leader == s.leader
  {
    BeginFacts(s, f);
    s1 := Next(s, BeginFetch(f));
    BeginFacts(s1, f);
    s' := Next(s1, BeginFetch(f));
  }

  ghost predicate TwoRuns(s: State, f: nat, t: nat, u: nat) {
    && Grounded(s) && f in s.replicas && t != u
    && var n := |s.replicas[f].log|;
    && t in s.tasks && s.tasks[t] == Task(f, n, Pending) && t in s.requests && s.requests[t] == Request(f, n)
    && u in s.tasks && s.tasks[u] == Task(f, n, Pending) && u in s.requests && s.requests[u] == Request(f, n)
  }

  /** ... and if it is one message behind, both get that message. */
  lemma TwoRunsAnswered(s: State, f: nat, t: nat, u: nat) returns (s1: State, s': State)
    requires TwoRuns(s, f, t, u) && |LeaderLog(s)| == |s.replicas[f].log| + 1
    requires 1 <= |LeaderLog(s)[|s.replicas[f].log|]| <= FETCH_BYTES
    ensures s1 == Next(s, Serve(t)) && Grounded(s1) && Enabled(s1, Serve(u))
    ensures s' == Next(s1, Serve(u)) && Overlap(s', f, t, u)
  {
    FetchFaithful(LeaderLog(s), |s.replicas[f].log|);
    ServeFacts(s, t);
    s1 := Next(s, Serve(t));
    ServeFacts(s1, u);
    s' := Next(s1, Serve(u));
  }

  /** Once both are delivered the follower is no prefix of the leader. */
  lemma OverlapBreaks(s: State, f: nat, t: nat, u: nat)
    requires Overlap(s, f, t, u)
    ensures Grounded(Next(s, Deliver(t))) && Enabled(Next(s, Deliver(t)), Deliver(u))
    ensures Grounded(Next(Next(s, Deliver(t)), Deliver(u))) && !Prefixes(Next(Next(s, Deliver(t)), Deliver(u)))
  {
    NextGrounded(s, Deliver(t));
    var s' := Next(s, Deliver(t));
    NextGrounded(s', Deliver(u));
    var s'' := Next(s', Deliver(u));
    assert |s''.replicas[f].log| == |LeaderLog(s)| + 1 && LeaderLog(s'') == LeaderLog(s);
  }

  // ---- from a broken copy to a broken promise ----

  /** Both runs are delivered: the follower holds the last message twice. */
  lemma DeliverBoth(s: State, f: nat, t: nat, u: nat) returns (s1: State, s2: State)
    requires Overlap(s, f, t, u)
    ensures Step(s, Deliver(t), s1) && OnTime(s, t) && Step(s1, Deliver(u), s2) && Grounded(s2)
    ensures s2.leader == s.leader && f in s2.replicas && f != s.leader
    ensures s2.replicas[s.leader] == s.replicas[s.leader]
    ensures s2.replicas[f].log == LeaderLog(s2) + [LeaderLog(s2)[|LeaderLog(s2)| - 1]] || !Prefixes(s)
  {
    DeliverFacts(s, t);
    s1 := Next(s, Deliver(t));
    DeliverFacts(s1, u);
    s2 := Next(s1, Deliver(u));
    if Prefixes(s) {
      NextInLine(s.replicas[f].log, LeaderLog(s));
      assert s1.replicas[f].log == LeaderLog(s);
    }
  }

  /** The leader takes message d, and the follower asks at its inflated length. */
  lemma ProduceAndAsk(s: State, f: nat, d: Data) returns (s1: State, s2: State, s3: State)
    requires Grounded(s) && Enabled(s, BeginFetch(f)) && |s.replicas[f].log| == |LeaderLog(s)| + 1
    ensures Step(s, Produce(d), s1) && Step(s1, BeginFetch(f), s2) && Step(s2, Serve(s.nextTicket), s3) && Grounded(s3)
    ensures s3.leader == s.leader && f in s3.replicas && s3.replicas[f].log == s.replicas[f].log
    ensures LeaderLog(s3) == LeaderLog(s) + [d] && s3.served == s.served
    ensures Current(s3.replicas[s.leader]) && s3.replicas[s.leader].replicaIds == s.replicas[s.leader].replicaIds
    ensures Progress(s3.replicas[s.leader].recorded, f) == |LeaderLog(s3)|
  {
    NextGrounded(s, Produce(d));
    s1 := Next(s, Produce(d));
    BeginFacts(s1, f);
    s2 := Next(s1, BeginFetch(f));
    ServeFacts(s2, s.nextTicket);
    s3 := Next(s2, Serve(s.nextTicket));
  }

  /** What the consumer is then served is not on the follower at that offset, though
      the watermark covers it: a late delivery breaks the promise of the watermark. */
  lemma ServedWrong(s: State, ids: seq<nat>, f: nat, x: Data, d: Data) returns (s': State)
    requires Grounded(s) && Listed(s, ids) && Current(s.replicas[s.leader]) && f in s.replicas
    requires (forall g :: g in ids ==> g == s.leader || g == f) && f in ids
    requires |LeaderLog(s)| > 0 && LeaderLog(s)[|LeaderLog(s)| - 1] == d && 1 <= |d| <= FETCH_BYTES
    requires |s.replicas[f].log| == |LeaderLog(s)| && s.replicas[f].log[|LeaderLog(s)| - 1] == x && x != d && |x| <= FETCH_BYTES
    requires Progress(s.replicas[s.leader].recorded, f) == |LeaderLog(s)|
    ensures Step(s, Consume(|LeaderLog(s)| - 1, FETCH_BYTES), s') && Disciplined(s, Consume(|LeaderLog(s)| - 1, FETCH_BYTES), ids)
    ensures Grounded(s') && |s'.served| == |s.served| + 1
    ensures !HoldsAt(s'.replicas[f].log, s'.served[|s.served|]) && !Durable(s', ids, s'.served[|s.served|])
  {
    var k, l := |LeaderLog(s)| - 1, s.replicas[s.leader];
    WatermarkIsMinimum(l.id, |l.log|, ids, l.recorded);
    FetchFaithful(LeaderLog(s), k);
    s' := Next(s, Consume(k, FETCH_BYTES));
    NextGrounded(s, Consume(k, FETCH_BYTES));
    NotHeld(s.replicas[f].log, k, d);
  }

  lemma NotHeld(log: seq<Data>, k: nat, d: Data)
    requires k < |log| && log[k] != d && |log[k]| <= FETCH_BYTES
    ensures Read(log, k, FETCH_BYTES) != Some(d)
  {
    FetchFaithful(log, k);
  }

  /** From two overlapping runs, answered with a message x, to a consumer that is
      served a different message d the follower lacks: the delivery of the second
      run is late, and the five other steps are within all the conditions. */
  lemma OverlapHarms(s: State, ids: seq<nat>, f: nat, t: nat, u: nat, d: Data)
    returns (s1: State, s2: State, s3: State, s4: State, s5: State, s6: State, k: nat)
    requires Inv(s, ids) && Listed(s, ids) && Overlap(s, f, t, u) && f in ids && (forall g :: g in ids ==> g == s.leader || g == f)
    requires 1 <= |d| <= FETCH_BYTES && d != LeaderLog(s)[|LeaderLog(s)| - 1]
    ensures Moves(s, Deliver(t), s1, ids) && Step(s1, Deliver(u), s2)
    ensures Moves(s2, Produce(d), s3, ids) && Moves(s3, BeginFetch(f), s4, ids)
    ensures Moves(s4, Serve(s2.nextTicket), s5, ids) && Moves(s5, Consume(k, FETCH_BYTES), s6, ids)
    ensures PromiseBroken(s6, ids)
  {
    s1, s2 := DeliverBoth(s, f, t, u);
    s3, s4, s5 := ProduceAndAsk(s2, f, d);
    k := |LeaderLog(s5)| - 1;
    s6 := ServedWrong(s5, ids, f, LeaderLog(s)[|LeaderLog(s)| - 1], d);
  }

  /** Something served is missing on a listed replica. */
  ghost predicate PromiseBroken(s: State, ids: seq<nat>) {
    Grounded(s) && !ServedOk(s, ids)
  }

  // ---- a watermark that falls ----

  /** A disciplined step that keeps the invariant. */
  ghost predicate Moves(s: State, a: Action, s': State, ids: seq<nat>) {
    Step(s, a, s') && Disciplined(s, a, ids)
  }

  lemma MoveBegin(s: State, ids: seq<nat>, f: nat) returns (s': State)
    requires Inv(s, ids) && Enabled(s, BeginFetch(f))
    ensures Moves(s, BeginFetch(f), s', ids) && Inv(s', ids)
    ensures s'.replicas == s.replicas && s'.leader == s.leader && s'.nextTicket == s.nextTicket + 1
    ensures
      var n := |s.replicas[f].log|;
      && s'.tasks == s.tasks[s.nextTicket := Task(f, n, Pending)]
      && s'.requests == s.requests[s.nextTicket := Request(f, n)]
  {
    BeginFacts(s, f);
    StepKeeps(s, BeginFetch(f), ids);
    s' := Next(s, BeginFetch(f));
  }

  lemma MoveServe(s: State, ids: seq<nat>, t: nat) returns (s': State)
    requires Inv(s, ids) && t in s.requests && t in s.tasks
    ensures Moves(s, Serve(t), s', ids) && Inv(s', ids)
    ensures s'.leader == s.leader && s'.replicas.Keys == s.replicas.Keys && s'.requests == s.requests - {t}
    ensures forall f :: f in s.replicas ==> s'.replicas[f].log == s.replicas[f].log
    ensures s'.replicas[s.leader].replicaIds == s.replicas[s.leader].replicaIds
    ensures s'.replicas[s.leader].recorded == s.replicas[s.leader].recorded[s.requests[t].follower := s.requests[t].offset]
    ensures t in s'.tasks && s'.tasks[t] ==
      s.tasks[t].(reply := Answered(Read(LeaderLog(s), s.requests[t].offset, FETCH_BYTES)))
  {
    ServeFacts(s, t);
    StepKeeps(s, Serve(t), ids);
    s' := Next(s, Serve(t));
  }

  lemma MoveDeliver(s: State, ids: seq<nat>, t: nat) returns (s': State)
    requires Inv(s, ids) && Enabled(s, Deliver(t)) && s.tasks[t].reply.data.Some? && OnTime(s, t)
    ensures Moves(s, Deliver(t), s', ids) && Inv(s', ids)
    ensures s'.leader == s.leader && s'.requests == s.requests && s'.replicas.Keys == s.replicas.Keys
    ensures s'.replicas[s.leader] == s.replicas[s.leader]
    ensures |s'.replicas[s.tasks[t].follower].log| == |s.replicas[s.tasks[t].follower].log| + 1
  {
    DeliverFacts(s, t);
    StepKeeps(s, Deliver(t), ids);
    s' := Next(s, Deliver(t));
  }

  /** The leader lists `ids` and has everyone but f recorded at its end. */
  ghost predicate OthersThere(s: State, ids: seq<nat>, f: nat) {
    && Inv(s, ids) && Listed(s, ids) && f in ids && f != s.leader
    && forall g :: g in ids && g != s.leader && g != f ==> Progress(s.replicas[s.leader].recorded, g) == |LeaderLog(s)|
  }

  /** Follower f is one readable message behind, and nobody else is. */
  ghost predicate OneBehind(s: State, ids: seq<nat>, f: nat) {
    && OthersThere(s, ids, f)
    && |LeaderLog(s)| == |s.replicas[f].log| + 1 && |LeaderLog(s)[|s.replicas[f].log|]| >= 1
  }

  /** An old request is still on its way while its follower has caught up. */
  ghost predicate Stale(s: State, ids: seq<nat>, f: nat, t: nat) {
    && OthersThere(s, ids, f) && |LeaderLog(s)| == |s.replicas[f].log|
    && t in s.requests && s.requests[t].follower == f && s.requests[t].offset < |LeaderLog(s)|
  }

  /** Run u of follower f has its answer, request t of the same offset has not. */
  ghost predicate HalfServed(s: State, f: nat, t: nat, u: nat) {
    && Grounded(s) && f in s.replicas
    && t in s.requests && s.requests[t] == Request(f, |s.replicas[f].log|)
    && u in s.tasks && s.tasks[u].follower == f && s.tasks[u].offset == |s.replicas[f].log|
    && s.tasks[u].reply.Answered? && s.tasks[u].reply.data.Some?
  }

  lemma BeginTwice(s: State, ids: seq<nat>, f: nat) returns (m: State, s': State)
    requires OneBehind(s, ids, f)
    ensures Moves(s, BeginFetch(f), m, ids) && Moves(m, BeginFetch(f), s', ids)
    ensures TwoRuns(s', f, s.nextTicket, s.nextTicket + 1) && OneBehind(s', ids, f) && s'.leader == s.leader
  {
    m := MoveBegin(s, ids, f);
    s' := MoveBegin(m, ids, f);
  }

  lemma ServeSecond(s: State, ids: seq<nat>, f: nat, t: nat, u: nat) returns (s': State)
    requires OneBehind(s, ids, f) && TwoRuns(s, f, t, u)
    ensures Moves(s, Serve(u), s', ids) && OneBehind(s', ids, f) && HalfServed(s', f, t, u) && s'.leader == s.leader
  {
    FetchFaithful(LeaderLog(s), |s.replicas[f].log|);
    s' := MoveServe(s, ids, u);
  }

  lemma DeliverSecond(s: State, ids: seq<nat>, f: nat, t: nat, u: nat) returns (s': State)
    requires OneBehind(s, ids, f) && HalfServed(s, f, t, u)
    ensures Moves(s, Deliver(u), s', ids) && Stale(s', ids, f, t) && s'.leader == s.leader
  {
    s' := MoveDeliver(s, ids, u);
  }

  /** The caught-up follower asks again. */
  lemma AskAgain(s: State, ids: seq<nat>, f: nat, t: nat) returns (s': State)
    requires Stale(s, ids, f, t)
    ensures Moves(s, BeginFetch(f), s', ids) && Stale(s', ids, f, t) && s'.leader == s.leader
    ensures t != s.nextTicket && s.nextTicket in s'.tasks
    ensures s.nextTicket in s'.requests && s'.requests[s.nextTicket] == Request(f, |LeaderLog(s')|)
  {
    s' := MoveBegin(s, ids, f);
  }

  /** Serving that request raises the watermark to the end. */
  lemma ServeLatest(s: State, ids: seq<nat>, f: nat, t: nat, u: nat) returns (s': State)
    requires Stale(s, ids, f, t) && t != u && u in s.tasks && u in s.requests && s.requests[u] == Request(f, |LeaderLog(s)|)
    ensures Moves(s, Serve(u), s', ids) && Stale(s', ids, f, t) && s'.leader == s.leader
    ensures s'.replicas[s.leader].hw == |LeaderLog(s')|
  {
    s' := MoveServe(s, ids, u);
    AllRecorded(s', ids);
  }

  /** With everyone recorded at the end the watermark is there too. */
  lemma AllRecorded(s: State, ids: seq<nat>)
    requires Grounded(s) && Current(s.replicas[s.leader]) && Listed(s, ids)
    requires forall g :: g in ids && g != s.leader ==> Progress(s.replicas[s.leader].recorded, g) == |LeaderLog(s)|
    ensures s.replicas[s.leader].hw == |LeaderLog(s)|
  {
    var l := s.replicas[s.leader];
    WatermarkIsMinimum(l.id, |l.log|, ids, l.recorded);
  }

  /** A disciplined run from one state to another. */
  ghost predicate RunsTo(s: State, states: seq<State>, run: seq<Action>, s': State, ids: seq<nat>) {
    Run(states, run, ids) && states[0] == s && states[|run|] == s'
  }

  lemma RunOn(s: State, states: seq<State>, run: seq<Action>, m: State, a: Action, s': State, ids: seq<nat>)
    returns (states': seq<State>, run': seq<Action>)
    requires RunsTo(s, states, run, m, ids) && Moves(m, a, s', ids)
    ensures RunsTo(s, states', run', s', ids)
  {
    states', run' := states + [s'], run + [a];
    forall i | 0 <= i < |run'| ensures Moves(states'[i], run'[i], states'[i + 1], ids) {
      if i < |run| {
        assert Step(states[i], run[i], states[i + 1]);
      }
    }
  }

  /** Two runs begin; the second is served and delivered. */
  lemma LeaveBehind(s: State, ids: seq<nat>, f: nat) returns (states: seq<State>, run: seq<Action>, s': State)
    requires OneBehind(s, ids, f)
    ensures RunsTo(s, states, run, s', ids) && Stale(s', ids, f, s.nextTicket) && s'.leader == s.leader
  {
    var t, u := s.nextTicket, s.nextTicket + 1;
    var s1, s2 := BeginTwice(s, ids, f);
    assert RunsTo(s, [s], [], s, ids);
    states, run := RunOn(s, [s], [], s, BeginFetch(f), s1, ids);
    states, run := RunOn(s, states, run, s1, BeginFetch(f), s2, ids);
    var s3 := ServeSecond(s2, ids, f, t, u);
    states, run := RunOn(s, states, run, s2, Serve(u), s3, ids);
    s' := DeliverSecond(s3, ids, f, t, u);
    states, run := RunOn(s, states, run, s3, Deliver(u), s', ids);
  }

  /** Whenever one listed follower is one readable message behind, a disciplined run
      leads to a state in which serving an overtaken request lowers the watermark:
      the order of service is what keeps it from falling. */
  lemma WatermarkFalls(s: State, ids: seq<nat>, f: nat) returns (states: seq<State>, run: seq<Action>, s': State, t: nat)
    requires OneBehind(s, ids, f)
    ensures RunsTo(s, states, run, s', ids) && Grounded(s') && s'.leader == s.leader && Enabled(s', Serve(t))
    ensures Next(s', Serve(t)).replicas[s.leader].hw < s'.replicas[s.leader].hw
  {
    t := s.nextTicket;
    var s4;
    states, run, s4 := LeaveBehind(s, ids, f);
    var s5 := AskAgain(s4, ids, f, t);
    states, run := RunOn(s, states, run, s4, BeginFetch(f), s5, ids);
    s' := ServeLatest(s5, ids, f, t, s4.nextTicket);
    states, run := RunOn(s, states, run, s5, Serve(s4.nextTicket), s', ids);
    ServeLowers(s', ids, t);
  }

  // ---- a leader without its replica list ----

  /** A leader that restarts and is told its replicas again has forgotten all
      progress: with any follower listed its watermark starts from 0. */
  lemma RestartForgets(s: State, ids: seq<nat>, f: nat)
    requires Inv(s, ids) && f in ids && f != s.leader
    ensures
      var s1 := Next(s, Restart(s.leader));
      && Inv(s1, ids) && s1.replicas[s.leader].hw == |LeaderLog(s)|
      && Inv(Next(s1, Reconcile(ids)), ids) && Listed(Next(s1, Reconcile(ids)), ids)
      && Next(s1, Reconcile(ids)).replicas[s.leader].hw == 0
  {
    StepKeeps(s, Restart(s.leader), ids);
    var s1 := Next(s, Restart(s.leader));
    NextGrounded(s, Restart(s.leader));
    StepKeeps(s1, Reconcile(ids), ids);
    var l := Next(s1, Reconcile(ids)).replicas[s.leader];
    WatermarkIsMinimum(l.id, |l.log|, ids, l.recorded);
  }

  /** A leader that has not been told its replicas serves consumers exactly the
      readable messages it holds; follower f lacks those past its own end. */
  lemma UnlistedLeader(s: State, f: nat, k: nat, max: nat)
    requires Grounded(s) && s.replicas[s.leader].replicaIds == [] && Current(s.replicas[s.leader]) && f in s.replicas
    ensures |Next(s, Consume(k, max)).served| > |s.served| && k >= |s.replicas[f].log| <==>
      |s.replicas[f].log| <= k < |LeaderLog(s)| && max > 0 && |LeaderLog(s)[k]| % U32 > 0
  {
  }

  // ---- one run at a time ----

  /** At most one run per follower, each where it began. */
  ghost predicate Solo(s: State)
    requires Grounded(s)
  {
    && (forall t :: t in s.tasks ==> s.tasks[t].offset == |s.replicas[s.tasks[t].follower].log|)
    && (forall t, u :: t in s.tasks && u in s.tasks && t != u ==> s.tasks[t].follower != s.tasks[u].follower)
  }

  /** Waiting for a run to end before starting the next makes every delivery timely. */
  lemma SoloKeeps(s: State, a: Action)
    requires Grounded(s) && Solo(s) && Enabled(s, a)
    requires a.BeginFetch? ==> forall t :: t in s.tasks ==> s.tasks[t].follower != a.follower
    ensures Grounded(Next(s, a)) && Solo(Next(s, a))
    ensures a.Deliver? ==> OnTime(s, a.ticket)
  {
    NextGrounded(s, a);
    if a.Deliver? {
      SoloDelivers(s, a.ticket);
    }
  }

  lemma SoloDelivers(s: State, t: nat)
    requires Grounded(s) && Solo(s) && Enabled(s, Deliver(t)) && Grounded(Next(s, Deliver(t)))
    ensures Solo(Next(s, Deliver(t))) && OnTime(s, t)
  {
    var s' := Next(s, Deliver(t));
    forall u | u in s'.tasks ensures s'.tasks[u].offset == |s'.replicas[s'.tasks[u].follower].log| {
      assert u in s.tasks && s.tasks[u].follower != s.tasks[t].follower;
    }
  }

  /** A path on which no run starts while the follower has one, and which otherwise
      keeps to the conditions. */
  ghost predicate SoloRun(states: seq<State>, run: seq<Action>, ids: seq<nat>) {
    && Path(states, run)
    && forall i :: 0 <= i < |run| ==>
         && (run[i].BeginFetch? ==> forall t :: t in states[i].tasks ==> states[i].tasks[t].follower != run[i].follower)
         && (run[i].Deliver? || Disciplined(states[i], run[i], ids))
  }

  lemma {:induction false} StaysSolo(states: seq<State>, run: seq<Action>, ids: seq<nat>, i: nat)
    requires SoloRun(states, run, ids) && Solo(states[0]) && i < |states|
    ensures Grounded(states[i]) && Solo(states[i])
  {
    if i > 0 {
      StaysSolo(states, run, ids, i - 1);
      assert Step(states[i - 1], run[i - 1], states[i - 1 + 1]);
      SoloKeeps(states[i - 1], run[i - 1]);
    }
  }

  /** So the results on runs hold if a follower waits for each run to end. */
  lemma SoloRunIsRun(states: seq<State>, run: seq<Action>, ids: seq<nat>)
    requires SoloRun(states, run, ids) && Solo(states[0])
    ensures Run(states, run, ids)
  {
    forall i | 0 <= i < |run| ensures Disciplined(states[i], run[i], ids) {
      StaysSolo(states, run, ids, i);
      assert Step(states[i], run[i], states[i + 1]);
      SoloKeeps(states[i], run[i]);
    }
  }
}
