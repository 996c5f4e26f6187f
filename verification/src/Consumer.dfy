/**
 The client's consume loop without follow mode: it fetches offset after offset,
 prints what comes and stops at the first fetch without data.
 */
module Consumer {
  import opened Bytes
  import opened Replicas
  import opened TieredLog
  import opened Wire
  import opened DataServer
  import R = Replication

  // ---- one fetch ----

  /** Ten states of one log, as the tries of one fetch find it. */
  ghost predicate Looks(looks: seq<PartitionLog>, states: seq<Replica>)
    reads set i | 0 <= i < |looks| :: looks[i]
  {
    && |looks| == |states| == 10
    && forall i :: 0 <= i < 10 ==> looks[i].Valid() && looks[i].View() == states[i]
  }

  /** A fetch of offset k ended at the n-th look: the first at which the offset was
      committed, or the last if it never was. */
  ghost predicate FetchedAt(states: seq<Replica>, k: nat, data: Option<Data>, n: nat) {
    && n < |states|
    && (forall i :: 0 <= i < n ==> states[i].hw <= k)
    && if k < states[n].hw then data == Read(states[n].log, k, FETCH_BYTES)
       else data == None && n == |states| - 1
  }

  /** The broker's half of a fetch, from request bytes to reply bytes. */
  method Respond(looks: seq<PartitionLog>, ghost states: seq<Replica>, r: Request)
    returns (reply: Data, data: Option<Data>, n: nat)
    requires Looks(looks, states) && r.Fetch? && r.max == FETCH_BYTES
    ensures FetchedAt(states, r.offset, data, n) && reply == ReplyBytes(Answer(data))
    ensures data.Some? ==> |data.value| <= FETCH_BYTES
  {
    data, n := FetchCommitted(looks, r.offset, r.max);
    reply := ReplyBytes(Answer(data));
  }

  /** The client's half after the reply is in. */
  method ReadReply(reply: Data, ghost sent: Option<Data>) returns (data: Option<Data>)
    requires reply == ReplyBytes(Answer(sent)) && (sent.Some? ==> |sent.value| <= FETCH_BYTES)
    ensures data == sent
  {
    ReplyBack(Answer(sent), []);
    assert reply + [] == reply;
    data := ReadFetched(reply).value;
  }

  /** One fetch by the client, from its request bytes to the reply it reads. */
  method SendFetch(looks: seq<PartitionLog>, ghost states: seq<Replica>, topic: Data, partition: u32, k: u64)
    returns (data: Option<Data>, n: nat)
    requires Looks(looks, states) && TopicOk(topic)
    ensures FetchedAt(states, k, data, n)
  {
    var sent := WriteFetch(topic, partition, k, FETCH_BYTES);
    var r := Receive(Fetch(topic, partition, k, FETCH_BYTES), sent);
    var reply, answer;
    reply, answer, n := Respond(looks, states, r);
    data := ReadReply(reply, answer);
  }

  // ---- the loop ----

  /** The states found by one fetch after the other. */
  type History = seq<seq<Replica>>

  /** What the loop printed from `start` on: one message per fetch, until a fetch
      without data.  `seen` says at which look each fetch ended. */
  ghost predicate Session(history: History, start: nat, printed: seq<Data>, seen: seq<nat>) {
    && |seen| == |printed| + 1 && SoFar(history, start, printed, seen[..|printed|])
    && |printed| < |history| && FetchedAt(history[|printed|], start + |printed|, None, seen[|printed|])
  }

  ghost predicate SoFar(history: History, start: nat, printed: seq<Data>, seen: seq<nat>) {
    && |seen| == |printed| <= |history|
    && forall a :: 0 <= a < |printed| ==> FetchedAt(history[a], start + a, Some(printed[a]), seen[a])
  }

  /** No watermark passes `limit`, and there are looks enough to get there. */
  ghost predicate Bounded(history: History, start: nat, limit: nat) {
    && |history| > 0 && start + |history| > limit
    && forall a, i :: 0 <= a < |history| && 0 <= i < |history[a]| ==> history[a][i].hw <= limit
  }

  lemma OneMorePrinted(history: History, start: nat, limit: nat, printed: seq<Data>, seen: seq<nat>, d: Data, n: nat)
    requires Bounded(history, start, limit) && SoFar(history, start, printed, seen)
    requires |printed| < |history| && FetchedAt(history[|printed|], start + |printed|, Some(d), n)
    ensures SoFar(history, start, printed + [d], seen + [n]) && start + |printed| < limit
  {
  }

  lemma NothingMore(history: History, start: nat, printed: seq<Data>, seen: seq<nat>, n: nat)
    requires SoFar(history, start, printed, seen)
    requires |printed| < |history| && FetchedAt(history[|printed|], start + |printed|, None, n)
    ensures Session(history, start, printed, seen + [n])
  {
    assert (seen + [n])[..|printed|] == seen;
  }

  method Consume(rounds: seq<seq<PartitionLog>>, ghost history: History, ghost limit: nat,
                 topic: Data, partition: u32, startOffset: u64)
    returns (printed: seq<Data>, seen: seq<nat>)
    requires |rounds| == |history| && forall a :: 0 <= a < |rounds| ==> Looks(rounds[a], history[a])
    requires Bounded(history, startOffset, limit) && limit < U64 && TopicOk(topic)
    ensures Session(history, startOffset, printed, seen)
  {
    var currentOffset: int := startOffset;
    printed, seen := [], [];
    while true
      invariant currentOffset == startOffset + |printed| && SoFar(history, startOffset, printed, seen)
      invariant currentOffset <= limit || printed == []
      decreases limit - currentOffset
    {
      var data, n := SendFetch(rounds[|printed|], history[|printed|], topic, partition, currentOffset);
      if data.None? {
        NothingMore(history, startOffset, printed, seen, n);
        seen := seen + [n];
        break;
      }
      OneMorePrinted(history, startOffset, limit, printed, seen, data.value, n);
      printed, seen := printed + [data.value], seen + [n];
      currentOffset := currentOffset + 1;
    }
  }

  // ---- what was printed ----

  /** The order in which the looks are taken. */
  predicate Upto(history: History, a: int, i: int, b: int, j: int) {
    0 <= a <= b < |history| && 0 <= i < |history[a]| && 0 <= j < |history[b]| && (a < b || i <= j)
  }

  predicate Grown(r: Replica, r': Replica) {
    r.log <= r'.log && r.hw <= |r.log| && r'.hw <= |r'.log|
  }

  /** From look to look the log only grows; the watermark may rise and fall. */
  ghost predicate Growing(history: History) {
    forall a, i, b, j :: Upto(history, a, i, b, j) ==> Grown(history[a][i], history[b][j])
  }

  /** The watermark never falls either. */
  ghost predicate Rising(history: History) {
    Growing(history) && forall a, i, b, j :: Upto(history, a, i, b, j) ==> history[a][i].hw <= history[b][j].hw
  }

  ghost function Last(history: History, printed: seq<Data>, seen: seq<nat>): Replica
    requires |printed| < |history| && |seen| == |printed| + 1 && seen[|printed|] < |history[|printed|]|
  {
    history[|printed|][seen[|printed|]]
  }

  /** Each printed message was committed when it was read, and still reads the same
      at the last look. */
  lemma PrintedReads(history: History, start: nat, printed: seq<Data>, seen: seq<nat>, a: nat)
    requires Session(history, start, printed, seen) && Growing(history) && a < |printed|
    ensures seen[a] < |history[a]| && start + a < history[a][seen[a]].hw
    ensures
      var last := Last(history, printed, seen);
      start + a < |last.log| && Read(last.log, start + a, FETCH_BYTES) == Some(printed[a])
  {
    assert FetchedAt(history[a], start + a, Some(printed[a]), seen[a]);
    var found, last := history[a][seen[a]], Last(history, printed, seen);
    assert Upto(history, a, seen[a], |printed|, seen[|printed|]);
    assert Grown(found, last);
    ReadPrefix(found.log, last.log, start + a, FETCH_BYTES);
  }

  lemma AllPrintedRead(history: History, start: nat, printed: seq<Data>, seen: seq<nat>)
    requires Session(history, start, printed, seen) && Growing(history)
    ensures
      var last := Last(history, printed, seen);
      && last.hw <= |last.log| && (printed != [] ==> start + |printed| <= |last.log|)
      && forall a :: 0 <= a < |printed| ==> Read(last.log, start + a, FETCH_BYTES) == Some(printed[a])
  {
    var last := Last(history, printed, seen);
    assert Upto(history, |printed|, seen[|printed|], |printed|, seen[|printed|]);
    assert Grown(last, last);
    forall a | 0 <= a < |printed| ensures Read(last.log, start + a, FETCH_BYTES) == Some(printed[a]) {
      PrintedReads(history, start, printed, seen, a);
    }
    if printed != [] {
      PrintedReads(history, start, printed, seen, |printed| - 1);
    }
  }

  /** Whatever the watermark does meanwhile: the loop prints a stretch of the log,
      message by message, exactly if each has between 1 and 65536 bytes; it ends
      because nothing more was committed at any of the last ten looks, or because
      the next committed message reads as no data; and what it printed covers
      everything committed at the last look exactly if all of that can be fetched. */
  lemma PrintsStretch(history: History, start: nat, printed: seq<Data>, seen: seq<nat>)
    requires Session(history, start, printed, seen) && Growing(history)
    ensures
      var last, end := Last(history, printed, seen), start + |printed|;
      && last.hw <= |last.log|
      && (printed != [] ==> end <= |last.log| && (printed == last.log[start..end] <==> Fetchable(last.log, start, end)))
      && (end < last.hw ==> Read(last.log, end, FETCH_BYTES) == None)
      && (end >= last.hw ==> forall i :: 0 <= i < |history[|printed|]| ==> history[|printed|][i].hw <= end)
      && (start <= last.hw ==> (last.log[start..last.hw] <= printed <==> Fetchable(last.log, start, last.hw)))
  {
    var last, end := Last(history, printed, seen), start + |printed|;
    AllPrintedRead(history, start, printed, seen);
    if printed != [] {
      PrintedIff(last.log, end, start, printed);
    }
    if start <= last.hw {
      Covers(last.log, last.hw, start, printed);
    }
  }

  lemma Covers(log: seq<Data>, limit: nat, start: nat, printed: seq<Data>)
    requires start <= limit <= |log| && (start + |printed| <= |log| || printed == [])
    requires forall a :: 0 <= a < |printed| ==> Read(log, start + a, FETCH_BYTES) == Some(printed[a])
    requires start + |printed| >= limit || Read(log, start + |printed|, FETCH_BYTES) == None
    ensures log[start..limit] <= printed <==> Fetchable(log, start, limit)
  {
    if start + |printed| >= limit {
      var front := printed[..limit - start];
      PrintedIff(log, limit, start, front);
    } else {
      PrintedIff(log, limit, start, printed);
    }
  }

  /** If the watermark never falls, the loop prints exactly the committed messages
      from `start` on, once each and in order, if and only if each has between 1 and
      65536 bytes; committed is what the last look found below the watermark. */
  lemma PrintsCommitted(history: History, start: nat, printed: seq<Data>, seen: seq<nat>)
    requires Session(history, start, printed, seen) && Rising(history)
    ensures
      var last := Last(history, printed, seen);
      && last.hw <= |last.log|
      && (start >= last.hw ==> printed == [])
      && (start <= last.hw ==> (printed == last.log[start..last.hw] <==> Fetchable(last.log, start, last.hw)))
  {
    var last := Last(history, printed, seen);
    PrintsStretch(history, start, printed, seen);
    if |printed| > 0 {
      var a := |printed| - 1;
      PrintedReads(history, start, printed, seen, a);
      assert Upto(history, a, seen[a], |printed|, seen[|printed|]);
    }
  }

  /** A list read off from `start`, ending at the limit or before an unreadable
      message, is the whole stretch exactly when every message can be fetched. */
  lemma PrintedIff(log: seq<Data>, limit: nat, start: nat, printed: seq<Data>)
    requires start + |printed| <= limit <= |log|
    requires forall a :: 0 <= a < |printed| ==> Read(log, start + a, FETCH_BYTES) == Some(printed[a])
    requires start + |printed| == limit || Read(log, start + |printed|, FETCH_BYTES) == None
    ensures printed == log[start..limit] <==> Fetchable(log, start, limit)
  {
    DrainedIff(log, limit, start);
    PrintedDrains(log, limit, start, printed);
  }

  lemma {:induction false} PrintedDrains(log: seq<Data>, limit: nat, start: nat, printed: seq<Data>)
    requires start + |printed| <= limit <= |log|
    requires forall a :: 0 <= a < |printed| ==> Read(log, start + a, FETCH_BYTES) == Some(printed[a])
    requires start + |printed| == limit || Read(log, start + |printed|, FETCH_BYTES) == None
    ensures printed == Drained(log, limit, start)
    decreases |printed|
  {
    if printed != [] {
      var rest := printed[1..];
      forall a | 0 <= a < |rest|
        ensures Read(log, start + 1 + a, FETCH_BYTES) == Some(rest[a])
      {
        assert rest[a] == printed[a + 1];
      }
      PrintedDrains(log, limit, start + 1, rest);
      assert Read(log, start + 0, FETCH_BYTES) == Some(printed[0]);
      assert printed == [printed[0]] + rest;
    }
  }

  // ---- histories of a run ----

  /** The looks are at the leader's log at successive points of a path. */
  ghost predicate Witnessed(history: History, states: seq<R.State>, times: seq<seq<nat>>) {
    && |times| == |history|
    && (forall a :: 0 <= a < |history| ==> |times[a]| == |history[a]|)
    && (forall a, i :: 0 <= a < |history| && 0 <= i < |history[a]| ==> LookAt(states, times[a][i], history[a][i]))
    && (forall a, i, b, j :: Upto(history, a, i, b, j) ==> times[a][i] <= times[b][j])
  }

  ghost predicate LookAt(states: seq<R.State>, n: nat, look: Replica) {
    n < |states| && states[0].leader in states[n].replicas && look == states[n].replicas[states[0].leader]
  }

  /** The leader at one point of a path and at a later one. */
  lemma LooksGrow(states: seq<R.State>, run: seq<R.Action>, n: nat, r: Replica, n': nat, r': Replica)
    requires R.Path(states, run) && Current(states[0].replicas[states[0].leader]) && n <= n'
    requires LookAt(states, n, r) && LookAt(states, n', r')
    ensures Grown(r, r')
  {
    R.PathGrows(states, run, n, n', states[0].leader);
    R.PathGrounded(states, run, n);
    R.PathGrounded(states, run, n');
    WatermarkIsMinimum(r.id, |r.log|, r.replicaIds, r.recorded);
    WatermarkIsMinimum(r'.id, |r'.log|, r'.replicaIds, r'.recorded);
  }

  /** On any path whatever the leader's log grows from look to look. */
  lemma RunGrowing(history: History, states: seq<R.State>, run: seq<R.Action>, times: seq<seq<nat>>)
    requires R.Path(states, run) && Current(states[0].replicas[states[0].leader]) && Witnessed(history, states, times)
    ensures Growing(history)
  {
    forall a, i, b, j | Upto(history, a, i, b, j) ensures Grown(history[a][i], history[b][j]) {
      LooksGrow(states, run, times[a][i], history[a][i], times[b][j], history[b][j]);
    }
  }

  /** If each follower's requests are served in order its watermark never falls. */
  lemma RunRising(history: History, states: seq<R.State>, run: seq<R.Action>, ids: seq<nat>, times: seq<seq<nat>>)
    requires R.InOrderPath(states, run, ids) && R.Orderly(states[0], ids) && Witnessed(history, states, times)
    ensures Rising(history)
  {
    RunGrowing(history, states, run, times);
    forall a, i, b, j | Upto(history, a, i, b, j) ensures history[a][i].hw <= history[b][j].hw {
      R.WatermarkNeverFalls(states, run, ids, times[a][i], times[b][j]);
    }
  }

  /** So on any in-order path, late deliveries, long payloads and diverged copies
      included, the loop prints exactly what is committed at its last look, if and
      only if all of that can be fetched. */
  lemma PrintsCommittedInRun(history: History, states: seq<R.State>, run: seq<R.Action>, ids: seq<nat>, times: seq<seq<nat>>,
                             start: nat, printed: seq<Data>, seen: seq<nat>)
    requires R.InOrderPath(states, run, ids) && R.Orderly(states[0], ids) && Witnessed(history, states, times)
    requires Session(history, start, printed, seen) && start <= Last(history, printed, seen).hw
    ensures
      var last := Last(history, printed, seen);
      last.hw <= |last.log| && (printed == last.log[start..last.hw] <==> Fetchable(last.log, start, last.hw))
  {
    RunRising(history, states, run, ids, times);
    PrintsCommitted(history, start, printed, seen);
  }

  // ---- replicas ----

  /** A fetch that brings data is the consume step of the transition system. */
  lemma FetchIsConsume(states: seq<Replica>, k: nat, d: Data, n: nat, s: R.State)
    requires FetchedAt(states, k, Some(d), n) && R.Grounded(s) && s.replicas[s.leader] == states[n]
    ensures R.Next(s, R.Consume(k, FETCH_BYTES)) == s.(served := s.served + [R.Served(k, FETCH_BYTES, d)])
  {
  }

  /** What was printed is on every replica the leader lists, with the same bytes. */
  lemma PrintedIsReplicated(history: History, start: nat, printed: seq<Data>, seen: seq<nat>, a: nat,
                            s: R.State, ids: seq<nat>, f: nat)
    requires Session(history, start, printed, seen) && a < |printed|
    requires R.Inv(s, ids) && R.Listed(s, ids) && f in ids
    requires seen[a] < |history[a]| && history[a][seen[a]] == s.replicas[s.leader]
    ensures start + a < |s.replicas[f].log| && Read(s.replicas[f].log, start + a, FETCH_BYTES) == Some(printed[a])
  {
    assert FetchedAt(history[a], start + a, Some(printed[a]), seen[a]);
    R.BelowWatermark(s, ids, start + a, f);
  }

  /** And it still is at the end of the run, if the leader listed its replicas at
      every look. */
  lemma PrintedStaysReplicated(history: History, states: seq<R.State>, run: seq<R.Action>, ids: seq<nat>, times: seq<seq<nat>>,
                               start: nat, printed: seq<Data>, seen: seq<nat>, a: nat, f: nat)
    requires R.Run(states, run, ids) && R.Inv(states[0], ids) && Witnessed(history, states, times)
    requires Session(history, start, printed, seen) && a < |printed| && f in ids
    requires seen[a] < |history[a]| && history[a][seen[a]].replicaIds == ids
    ensures f in states[|run|].replicas
    ensures Read(states[|run|].replicas[f].log, start + a, FETCH_BYTES) == Some(printed[a])
  {
    var n := times[a][seen[a]];
    assert LookAt(states, n, history[a][seen[a]]);
    R.RunKeeps(states, run, ids, n);
    PrintedIsReplicated(history, start, printed, seen, a, states[n], ids, f);
    R.PathGrows(states, run, n, |run|, f);
    ReadPrefix(states[n].replicas[f].log, states[|run|].replicas[f].log, start + a, FETCH_BYTES);
  }
}
