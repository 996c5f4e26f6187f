/**
 A follower's replication run: it asks the leader for the message at its own end,
 in bytes, and appends the answer.
 */
module Follower {
  import opened Bytes
  import opened Replicas
  import opened TieredLog
  import opened Wire
  import opened DataServer
  import R = Replication

  /** What a run leaves on the follower. */
  function Replicated(r: Replica, reply: Option<Data>): Replica {
    match reply case Some(d) => Appended(r, d) case None => r
  }

  /** The follower's half: asks for its own next offset. */
  method Ask(follower: PartitionLog, topic: Data, partition: u32) returns (sent: Data)
    requires follower.Valid() && follower.brokerId < U32
    ensures |follower.View().log| < U64
    ensures sent == Frame(ReplicaFetch(follower.brokerId, topic, partition, |follower.View().log|, FETCH_BYTES))
  {
    sent := WriteReplicaFetch(follower.brokerId, topic, partition, follower.nextOffset, FETCH_BYTES);
  }

  /** Appends what the reply carries, without looking at the own length again. */
  method Take(follower: PartitionLog, reply: Data, t: int, now: int, ghost data: Option<Data>)
    requires follower.Valid() && reply == ReplyBytes(Answer(data)) && (data.Some? ==> |data.value| <= FETCH_BYTES)
    requires RoomIn(follower.View(), FETCH_BYTES + 1)
    modifies follower
    ensures follower.Valid() && follower.View() == Replicated(old(follower.View()), data)
  {
    ReplyBack(Answer(data), []);
    assert reply + [] == reply;
    var got := ReadReplicated(reply);
    if got.Got? && got.value.Some? {
      ActiveFits(follower);
      var offset := follower.Append(got.value.value, t, now);
    }
  }

  /** The leader's half, from request bytes to reply bytes. */
  method Respond(leader: PartitionLog, sent: Data, ghost r: Request)
    returns (reply: Data, ghost data: Option<Data>)
    requires leader.Valid() && r.ReplicaFetch? && Sendable(r) && sent == Frame(r)
    modifies leader`replicaOffsets, leader`highWatermark
    ensures leader.Valid() && leader.View() == FetchedBy(old(leader.View()), r.replica, r.offset)
    ensures data == Read(old(leader.View()).log, r.offset, r.max)
    ensures reply == ReplyBytes(Answer(data)) && (data.Some? ==> |data.value| <= r.max)
  {
    var got := Receive(r, sent);
    var found := RecordAndRead(leader, got.replica, got.offset, got.max);
    data := found;
    reply := ReplyBytes(Answer(found));
  }

  /** A whole replication run, in bytes, with nothing else happening meanwhile. */
  method Replicate(leader: PartitionLog, follower: PartitionLog, topic: Data, partition: u32, t: int, now: int)
    requires leader != follower && leader.Valid() && follower.Valid()
    requires TopicOk(topic) && follower.brokerId < U32 && RoomIn(follower.View(), FETCH_BYTES + 1)
    modifies leader`replicaOffsets, leader`highWatermark, follower
    ensures leader.Valid() && follower.Valid()
    ensures leader.View() == FetchedBy(old(leader.View()), follower.brokerId, |old(follower.View()).log|)
    ensures follower.View() == Replicated(old(follower.View()),
                                          Read(old(leader.View()).log, |old(follower.View()).log|, FETCH_BYTES))
  {
    var reply;
    ghost var data;
    reply, data := Exchange(leader, follower, topic, partition);
    label Answered:
    Take(follower, reply, t, now, data);
    Untouched@Answered(leader);
  }

  method Exchange(leader: PartitionLog, follower: PartitionLog, topic: Data, partition: u32)
    returns (reply: Data, ghost data: Option<Data>)
    requires leader != follower && leader.Valid() && follower.Valid()
    requires TopicOk(topic) && follower.brokerId < U32
    modifies leader`replicaOffsets, leader`highWatermark
    ensures leader.Valid() && follower.Valid() && follower.View() == old(follower.View())
    ensures leader.View() == FetchedBy(old(leader.View()), follower.brokerId, |old(follower.View()).log|)
    ensures data == Read(old(leader.View()).log, |old(follower.View()).log|, FETCH_BYTES)
    ensures reply == ReplyBytes(Answer(data)) && (data.Some? ==> |data.value| <= FETCH_BYTES)
  {
    var sent := Ask(follower, topic, partition);
    reply, data := Respond(leader, sent, ReplicaFetch(follower.brokerId, topic, partition, |follower.View().log|, FETCH_BYTES));
    Untouched(follower);
  }

  twostate lemma Untouched(log: PartitionLog)
    requires old(log.Valid()) && unchanged(log)
    ensures log.Valid() && log.View() == old(log.View())
  {
  }

  /** An undisturbed run is the three steps begin, serve and deliver. */
  lemma RunIsThreeSteps(s: R.State, f: nat) returns (s1: R.State, s2: R.State, s3: R.State)
    requires R.Grounded(s) && R.Enabled(s, R.BeginFetch(f))
    ensures s1 == R.Next(s, R.BeginFetch(f)) && R.Grounded(s1) && R.Enabled(s1, R.Serve(s.nextTicket))
    ensures s2 == R.Next(s1, R.Serve(s.nextTicket)) && R.Grounded(s2) && R.Enabled(s2, R.Deliver(s.nextTicket))
    ensures s3 == R.Next(s2, R.Deliver(s.nextTicket)) && s3.replicas.Keys == s.replicas.Keys
    ensures
      var l, n := s.replicas[s.leader], |s.replicas[f].log|;
      && s3.replicas[s.leader] == FetchedBy(l, f, n)
      && s3.replicas[f] == Replicated(s.replicas[f], Read(l.log, n, FETCH_BYTES))
      && forall b :: b in s.replicas && b != s.leader && b != f ==> s3.replicas[b] == s.replicas[b]
  {
    R.BeginFacts(s, f);
    s1 := R.Next(s, R.BeginFetch(f));
    R.ServeFacts(s1, s.nextTicket);
    s2 := R.Next(s1, R.Serve(s.nextTicket));
    s3 := R.Next(s2, R.Deliver(s.nextTicket));
  }

  /** The follower's log after n undisturbed runs. */
  function AfterRuns(log: seq<Data>, leader: seq<Data>, n: nat): seq<Data>
    decreases n
  {
    if n == 0 then log else AfterRuns(AfterRun(log, leader), leader, n - 1)
  }

  function AfterRun(log: seq<Data>, leader: seq<Data>): seq<Data> {
    match Read(leader, |log|, FETCH_BYTES) case Some(d) => log + [d] case None => log
  }

  lemma Regrouped(log: seq<Data>, d: Data, rest: seq<Data>)
    ensures log + [d] + rest == log + ([d] + rest)
  {
  }

  lemma {:induction false} RunsDrain(log: seq<Data>, leader: seq<Data>, n: nat)
    ensures AfterRuns(log, leader, n) == log + Drained(leader, |log| + n, |log|)
    decreases n
  {
    if n > 0 {
      match Read(leader, |log|, FETCH_BYTES)
      case Some(d) =>
        RunsDrain(log + [d], leader, n - 1);
        Regrouped(log, d, Drained(leader, |log| + n, |log| + 1));
      case None =>
        RunsDrain(log, leader, n - 1);
    }
  }

  lemma Completes(log: seq<Data>, d: seq<Data>, leader: seq<Data>)
    requires log <= leader
    ensures log + d == leader <==> d == leader[|log|..|leader|]
  {
    var rest := leader[|log|..|leader|];
    assert log + rest == leader;
    if log + d == leader {
      assert |d| == |rest|;
      assert forall i :: 0 <= i < |d| ==> d[i] == (log + d)[|log| + i];
    }
  }

  lemma DrainsAll(log: seq<Data>, leader: seq<Data>)
    requires log <= leader
    ensures log + Drained(leader, |leader|, |log|) == leader <==> Fetchable(leader, |log|, |leader|)
  {
    DrainedIff(leader, |leader|, |log|);
    Completes(log, Drained(leader, |leader|, |log|), leader);
  }

  lemma RunsReach(log: seq<Data>, leader: seq<Data>, n: nat)
    requires log <= leader && n == |leader| - |log|
    ensures AfterRuns(log, leader, n) == log + Drained(leader, |leader|, |log|)
  {
    RunsDrain(log, leader, n);
  }

  /** A follower that is n messages behind has caught up after n runs if and only if
      each of those has between 1 and 65536 bytes: it never gets past an empty one,
      and a longer one arrives cut off. */
  lemma CatchesUp(log: seq<Data>, leader: seq<Data>, n: nat)
    requires log <= leader && n == |leader| - |log|
    ensures AfterRuns(log, leader, n) == leader <==> Fetchable(leader, |log|, |leader|)
  {
    RunsReach(log, leader, n);
    DrainsAll(log, leader);
  }

  /** One run leaves the follower a prefix of the leader exactly when there is nothing
      to fetch, the fetch finds no data, or the message is within the budget; an
      empty message stops it, a longer one breaks it. */
  lemma StaysPrefix(log: seq<Data>, leader: seq<Data>)
    requires log <= leader
    ensures AfterRun(log, leader) <= leader <==>
      |log| == |leader| || |leader[|log|]| % U32 == 0 || |leader[|log|]| <= FETCH_BYTES
  {
    if |log| < |leader| && |leader[|log|]| % U32 > 0 {
      var d := Read(leader, |log|, FETCH_BYTES).value;
      FetchFaithful(leader, |log|);
      assert (log + [d])[|log|] == d;
      if |leader[|log|]| <= FETCH_BYTES {
        R.NextInLine(log, leader);
      }
    }
  }
}
