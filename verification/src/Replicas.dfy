/**
 One broker's copy of a partition as the rest of the system sees it: the
 sequence of payloads, the followers' recorded progress and the high watermark.
 */
module Replicas {
  import opened Bytes

  /** The byte budget both fetchers hard-code. */
  const FETCH_BYTES: nat := 65536

  datatype Replica = Replica(
    id: nat,
    log: seq<Data>,
    replicaIds: seq<nat>,
    recorded: map<nat, nat>,
    hw: nat)

  /** What reading offset k with a byte budget designates: the first bytes of the
      k-th payload.  The payload length is cut to 32 bits first, and an empty
      result reads as no data. */
  function Read(log: seq<Data>, k: nat, max: nat): (r: Option<Data>)
    ensures r.Some? ==> 1 <= |r.value| <= max
  {
    if k >= |log| then None else
      var n := Min(|log[k]| % U32, max);
      if n == 0 then None else Some(log[k][..n])
  }

  function Progress(recorded: map<nat, nat>, id: nat): nat {
    if id in recorded then recorded[id] else 0
  }

  /** The high watermark: the least of the own length and the recorded progress
      of every listed replica but this one, missing progress counting as 0. */
  function Watermark(self: nat, next: nat, ids: seq<nat>, recorded: map<nat, nat>): nat {
    if ids == [] then next else
      var m := Watermark(self, next, ids[..|ids| - 1], recorded);
      var id := ids[|ids| - 1];
      if id == self then m else Min(m, Progress(recorded, id))
  }

  lemma {:induction false} WatermarkIsMinimum(self: nat, next: nat, ids: seq<nat>, recorded: map<nat, nat>)
    ensures
      var w := Watermark(self, next, ids, recorded);
      && w <= next
      && (forall id :: id in ids && id != self ==> w <= Progress(recorded, id))
      && (w == next || exists id :: id in ids && id != self && w == Progress(recorded, id))
  {
    if ids != [] {
      var init, l := ids[..|ids| - 1], ids[|ids| - 1];
      WatermarkIsMinimum(self, next, init, recorded);
      assert ids == init + [l];
      var m := Watermark(self, next, init, recorded);
      if l != self && Progress(recorded, l) < m {
        assert l in ids;
      } else if m != next {
        var id :| id in init && id != self && m == Progress(recorded, id);
        assert id in ids;
      }
    }
  }

  /** The watermark is determined by being a lower bound that is attained. */
  lemma WatermarkUnique(self: nat, next: nat, ids: seq<nat>, recorded: map<nat, nat>, w: nat)
    requires w <= next
    requires forall id :: id in ids && id != self ==> w <= Progress(recorded, id)
    requires w == next || exists id :: id in ids && id != self && w == Progress(recorded, id)
    ensures w == Watermark(self, next, ids, recorded)
  {
    WatermarkIsMinimum(self, next, ids, recorded);
  }

  /** The stored watermark is current. */
  predicate Current(r: Replica) {
    r.hw == Watermark(r.id, |r.log|, r.replicaIds, r.recorded)
  }

  function Refreshed(r: Replica): (r': Replica)
    ensures Current(r') && r' == r.(hw := r'.hw)
  {
    r.(hw := Watermark(r.id, |r.log|, r.replicaIds, r.recorded))
  }

  // ---- the ways a copy changes ----

  function Appended(r: Replica, d: Data): Replica {
    Refreshed(r.(log := r.log + [d]))
  }

  function FetchedBy(r: Replica, follower: nat, offset: nat): Replica {
    Refreshed(r.(recorded := r.recorded[follower := offset]))
  }

  function Reconciled(r: Replica, ids: seq<nat>): Replica {
    Refreshed(r.(replicaIds := ids))
  }

  /** A broker that restarts has its log and no longer knows its replicas. */
  function Restarted(r: Replica): Replica {
    Refreshed(r.(replicaIds := [], recorded := map[]))
  }

  /** Exactly what a read gives: the first min(length, max) bytes of the k-th payload,
      its length cut to 32 bits, and nothing if that is empty or there is none. */
  lemma ReadExact(log: seq<Data>, k: nat, max: nat, d: Data)
    ensures Read(log, k, max) == Some(d) <==>
      && k < |log| && d <= log[k] && 0 < |d|
      && |d| == if |log[k]| % 0x1_0000_0000 < max then |log[k]| % 0x1_0000_0000 else max
    ensures Read(log, k, max) == None <==> k >= |log| || |log[k]| % 0x1_0000_0000 == 0 || max == 0
  {
    if k < |log| && d <= log[k] {
      assert d == log[k][..|d|];
    }
  }

  /** A fetch with the hard-coded byte budget returns the whole payload
      exactly when it is neither empty nor longer than that. */
  lemma FetchFaithful(log: seq<Data>, k: nat)
    requires k < |log|
    ensures Read(log, k, FETCH_BYTES) == Some(log[k]) <==> 1 <= |log[k]| <= 65536
  {
    if 1 <= |log[k]| <= FETCH_BYTES {
      assert log[k][..|log[k]|] == log[k];
    } else if Read(log, k, FETCH_BYTES).Some? {
      assert |Read(log, k, FETCH_BYTES).value| <= FETCH_BYTES;
    }
  }

  /** What fetching offset after offset from k yields, up to a limit and up to the
      first fetch without data. */
  function Drained(log: seq<Data>, limit: nat, k: nat): seq<Data>
    decreases limit - k
  {
    if k >= limit then [] else
      match Read(log, k, FETCH_BYTES)
      case None => []
      case Some(d) => [d] + Drained(log, limit, k + 1)
  }

  ghost predicate Fetchable(log: seq<Data>, k: nat, limit: nat)
    requires limit <= |log|
  {
    forall i :: k <= i < limit ==> 1 <= |log[i]| <= FETCH_BYTES
  }

  /** Fetching yields exactly the messages k to limit - 1 if and only if each of
      them has between 1 and 65536 bytes. */
  lemma {:induction false} DrainedIff(log: seq<Data>, limit: nat, k: nat)
    requires k <= limit <= |log|
    ensures Drained(log, limit, k) == log[k..limit] <==> Fetchable(log, k, limit)
    decreases limit - k
  {
    if k < limit {
      FetchFaithful(log, k);
      DrainedIff(log, limit, k + 1);
      assert log[k..limit] == [log[k]] + log[k + 1..limit];
      var d := Drained(log, limit, k);
      if d == log[k..limit] {
        assert d[0] == log[k];
        assert d[1..] == Drained(log, limit, k + 1);
        assert log[k..limit][1..] == log[k + 1..limit];
      }
    }
  }

  /** Reads below a common prefix agree. */
  lemma ReadPrefix(a: seq<Data>, b: seq<Data>, k: nat, max: nat)
    requires a <= b && k < |a|
    ensures Read(a, k, max) == Read(b, k, max)
  {
    assert a[k] == b[k];
  }
}
