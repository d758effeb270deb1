/** A signed request is accepted once, although its nonce is forgotten after a while. */
module Replay {
  import opened Domain
  import opened Windows

  /** `gap` bounds the time between the clock reading of the signature check and that of the nonce check. */
  datatype Config = Config(tolerance: int, retention: int, gap: int)

  predicate Sensible(c: Config) {
    0 <= c.tolerance && 0 <= c.gap && c.tolerance * NANOS_PER_MS < MAX_INT64
  }

  /** A request that passed the signature check at `verified` and reaches the nonce check at `recorded`. */
  datatype Request = Request(client: string, timestamp: int, nonce: string, verified: int, recorded: int, limit: int)

  datatype History = History(requests: seq<Request>, gates: seq<Gate>)

  function Recorded(g: Gate, r: Request, c: Config): (Gate, Reply) {
    RecordRequest(g, r.client, r.nonce, r.recorded + c.retention, r.recorded, r.limit)
  }

  /** A number that the signature check reads from the header. */
  predicate IsTimestamp(timestamp: int) {
    0 < timestamp <= MAX_INT64
  }

  /** The clock of the nonce checks does not run backwards. */
  predicate Follows(h: History, n: nat, c: Config)
    requires n < |h.requests| && |h.gates| == |h.requests| + 1
  {
    var r := h.requests[n];
    && IsTimestamp(r.timestamp) && WithinTolerance(r.timestamp, r.verified, c.tolerance)
    && r.verified <= r.recorded <= r.verified + c.gap
    && (forall m :: 0 <= m < n ==> h.requests[m].recorded <= r.recorded)
    && h.gates[n + 1] == Recorded(h.gates[n], r, c).0
  }

  predicate Legal(h: History, c: Config) {
    && |h.gates| == |h.requests| + 1
    && forall n: nat :: n < |h.requests| ==> Follows(h, n, c)
  }

  predicate PassesNonceCheck(h: History, n: nat)
    requires n < |h.requests| < |h.gates|
  {
    var r := h.requests[n];
    NonceIsNew(h.gates[n].nonces, r.client, r.nonce, r.recorded)
  }

  predicate SameTriple(a: Request, b: Request) {
    a.client == b.client && a.timestamp == b.timestamp && a.nonce == b.nonce
  }

  predicate NonceHeld(g: Gate, r: Request, until: int) {
    NonceKey(r.client, r.nonce) in g.nonces && until <= g.nonces[NonceKey(r.client, r.nonce)]
  }

  /** While its retention lasts a recorded nonce stays in the table. */
  lemma {:induction false} NonceStays(h: History, i: nat, n: nat, c: Config)
    requires Legal(h, c) && i < n <= |h.requests|
    requires PassesNonceCheck(h, i)
    requires n < |h.requests| ==> h.requests[n].recorded <= h.requests[i].recorded + c.retention
    requires n == |h.requests| ==> h.requests[n - 1].recorded <= h.requests[i].recorded + c.retention
    ensures NonceHeld(h.gates[n], h.requests[i], h.requests[i].recorded + c.retention)
  {
    assert Follows(h, n - 1, c);
    if i + 1 < n {
      if n < |h.requests| {
        assert Follows(h, n, c);
      }
      NonceStays(h, i, n - 1, c);
    }
  }

  /** Both requests passed the nonce check, and carry the same (client, timestamp, nonce). */
  predicate PassesTwice(h: History, i: nat, j: nat)
    requires |h.requests| < |h.gates|
  {
    && i < j < |h.requests| && SameTriple(h.requests[i], h.requests[j])
    && PassesNonceCheck(h, i) && PassesNonceCheck(h, j)
  }

  /** No signature is checked before `start`. */
  predicate From(h: History, start: int) {
    forall n :: 0 <= n < |h.requests| ==> start <= h.requests[n].verified
  }

  predicate UsesTimestamp(h: History, i: nat, timestamp: int) {
    i < |h.requests| && h.requests[i].timestamp == timestamp
  }

  /** A run from `start` in which two requests with this timestamp are one replayed request, and both pass. */
  ghost predicate Replayable(c: Config, timestamp: int, start: int) {
    exists h: History, i: nat, j: nat :: Legal(h, c) && From(h, start) && UsesTimestamp(h, i, timestamp) && PassesTwice(h, i, j)
  }

  /** The nonce is collected between the earliest reading at which the timestamp is timely and the latest one. */
  predicate ForgottenInTime(c: Config, timestamp: int, start: int) {
    var at := RequestTime(timestamp);
    start <= at + c.tolerance && Max(start, at - c.tolerance) + c.retention < at + c.tolerance + c.gap
  }

  /** The condition for a replay: the timestamp is out of the range of a duration, or its nonce is forgotten in time. */
  predicate ReplayCondition(c: Config, timestamp: int, start: int) {
    FarAhead(timestamp, start) || ForgottenInTime(c, timestamp, start)
  }

  /** Two requests with one (client, timestamp, nonce) pass only if the retention has run out in between. */
  lemma SecondPassIsLate(h: History, i: nat, j: nat, c: Config)
    requires Legal(h, c) && PassesTwice(h, i, j)
    ensures h.requests[i].recorded + c.retention < h.requests[j].recorded
  {
    if h.requests[j].recorded <= h.requests[i].recorded + c.retention {
      NonceStays(h, i, j, c);
    }
  }

  lemma ReplayNeedsTheCondition(h: History, i: nat, j: nat, c: Config, start: int)
    requires Sensible(c) && Legal(h, c) && From(h, start) && PassesTwice(h, i, j)
    ensures ReplayCondition(c, h.requests[i].timestamp, start)
  {
    var a, b := h.requests[i], h.requests[j];
    assert Follows(h, i, c) && Follows(h, j, c);
    ToleranceExactly(a.timestamp, a.verified, c.tolerance);
    ToleranceExactly(b.timestamp, b.verified, c.tolerance);
    SecondPassIsLate(h, i, j, c);
  }

  /** One request used at two readings of the signature check, the second as late as the gap allows. */
  function TwoUses(c: Config, timestamp: int, first: int, second: int): History {
    var a := Request("c", timestamp, "nonce-01", first, first, 1);
    var b := Request("c", timestamp, "nonce-01", second, second + c.gap, 1);
    var g0 := Gate(map[], map[]);
    var g1 := Recorded(g0, a, c).0;
    History([a, b], [g0, g1, Recorded(g1, b, c).0])
  }

  lemma TwoUsesPass(c: Config, timestamp: int, first: int, second: int)
    requires Sensible(c) && IsTimestamp(timestamp) && first <= second && first + c.retention < second + c.gap
    requires WithinTolerance(timestamp, first, c.tolerance) && WithinTolerance(timestamp, second, c.tolerance)
    ensures var h := TwoUses(c, timestamp, first, second);
            Legal(h, c) && From(h, first) && UsesTimestamp(h, 0, timestamp) && PassesTwice(h, 0, 1)
  {
    var h := TwoUses(c, timestamp, first, second);
    assert PassesNonceCheck(h, 0);
    assert h.gates[1].nonces == map[NonceKey("c", "nonce-01") := first + c.retention];
    assert Follows(h, 0, c) && Follows(h, 1, c);
  }

  lemma ConditionAllowsReplay(c: Config, timestamp: int, start: int)
    requires Sensible(c) && IsTimestamp(timestamp) && c.retention * NANOS_PER_MS < MAX_INT64
    requires ReplayCondition(c, timestamp, start)
    ensures Replayable(c, timestamp, start)
  {
    var at := RequestTime(timestamp);
    var first := if FarAhead(timestamp, start) then start else Max(start, at - c.tolerance);
    var second := if FarAhead(timestamp, start) then at else at + c.tolerance;
    ToleranceExactly(timestamp, first, c.tolerance);
    ToleranceExactly(timestamp, second, c.tolerance);
    TwoUsesPass(c, timestamp, first, second);
  }

  /** A request with this timestamp can pass both checks twice from `start` on exactly under that condition. */
  lemma ReplayableExactly(c: Config, timestamp: int, start: int)
    requires Sensible(c) && IsTimestamp(timestamp) && c.retention * NANOS_PER_MS < MAX_INT64
    ensures Replayable(c, timestamp, start) <==> ReplayCondition(c, timestamp, start)
  {
    if Replayable(c, timestamp, start) {
      var h: History, i: nat, j: nat :|
        Legal(h, c) && From(h, start) && UsesTimestamp(h, i, timestamp) && PassesTwice(h, i, j);
      ReplayNeedsTheCondition(h, i, j, c, start);
    }
    if ReplayCondition(c, timestamp, start) {
      ConditionAllowsReplay(c, timestamp, start);
    }
  }

  /** With enough retention, exactly the timestamps beyond the range of a duration, seen from `start`, can be replayed. */
  lemma OnlyFarAheadIsReplayable(c: Config, timestamp: int, start: int)
    requires Sensible(c) && IsTimestamp(timestamp) && c.retention * NANOS_PER_MS < MAX_INT64
    requires 2 * c.tolerance + c.gap <= c.retention
    ensures Replayable(c, timestamp, start) <==> FarAhead(timestamp, start)
  {
    ReplayableExactly(c, timestamp, start);
  }

  /** With enough retention, a (client, timestamp, nonce) that is not far ahead when the run starts passes both checks at most
      once in a run of any length. */
  lemma AcceptedAtMostOnce(h: History, i: nat, j: nat, c: Config, start: int)
    requires Sensible(c) && Legal(h, c) && From(h, start) && 2 * c.tolerance + c.gap <= c.retention
    requires i < j < |h.requests| && SameTriple(h.requests[i], h.requests[j])
    requires !FarAhead(h.requests[i].timestamp, start)
    requires PassesNonceCheck(h, i)
    ensures !PassesNonceCheck(h, j)
  {
    if PassesNonceCheck(h, j) {
      ReplayNeedsTheCondition(h, i, j, c, start);
    }
  }

  /** No timestamp within the range of a duration of the run's start can be replayed. */
  ghost predicate ExcludesReplays(c: Config) {
    forall timestamp: int, start: int ::
      IsTimestamp(timestamp) && !FarAhead(timestamp, start) ==> !Replayable(c, timestamp, start)
  }

  /** The retention that excludes these replays is exactly twice the tolerance plus the gap between the two clock readings. */
  lemma ReplayExclusionExactly(c: Config)
    requires Sensible(c) && c.retention * NANOS_PER_MS < MAX_INT64
    ensures ExcludesReplays(c) <==> 2 * c.tolerance + c.gap <= c.retention
  {
    if 2 * c.tolerance + c.gap <= c.retention {
      forall timestamp: int, start: int | IsTimestamp(timestamp) && !FarAhead(timestamp, start)
        ensures !Replayable(c, timestamp, start)
      {
        OnlyFarAheadIsReplayable(c, timestamp, start);
      }
    } else {
      var timestamp, start := 1_000_000, 1_000_000_000 - c.tolerance;
      assert RequestTime(timestamp) == 1_000_000_000;
      ReplayableExactly(c, timestamp, start);
      assert !FarAhead(timestamp, start);
    }
  }

  /** The shipped configuration excludes them exactly when both checks read the same millisecond. */
  lemma ShippedConfiguration(gap: int)
    requires 0 <= gap
    ensures ExcludesReplays(Config(300_000, 600_000, gap)) <==> gap == 0
  {
    ReplayExclusionExactly(Config(300_000, 600_000, gap));
  }

  /** While the largest timestamp of the clock's range is far ahead, no retention excludes every replay. */
  lemma NoRetentionExcludesAll(c: Config, start: int)
    requires Sensible(c) && c.retention * NANOS_PER_MS < MAX_INT64
    ensures (exists timestamp :: IsTimestamp(timestamp) && FarAhead(timestamp, start)) <==>
            FarAhead(MAX_INT64 - EPOCH_OFFSET, start)
    ensures FarAhead(MAX_INT64 - EPOCH_OFFSET, start) ==> exists timestamp :: IsTimestamp(timestamp) && Replayable(c, timestamp, start)
  {
    if FarAhead(MAX_INT64 - EPOCH_OFFSET, start) {
      ReplayableExactly(c, MAX_INT64 - EPOCH_OFFSET, start);
      assert IsTimestamp(MAX_INT64 - EPOCH_OFFSET);
    }
  }
}
