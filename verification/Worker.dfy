/** The delivery worker: one delivery at a time, in a loop that also cleans up once an hour. */
module Worker {
  import opened Domain
  import opened Queue
  import opened WorkerRuns
  import opened Database
  import opened Store
  import Subscriptions
  import OAuth

  /** What the senders answer for a claimed delivery; any function is allowed. */
  type Senders = (DeliveryId, Delivery) -> Answer

  const HOUR: int := OAuth.HOUR

  class Worker {
    const store: Store
    const settings: Settings
    const retention: int
    const pollInterval: int

    /** Unusable settings are replaced by the defaults. */
    constructor (store: Store, lease: int, delays: seq<int>, maxAttempts: int, retention: int, pollInterval: int)
      ensures Sane(settings)
      ensures this.store == store
      ensures settings.lease == if lease <= 0 then 30_000 else lease
      ensures settings.delays == if delays == [] then [1_000, 5_000, 30_000, 120_000, 600_000] else delays
      ensures settings.maxAttempts == if maxAttempts <= 0 then 6 else maxAttempts
      ensures this.pollInterval == if pollInterval <= 0 then 500 else pollInterval
      ensures this.retention == if retention <= 0 then 2_592_000_000 else retention
    {
      this.store := store;
      this.settings := Settings(
        if lease <= 0 then DefaultSettings.lease else lease,
        if delays == [] then DefaultSettings.delays else delays,
        if maxAttempts <= 0 then DefaultSettings.maxAttempts else maxAttempts);
      this.retention := if retention <= 0 then 30 * 24 * HOUR else retention;
      this.pollInterval := if pollInterval <= 0 then 500 else pollInterval;
    }

    /** Claims the next due delivery, sends it and reports the outcome. */
    method ProcessOne(now: int, senders: Senders) returns (claim: ClaimReply)
      requires Sane(settings)
      modifies store`queue
      ensures claim.NothingDue? ==> store.queue == old(store.queue)
      ensures claim.NothingDue? <==> forall id :: id in old(store.queue) ==> !Due(old(store.queue)[id], now)
      ensures claim.ClaimOf? ==>
                && IsNext(old(store.queue), claim.id, now)
                && claim.row == Claimed(old(store.queue)[claim.id], now, settings.lease)
                && store.queue == WorkerRuns.Handle(old(store.queue), settings, claim.id, now, senders(claim.id, claim.row), map[])
    {
      claim := store.ClaimDelivery(now, settings.lease);
      if claim.NothingDue? {
        return;
      }
      var id, attempts := claim.id, claim.row.attempts;
      HandledByReport(old(store.queue), store.queue, settings, id, now, senders(id, claim.row));
      Complete(id, attempts, now, senders(id, claim.row));
    }

    /** Reports the sender's answer: sent, dead, or to be retried after the delay of this attempt. */
    method Complete(id: DeliveryId, attempts: nat, now: int, answer: Answer)
      requires Sane(settings) && 0 < attempts
      modifies store`queue
      ensures store.queue == Queue.Apply(old(store.queue), Report(settings, id, attempts, now, answer), settings.lease)
    {
      match answer
      case Unavailable =>
        var ok := store.CompleteFailure(id, attempts, now, "channel is unavailable", 0, true);
      case Delivered(code) =>
        var ok := store.CompleteSuccess(id, code, now);
      case Rejected(code, retryable, message) =>
        var dead := !retryable || settings.maxAttempts <= attempts;
        var next := now;
        if !dead {
          var index := attempts - 1;
          if |settings.delays| <= index {
            index := |settings.delays| - 1;
          }
          next := now + settings.delays[index];
        }
        var ok := store.CompleteFailure(id, attempts, next, "delivery failed: " + message, code, dead);
    }

    /** The database after a clean-up: old events without unfinished deliveries are gone, and dead subscriptions. */
    ghost function CleanedUp(db: Db, now: int): Db {
      PruneEvents(db, now - retention).(rows := Subscriptions.PruneRows(db.rows, db.oauth.grants, now))
    }

    /** The retention pass as a step: it clears finished deliveries of old events. */
    method CleanUp(now: int) returns (ghost gone: set<DeliveryId>)
      modifies store`events, store`queue, store`generations, store`rows
      ensures store.Contents() == CleanedUp(old(store.Contents()), now)
      ensures store.queue == old(store.queue) - gone
      ensures forall id :: id in gone && id in old(store.queue) ==> !Unfinished(old(store.queue)[id])
    {
      ghost var before := store.Contents();
      var deleted := store.Prune(now - retention);
      gone := set id | id in before.queue && before.queue[id].record in Prunable(before, now - retention);
      forall id | id in gone
        ensures !Unfinished(before.queue[id])
      {
        var r :| r in before.book.events && !HasUnfinished(before.queue, r.id) && r.id == before.queue[id].record;
      }
      store.PruneEventSubscriptions(now);
    }

    /** The worker takes the due delivery `id` and ends it by its sender's answer. */
    ghost predicate Delivers(db: Db, db': Db, now: int, senders: Senders, id: DeliveryId)
      requires Sane(settings)
    {
      && IsNext(db.queue, id, now)
      && db' == db.(queue := WorkerRuns.Handle(db.queue, settings, id, now,
                                               senders(id, Claimed(db.queue[id], now, settings.lease)), map[]))
    }

    /** What the loop does at one clock reading: the clean-up when it is its turn, then one due delivery if there is any. */
    ghost predicate Turn(db: Db, db': Db, now: int, cleans: bool, senders: Senders)
      requires Sane(settings)
    {
      var kept := if cleans then CleanedUp(db, now) else db;
      if forall id :: id in kept.queue ==> !Due(kept.queue[id], now) then db' == kept
      else exists id :: Delivers(kept, db', now, senders, id)
    }

    /** Every reading has its turn, from the first database to the last. */
    ghost predicate TakesTurns(dbs: seq<Db>, clock: seq<int>, cleans: seq<bool>, senders: Senders)
      requires Sane(settings)
    {
      && |dbs| == |clock| + 1 && |cleans| == |clock|
      && forall k: nat :: k < |clock| ==> Turn(dbs[k], dbs[k + 1], clock[k], cleans[k], senders)
    }

    lemma OneMoreTurn(dbs: seq<Db>, clock: seq<int>, cleans: seq<bool>, senders: Senders, db': Db, now: int, turn: bool)
      requires Sane(settings) && TakesTurns(dbs, clock, cleans, senders)
      requires Turn(Last(dbs), db', now, turn, senders)
      ensures TakesTurns(dbs + [db'], clock + [now], cleans + [turn], senders)
    {
      var more, readings, turns := dbs + [db'], clock + [now], cleans + [turn];
      forall k: nat | k < |readings|
        ensures Turn(more[k], more[k + 1], readings[k], turns[k], senders)
      {
        if k < |clock| {
          assert Turn(dbs[k], dbs[k + 1], clock[k], cleans[k], senders);
          assert more[k] == dbs[k] && more[k + 1] == dbs[k + 1];
        } else {
          assert more[k] == Last(dbs) && more[k + 1] == db';
        }
      }
    }

    /** One turn of the loop, with the steps it adds to the run of the delivery table. */
    method TakeTurn(now: int, cleans: bool, senders: Senders, ghost h: WorkerRun) returns (ghost h': WorkerRun)
      requires Sane(settings) && Connected(h, settings) && Last(h.tables) == store.queue
      modifies store`events, store`queue, store`generations, store`rows
      ensures Turn(old(store.Contents()), store.Contents(), now, cleans, senders)
      ensures Connected(h', settings) && h'.tables[0] == h.tables[0] && Last(h'.tables) == store.queue
      ensures forall clock: seq<int> :: now in clock && StepsAt(h, clock) ==> StepsAt(h', clock)
    {
      h' := h;
      if cleans {
        var gone := CleanUp(now);
        h' := Extended(h', Clear(gone), store.queue);
        OneMoreStep(h, Clear(gone), store.queue, settings);
      }
      ghost var kept := store.Contents();
      var claim := ProcessOne(now, senders);
      if claim.ClaimOf? {
        ghost var step := Work(claim.id, now, senders(claim.id, claim.row), map[]);
        assert Delivers(kept, store.Contents(), now, senders, claim.id);
        OneMoreStep(h', step, store.queue, settings);
        h' := Extended(h', step, store.queue);
      }
    }

    /** The worker loop over the clock readings it makes until it is stopped, from any table: at each reading it has its turn,
        and the clean-up comes at the first and then whenever an hour has passed. Its effect on the delivery table is a
        connected run, and a legal one unless a crashed worker left something in processing. */
    method Run(clock: seq<int>, senders: Senders)
      returns (ghost dbs: seq<Db>, ghost cleans: seq<bool>, ghost h: WorkerRun)
      requires Sane(settings)
      modifies store`events, store`queue, store`generations, store`rows
      ensures TakesTurns(dbs, clock, cleans, senders) && Hourly(clock, cleans)
      ensures dbs[0] == old(store.Contents()) && Last(dbs) == store.Contents()
      ensures Connected(h, settings)
      ensures AtRest(old(store.queue), settings) ==> Legal(h, settings)
      ensures h.tables[0] == old(store.queue) && Last(h.tables) == store.queue
      ensures StepsAt(h, clock)
    {
      dbs, cleans, h := [store.Contents()], [], WorkerRun([], [store.queue]);
      var cleaned := false;
      var nextCleanup := 0;
      for i := 0 to |clock|
        invariant TakesTurns(dbs, clock[..i], cleans, senders) && Hourly(clock[..i], cleans)
        invariant cleaned <==> i > 0
        invariant cleaned ==> NextCleanup(clock[..i], cleans, nextCleanup)
        invariant dbs[0] == old(store.Contents()) && Last(dbs) == store.Contents()
        invariant Connected(h, settings)
        invariant h.tables[0] == old(store.queue) && Last(h.tables) == store.queue
        invariant StepsAt(h, clock)
      {
        var now := clock[i];
        var turn := !cleaned || nextCleanup <= now;
        h := TakeTurn(now, turn, senders, h);
        OneMoreReading(clock[..i], cleans, now, turn, nextCleanup);
        OneMoreTurn(dbs, clock[..i], cleans, senders, store.Contents(), now, turn);
        assert clock[..i + 1] == clock[..i] + [now];
        if turn {
          cleaned, nextCleanup := true, now + HOUR;
        }
        dbs, cleans := dbs + [store.Contents()], cleans + [turn];
      }
      assert clock[..|clock|] == clock;
    }
  }

  /** The steps are clean-ups and deliveries at these readings. */
  predicate StepsAt(h: WorkerRun, clock: seq<int>) {
    forall n :: 0 <= n < |h.steps| ==> !h.steps[n].Arrive? && (h.steps[n].Work? ==> h.steps[n].now in clock)
  }

  /** The last clean-up before reading `k` was at reading `j`. */
  predicate LastCleanup(cleans: seq<bool>, j: int, k: int) {
    0 <= j < k <= |cleans| && cleans[j] && forall i :: j < i < k ==> !cleans[i]
  }

  /** A clean-up comes at the first reading, and then at each one an hour or more after the last clean-up. */
  predicate Hourly(clock: seq<int>, cleans: seq<bool>) {
    && |cleans| == |clock|
    && (clock != [] ==> cleans[0])
    && forall k, j :: 0 <= j < k < |clock| && LastCleanup(cleans, j, k) ==> (cleans[k] <==> clock[j] + 3_600_000 <= clock[k])
  }

  /** The clean-up after these readings is due at `next`. */
  ghost predicate NextCleanup(clock: seq<int>, cleans: seq<bool>, next: int) {
    |cleans| == |clock| && exists j :: LastCleanup(cleans, j, |clock|) && next == clock[j] + HOUR
  }

  lemma OneMoreReading(clock: seq<int>, cleans: seq<bool>, now: int, turn: bool, next: int)
    requires Hourly(clock, cleans)
    requires clock == [] ==> turn
    requires clock != [] ==> NextCleanup(clock, cleans, next) && (turn <==> next <= now)
    ensures Hourly(clock + [now], cleans + [turn])
    ensures NextCleanup(clock + [now], cleans + [turn], if turn then now + HOUR else next)
  {
    var readings, more := clock + [now], cleans + [turn];
    forall k, j | 0 <= j < k < |readings| && LastCleanup(more, j, k)
      ensures more[k] <==> readings[j] + HOUR <= readings[k]
    {
      forall i | j < i < k
        ensures !cleans[i]
      {
        assert more[i] == cleans[i];
      }
      assert LastCleanup(cleans, j, k);
      if k == |clock| {
        var i :| LastCleanup(cleans, i, |clock|) && next == clock[i] + HOUR;
        assert i == j;
      }
    }
    if turn {
      assert LastCleanup(more, |clock|, |readings|);
    } else {
      var i :| LastCleanup(cleans, i, |clock|) && next == clock[i] + HOUR;
      assert LastCleanup(more, i, |readings|);
    }
  }

  /** Without arrivals in between, handling a delivery is its claim and its report. */
  lemma HandledByReport(q: Table, claimed: Table, s: Settings, id: DeliveryId, now: int, answer: Answer)
    requires Sane(s) && id in q && claimed == Queue.Apply(q, Act.Claim(id, now), s.lease)
    ensures WorkerRuns.Handle(q, s, id, now, answer, map[])
            == Queue.Apply(claimed, Report(s, id, claimed[id].attempts, now, answer), s.lease)
  {
    assert claimed + map[] == claimed;
  }

  function Extended(h: WorkerRun, c: WorkerStep, q': Table): (longer: WorkerRun)
    ensures longer.tables != [] && (h.tables != [] ==> longer.tables[0] == h.tables[0])
    ensures Last(longer.tables) == q'
    ensures !c.Arrive? ==> forall clock: seq<int> :: StepsAt(h, clock) && (c.Work? ==> c.now in clock) ==> StepsAt(longer, clock)
  {
    WorkerRun(h.steps + [c], h.tables + [q'])
  }

  /** A run goes on with any step that the last table allows. */
  lemma OneMoreStep(h: WorkerRun, c: WorkerStep, q': Table, s: Settings)
    requires Connected(h, s) && Arrivals(c) == map[]
    requires var q := Last(h.tables);
             && (c.Work? ==> IsNext(q, c.id, c.now))
             && (c.Clear? ==> forall id :: id in c.gone && id in q ==> !Unfinished(q[id]))
             && q' == WorkerRuns.Perform(q, c, s)
    ensures Connected(Extended(h, c, q'), s)
  {
    var longer := Extended(h, c, q');
    forall n: nat | n < |longer.steps|
      ensures Follows(longer, n, s)
    {
      if n < |h.steps| {
        assert Follows(h, n, s);
        assert longer.tables[..n + 1] == h.tables[..n + 1];
        assert longer.tables[n + 1] == h.tables[n + 1];
      }
    }
  }
}
