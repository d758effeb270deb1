/** One crash-free worker: what handling a delivery does to the table, and what every run of it keeps. */
module WorkerRuns {
  import opened Domain
  import opened Queue

  datatype Settings = Settings(lease: int, delays: seq<int>, maxAttempts: int)

  /** The worker constructor replaces settings that fail this by defaults. */
  predicate Sane(s: Settings) {
    0 < s.lease && s.delays != [] && 0 < s.maxAttempts
  }

  const DefaultSettings: Settings := Settings(30000, [1000, 5000, 30000, 120000, 600000], 6)

  /** What the adversary called a sender may answer: no sender at all, success, or a failure. */
  datatype Answer = Unavailable | Delivered(code: int) | Rejected(code: int, retryable: bool, message: string)

  /** The delay after the given number of attempts; the last delay repeats. */
  function DelayAfter(s: Settings, attempts: nat): (delay: int)
    requires s.delays != [] && 0 < attempts
    ensures delay in s.delays
    ensures attempts <= |s.delays| ==> delay == s.delays[attempts - 1]
    ensures |s.delays| <= attempts ==> delay == Last(s.delays)
  {
    var index := attempts - 1;
    if |s.delays| <= index then s.delays[|s.delays| - 1] else s.delays[index]
  }

  predicate GivesUp(s: Settings, attempts: nat, answer: Answer) {
    answer.Unavailable? || (answer.Rejected? && (!answer.retryable || s.maxAttempts <= attempts))
  }

  /** The report that ends a claim. */
  function Report(s: Settings, id: DeliveryId, attempts: nat, now: int, answer: Answer): Act
    requires s.delays != [] && 0 < attempts
  {
    match answer
    case Unavailable => ReportFailure(id, attempts, now, "channel is unavailable", 0, true)
    case Delivered(code) => ReportSuccess(id, code, now)
    case Rejected(code, retryable, message) =>
      var dead := !retryable || s.maxAttempts <= attempts;
      ReportFailure(id, attempts, if dead then now else now + DelayAfter(s, attempts),
                    "delivery failed: " + message, code, dead)
  }

  /** Claim, send, report; events accepted while the sender runs are in `meanwhile`. */
  function Handle(q: Table, s: Settings, id: DeliveryId, now: int, answer: Answer, meanwhile: Table): Table
    requires s.delays != [] && id in q
  {
    var claimed := Apply(q, Claim(id, now), s.lease);
    Apply(claimed + meanwhile, Report(s, id, claimed[id].attempts, now, answer), s.lease)
  }

  datatype WorkerStep =
    | Work(id: DeliveryId, now: int, answer: Answer, meanwhile: Table)
    | Arrive(arrivals: Table)
    | Clear(gone: set<DeliveryId>)

  function Perform(q: Table, c: WorkerStep, s: Settings): Table
    requires s.delays != []
    requires c.Work? ==> c.id in q
  {
    match c
    case Work(id, now, answer, meanwhile) => Handle(q, s, id, now, answer, meanwhile)
    case Arrive(arrivals) => q + arrivals
    case Clear(gone) => q - gone
  }

  datatype WorkerRun = WorkerRun(steps: seq<WorkerStep>, tables: seq<Table>)

  function Arrivals(c: WorkerStep): Table {
    match c
    case Work(_, _, _, meanwhile) => meanwhile
    case Arrive(arrivals) => arrivals
    case Clear(_) => map[]
  }

  predicate NewRows(tables: seq<Table>, arrivals: Table) {
    && (forall id :: id in arrivals ==> IsNew(arrivals[id]))
    && (forall m, id :: 0 <= m < |tables| && id in arrivals ==> id !in tables[m])
  }

  predicate Follows(h: WorkerRun, n: nat, s: Settings)
    requires n < |h.steps| && |h.tables| == |h.steps| + 1 && s.delays != []
  {
    var q, c := h.tables[n], h.steps[n];
    && (c.Work? ==> IsNext(q, c.id, c.now))
    && (c.Clear? ==> forall id :: id in c.gone && id in q ==> !Unfinished(q[id]))
    && NewRows(h.tables[..n + 1], Arrivals(c))
    && h.tables[n + 1] == Perform(q, c, s)
  }

  /** Between steps nothing is being processed, and only deliveries that may still be tried are unfinished. */
  predicate AtRest(q: Table, s: Settings) {
    forall id :: id in q ==>
      && !q[id].phase.Processing?
      && (q[id].phase.Pending? ==> q[id].attempts == 0)
      && (q[id].phase.Retrying? ==> 0 < q[id].attempts < s.maxAttempts)
  }

  /** Every step follows from the table before it. */
  predicate Connected(h: WorkerRun, s: Settings) {
    && Sane(s)
    && |h.tables| == |h.steps| + 1
    && forall n: nat :: n < |h.steps| ==> Follows(h, n, s)
  }

  /** A run that does not start with deliveries a crashed worker left in processing. */
  predicate Legal(h: WorkerRun, s: Settings) {
    Connected(h, s) && AtRest(h.tables[0], s)
  }

  /** The row of a handled delivery, in terms of the answer alone. */
  lemma HandledRow(q: Table, s: Settings, id: DeliveryId, now: int, answer: Answer, meanwhile: Table)
    requires Sane(s) && IsNext(q, id, now)
    requires meanwhile.Keys !! q.Keys
    ensures var q', d := Handle(q, s, id, now, answer, meanwhile), q[id];
            && q'.Keys == q.Keys + meanwhile.Keys
            && (forall o :: o in q && o != id ==> q'[o] == q[o])
            && (forall o :: o in meanwhile ==> q'[o] == meanwhile[o])
            && q'[id].attempts == d.attempts + 1
            && q'[id].record == d.record && q'[id].channel == d.channel && q'[id].lease.None?
            && (answer.Delivered? <==> q'[id].phase.Sent?)
            && (answer.Delivered? ==> q'[id].code == answer.code && q'[id].error == "" && q'[id].sentAt == Some(now))
            && (answer.Unavailable? ==> q'[id].code == 0 && q'[id].error == "channel is unavailable")
            && (answer.Rejected? ==> q'[id].code == answer.code && q'[id].error == Clip("delivery failed: " + answer.message))
            && (GivesUp(s, d.attempts + 1, answer) <==> q'[id].phase.Dead?)
            && (!answer.Delivered? && !GivesUp(s, d.attempts + 1, answer) ==>
                  q'[id].phase.Retrying? && q'[id].next == now + DelayAfter(s, d.attempts + 1))
  {
  }

  lemma ArrivalsAreForeign(h: WorkerRun, n: nat, s: Settings, seen: nat, id: DeliveryId)
    requires Legal(h, s) && seen <= n < |h.steps| && id in h.tables[seen]
    ensures id !in Arrivals(h.steps[n])
  {
    assert Follows(h, n, s);
    assert h.tables[..n + 1][seen] == h.tables[seen];
  }

  lemma MeanwhileIsForeign(h: WorkerRun, n: nat, s: Settings)
    requires Legal(h, s) && n < |h.steps|
    ensures Arrivals(h.steps[n]).Keys !! h.tables[n].Keys
  {
    forall id | id in h.tables[n]
      ensures id !in Arrivals(h.steps[n])
    {
      ArrivalsAreForeign(h, n, s, n, id);
    }
  }

  lemma {:induction false} StaysAtRest(h: WorkerRun, n: nat, s: Settings)
    requires Legal(h, s) && n <= |h.steps|
    ensures AtRest(h.tables[n], s)
  {
    if n > 0 {
      StaysAtRest(h, n - 1, s);
      assert Follows(h, n - 1, s);
      MeanwhileIsForeign(h, n - 1, s);
      StepEndsAtRest(h.tables[n - 1], h.steps[n - 1], s);
    }
  }

  lemma StepEndsAtRest(q: Table, c: WorkerStep, s: Settings)
    requires Sane(s) && AtRest(q, s) && (c.Work? ==> IsNext(q, c.id, c.now))
    requires Arrivals(c).Keys !! q.Keys && forall id :: id in Arrivals(c) ==> IsNew(Arrivals(c)[id])
    ensures AtRest(Perform(q, c, s), s)
  {
    if c.Work? {
      HandledRow(q, s, c.id, c.now, c.answer, c.meanwhile);
    }
  }

  predicate WorksOn(c: WorkerStep, id: DeliveryId) {
    c.Work? && c.id == id
  }

  /** How a step moves a row that was enqueued before it. */
  predicate RowMoves(q: Table, q': Table, c: WorkerStep, s: Settings, id: DeliveryId)
    requires s.delays != []
  {
    && (id in q' ==> id in q)
    && (id in q && Unfinished(q[id]) ==> id in q')
    && (id in q && id in q' && !WorksOn(c, id) ==> q'[id] == q[id])
    && (WorksOn(c, id) ==>
          && id in q && id in q'
          && Unfinished(q[id]) && q[id].next <= c.now
          && q'[id].attempts == q[id].attempts + 1
          && (c.answer.Delivered? <==> q'[id].phase.Sent?)
          && (GivesUp(s, q[id].attempts + 1, c.answer) <==> q'[id].phase.Dead?)
          && (!c.answer.Delivered? && !GivesUp(s, q[id].attempts + 1, c.answer) ==>
                q'[id].phase.Retrying? && q'[id].next == c.now + DelayAfter(s, q[id].attempts + 1)))
  }

  lemma RowStep(h: WorkerRun, n: nat, s: Settings, id: DeliveryId, seen: nat)
    requires Legal(h, s) && seen <= n < |h.steps| && id in h.tables[seen]
    ensures RowMoves(h.tables[n], h.tables[n + 1], h.steps[n], s, id)
  {
    var q, c := h.tables[n], h.steps[n];
    assert Follows(h, n, s);
    ArrivalsAreForeign(h, n, s, seen, id);
    MeanwhileIsForeign(h, n, s);
    StaysAtRest(h, n, s);
    if c.Work? {
      HandledRow(q, s, c.id, c.now, c.answer, c.meanwhile);
    }
  }
}
