/** The decision `AcceptEvent` takes for one event, and the event and incident tables it leaves. */
module Intake {
  import opened Domain

  datatype Outcome = Queued | Suppressed

  datatype Reason = NoReason | StaleEvent | InDedupeWindow | OrphanResolved | Requested(text: string)

  /** A row of the events table. `startedAt` is the incident_started_at column. */
  datatype Record = Record(
    id: nat,
    client: string,
    event: Event,
    outcome: Outcome,
    startedAt: Option<int>,
    createdAt: int)

  datatype IncidentState = IsFiring | IsResolved

  /** A row of the incidents table. */
  datatype Incident = Incident(state: IncidentState, firstFiredAt: int, lastSeenAt: int, lastNotifiedAt: int)

  datatype Params = Params(
    client: string,
    event: Event,
    targets: seq<string>,
    now: int,
    window: int,
    suppress: string)

  /** The two tables; events are kept in arrival order. */
  datatype Book = Book(events: seq<Record>, incidents: map<Key, Incident>)

  const EmptyBook: Book := Book([], map[])

  datatype Verdict = Verdict(outcome: Outcome, reason: Reason, startedAt: Option<int>, row: Option<Incident>)

  predicate OfKey(r: Record, k: Key) {
    KeyOf(r.client, r.event) == k
  }

  /** The rows that decide whether an incoming event is out of date. */
  predicate Counted(r: Record, k: Key) {
    OfKey(r, k) && (r.event.status.Firing? || (r.event.status.Resolved? && r.startedAt.Some?))
  }

  /** The rows whose severity an escalation must exceed. */
  predicate Heard(r: Record, k: Key, since: int) {
    OfKey(r, k) && r.event.status.Firing? && r.outcome.Queued? && since <= r.createdAt
  }

  /** MAX(occurred_at) over the counted rows. */
  function Latest(events: seq<Record>, k: Key): (m: Option<int>)
    ensures m.None? ==> forall r :: r in events ==> !Counted(r, k)
    ensures m.Some? ==> exists r :: r in events && Counted(r, k) && r.event.occurredAt == m.value
    ensures m.Some? ==> forall r :: r in events && Counted(r, k) ==> r.event.occurredAt <= m.value
  {
    if events == [] then None
    else
      var m, r := Latest(Init(events), k), Last(events);
      assert events == Init(events) + [r];
      if !Counted(r, k) then m
      else if m.Some? && r.event.occurredAt <= m.value then m
      else Some(r.event.occurredAt)
  }

  /** The greatest severity rank among the rows heard since `since`, 0 when there are none. */
  function Loudest(events: seq<Record>, k: Key, since: int): (m: nat)
    ensures m == 0 ==> forall r :: r in events ==> !Heard(r, k, since)
    ensures m > 0 ==> exists r :: r in events && Heard(r, k, since) && Rank(r.event.severity) == m
    ensures forall r :: r in events && Heard(r, k, since) ==> Rank(r.event.severity) <= m
  {
    if events == [] then 0
    else
      var m, r := Loudest(Init(events), k, since), Last(events);
      assert events == Init(events) + [r];
      if Heard(r, k, since) && m < Rank(r.event.severity) then Rank(r.event.severity) else m
  }

  function Lookup(incidents: map<Key, Incident>, k: Key): Option<Incident> {
    if k in incidents then Some(incidents[k]) else None
  }

  predicate FiringRow(row: Option<Incident>) {
    row.Some? && row.value.state.IsFiring?
  }

  predicate Stale(events: seq<Record>, k: Key, occurredAt: int) {
    var latest := Latest(events, k);
    latest.Some? && occurredAt < latest.value
  }

  /** A repeat that does not escalate and comes too soon after the last notification. */
  predicate Repeats(events: seq<Record>, i: Incident, k: Key, p: Params) {
    && Rank(p.event.severity) <= Loudest(events, k, i.firstFiredAt)
    && p.now - i.lastNotifiedAt < p.window
  }

  function DecideFiring(events: seq<Record>, row: Option<Incident>, p: Params): Verdict {
    var k := KeyOf(p.client, p.event);
    if !FiringRow(row) then
      Verdict(Queued, NoReason, None, Some(Incident(IsFiring, p.now, p.now, p.now)))
    else if Repeats(events, row.value, k, p) then
      Verdict(Suppressed, InDedupeWindow, None, Some(row.value.(lastSeenAt := p.now)))
    else
      Verdict(Queued, NoReason, None, Some(row.value.(lastSeenAt := p.now, lastNotifiedAt := p.now)))
  }

  function DecideResolved(row: Option<Incident>, p: Params): Verdict {
    if !FiringRow(row) then
      Verdict(Suppressed, OrphanResolved, None, row)
    else
      Verdict(Queued, NoReason, Some(row.value.firstFiredAt),
              Some(row.value.(state := IsResolved, lastSeenAt := p.now, lastNotifiedAt := p.now)))
  }

  /** The lifecycle decision, before any silence is applied. */
  function Classify(events: seq<Record>, row: Option<Incident>, p: Params): Verdict {
    if !p.event.status.Firing? && !p.event.status.Resolved? then
      Verdict(Queued, NoReason, None, row)
    else if Stale(events, KeyOf(p.client, p.event), p.event.occurredAt) then
      Verdict(Suppressed, StaleEvent, None, row)
    else if p.event.status.Firing? then
      DecideFiring(events, row, p)
    else
      DecideResolved(row, p)
  }

  /** A silence only turns a queued outcome into a suppressed one; the incident row keeps the lifecycle decision. */
  function Decide(events: seq<Record>, row: Option<Incident>, p: Params): Verdict {
    var v := Classify(events, row, p);
    if p.suppress != "" && v.outcome.Queued? then
      v.(outcome := Suppressed, reason := Requested(p.suppress))
    else v
  }

  predicate SameEvent(r: Record, client: string, eventId: string) {
    r.client == client && r.event.eventId == eventId
  }

  /** UNIQUE(client_id, event_id): the event was accepted before and is still retained. */
  predicate Known(events: seq<Record>, client: string, eventId: string) {
    exists r :: r in events && SameEvent(r, client, eventId)
  }

  /** Record ids are a primary key. */
  predicate DistinctRecords(es: seq<Record>) {
    forall i, j :: 0 <= i < j < |es| ==> es[i].id != es[j].id
  }

  function RecordOf(p: Params, id: nat, v: Verdict): Record {
    Record(id, p.client, p.event, v.outcome, v.startedAt, p.now)
  }

  function VerdictFor(b: Book, p: Params): Verdict {
    Decide(b.events, Lookup(b.incidents, KeyOf(p.client, p.event)), p)
  }

  function Accept(b: Book, p: Params, id: nat): Book {
    if Known(b.events, p.client, p.event.eventId) then b
    else
      var v := VerdictFor(b, p);
      var k := KeyOf(p.client, p.event);
      Book(b.events + [RecordOf(p, id, v)],
           if v.row.Some? then b.incidents[k := v.row.value] else b.incidents)
  }

  /** Deleting rows keeps the order of the others. */
  function Without(events: seq<Record>, gone: set<nat>): (kept: seq<Record>)
    ensures forall r :: r in kept <==> r in events && r.id !in gone
  {
    if events == [] then []
    else
      assert events == Init(events) + [Last(events)];
      if Last(events).id in gone then Without(Init(events), gone)
      else Without(Init(events), gone) + [Last(events)]
  }

  lemma {:induction false} PurgingNothing(es: seq<Record>)
    ensures Without(es, {}) == es
  {
    if es != [] {
      PurgingNothing(Init(es));
      assert es == Init(es) + [Last(es)];
    }
  }

  function Prune(b: Book, gone: set<nat>): Book {
    b.(events := Without(b.events, gone))
  }

  /** One step of the two tables: an event is offered, or retention deletes some rows. */
  datatype Step = Offer(p: Params, id: nat) | Purge(gone: set<nat>)

  function Apply(b: Book, s: Step): Book {
    match s
    case Offer(p, id) => Accept(b, p, id)
    case Purge(gone) => Prune(b, gone)
  }

  function Run(steps: seq<Step>): Book {
    if steps == [] then EmptyBook else Apply(Run(Init(steps)), Last(steps))
  }

  predicate Within(sub: seq<Record>, full: seq<Record>) {
    forall r :: r in sub ==> r in full
  }

  /** Forgetting history can only make an event look newer and earlier alerts quieter. */
  lemma PrunedHistoryNeverSwallows(sub: seq<Record>, full: seq<Record>, incidents: map<Key, Incident>, p: Params)
    requires Within(sub, full)
    requires !Known(full, p.client, p.event.eventId)
    requires VerdictFor(Book(full, incidents), p).outcome.Queued?
    ensures !Known(sub, p.client, p.event.eventId)
    ensures VerdictFor(Book(sub, incidents), p).outcome.Queued?
  {
    var k := KeyOf(p.client, p.event);
    var row := Lookup(incidents, k);
    assert !Stale(sub, k, p.event.occurredAt) || Stale(full, k, p.event.occurredAt);
    if FiringRow(row) {
      var since := row.value.firstFiredAt;
      assert Loudest(sub, k, since) <= Loudest(full, k, since);
    }
  }

  // ----- the decision, in terms of the stored rows -----

  predicate IsLifecycle(e: Event) {
    e.status.Firing? || e.status.Resolved?
  }

  /** No counted event of the key is later than `p`. */
  predicate InOrder(b: Book, p: Params) {
    forall r :: r in b.events && Counted(r, KeyOf(p.client, p.event)) ==> r.event.occurredAt <= p.event.occurredAt
  }

  /** A firing of a firing incident, within the window of its last notification. */
  predicate TooSoon(b: Book, p: Params) {
    var row := Lookup(b.incidents, KeyOf(p.client, p.event));
    p.event.status.Firing? && FiringRow(row) && p.now - row.value.lastNotifiedAt < p.window
  }

  /** Every notification since the incident began was less severe. */
  predicate Escalating(b: Book, p: Params)
    requires FiringRow(Lookup(b.incidents, KeyOf(p.client, p.event)))
  {
    var k := KeyOf(p.client, p.event);
    forall r :: r in b.events && Heard(r, k, b.incidents[k].firstFiredAt) ==> Rank(r.event.severity) < Rank(p.event.severity)
  }

  /** Everything but a silence lets the event notify. */
  predicate Notifies(b: Book, p: Params) {
    && (IsLifecycle(p.event) ==> InOrder(b, p))
    && (p.event.status.Resolved? ==> FiringRow(Lookup(b.incidents, KeyOf(p.client, p.event))))
    && (TooSoon(b, p) ==> Escalating(b, p))
  }

  lemma AggregatesMean(b: Book, p: Params)
    ensures var k := KeyOf(p.client, p.event);
            && (Stale(b.events, k, p.event.occurredAt) <==> !InOrder(b, p))
            && (FiringRow(Lookup(b.incidents, k)) ==>
                  (Rank(p.event.severity) <= Loudest(b.events, k, b.incidents[k].firstFiredAt) <==> !Escalating(b, p)))
  {
    var k := KeyOf(p.client, p.event);
    var latest := Latest(b.events, k);
    assert latest.Some? ==> exists r :: r in b.events && Counted(r, k) && r.event.occurredAt == latest.value;
    if FiringRow(Lookup(b.incidents, k)) {
      var since := b.incidents[k].firstFiredAt;
      var loudest := Loudest(b.events, k, since);
      assert loudest > 0 ==> exists r :: r in b.events && Heard(r, k, since) && Rank(r.event.severity) == loudest;
    }
  }

  /** An event is queued exactly when nothing silences it, it is not out of order, a resolution finds a firing incident, and a
      firing within the window escalates. */
  lemma QueuedExactly(b: Book, p: Params)
    ensures VerdictFor(b, p).outcome.Queued? <==> p.suppress == "" && Notifies(b, p)
  {
    AggregatesMean(b, p);
  }

  /** What each reason for suppressing an event stands for. */
  lemma ReasonsExactly(b: Book, p: Params)
    ensures var v, firing := VerdictFor(b, p), FiringRow(Lookup(b.incidents, KeyOf(p.client, p.event)));
            && (v.reason.NoReason? <==> v.outcome.Queued?)
            && (v.reason.StaleEvent? <==> IsLifecycle(p.event) && !InOrder(b, p))
            && (v.reason.InDedupeWindow? <==> InOrder(b, p) && TooSoon(b, p) && !Escalating(b, p))
            && (v.reason.OrphanResolved? <==> p.event.status.Resolved? && InOrder(b, p) && !firing)
            && (v.reason.Requested? <==> p.suppress != "" && Notifies(b, p))
            && (v.reason.Requested? ==> v.reason.text == p.suppress)
            && v.startedAt == if p.event.status.Resolved? && InOrder(b, p) && firing
                              then Some(b.incidents[KeyOf(p.client, p.event)].firstFiredAt) else None
  {
    AggregatesMean(b, p);
  }

  /** The incident row after the event: opened, seen, notified or closed at the receipt time, whether silenced or not. */
  lemma RowExactly(b: Book, p: Params)
    ensures var k := KeyOf(p.client, p.event);
            var before, after := Lookup(b.incidents, k), VerdictFor(b, p).row;
            if !IsLifecycle(p.event) || !InOrder(b, p) || (p.event.status.Resolved? && !FiringRow(before)) then after == before
            else if !FiringRow(before) then after == Some(Incident(IsFiring, p.now, p.now, p.now))
            else
              && after.Some? && after.value.firstFiredAt == before.value.firstFiredAt && after.value.lastSeenAt == p.now
              && (after.value.state.IsFiring? <==> p.event.status.Firing?)
              && after.value.lastNotifiedAt == if Notifies(b, p) then p.now else before.value.lastNotifiedAt
  {
    AggregatesMean(b, p);
  }
}
