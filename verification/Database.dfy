/** All tables that intake touches in one transaction, and retention with its cascades. */
module Database {
  import opened Domain
  import opened Intake
  import opened Queue
  import opened Subscriptions
  import OAuth

  /** `supply` numbers the random ids handed out so far; a new id is never one of them. */
  datatype Db = Db(
    book: Book,
    queue: Table,
    generations: map<DeliveryId, OAuth.Token>,
    rows: Rows,
    oauth: OAuth.Tables,
    supply: nat)

  const EmptyDb: Db := Db(EmptyBook, map[], map[], map[], OAuth.EmptyTables, 0)

  datatype AcceptOutcome = WasQueued | WasSuppressed | WasDuplicate

  datatype AcceptResult = AcceptResult(
    record: nat,
    outcome: AcceptOutcome,
    reason: Reason,
    deliveries: nat,
    startedAt: Option<int>)

  /** The values without repetitions, each at its first place. */
  function Distinct(values: seq<string>): (result: seq<string>)
    ensures forall v :: v in result <==> v in values
    ensures forall i, j :: 0 <= i < j < |result| ==> result[i] != result[j]
  {
    if values == [] then []
    else
      assert values == Init(values) + [Last(values)];
      if Last(values) in Init(values) then Distinct(Init(values)) else Distinct(Init(values)) + [Last(values)]
  }

  method UniqueStrings(values: seq<string>) returns (result: seq<string>)
    ensures result == Distinct(values)
  {
    var seen: set<string> := {};
    result := [];
    for i := 0 to |values|
      invariant result == Distinct(values[..i])
      invariant forall v :: v in seen <==> v in values[..i]
    {
      assert Init(values[..i + 1]) == values[..i] && Last(values[..i + 1]) == values[i];
      if values[i] !in seen {
        seen := seen + {values[i]};
        result := result + [values[i]];
      }
    }
    assert values[..|values|] == values;
  }

  /** One pending delivery per distinct target. */
  function TargetRows(record: nat, targets: seq<string>, base: nat, now: int): Table {
    map n: nat | base <= n < base + |targets| :: Random(n) := NewDelivery(record, Target(targets[n - base]), now)
  }

  /** One pending delivery per matched subscription. */
  function SubscriberRows(record: nat, subs: set<SubId>, now: int): Table {
    map s | s in subs :: ForSubscriber(record, s) := NewDelivery(record, Subscriber(s), now)
  }

  /** The generation rows of an event: its subscriber deliveries joined with the subscriptions they name. */
  function GenerationRows(queue: Table, rows: Rows, record: nat): map<DeliveryId, OAuth.Token> {
    map id | id in queue && queue[id].record == record && queue[id].channel.Subscriber? && queue[id].channel.sub in rows
      :: rows[queue[id].channel.sub].generation
  }

  function TargetDeliveries(queue: Table, record: nat): set<DeliveryId> {
    set id | id in queue && queue[id].record == record && queue[id].channel.Target?
  }

  function IdOfKnown(events: seq<Record>, client: string, eventId: string): nat
    requires Known(events, client, eventId)
  {
    assert events == Init(events) + [Last(events)];
    if SameEvent(Last(events), client, eventId) then Last(events).id else IdOfKnown(Init(events), client, eventId)
  }

  function OutcomeOf(v: Verdict): AcceptOutcome {
    if v.outcome.Queued? then WasQueued else WasSuppressed
  }

  /** The delivery table after the fan-out of a queued event. */
  function FannedQueue(queue: Table, record: nat, targets: seq<string>, matched: set<SubId>, now: int): Table {
    queue + TargetRows(record, targets, record + 1, now) + SubscriberRows(record, matched, now)
  }

  function FanOut(db: Db, p: Params): Db {
    var queue := FannedQueue(db.queue, db.supply, Distinct(p.targets),
                             MatchedBy(db.rows, db.oauth.grants, p.event, p.now), p.now);
    db.(queue := queue,
        generations := db.generations + GenerationRows(queue, db.rows, db.supply),
        supply := db.supply + 1 + |Distinct(p.targets)|)
  }

  /** Intake of one event: duplicates change nothing; queued events fan out to targets and matching subscriptions. */
  function AcceptEvent(db: Db, p: Params): (Db, AcceptResult) {
    if Known(db.book.events, p.client, p.event.eventId) then
      var record := IdOfKnown(db.book.events, p.client, p.event.eventId);
      (db, AcceptResult(record, WasDuplicate, NoReason, |TargetDeliveries(db.queue, record)|, None))
    else
      var v, book := VerdictFor(db.book, p), Accept(db.book, p, db.supply);
      var stored := if v.outcome.Queued? then FanOut(db, p) else db.(supply := db.supply + 1);
      (stored.(book := book),
       AcceptResult(db.supply, OutcomeOf(v), v.reason, if v.outcome.Queued? then |Distinct(p.targets)| else 0, v.startedAt))
  }

  predicate HasUnfinished(queue: Table, record: nat) {
    exists id :: id in queue && queue[id].record == record && Unfinished(queue[id])
  }

  /** Old events without unfinished deliveries. */
  function Prunable(db: Db, before: int): set<nat> {
    set r | r in db.book.events && r.createdAt < before && !HasUnfinished(db.queue, r.id) :: r.id
  }

  /** Deleting events deletes their deliveries, and those their generation rows. */
  function PruneEvents(db: Db, before: int): Db {
    var gone := Prunable(db, before);
    var queue := map id | id in db.queue && db.queue[id].record !in gone :: db.queue[id];
    db.(book := Prune(db.book, gone),
        queue := queue,
        generations := map id | id in db.generations && id in queue :: db.generations[id])
  }

  datatype Op =
    | Offer(p: Params)
    | Handle(a: Act)
    | Retain(before: int)
    | Subscribe(rows: Rows)
    | Authorize(oauth: OAuth.Tables)

  /** Workers and the administrator touch the delivery table only through these. */
  predicate WorkerAct(a: Act) {
    a.Claim? || a.ReportSuccess? || a.ReportFailure? || a.ManualRetry?
  }

  function Perform(db: Db, op: Op, lease: int): Db {
    match op
    case Offer(p) => AcceptEvent(db, p).0
    case Handle(a) => db.(queue := Queue.Apply(db.queue, a, lease))
    case Retain(before) => PruneEvents(db, before)
    case Subscribe(rows) => db.(rows := rows)
    case Authorize(oauth) => db.(oauth := oauth)
  }
}
