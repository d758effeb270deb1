/** The delivery table: what claiming, completing, retrying and sweeping do to its rows. */
module Queue {
  import opened Domain

  datatype Channel = Target(name: string) | Subscriber(sub: SubId)

  /** Channel deliveries get a random id, subscription deliveries the event and subscription ids joined. */
  datatype DeliveryId = Random(n: nat) | ForSubscriber(record: nat, sub: SubId)

  datatype Phase = Pending | Processing | Retrying | Sent | Dead

  datatype Delivery = Delivery(
    record: nat,
    channel: Channel,
    phase: Phase,
    attempts: nat,
    next: int,
    lease: Option<int>,
    created: int,
    sentAt: Option<int>,
    code: int,
    error: string)

  type Table = map<DeliveryId, Delivery>

  function NewDelivery(record: nat, channel: Channel, now: int): Delivery {
    Delivery(record, channel, Pending, 0, now, None, now, None, 0, "")
  }

  predicate Unfinished(d: Delivery) {
    d.phase.Pending? || d.phase.Processing? || d.phase.Retrying?
  }

  predicate Due(d: Delivery, now: int) {
    || ((d.phase.Pending? || d.phase.Retrying?) && d.next <= now)
    || (d.phase.Processing? && d.lease.Some? && d.lease.value <= now)
  }

  predicate NoLaterThan(a: Delivery, b: Delivery) {
    a.next < b.next || (a.next == b.next && a.created <= b.created)
  }

  /** A row the claim query may return; ties in (next_attempt_at, created_at) are open. */
  predicate IsNext(q: Table, id: DeliveryId, now: int) {
    && id in q
    && Due(q[id], now)
    && forall o :: o in q && Due(q[o], now) ==> NoLaterThan(q[id], q[o])
  }

  function Claimed(d: Delivery, now: int, lease: int): Delivery {
    d.(phase := Processing, attempts := d.attempts + 1, lease := Some(now + lease))
  }

  /** Error texts keep at most 500 bytes. */
  function Clip(message: string): (c: string)
    ensures c <= message && |c| == Min(|message|, 500)
  {
    if |message| > 500 then message[..500] else message
  }

  predicate SuccessApplies(q: Table, id: DeliveryId) {
    id in q && q[id].phase.Processing?
  }

  function Succeed(q: Table, id: DeliveryId, code: int, at: int): Table {
    if SuccessApplies(q, id) then
      q[id := q[id].(phase := Sent, lease := None, code := code, error := "", sentAt := Some(at))]
    else q
  }

  predicate FailureApplies(q: Table, id: DeliveryId, attempts: int) {
    id in q && q[id].phase.Processing? && q[id].attempts == attempts
  }

  function Fail(q: Table, id: DeliveryId, attempts: int, next: int, message: string, code: int, dead: bool): Table {
    if FailureApplies(q, id, attempts) then
      q[id := q[id].(phase := if dead then Dead else Retrying, lease := None, next := next, code := code,
                     error := Clip(message))]
    else q
  }

  predicate RevivalApplies(q: Table, id: DeliveryId) {
    id in q && q[id].phase.Dead?
  }

  /** The manual retry of a dead delivery starts its attempts afresh. */
  function Revive(q: Table, id: DeliveryId, now: int): Table {
    if RevivalApplies(q, id) then
      q[id := q[id].(phase := Pending, attempts := 0, next := now, lease := None, code := 0, error := "", sentAt := None)]
    else q
  }

  /** Some row is due exactly when the claim query has an answer. */
  lemma NextExists(q: Table, now: int)
    ensures (exists id :: id in q && Due(q[id], now)) <==> exists id :: IsNext(q, id, now)
  {
    if exists id :: id in q && Due(q[id], now) {
      var due := set id | id in q && Due(q[id], now);
      var id0 :| id0 in q && Due(q[id0], now);
      assert id0 in due;
      var id := Earliest(q, due);
      assert IsNext(q, id, now);
    }
  }

  lemma {:induction false} Earliest(q: Table, ids: set<DeliveryId>) returns (id: DeliveryId)
    requires ids != {} && ids <= q.Keys
    ensures id in ids && forall o :: o in ids ==> NoLaterThan(q[id], q[o])
  {
    var some :| some in ids;
    id := some;
    if ids - {some} != {} {
      var best := Earliest(q, ids - {some});
      if !NoLaterThan(q[some], q[best]) {
        id := best;
      }
    }
    forall o | o in ids
      ensures NoLaterThan(q[id], q[o])
    {
      assert o == some || o in ids - {some};
    }
  }

  /** One step of the table, by any worker, by intake, by the administrator or by retention. */
  datatype Act =
    | Enqueue(arrivals: Table)
    | Claim(id: DeliveryId, now: int)
    | ReportSuccess(id: DeliveryId, code: int, at: int)
    | ReportFailure(id: DeliveryId, attempts: int, next: int, message: string, code: int, dead: bool)
    | ManualRetry(id: DeliveryId, now: int)
    | Sweep(gone: set<DeliveryId>)

  function Apply(q: Table, a: Act, lease: int): Table {
    match a
    case Enqueue(arrivals) => q + arrivals
    case Claim(id, now) => if id in q then q[id := Claimed(q[id], now, lease)] else q
    case ReportSuccess(id, code, at) => Succeed(q, id, code, at)
    case ReportFailure(id, attempts, next, message, code, dead) => Fail(q, id, attempts, next, message, code, dead)
    case ManualRetry(id, now) => Revive(q, id, now)
    case Sweep(gone) => q - gone
  }

  predicate IsNew(d: Delivery) {
    d == NewDelivery(d.record, d.channel, d.created)
  }

  /** Claims take a row the query may return, and retention spares unfinished rows. */
  predicate Allowed(q: Table, a: Act) {
    match a
    case Enqueue(arrivals) => arrivals.Keys !! q.Keys && forall id :: id in arrivals ==> IsNew(arrivals[id])
    case Claim(id, now) => IsNext(q, id, now)
    case Sweep(gone) => forall id :: id in gone && id in q ==> !Unfinished(q[id])
    case _ => true
  }
}
