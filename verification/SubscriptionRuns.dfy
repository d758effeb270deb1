/** Runs of the events endpoint: subscribe requests with their challenge pause, removals, pruning, grants, jobs and posts. */
module SubscriptionRuns {
  import opened Domain
  import opened OAuth
  import opened Subscriptions

  /** A subscribe request between its read and its save. */
  datatype Pending = Pending(id: SubId, draft: Subscription, kept: bool, now: int)

  datatype State = State(rows: Rows, grants: Grants, cache: Cache, pending: Option<Pending>, clock: int)

  datatype Op =
    | Begin(r: Request)
    | Finish(later: int)
    | Unsubscribe(id: SubId, now: int)
    | Gone(id: SubId, now: int)
    | Prune(now: int)
    | GrantsBecome(grants: Grants, now: int)
    | Accepted(e: Event, now: int)
    | Post(id: SubId, generation: Token, now: int)

  function TimeOf(op: Op): int {
    match op
    case Begin(r) => r.now
    case Finish(later) => later
    case Unsubscribe(_, now) => now
    case Gone(_, now) => now
    case Prune(now) => now
    case GrantsBecome(_, now) => now
    case Accepted(_, now) => now
    case Post(_, _, now) => now
  }

  function Next(gw: Gateway, s: State, op: Op): State {
    match op
    case Begin(r) =>
      var p := Prepare(gw, s.rows, s.grants, s.cache, r);
      s.(cache := p.cache, clock := r.now,
         pending := if p.draft.Some? then Some(Pending(RequestedId(gw, r), p.draft.value, p.kept, r.now)) else None)
    case Finish(later) =>
      if s.pending.None? then s.(clock := later)
      else
        var p := s.pending.value;
        s.(rows := Commit(gw, s.rows, s.grants, p.id, p.draft, p.now, later).0, pending := None, clock := later)
    case Unsubscribe(id, now) => s.(rows := Remove(s.rows, id), clock := now)
    case Gone(id, now) => s.(rows := Remove(s.rows, id), clock := now)
    case Prune(now) => s.(rows := PruneRows(s.rows, s.grants, now), clock := now)
    case GrantsBecome(grants, now) => s.(grants := grants, clock := now)
    case Accepted(_, now) => s.(clock := now)
    case Post(_, _, now) => s.(clock := now)
  }

  datatype History = History(ops: seq<Op>, states: seq<State>)

  /** Grants keep their policy and end, and the id of a deleted grant is not used again. */
  predicate GrantsEvolve(states: seq<State>, grants: Grants)
    requires states != []
  {
    forall g :: g in grants ==>
      && (g in Last(states).grants ==>
            grants[g].policy == Last(states).grants[g].policy && grants[g].expires == Last(states).grants[g].expires)
      && (g !in Last(states).grants ==> forall m :: 0 <= m < |states| ==> g !in states[m].grants)
  }

  predicate WasPosted(h: History, n: nat, id: SubId)
    requires n <= |h.ops|
  {
    exists m :: 0 <= m < n && h.ops[m].Post? && h.ops[m].id == id
  }

  /** The mutex admits one subscribe or unsubscribe at a time; random generations do not repeat; only an answer to a post
      removes a subscription as gone. */
  predicate Follows(gw: Gateway, h: History, n: nat)
    requires n < |h.ops| && |h.states| == |h.ops| + 1
  {
    var s, op := h.states[n], h.ops[n];
    && s.clock <= TimeOf(op)
    && h.states[n + 1] == Next(gw, s, op)
    && (op.Begin? || op.Unsubscribe? ==> s.pending.None?)
    && (op.Begin? ==> forall m :: 0 <= m < n && h.ops[m].Begin? ==> h.ops[m].r.token != op.r.token)
    && (op.GrantsBecome? ==> GrantsEvolve(h.states[..n + 1], op.grants))
    && (op.Gone? ==> WasPosted(h, n, op.id))
    && (op.Post? ==> Deliverable(gw, s.rows, s.grants, op.id, op.generation, op.now))
  }

  predicate Legal(gw: Gateway, h: History) {
    && |h.states| == |h.ops| + 1
    && h.states[0].rows == map[] && h.states[0].cache == map[] && h.states[0].pending.None?
    && forall n: nat :: n < |h.ops| ==> Follows(gw, h, n)
  }

  /** The subscription could receive a job of this generation from this state at this instant. */
  predicate Live(gw: Gateway, s: State, id: SubId, generation: Token, now: int) {
    Deliverable(gw, s.rows, s.grants, id, generation, now)
  }
}
