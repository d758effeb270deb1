/** How many notifications one incident can produce, with retention deleting history underneath. */
module Noise {
  import opened Domain
  import opened Intake

  /** A stored record and whether it started an episode. The log keeps what retention deletes. */
  datatype Logged = Logged(r: Record, opens: bool)

  datatype Trail = Trail(book: Book, log: seq<Logged>, clock: int)

  datatype Move = Offered(p: Params, id: nat) | Retained(now: int, gone: set<nat>)

  datatype Policy = Policy(window: int, retention: int)

  /** The clock does not run backwards and retention deletes only rows older than its period. */
  predicate Legal(t: Trail, m: Move, y: Policy) {
    match m
    case Offered(p, _) => t.clock <= p.now && p.window == y.window
    case Retained(now, gone) =>
      t.clock <= now && forall r :: r in t.book.events && r.id in gone ==> r.createdAt < now - y.retention
  }

  predicate StartsEpisode(b: Book, p: Params) {
    var k := KeyOf(p.client, p.event);
    p.event.status.Firing? && !Stale(b.events, k, p.event.occurredAt) && !FiringRow(Lookup(b.incidents, k))
  }

  function Advance(t: Trail, m: Move): Trail {
    match m
    case Offered(p, id) =>
      if Known(t.book.events, p.client, p.event.eventId) then t.(clock := p.now)
      else Trail(Accept(t.book, p, id),
                 t.log + [Logged(RecordOf(p, id, VerdictFor(t.book, p)), StartsEpisode(t.book, p))],
                 p.now)
    case Retained(now, gone) => Trail(Prune(t.book, gone), t.log, now)
  }

  function Follow(start: int, moves: seq<Move>): Trail {
    if moves == [] then Trail(EmptyBook, [], start) else Advance(Follow(start, Init(moves)), Last(moves))
  }

  predicate LegalRun(start: int, moves: seq<Move>, y: Policy) {
    moves != [] ==> LegalRun(start, Init(moves), y) && Legal(Follow(start, Init(moves)), Last(moves), y)
  }

  /** A firing that produced notifications. */
  predicate Noisy(l: Logged, k: Key) {
    OfKey(l.r, k) && l.r.event.status.Firing? && l.r.outcome.Queued?
  }

  /** No episode of `k` starts after position `i` and up to position `j`. */
  predicate SameEpisode(log: seq<Logged>, i: int, j: int, k: Key) {
    forall m :: 0 <= m < |log| && i < m <= j && OfKey(log[m].r, k) ==> !log[m].opens
  }

  predicate Escalates(log: seq<Logged>, k: Key, window: int) {
    forall i, j :: 0 <= i < j < |log| && Noisy(log[i], k) && Noisy(log[j], k) && SameEpisode(log, i, j, k)
                   && log[j].r.createdAt - log[i].r.createdAt < window
                   ==> Rank(log[i].r.event.severity) < Rank(log[j].r.event.severity)
  }

  /** Receipt times follow the clock. */
  predicate Chronological(t: Trail) {
    && (forall i, j :: 0 <= i <= j < |t.log| ==> t.log[i].r.createdAt <= t.log[j].r.createdAt)
    && (forall i :: 0 <= i < |t.log| ==> t.log[i].r.createdAt <= t.clock)
  }

  predicate InLog(log: seq<Logged>, r: Record) {
    exists i :: 0 <= i < |log| && log[i].r == r
  }

  /** The table holds only logged rows, and every logged row young enough to matter. */
  predicate Remembers(t: Trail, y: Policy) {
    && (forall r :: r in t.book.events ==> InLog(t.log, r))
    && (forall i :: 0 <= i < |t.log| && t.log[i].r !in t.book.events ==> t.log[i].r.createdAt < t.clock - y.retention)
  }

  /** The opening firing of the episode that is still running. */
  predicate LastOpening(log: seq<Logged>, k: Key, m: int) {
    0 <= m < |log| && OfKey(log[m].r, k) && log[m].opens && SameEpisode(log, m, |log|, k)
  }

  /** A firing row knows when its episode started and when it last notified. */
  ghost predicate RowTracks(log: seq<Logged>, k: Key, row: Option<Incident>) {
    FiringRow(row) ==>
      && (exists m :: LastOpening(log, k, m) && log[m].r.createdAt == row.value.firstFiredAt)
      && (forall i :: 0 <= i < |log| && Noisy(log[i], k) && SameEpisode(log, i, |log|, k) ==>
            row.value.firstFiredAt <= log[i].r.createdAt <= row.value.lastNotifiedAt)
  }

  ghost predicate Sound(t: Trail, k: Key, y: Policy) {
    && Chronological(t)
    && Remembers(t, y)
    && RowTracks(t.log, k, Lookup(t.book.incidents, k))
    && Escalates(t.log, k, y.window)
  }

  lemma SameEpisodeExtends(log: seq<Logged>, l: Logged, i: int, k: Key)
    requires 0 <= i < |log|
    ensures SameEpisode(log + [l], i, |log|, k) <==> SameEpisode(log, i, |log|, k) && (OfKey(l.r, k) ==> !l.opens)
    ensures SameEpisode(log + [l], i, |log| + 1, k) <==> SameEpisode(log, i, |log|, k) && (OfKey(l.r, k) ==> !l.opens)
    ensures forall j :: i <= j < |log| ==> (SameEpisode(log + [l], i, j, k) <==> SameEpisode(log, i, j, k))
  {
    var all := log + [l];
    assert all[|log|] == l;
    assert forall m :: 0 <= m < |log| ==> all[m] == log[m];
  }

  lemma OtherKeysKeepTracking(log: seq<Logged>, l: Logged, k: Key, row: Option<Incident>)
    requires !OfKey(l.r, k) || (!l.opens && !Noisy(l, k))
    requires RowTracks(log, k, row)
    ensures RowTracks(log + [l], k, row)
  {
    if FiringRow(row) {
      var all := log + [l];
      var m :| LastOpening(log, k, m) && log[m].r.createdAt == row.value.firstFiredAt;
      SameEpisodeExtends(log, l, m, k);
      assert LastOpening(all, k, m);
      forall i | 0 <= i < |all| && Noisy(all[i], k) && SameEpisode(all, i, |all|, k)
        ensures row.value.firstFiredAt <= all[i].r.createdAt <= row.value.lastNotifiedAt
      {
        SameEpisodeExtends(log, l, i, k);
      }
    }
  }

  /** The three ways a non-stale firing meets its row. */
  lemma FiringVerdict(b: Book, p: Params, k: Key)
    requires k == KeyOf(p.client, p.event)
    ensures var row, v := Lookup(b.incidents, k), VerdictFor(b, p);
            p.event.status.Firing? && !Stale(b.events, k, p.event.occurredAt) ==>
              && FiringRow(v.row)
              && (StartsEpisode(b, p) ==> v.row.value == Incident(IsFiring, p.now, p.now, p.now))
              && (!StartsEpisode(b, p) ==>
                    && FiringRow(row)
                    && v.row.value.firstFiredAt == row.value.firstFiredAt
                    && (Repeats(b.events, row.value, k, p) ==>
                          v.outcome.Suppressed? && v.row.value.lastNotifiedAt == row.value.lastNotifiedAt)
                    && (!Repeats(b.events, row.value, k, p) ==> v.row.value.lastNotifiedAt == p.now))
  {
  }

  lemma OtherVerdict(b: Book, p: Params, k: Key)
    requires k == KeyOf(p.client, p.event)
    requires !p.event.status.Firing? || Stale(b.events, k, p.event.occurredAt)
    ensures var row, v := Lookup(b.incidents, k), VerdictFor(b, p);
            && !StartsEpisode(b, p)
            && (FiringRow(v.row) ==> v.row == row)
            && (p.event.status.Firing? ==> v.outcome.Suppressed?)
            && (v.row.None? ==> row.None?)
  {
  }

  lemma OpeningTracks(log: seq<Logged>, l: Logged, k: Key, row: Option<Incident>)
    requires OfKey(l.r, k) && l.opens
    requires FiringRow(row) && row.value.firstFiredAt == l.r.createdAt == row.value.lastNotifiedAt
    ensures RowTracks(log + [l], k, row)
  {
    var all := log + [l];
    assert all[|log|].opens && LastOpening(all, k, |log|);
    forall i | 0 <= i < |all| && Noisy(all[i], k) && SameEpisode(all, i, |all|, k)
      ensures i == |log|
    {
    }
  }

  lemma RenotifyingTracks(t: Trail, l: Logged, k: Key, row: Option<Incident>, after: Option<Incident>)
    requires Chronological(t) && t.clock <= l.r.createdAt
    requires OfKey(l.r, k) && !l.opens
    requires RowTracks(t.log, k, row) && FiringRow(row) && FiringRow(after)
    requires after.value.firstFiredAt == row.value.firstFiredAt && after.value.lastNotifiedAt == l.r.createdAt
    ensures RowTracks(t.log + [l], k, after)
  {
    var all := t.log + [l];
    var m :| LastOpening(t.log, k, m) && t.log[m].r.createdAt == row.value.firstFiredAt;
    SameEpisodeExtends(t.log, l, m, k);
    assert LastOpening(all, k, m);
    forall i | 0 <= i < |all| && Noisy(all[i], k) && SameEpisode(all, i, |all|, k)
      ensures after.value.firstFiredAt <= all[i].r.createdAt <= after.value.lastNotifiedAt
    {
      if i < |t.log| {
        SameEpisodeExtends(t.log, l, i, k);
      }
    }
  }

  /** A queued firing inside an episode is louder than every recent one of that episode. */
  lemma {:induction false} QueuedEscalates(t: Trail, p: Params, k: Key, y: Policy, i: int)
    requires Sound(t, k, y) && y.window <= y.retention
    requires Legal(t, Offered(p, 0), y)
    requires KeyOf(p.client, p.event) == k && p.event.status.Firing? && VerdictFor(t.book, p).outcome.Queued?
    requires !StartsEpisode(t.book, p)
    requires 0 <= i < |t.log| && Noisy(t.log[i], k) && SameEpisode(t.log, i, |t.log|, k)
    requires p.now - t.log[i].r.createdAt < y.window
    ensures Rank(t.log[i].r.event.severity) < Rank(p.event.severity)
  {
    var row, prior := Lookup(t.book.incidents, k), t.log[i].r;
    FiringVerdict(t.book, p, k);
    if Stale(t.book.events, k, p.event.occurredAt) {
      OtherVerdict(t.book, p, k);
    }
    assert FiringRow(row) && !Repeats(t.book.events, row.value, k, p);
    assert prior in t.book.events;
    assert Heard(prior, k, row.value.firstFiredAt);
    assert Rank(prior.event.severity) <= Loudest(t.book.events, k, row.value.firstFiredAt);
  }

  lemma EscalatesAppend(log: seq<Logged>, l: Logged, k: Key, window: int)
    requires Escalates(log, k, window)
    requires Noisy(l, k) && !l.opens ==>
               forall i :: 0 <= i < |log| && Noisy(log[i], k) && SameEpisode(log, i, |log|, k)
                           && l.r.createdAt - log[i].r.createdAt < window
                           ==> Rank(log[i].r.event.severity) < Rank(l.r.event.severity)
    ensures Escalates(log + [l], k, window)
  {
    var all := log + [l];
    forall i, j | 0 <= i < j < |all| && Noisy(all[i], k) && Noisy(all[j], k) && SameEpisode(all, i, j, k)
                  && all[j].r.createdAt - all[i].r.createdAt < window
      ensures Rank(all[i].r.event.severity) < Rank(all[j].r.event.severity)
    {
      SameEpisodeExtends(log, l, i, k);
    }
  }

  lemma OfferKeepsMemory(t: Trail, p: Params, id: nat, y: Policy)
    requires Chronological(t) && Remembers(t, y) && Legal(t, Offered(p, id), y)
    ensures Chronological(Advance(t, Offered(p, id))) && Remembers(Advance(t, Offered(p, id)), y)
  {
    var u := Advance(t, Offered(p, id));
    if !Known(t.book.events, p.client, p.event.eventId) {
      var r := RecordOf(p, id, VerdictFor(t.book, p));
      assert u.book.events == t.book.events + [r];
      forall x | x in u.book.events
        ensures InLog(u.log, x)
      {
        if x in t.book.events {
          var i :| 0 <= i < |t.log| && t.log[i].r == x;
          assert u.log[i].r == x;
        } else {
          assert u.log[|t.log|].r == x;
        }
      }
      forall i | 0 <= i < |u.log| && u.log[i].r !in u.book.events
        ensures u.log[i].r.createdAt < u.clock - y.retention
      {
        assert r in u.book.events;
        assert i < |t.log| && u.log[i] == t.log[i];
      }
    }
  }

  lemma OfferKeepsTracking(t: Trail, p: Params, id: nat, k: Key, y: Policy)
    requires Sound(t, k, y) && Legal(t, Offered(p, id), y)
    ensures RowTracks(Advance(t, Offered(p, id)).log, k, Lookup(Advance(t, Offered(p, id)).book.incidents, k))
  {
    if !Known(t.book.events, p.client, p.event.eventId) {
      var v, row := VerdictFor(t.book, p), Lookup(t.book.incidents, k);
      var l := Logged(RecordOf(p, id, v), StartsEpisode(t.book, p));
      var after := Lookup(Accept(t.book, p, id).incidents, k);
      if KeyOf(p.client, p.event) != k {
        assert after == row;
        OtherKeysKeepTracking(t.log, l, k, row);
      } else if !p.event.status.Firing? || Stale(t.book.events, k, p.event.occurredAt) {
        OtherVerdict(t.book, p, k);
        if FiringRow(after) {
          assert after == row;
          OtherKeysKeepTracking(t.log, l, k, row);
        }
      } else {
        FiringVerdict(t.book, p, k);
        assert after == v.row;
        if l.opens {
          OpeningTracks(t.log, l, k, after);
        } else if Repeats(t.book.events, row.value, k, p) {
          OtherKeysKeepTracking(t.log, l, k, row);
        } else {
          RenotifyingTracks(t, l, k, row, after);
        }
      }
    }
  }

  lemma OfferKeepsEscalation(t: Trail, p: Params, id: nat, k: Key, y: Policy)
    requires Sound(t, k, y) && Legal(t, Offered(p, id), y) && y.window <= y.retention
    ensures Escalates(Advance(t, Offered(p, id)).log, k, y.window)
  {
    if !Known(t.book.events, p.client, p.event.eventId) {
      var l := Logged(RecordOf(p, id, VerdictFor(t.book, p)), StartsEpisode(t.book, p));
      if Noisy(l, k) && !l.opens {
        forall i | 0 <= i < |t.log| && Noisy(t.log[i], k) && SameEpisode(t.log, i, |t.log|, k)
                   && l.r.createdAt - t.log[i].r.createdAt < y.window
          ensures Rank(t.log[i].r.event.severity) < Rank(l.r.event.severity)
        {
          QueuedEscalates(t, p, k, y, i);
        }
      }
      EscalatesAppend(t.log, l, k, y.window);
    }
  }

  lemma RetentionKeepsSoundness(t: Trail, now: int, gone: set<nat>, k: Key, y: Policy)
    requires Sound(t, k, y) && Legal(t, Retained(now, gone), y)
    ensures Sound(Advance(t, Retained(now, gone)), k, y)
  {
    var u := Advance(t, Retained(now, gone));
    forall i | 0 <= i < |u.log| && u.log[i].r !in u.book.events
      ensures u.log[i].r.createdAt < u.clock - y.retention
    {
      if t.log[i].r in t.book.events {
        assert t.log[i].r.id in gone;
      }
    }
  }

  lemma {:induction false} RunIsSound(start: int, moves: seq<Move>, k: Key, y: Policy)
    requires LegalRun(start, moves, y) && y.window <= y.retention
    ensures Sound(Follow(start, moves), k, y)
  {
    if moves != [] {
      var t, m := Follow(start, Init(moves)), Last(moves);
      RunIsSound(start, Init(moves), k, y);
      match m
      case Offered(p, id) =>
        OfferKeepsMemory(t, p, id, y);
        OfferKeepsTracking(t, p, id, k, y);
        OfferKeepsEscalation(t, p, id, k, y);
      case Retained(now, gone) =>
        RetentionKeepsSoundness(t, now, gone, k, y);
    }
  }

  /** Two queued firings of one episode closer than the window always escalate, whatever retention deletes. */
  lemma CloseFiringsEscalate(start: int, moves: seq<Move>, k: Key, y: Policy, i: int, j: int)
    requires LegalRun(start, moves, y) && y.window <= y.retention
    requires 0 <= i < j < |Follow(start, moves).log|
    requires var log := Follow(start, moves).log;
             && Noisy(log[i], k) && Noisy(log[j], k) && SameEpisode(log, i, j, k)
             && log[j].r.createdAt - log[i].r.createdAt < y.window
    ensures Rank(Follow(start, moves).log[i].r.event.severity) < Rank(Follow(start, moves).log[j].r.event.severity)
  {
    RunIsSound(start, moves, k, y);
  }

  /** Positions of queued firings of one episode, in order, within less than a window. */
  predicate Burst(log: seq<Logged>, picks: seq<int>, k: Key, window: int) {
    && (forall n :: 0 <= n < |picks| ==> 0 <= picks[n] < |log| && Noisy(log[picks[n]], k))
    && (forall n, m :: 0 <= n < m < |picks| ==> picks[n] < picks[m])
    && (picks != [] ==>
          && SameEpisode(log, picks[0], Last(picks), k)
          && log[Last(picks)].r.createdAt - log[picks[0]].r.createdAt < window)
  }

  lemma NeighboursEscalate(start: int, moves: seq<Move>, k: Key, y: Policy, picks: seq<int>, n: nat)
    requires LegalRun(start, moves, y) && y.window <= y.retention
    requires Burst(Follow(start, moves).log, picks, k, y.window)
    requires n + 1 < |picks|
    ensures Rank(Follow(start, moves).log[picks[n]].r.event.severity)
            < Rank(Follow(start, moves).log[picks[n + 1]].r.event.severity)
  {
    var log, i, j := Follow(start, moves).log, picks[n], picks[n + 1];
    RunIsSound(start, moves, k, y);
    assert picks[0] <= i < j <= Last(picks);
    assert log[picks[0]].r.createdAt <= log[i].r.createdAt && log[j].r.createdAt <= log[Last(picks)].r.createdAt;
    assert SameEpisode(log, i, j, k);
  }

  /** At most three notifications per incident in any span shorter than the window. */
  lemma AtMostThreePerWindow(start: int, moves: seq<Move>, k: Key, y: Policy, picks: seq<int>)
    requires LegalRun(start, moves, y) && y.window <= y.retention
    requires Burst(Follow(start, moves).log, picks, k, y.window)
    ensures |picks| <= 3
  {
    if |picks| > 3 {
      NeighboursEscalate(start, moves, k, y, picks, 0);
      NeighboursEscalate(start, moves, k, y, picks, 1);
      NeighboursEscalate(start, moves, k, y, picks, 2);
    }
  }

  /** A firing is dropped as a repeat exactly when something at least as loud was queued since first_fired_at, too recently. */
  lemma DedupedExactlyWhenHeard(b: Book, p: Params)
    ensures var k := KeyOf(p.client, p.event);
            var row := Lookup(b.incidents, k);
            VerdictFor(b, p).reason.InDedupeWindow? <==>
              && p.event.status.Firing? && !Stale(b.events, k, p.event.occurredAt) && FiringRow(row)
              && p.now - row.value.lastNotifiedAt < p.window
              && exists r :: r in b.events && Heard(r, k, row.value.firstFiredAt)
                             && Rank(p.event.severity) <= Rank(r.event.severity)
  {
    var k := KeyOf(p.client, p.event);
    var row := Lookup(b.incidents, k);
    if FiringRow(row) {
      var loudest := Loudest(b.events, k, row.value.firstFiredAt);
      assert Rank(p.event.severity) <= loudest <==>
        exists r :: r in b.events && Heard(r, k, row.value.firstFiredAt) && Rank(p.event.severity) <= Rank(r.event.severity);
    }
  }

  /** The witness of a dropped repeat belongs to the running episode, or to an earlier one in the opening millisecond. */
  lemma WitnessIsOwnOrTied(start: int, moves: seq<Move>, y: Policy, p: Params, k: Key, w: int)
    requires LegalRun(start, moves, y) && y.window <= y.retention
    requires k == KeyOf(p.client, p.event) && FiringRow(Lookup(Follow(start, moves).book.incidents, k))
    requires 0 <= w < |Follow(start, moves).log|
    requires var t := Follow(start, moves);
             Heard(t.log[w].r, k, Lookup(t.book.incidents, k).value.firstFiredAt)
    ensures var t := Follow(start, moves);
            || SameEpisode(t.log, w, |t.log|, k)
            || t.log[w].r.createdAt == Lookup(t.book.incidents, k).value.firstFiredAt
  {
    var t := Follow(start, moves);
    RunIsSound(start, moves, k, y);
    var row := Lookup(t.book.incidents, k).value;
    var m :| LastOpening(t.log, k, m) && t.log[m].r.createdAt == row.firstFiredAt;
    if m <= w {
      assert SameEpisode(t.log, w, |t.log|, k);
    } else {
      assert t.log[w].r.createdAt <= t.log[m].r.createdAt;
    }
  }

  /** The firing would be a repeat if something loud enough had been queued. */
  predicate MayRepeat(b: Book, p: Params) {
    var k := KeyOf(p.client, p.event);
    var row := Lookup(b.incidents, k);
    && p.event.status.Firing? && !Stale(b.events, k, p.event.occurredAt) && FiringRow(row)
    && p.now - row.value.lastNotifiedAt < p.window
  }

  /** A stored notification of the key that is at least as loud as `p`. */
  predicate CoversAt(t: Trail, p: Params, k: Key, w: nat) {
    && w < |t.log| && t.log[w].r in t.book.events && Noisy(t.log[w], k)
    && Rank(p.event.severity) <= Rank(t.log[w].r.event.severity)
  }

  ghost predicate OwnEpisodeCovers(t: Trail, p: Params, k: Key) {
    exists w: nat :: CoversAt(t, p, k, w) && SameEpisode(t.log, w, |t.log|, k)
  }

  /** An earlier episode notified, loudly enough, in the very millisecond in which the running one opened. */
  ghost predicate TiedEpisodeCovers(t: Trail, p: Params, k: Key)
    requires FiringRow(Lookup(t.book.incidents, k))
  {
    exists w: nat :: CoversAt(t, p, k, w) && !SameEpisode(t.log, w, |t.log|, k)
                     && t.log[w].r.createdAt == Lookup(t.book.incidents, k).value.firstFiredAt
  }

  /** What a row counts towards the running incident: its own episode's notifications and the tied ones. */
  lemma {:induction false} CountedExactly(start: int, moves: seq<Move>, y: Policy, p: Params, k: Key)
    requires LegalRun(start, moves, y) && y.window <= y.retention && k == KeyOf(p.client, p.event)
    requires MayRepeat(Follow(start, moves).book, p)
    ensures var t := Follow(start, moves);
            VerdictFor(t.book, p).reason.InDedupeWindow? <==> OwnEpisodeCovers(t, p, k) || TiedEpisodeCovers(t, p, k)
  {
    var t := Follow(start, moves);
    var since := Lookup(t.book.incidents, k).value.firstFiredAt;
    RunIsSound(start, moves, k, y);
    DedupedExactlyWhenHeard(t.book, p);
    if r :| r in t.book.events && Heard(r, k, since) && Rank(p.event.severity) <= Rank(r.event.severity) {
      assert InLog(t.log, r);
      var w: nat :| w < |t.log| && t.log[w].r == r;
      WitnessIsOwnOrTied(start, moves, y, p, k, w);
      assert CoversAt(t, p, k, w);
    }
    if w: nat :| CoversAt(t, p, k, w) && (SameEpisode(t.log, w, |t.log|, k) || t.log[w].r.createdAt == since) {
      assert since <= t.log[w].r.createdAt;
      assert Heard(t.log[w].r, k, since);
    }
  }

  /** A firing is swallowed although its own episode notified of nothing as loud, exactly when it may repeat and only a
      notification of an earlier episode in the opening millisecond is loud enough. */
  lemma {:induction false} MuffledExactly(start: int, moves: seq<Move>, y: Policy, p: Params, k: Key)
    requires LegalRun(start, moves, y) && y.window <= y.retention && k == KeyOf(p.client, p.event)
    ensures var t := Follow(start, moves);
            VerdictFor(t.book, p).reason.InDedupeWindow? && !OwnEpisodeCovers(t, p, k) <==>
              MayRepeat(t.book, p) && TiedEpisodeCovers(t, p, k) && !OwnEpisodeCovers(t, p, k)
  {
    var t := Follow(start, moves);
    DedupedExactlyWhenHeard(t.book, p);
    if MayRepeat(t.book, p) {
      CountedExactly(start, moves, y, p, k);
    }
  }

  function Sample(id: string, status: Status, severity: Severity, at: int, now: int, suppress: string): Params {
    Params("c", Event(id, "s", "r", status, severity, "k", at), [], now, 10, suppress)
  }

  const TiedKey: Key := Key("c", "r", "k")

  const LoudOpening: Params := Sample("1", Firing, Critical, 0, 0, "")
  const LoudClosing: Params := Sample("2", Resolved, Critical, 0, 0, "")
  const SilencedOpening: Params := Sample("3", Firing, InfoSeverity, 0, 0, "silence")
  const Unheard: Params := Sample("4", Firing, Warning, 1, 1, "")

  const LoudRecord: Record := Record(0, "c", LoudOpening.event, Queued, None, 0)
  const ClosingRecord: Record := Record(1, "c", LoudClosing.event, Queued, Some(0), 0)
  const SilencedRecord: Record := Record(2, "c", SilencedOpening.event, Suppressed, None, 0)

  function TiedMoves(): seq<Move> {
    [Offered(LoudOpening, 0), Offered(LoudClosing, 1), Offered(SilencedOpening, 2)]
  }

  lemma FirstTiedMove()
    ensures Advance(Trail(EmptyBook, [], 0), TiedMoves()[0])
            == Trail(Book([LoudRecord], map[TiedKey := Incident(IsFiring, 0, 0, 0)]), [Logged(LoudRecord, true)], 0)
  {
  }

  lemma SecondTiedMove(t: Trail)
    requires t == Trail(Book([LoudRecord], map[TiedKey := Incident(IsFiring, 0, 0, 0)]), [Logged(LoudRecord, true)], 0)
    ensures Advance(t, TiedMoves()[1])
            == Trail(Book([LoudRecord, ClosingRecord], map[TiedKey := Incident(IsResolved, 0, 0, 0)]),
                     [Logged(LoudRecord, true), Logged(ClosingRecord, false)], 0)
  {
    assert !Stale(t.book.events, TiedKey, 0);
    assert !Known(t.book.events, "c", "2");
  }

  lemma ThirdTiedMove(t: Trail)
    requires t == Trail(Book([LoudRecord, ClosingRecord], map[TiedKey := Incident(IsResolved, 0, 0, 0)]),
                        [Logged(LoudRecord, true), Logged(ClosingRecord, false)], 0)
    ensures Advance(t, TiedMoves()[2])
            == Trail(Book([LoudRecord, ClosingRecord, SilencedRecord], map[TiedKey := Incident(IsFiring, 0, 0, 0)]),
                     [Logged(LoudRecord, true), Logged(ClosingRecord, false), Logged(SilencedRecord, true)], 0)
  {
    assert !Stale(t.book.events, TiedKey, 0);
    assert !Known(t.book.events, "c", "3");
  }

  lemma TiedRun()
    ensures LegalRun(0, TiedMoves(), Policy(10, 10))
    ensures Follow(0, TiedMoves())
            == Trail(Book([LoudRecord, ClosingRecord, SilencedRecord], map[TiedKey := Incident(IsFiring, 0, 0, 0)]),
                     [Logged(LoudRecord, true), Logged(ClosingRecord, false), Logged(SilencedRecord, true)], 0)
  {
    var ms := TiedMoves();
    assert Init(ms) == ms[..2] && Init(ms[..2]) == ms[..1] && Init(ms[..1]) == [];
    FirstTiedMove();
    assert Follow(0, []) == Trail(EmptyBook, [], 0);
    assert Last(ms[..1]) == ms[0] && Follow(0, ms[..1]) == Advance(Follow(0, []), ms[0]);
    SecondTiedMove(Follow(0, ms[..1]));
    assert Last(ms[..2]) == ms[1];
    ThirdTiedMove(Follow(0, ms[..2]));
    assert LegalRun(0, ms[..1], Policy(10, 10)) && LegalRun(0, ms[..2], Policy(10, 10));
  }

  lemma UnheardIsMuffled(b: Book)
    requires b == Book([LoudRecord, ClosingRecord, SilencedRecord], map[TiedKey := Incident(IsFiring, 0, 0, 0)])
    ensures VerdictFor(b, Unheard).reason.InDedupeWindow?
  {
    assert LoudRecord in b.events && Heard(LoudRecord, TiedKey, 0);
    assert Rank(LoudRecord.event.severity) == 3;
    assert !Stale(b.events, TiedKey, 1);
    var row := b.incidents[TiedKey];
    assert Lookup(b.incidents, TiedKey) == Some(row);
    assert Repeats(b.events, row, TiedKey, Unheard);
    assert DecideFiring(b.events, Some(row), Unheard).reason.InDedupeWindow?;
  }

  /** A silenced episode that opens in the millisecond of a loud one swallows an alert that its own episode never sent. */
  lemma {:induction false} TiedEpisodeMuffles()
    ensures LegalRun(0, TiedMoves(), Policy(10, 10))
    ensures var t := Follow(0, TiedMoves());
            && VerdictFor(t.book, Unheard).reason.InDedupeWindow?
            && forall w :: 0 <= w < |t.log| && SameEpisode(t.log, w, |t.log|, TiedKey) ==> !Noisy(t.log[w], TiedKey)
  {
    TiedRun();
    var t := Follow(0, TiedMoves());
    UnheardIsMuffled(t.book);
    assert t.log[2].opens && OfKey(t.log[2].r, TiedKey);
  }
}
