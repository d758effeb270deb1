/** What an incident row means: the state left by the last writer, in episodes that open and close in turn. */
module Episodes {
  import opened Domain
  import opened Intake

  /** Retention has not deleted anything yet. */
  predicate NothingPurged(steps: seq<Step>) {
    forall s :: s in steps && s.Purge? ==> s.gone == {}
  }

  /** The counted event that is greatest by producer time, and by arrival among equals. */
  predicate IsLastWriter(es: seq<Record>, k: Key, i: nat) {
    && i < |es|
    && Counted(es[i], k)
    && forall j :: 0 <= j < |es| && Counted(es[j], k) ==>
      es[j].event.occurredAt < es[i].event.occurredAt || (es[j].event.occurredAt == es[i].event.occurredAt && j <= i)
  }

  predicate SomeFiringStored(es: seq<Record>, k: Key) {
    exists r :: r in es && OfKey(r, k) && r.event.status.Firing?
  }

  /** The history alone says that the incident is firing. */
  predicate FiringByHistory(es: seq<Record>, k: Key) {
    exists i: nat :: i < |es| && IsLastWriter(es, k, i) && es[i].event.status.Firing?
  }

  /** The row agrees with the last writer of the history. */
  predicate RowRefines(es: seq<Record>, k: Key, row: Option<Incident>) {
    && (row.Some? <==> SomeFiringStored(es, k))
    && (row.None? ==> forall r :: r in es ==> !Counted(r, k))
    && (row.Some? ==> exists i: nat :: i < |es| && IsLastWriter(es, k, i)
                                       && (row.value.state.IsFiring? <==> es[i].event.status.Firing?))
  }

  datatype Mark = Opened(receivedAt: int) | Closed(carried: int)

  predicate UpToDate(before: seq<Record>, r: Record, k: Key) {
    forall b :: b in before && Counted(b, k) ==> b.event.occurredAt <= r.event.occurredAt
  }

  /** `r` is the firing that starts an episode after `before`. */
  predicate Opens(before: seq<Record>, r: Record, k: Key) {
    OfKey(r, k) && r.event.status.Firing? && UpToDate(before, r, k) && !FiringByHistory(before, k)
  }

  /** The beginnings and ends of episodes, in arrival order. */
  function Timeline(es: seq<Record>, k: Key): seq<Mark> {
    if es == [] then []
    else
      var r, earlier := Last(es), Timeline(Init(es), k);
      if Opens(Init(es), r, k) then earlier + [Opened(r.createdAt)]
      else if OfKey(r, k) && r.startedAt.Some? then earlier + [Closed(r.startedAt.value)]
      else earlier
  }

  /** Openings and closings strictly alternate, and each closing carries the time of the opening before it. */
  predicate Alternates(t: seq<Mark>) {
    && (forall n :: 0 <= n < |t| ==> (t[n].Opened? <==> n % 2 == 0))
    && (forall n :: 0 < n < |t| && t[n].Closed? ==> t[n - 1] == Opened(t[n].carried))
  }

  predicate RowFits(t: seq<Mark>, row: Option<Incident>) {
    && Alternates(t)
    && (row.None? ==> t == [])
    && (row.Some? ==> t != [] && (row.value.state.IsFiring? <==> Last(t).Opened?))
    && (FiringRow(row) ==> Last(t) == Opened(row.value.firstFiredAt))
  }

  lemma LastWriterIsUnique(es: seq<Record>, k: Key, i: nat, j: nat)
    requires IsLastWriter(es, k, i) && IsLastWriter(es, k, j)
    ensures i == j
  {
  }

  lemma StaleMeansOutOfDate(es: seq<Record>, r: Record, k: Key)
    ensures Stale(es, k, r.event.occurredAt) <==> !UpToDate(es, r, k)
  {
  }

  /** How one stored record moves the last writer. */
  lemma LastWriterStep(es: seq<Record>, r: Record, k: Key)
    ensures Counted(r, k) && UpToDate(es, r, k) ==> IsLastWriter(es + [r], k, |es|)
    ensures !(Counted(r, k) && UpToDate(es, r, k)) ==>
              forall i: nat :: IsLastWriter(es, k, i) ==> IsLastWriter(es + [r], k, i)
  {
    var all := es + [r];
    if Counted(r, k) && UpToDate(es, r, k) {
      forall j | 0 <= j < |all| && Counted(all[j], k)
        ensures all[j].event.occurredAt <= r.event.occurredAt
      {
        assert j < |es| ==> all[j] == es[j] && es[j] in es;
      }
    } else {
      forall i: nat | IsLastWriter(es, k, i)
        ensures IsLastWriter(all, k, i)
      {
        assert all[i] == es[i];
        if Counted(r, k) {
          var b :| b in es && Counted(b, k) && b.event.occurredAt > r.event.occurredAt;
          var n :| 0 <= n < |es| && es[n] == b;
          assert r.event.occurredAt < es[i].event.occurredAt;
        }
      }
    }
  }

  lemma RowDecidesFiring(es: seq<Record>, k: Key, row: Option<Incident>)
    requires RowRefines(es, k, row)
    ensures FiringByHistory(es, k) <==> FiringRow(row)
  {
    if row.Some? {
      var i: nat :| i < |es| && IsLastWriter(es, k, i) && (row.value.state.IsFiring? <==> es[i].event.status.Firing?);
      forall j: nat | j < |es| && IsLastWriter(es, k, j)
        ensures j == i
      {
        LastWriterIsUnique(es, k, i, j);
      }
    }
  }

  lemma MembershipAfter(es: seq<Record>, r: Record)
    ensures forall x :: x in es + [r] <==> x in es || x == r
  {
  }

  /** The verdict moves the row exactly when the stored record becomes the last writer. */
  lemma VerdictMovesRow(es: seq<Record>, row: Option<Incident>, p: Params, id: nat, k: Key)
    requires KeyOf(p.client, p.event) == k
    ensures var v := Decide(es, row, p);
            var r := RecordOf(p, id, v);
            && (Counted(r, k) && UpToDate(es, r, k) ==>
                  v.row.Some? && (v.row.value.state.IsFiring? <==> r.event.status.Firing?))
            && (!(Counted(r, k) && UpToDate(es, r, k)) ==> v.row == row)
  {
    StaleMeansOutOfDate(es, RecordOf(p, id, Decide(es, row, p)), k);
  }

  lemma RowAfter(b: Book, p: Params, id: nat, k: Key)
    requires !Known(b.events, p.client, p.event.eventId)
    ensures Accept(b, p, id).events == b.events + [RecordOf(p, id, VerdictFor(b, p))]
    ensures Lookup(Accept(b, p, id).incidents, k) ==
            if KeyOf(p.client, p.event) == k && VerdictFor(b, p).row.Some? then VerdictFor(b, p).row
            else Lookup(b.incidents, k)
  {
  }

  lemma VerdictKeepsRow(es: seq<Record>, row: Option<Incident>, p: Params, k: Key)
    requires KeyOf(p.client, p.event) == k
    ensures row.Some? ==> Decide(es, row, p).row.Some?
    ensures Decide(es, row, p).row.None? ==> row.None?
  {
  }

  /** A record that is not the new last writer leaves the refinement as it was. */
  lemma OlderRecordKeepsRow(es: seq<Record>, r: Record, k: Key, row: Option<Incident>)
    requires RowRefines(es, k, row)
    requires !(Counted(r, k) && UpToDate(es, r, k))
    ensures RowRefines(es + [r], k, row)
  {
    LastWriterStep(es, r, k);
    MembershipAfter(es, r);
    if row.Some? {
      var i: nat :| i < |es| && IsLastWriter(es, k, i) && (row.value.state.IsFiring? <==> es[i].event.status.Firing?);
      assert IsLastWriter(es + [r], k, i) && (es + [r])[i] == es[i];
    }
  }

  lemma NewestRecordSetsRow(es: seq<Record>, r: Record, k: Key, before: Option<Incident>, row: Option<Incident>)
    requires RowRefines(es, k, before)
    requires Counted(r, k) && UpToDate(es, r, k)
    requires row.Some? && (row.value.state.IsFiring? <==> r.event.status.Firing?)
    requires r.event.status.Firing? || before.Some?
    ensures RowRefines(es + [r], k, row)
  {
    LastWriterStep(es, r, k);
    MembershipAfter(es, r);
    assert (es + [r])[|es|] == r && IsLastWriter(es + [r], k, |es|);
  }

  lemma StepKeepsRow(b: Book, p: Params, id: nat, k: Key)
    requires RowRefines(b.events, k, Lookup(b.incidents, k))
    ensures RowRefines(Accept(b, p, id).events, k, Lookup(Accept(b, p, id).incidents, k))
  {
    if !Known(b.events, p.client, p.event.eventId) {
      var v, row := VerdictFor(b, p), Lookup(b.incidents, k);
      var r := RecordOf(p, id, v);
      RowAfter(b, p, id, k);
      if KeyOf(p.client, p.event) == k {
        VerdictMovesRow(b.events, row, p, id, k);
        VerdictKeepsRow(b.events, row, p, k);
        if Counted(r, k) && UpToDate(b.events, r, k) {
          NewestRecordSetsRow(b.events, r, k, row, v.row);
        } else {
          OlderRecordKeepsRow(b.events, r, k, row);
        }
      } else {
        OlderRecordKeepsRow(b.events, r, k, row);
      }
    }
  }

  /** The verdict opens an episode, closes the open one with its opening time, or leaves the row's episode alone. */
  lemma VerdictKeepsEpisode(es: seq<Record>, row: Option<Incident>, p: Params, id: nat, k: Key)
    requires KeyOf(p.client, p.event) == k
    requires FiringByHistory(es, k) <==> FiringRow(row)
    ensures var v := Decide(es, row, p);
            var r := RecordOf(p, id, v);
            && (Opens(es, r, k) ==> FiringRow(v.row) && v.row.value.firstFiredAt == r.createdAt && !FiringRow(row))
            && (!Opens(es, r, k) && r.startedAt.Some? ==>
                  FiringRow(row) && v.row.Some? && !FiringRow(v.row) && r.startedAt.value == row.value.firstFiredAt)
            && (!Opens(es, r, k) && r.startedAt.None? ==>
                  && (v.row.Some? <==> row.Some?)
                  && (row.Some? ==> v.row.value.state == row.value.state && v.row.value.firstFiredAt == row.value.firstFiredAt))
  {
    StaleMeansOutOfDate(es, RecordOf(p, id, Decide(es, row, p)), k);
  }

  lemma TimelineAfter(es: seq<Record>, r: Record, k: Key)
    ensures Timeline(es + [r], k) ==
            if Opens(es, r, k) then Timeline(es, k) + [Opened(r.createdAt)]
            else if OfKey(r, k) && r.startedAt.Some? then Timeline(es, k) + [Closed(r.startedAt.value)]
            else Timeline(es, k)
  {
    assert Init(es + [r]) == es;
    assert Last(es + [r]) == r;
  }

  lemma OpeningExtends(t: seq<Mark>, at: int)
    requires Alternates(t) && (t == [] || Last(t).Closed?)
    ensures Alternates(t + [Opened(at)])
  {
    assert t != [] ==> t[|t| - 1].Closed?;
  }

  lemma ClosingExtends(t: seq<Mark>, at: int)
    requires Alternates(t) && t != [] && Last(t) == Opened(at)
    ensures Alternates(t + [Closed(at)])
  {
    assert t[|t| - 1].Opened?;
  }

  lemma EpisodeExtends(es: seq<Record>, row: Option<Incident>, p: Params, id: nat, k: Key)
    requires KeyOf(p.client, p.event) == k
    requires FiringByHistory(es, k) <==> FiringRow(row)
    requires RowFits(Timeline(es, k), row)
    ensures RowFits(Timeline(es + [RecordOf(p, id, Decide(es, row, p))], k), Decide(es, row, p).row)
  {
    var v := Decide(es, row, p);
    var r := RecordOf(p, id, v);
    var t := Timeline(es, k);
    VerdictKeepsEpisode(es, row, p, id, k);
    TimelineAfter(es, r, k);
    if Opens(es, r, k) {
      OpeningExtends(t, r.createdAt);
    } else if r.startedAt.Some? {
      ClosingExtends(t, r.startedAt.value);
    }
  }

  lemma StepKeepsTimeline(b: Book, p: Params, id: nat, k: Key)
    requires RowRefines(b.events, k, Lookup(b.incidents, k))
    requires RowFits(Timeline(b.events, k), Lookup(b.incidents, k))
    ensures RowFits(Timeline(Accept(b, p, id).events, k), Lookup(Accept(b, p, id).incidents, k))
  {
    if !Known(b.events, p.client, p.event.eventId) {
      var row := Lookup(b.incidents, k);
      RowAfter(b, p, id, k);
      if KeyOf(p.client, p.event) == k {
        RowDecidesFiring(b.events, k, row);
        EpisodeExtends(b.events, row, p, id, k);
      } else {
        TimelineAfter(b.events, RecordOf(p, id, VerdictFor(b, p)), k);
      }
    }
  }

  lemma {:induction false} RunKeepsBoth(steps: seq<Step>, k: Key)
    requires NothingPurged(steps)
    ensures RowRefines(Run(steps).events, k, Lookup(Run(steps).incidents, k))
    ensures RowFits(Timeline(Run(steps).events, k), Lookup(Run(steps).incidents, k))
  {
    if steps == [] {
    } else {
      RunKeepsBoth(Init(steps), k);
      assert Last(steps) in steps;
      var b := Run(Init(steps));
      match Last(steps)
      case Offer(p, id) =>
        StepKeepsRow(b, p, id, k);
        StepKeepsTimeline(b, p, id, k);
      case Purge(gone) =>
        PurgingNothing(b.events);
    }
  }

  /** Last-writer-wins: the incidents table is a function of the stored history, whatever was offered. */
  lemma {:induction false} LastWriterWins(steps: seq<Step>, k: Key)
    requires NothingPurged(steps)
    ensures k in Run(steps).incidents <==> SomeFiringStored(Run(steps).events, k)
    ensures k in Run(steps).incidents ==>
              exists i: nat :: i < |Run(steps).events| && IsLastWriter(Run(steps).events, k, i) &&
                (Run(steps).incidents[k].state.IsFiring? <==> Run(steps).events[i].event.status.Firing?)
  {
    RunKeepsBoth(steps, k);
  }

  /** Episodes open and close in turn; a resolved event reports the receipt time of the firing that opened its episode. */
  lemma {:induction false} EpisodesAlternate(steps: seq<Step>, k: Key)
    requires NothingPurged(steps)
    ensures Alternates(Timeline(Run(steps).events, k))
    ensures k in Run(steps).incidents ==>
              Timeline(Run(steps).events, k) != [] &&
              (Run(steps).incidents[k].state.IsFiring? <==> Last(Timeline(Run(steps).events, k)).Opened?)
  {
    RunKeepsBoth(steps, k);
  }
}
