/** When the integrity check of a commit accepts what a command built. */
module ControlPlaneValidity {
  import opened Common
  import opened ControlPlane

  // ------------------------------------------------------------------ logs

  lemma LogOfAppend(events: seq<Event>, e: Event, run: Id)
    ensures LogOf(events + [e], run) == LogOf(events, run) + (if e.run == run then [e] else [])
  {
    assert (events + [e])[..|events + [e]| - 1] == events;
  }

  lemma {:induction false} LogOfConcat(events: seq<Event>, more: seq<Event>, run: Id)
    ensures LogOf(events + more, run) == LogOf(events, run) + LogOf(more, run)
    decreases |more|
  {
    if more == [] {
      assert events + more == events;
    } else {
      var init, e := more[..|more| - 1], more[|more| - 1];
      LogOfConcat(events, init, run);
      assert events + more == (events + init) + [e];
      LogOfAppend(events + init, e, run);
    }
  }

  lemma {:induction false} LogOfMembers(events: seq<Event>, run: Id)
    ensures forall e :: e in LogOf(events, run) <==> e in events && e.run == run
  {
    if events == [] {
    } else {
      var init, e := events[..|events| - 1], events[|events| - 1];
      LogOfMembers(init, run);
      assert events == init + [e];
    }
  }

  // --------------------------------------------------------- appended events

  function EventAt(s: Snapshot, run: Id, state: State, draft: Draft, stamp: Time, id: Id): Event {
    Event(s.nextSequence, id, run, draft.source, draft.kind, stamp, draft.refs, state)
  }

  /** The part of the check about events that does not mention runs. */
  predicate EventsSound(s: Snapshot) {
    EventsInOrder(s.events) && forall e | e in s.events :: ValidEvent(e) && e.sequence < s.nextSequence
  }

  predicate DraftsSound(drafts: seq<Draft>) {
    forall d | d in drafts :: |d.refs| <= MAX_EVIDENCE_PER_EVENT
        && forall ref | ref in d.refs :: Filled(ref.artifact) && Filled(ref.digest)
  }

  /** `stamp` is not before any event on record. */
  predicate NotBefore(s: Snapshot, stamp: Time) {
    stamp.Instant? && forall e | e in s.events :: Upto(e.stamp, stamp)
  }

  /** A readable stamp is in order exactly when the reading needs no bump to be
      after the last stamp, or is not before it once its fraction of a
      millisecond is dropped. */
  lemma StampInOrderIff(s: Snapshot, now: int)
    requires EventsInOrder(s.events) && (forall e | e in s.events :: e.stamp.Instant?) && Stamp(s, now).Instant?
    ensures NotBefore(s, Stamp(s, now)) <==> InOrder(s, now)
    ensures NotBefore(s, Stamp(s, now)) <==> s.events == [] || Upto(s.events[|s.events| - 1].stamp, Stamp(s, now))
  {
    if s.events != [] {
      var last := s.events[|s.events| - 1];
      assert last in s.events && last.stamp.Instant?;
      forall e | e in s.events ensures Upto(e.stamp, last.stamp) {
        var i :| 0 <= i < |s.events| && s.events[i] == e;
        assert i == |s.events| - 1 || i < |s.events| - 1;
      }
    }
  }

  /** What a caller can check before a command that reports an event. */
  predicate InOrder(s: Snapshot, now: int) {
    match LastStamp(s)
    case Some(Instant(last)) => now <= last || now - now % MILLISECOND >= last
    case _ => true
  }

  lemma AppendOneSound(s: Snapshot, run: Id, state: State, draft: Draft, stamp: Time, id: Id, next: Snapshot)
    requires AppendEvent(s, run, state, draft, stamp, id) == Ok(next) && 0 <= s.nextSequence < UINT64
    requires EventsSound(s) && NotBefore(s, stamp) && DraftsSound([draft])
    ensures EventsSound(next) <==> s.nextSequence + 1 < UINT64
    ensures NotBefore(next, stamp)
    ensures next.nextSequence == (if s.nextSequence + 1 < UINT64 then s.nextSequence + 1 else 0)
    ensures s.nextSequence + 1 == UINT64 ==> Wrapped(next)
  {
    var e := EventAt(s, run, state, draft, stamp, id);
    assert next.events == s.events + [e];
    assert draft in [draft];
    if s.nextSequence + 1 < UINT64 {
      forall i, j | 0 <= i < j < |next.events|
        ensures next.events[i].id != next.events[j].id && next.events[i].sequence < next.events[j].sequence
                && Upto(next.events[i].stamp, next.events[j].stamp)
      {
        assert next.events[i] in s.events;
      }
    } else {
      assert e in next.events && e.sequence >= next.nextSequence;
    }
  }

  lemma DraftsSoundSplit(drafts: seq<Draft>)
    requires DraftsSound(drafts) && drafts != []
    ensures DraftsSound([drafts[0]]) && DraftsSound(drafts[1..])
  {
    assert drafts[0] in drafts;
  }

  /** Once the cursor has wrapped, some event keeps a number beyond it. */
  predicate Wrapped(s: Snapshot) { exists e :: e in s.events && e.sequence == UINT64 - 1 }

  lemma {:induction false} AppendAllSound(s: Snapshot, run: Id, state: State, drafts: seq<Draft>, stamp: Time,
      ids: seq<Id>, next: Snapshot)
    requires AppendEvents(s, run, state, drafts, stamp, ids) == Ok(next) && 0 <= s.nextSequence < UINT64
    requires EventsSound(s) && (drafts == [] || NotBefore(s, stamp)) && DraftsSound(drafts)
    ensures 0 <= next.nextSequence < UINT64
    ensures EventsSound(next) <==> drafts == [] || s.nextSequence + |drafts| < UINT64
    decreases |drafts|
  {
    if drafts == [] {
    } else {
      var id := if ids == [] then Null else ids[0];
      var mid := AppendEvent(s, run, state, drafts[0], stamp, id).value;
      var rest := if ids == [] then [] else ids[1..];
      hide EventsSound, NotBefore, DraftsSound, Wrapped, AppendEvent;
      DraftsSoundSplit(drafts);
      assert AppendEvents(mid, run, state, drafts[1..], stamp, rest) == Ok(next);
      hide AppendEvents;
      AppendOneSound(s, run, state, drafts[0], stamp, id, mid);
      if s.nextSequence + 1 < UINT64 {
        AppendAllSound(mid, run, state, drafts[1..], stamp, rest, next);
      } else {
        WrappedStays(mid, run, state, drafts[1..], stamp, rest, next);
      }
    }
  }

  lemma {:induction false} WrappedStays(s: Snapshot, run: Id, state: State, drafts: seq<Draft>, stamp: Time,
      ids: seq<Id>, next: Snapshot)
    requires AppendEvents(s, run, state, drafts, stamp, ids) == Ok(next) && 0 <= s.nextSequence < UINT64 && Wrapped(s)
    ensures 0 <= next.nextSequence < UINT64 && !EventsSound(next)
    decreases |drafts|
  {
    if drafts == [] {
    } else {
      var mid := AppendEvent(s, run, state, drafts[0], stamp, if ids == [] then Null else ids[0]).value;
      var e :| e in s.events && e.sequence == UINT64 - 1;
      assert e in mid.events;
      WrappedStays(mid, run, state, drafts[1..], stamp, if ids == [] then [] else ids[1..], next);
    }
  }

  predicate Reports(e: Event, run: Id, state: State, draft: Draft, stamp: Time) {
    e.run == run && e.state == state && e.stamp == stamp && e.source == draft.source && e.kind == draft.kind
    && e.refs == draft.refs
  }

  lemma AppendOneShape(s: Snapshot, run: Id, state: State, draft: Draft, stamp: Time, id: Id, next: Snapshot)
    requires AppendEvent(s, run, state, draft, stamp, id) == Ok(next)
    ensures next.runs == s.runs && next.approvals == s.approvals && s.events < next.events
    ensures |next.events| == |s.events| + 1
    ensures Reports(next.events[|s.events|], run, state, draft, stamp)
  {}

  /** Where the appended events sit, and what they say. */
  lemma {:induction false} AppendAllShape(s: Snapshot, run: Id, state: State, drafts: seq<Draft>, stamp: Time,
      ids: seq<Id>, next: Snapshot)
    requires AppendEvents(s, run, state, drafts, stamp, ids) == Ok(next)
    ensures next.runs == s.runs && next.approvals == s.approvals && |next.events| == |s.events| + |drafts|
    ensures s.events <= next.events
    ensures forall j | |s.events| <= j < |next.events| ::
            Reports(next.events[j], run, state, drafts[j - |s.events|], stamp)
    decreases |drafts|
  {
    hide AppendEvent, Reports;
    if drafts == [] {
    } else {
      var mid := AppendEvent(s, run, state, drafts[0], stamp, if ids == [] then Null else ids[0]).value;
      AppendOneShape(s, run, state, drafts[0], stamp, if ids == [] then Null else ids[0], mid);
      AppendAllShape(mid, run, state, drafts[1..], stamp, if ids == [] then [] else ids[1..], next);
      assert next.events[|s.events|] == mid.events[|s.events|];
      forall j | |s.events| <= j < |next.events|
        ensures Reports(next.events[j], run, state, drafts[j - |s.events|], stamp)
      {
        if j > |s.events| { assert drafts[j - |s.events|] == drafts[1..][j - |mid.events|]; }
      }
    }
  }

  lemma AppendOneLog(s: Snapshot, run: Id, state: State, draft: Draft, stamp: Time, id: Id, next: Snapshot, o: Id)
    requires AppendEvent(s, run, state, draft, stamp, id) == Ok(next)
    ensures o != run ==> LogOf(next.events, o) == LogOf(s.events, o)
    ensures LogOf(s.events, o) <= LogOf(next.events, o)
    ensures |LogOf(next.events, run)| == |LogOf(s.events, run)| + 1 <= MAX_EVENTS_PER_RUN
  {
    LogOfAppend(s.events, EventAt(s, run, state, draft, stamp, id), o);
    LogOfAppend(s.events, EventAt(s, run, state, draft, stamp, id), run);
  }

  /** Only the named run's log grows, within its limit. */
  lemma {:induction false} AppendAllLogs(s: Snapshot, run: Id, state: State, drafts: seq<Draft>, stamp: Time,
      ids: seq<Id>, next: Snapshot, o: Id)
    requires AppendEvents(s, run, state, drafts, stamp, ids) == Ok(next)
    ensures o != run ==> LogOf(next.events, o) == LogOf(s.events, o)
    ensures LogOf(s.events, o) <= LogOf(next.events, o)
    ensures |LogOf(next.events, run)| == |LogOf(s.events, run)| + |drafts|
    ensures drafts != [] ==> |LogOf(next.events, run)| <= MAX_EVENTS_PER_RUN
    decreases |drafts|
  {
    hide AppendEvent, LogOf;
    if drafts == [] {
    } else {
      var id := if ids == [] then Null else ids[0];
      var mid := AppendEvent(s, run, state, drafts[0], stamp, id).value;
      AppendOneLog(s, run, state, drafts[0], stamp, id, mid, o);
      AppendOneLog(s, run, state, drafts[0], stamp, id, mid, run);
      AppendAllLogs(mid, run, state, drafts[1..], stamp, if ids == [] then [] else ids[1..], next, o);
    }
  }

  // ------------------------------------------------------- the changed run

  /** A change keeps its run valid exactly when its stamp is not before the
      run's creation; it never touches identity, and a decided run's digest stays. */
  lemma ChangeKeepsRun(hash: Hash, s: Snapshot, i: nat, c: Command, draw: Draw)
    requires i < |s.runs| && !c.CreateRun? && Malformed(c).None? && ValidRun(hash, s.runs[i])
    requires ChangeOf(hash, s, i, c, draw).Ok?
    ensures var run := s.runs[i];
            var change := ChangeOf(hash, s, i, c, draw).value;
            && (ValidRun(hash, change.run) <==> Upto(run.createdAt, Stamp(s, draw.now)))
            && change.run.id == run.id && DraftsSound(change.drafts) && (c.AttachSourcePlan? <==> change.drafts == [])
            && (!c.Decide? ==> change.decision.None? && change.run.approval == run.approval
                               && (Filled(run.portfolio) ==> change.run.portfolio == run.portfolio))
            && (c.Decide? ==> change.decision.Some? && !Filled(run.approval)
                              && (Stamp(s, draw.now).Instant? ==> ApprovalMatches(change.decision.value, change.run))
                              && Usable(s, change.decision.value.id))
  {
    hide AdvanceChange, FailChange, AttachChange, EnterChange, Stamp;
    match c
    case AdvanceSource(_, _, _, _) =>
      AdvanceKeepsRun(hash, s.runs[i], c, Stamp(s, draw.now));
      AdvanceIs(s.runs[i], c, Stamp(s, draw.now));
    case AttachSourcePlan(_, _, _, _) => AttachKeepsRun(hash, s.runs[i], c, Stamp(s, draw.now));
    case EnterAwaitingApproval(_) => EnterKeepsRun(hash, s.runs[i], Stamp(s, draw.now));
    case FailSource(_, _, _) => FailKeepsRun(hash, s.runs[i], c, Stamp(s, draw.now));
    case _ =>
  }

  lemma AttachKeepsRun(hash: Hash, run: Run, c: Command, stamp: Time)
    requires ValidRun(hash, run) && c.AttachSourcePlan? && Malformed(c).None? && AttachChange(run, c, stamp).Ok?
    ensures var change := AttachChange(run, c, stamp).value;
            && (ValidRun(hash, change.run) <==> Upto(run.createdAt, stamp)) && DraftsSound(change.drafts)
            && change.run.id == run.id && change.decision.None? && change.run.approval == run.approval
            && change.run.portfolio == run.portfolio && change.drafts == []
  {}

  lemma EnterKeepsRun(hash: Hash, run: Run, stamp: Time)
    requires ValidRun(hash, run) && EnterChange(hash, run, stamp).Ok?
    ensures var change := EnterChange(hash, run, stamp).value;
            && (ValidRun(hash, change.run) <==> Upto(run.createdAt, stamp)) && DraftsSound(change.drafts)
            && change.drafts != []
            && change.run.id == run.id && change.decision.None? && change.run.approval == run.approval
            && (Filled(run.portfolio) ==> change.run.portfolio == run.portfolio)
  {}

  lemma FailKeepsRun(hash: Hash, run: Run, c: Command, stamp: Time)
    requires ValidRun(hash, run) && c.FailSource? && Malformed(c).None? && FailChange(run, c, stamp).Ok?
    ensures var change := FailChange(run, c, stamp).value;
            && (ValidRun(hash, change.run) <==> Upto(run.createdAt, stamp)) && DraftsSound(change.drafts)
            && change.drafts != []
            && change.run.id == run.id && change.decision.None? && change.run.approval == run.approval
            && change.run.portfolio == run.portfolio
  {}

  lemma AdvanceKeepsRun(hash: Hash, run: Run, c: Command, stamp: Time)
    requires ValidRun(hash, run) && c.AdvanceSource? && Malformed(c).None? && !Terminal(run.state)
    requires AdvanceChange(run, c, stamp).Ok?
    ensures var change := AdvanceChange(run, c, stamp).value;
            (ValidRun(hash, change.run) <==> Upto(run.createdAt, stamp)) && DraftsSound(change.drafts)
  {
    hide AdvanceChange, Derive, ValidSource, DraftsSound;
    var change := AdvanceChange(run, c, stamp).value;
    var src := change.run.sources.At(c.source);
    AdvanceIs(run, c, stamp);
    AdvanceDerives(run.sources, c.source, src, c.to);
  }

  /** A step moves one source and nothing else of its run but the derived state and the time. */
  lemma AdvanceIs(run: Run, c: Command, stamp: Time)
    requires c.AdvanceSource? && Malformed(c).None? && AdvanceChange(run, c, stamp).Ok?
    requires ValidSource(run.sources.At(c.source))
    ensures var change := AdvanceChange(run, c, stamp).value;
            var was, src := run.sources.At(c.source), change.run.sources.At(c.source);
            && ValidSource(src) && src.plan == was.plan && DraftsSound(change.drafts) && change.drafts != []
            && change.decision.None?
            && was.state == StepTo(c.to).value.from && src.state == c.to
            && change.run == Settled(run.(sources := run.sources.Put(c.source, src)), stamp)
  {
    hide Derive;
  }

  /** A step of one source never carries its run across the approval gate. */
  lemma AdvanceDerives(sources: Three<Source>, id: SourceId, src: Source, to: State)
    requires InProgress(Derive(sources)) && StepTo(to).Some? && sources.At(id).state == StepTo(to).value.from
    requires src.state == to
    ensures var next := Derive(sources.Put(id, src));
            InProgress(next) && (Rank(next) >= 4 ==> Rank(Derive(sources)) >= 4)
  {
  }

  // ------------------------------------------------------------- approvals

  lemma ApprovalsStay(s: Snapshot, i: nat, run: Run)
    requires i < |s.runs| && RunsDistinct(s.runs) && ValidApprovals(s.approvals, s.runs)
    requires run.id == s.runs[i].id && run.approval == s.runs[i].approval
    requires (Filled(run.approval) ==> run.portfolio == s.runs[i].portfolio)
    ensures ValidApprovals(s.approvals, s.runs[i := run])
  {
    hide DecisionsMatch, RunsMatch, DecisionsDistinct, RunsDistinct;
    DecisionsStillMatch(s, i, run);
    RunsStillMatch(s, i, run);
  }

  lemma DecisionsStillMatch(s: Snapshot, i: nat, run: Run)
    requires i < |s.runs| && DecisionsMatch(s.approvals, s.runs)
    requires run.id == s.runs[i].id && run.approval == s.runs[i].approval
    requires (Filled(run.approval) ==> run.portfolio == s.runs[i].portfolio)
    ensures DecisionsMatch(s.approvals, s.runs[i := run])
  {
    var runs := s.runs[i := run];
    forall a | a in s.approvals ensures exists r :: r in runs && ApprovalMatches(a, r) {
      var r :| r in s.runs && ApprovalMatches(a, r);
      var j :| 0 <= j < |s.runs| && s.runs[j] == r;
      assert runs[j] in runs && ApprovalMatches(a, runs[j]);
    }
  }

  lemma RunsStillMatch(s: Snapshot, i: nat, run: Run)
    requires i < |s.runs| && RunsMatch(s.approvals, s.runs)
    requires run.id == s.runs[i].id && run.approval == s.runs[i].approval
    requires (Filled(run.approval) ==> run.portfolio == s.runs[i].portfolio)
    ensures RunsMatch(s.approvals, s.runs[i := run])
  {
    var runs := s.runs[i := run];
    forall r | r in runs && Filled(r.approval) ensures exists a :: a in s.approvals && ApprovalMatches(a, r) {
      var j :| 0 <= j < |runs| && runs[j] == r;
      assert s.runs[j] in s.runs;
      var a :| a in s.approvals && ApprovalMatches(a, s.runs[j]);
      assert ApprovalMatches(a, r);
    }
  }

  lemma DecisionJoins(s: Snapshot, i: nat, run: Run, a: Approval)
    requires i < |s.runs| && RunsDistinct(s.runs) && ValidApprovals(s.approvals, s.runs)
    requires run.id == s.runs[i].id && !Filled(s.runs[i].approval) && ApprovalMatches(a, run) && Usable(s, a.id)
    ensures ValidApprovals(s.approvals + [a], s.runs[i := run])
  {
    hide Usable, DecisionsMatch, RunsMatch, DecisionsDistinct, RunsDistinct, ApprovalMatches;
    assert a.run == s.runs[i].id by { MatchNames(a, run); }
    DecisionDistinct(s, i, a);
    DecisionsMatchMore(s, i, run, a);
    RunsMatchMore(s, i, run, a);
  }

  lemma MatchNames(a: Approval, run: Run)
    requires ApprovalMatches(a, run)
    ensures a.run == run.id
  {
  }

  lemma DecisionsMatchMore(s: Snapshot, i: nat, run: Run, a: Approval)
    requires i < |s.runs| && DecisionsMatch(s.approvals, s.runs)
    requires !Filled(s.runs[i].approval) && ApprovalMatches(a, run)
    ensures DecisionsMatch(s.approvals + [a], s.runs[i := run])
  {
    var runs := s.runs[i := run];
    assert runs[i] in runs && ApprovalMatches(a, runs[i]);
    forall b | b in s.approvals ensures exists r :: r in runs && ApprovalMatches(b, r) {
      var r :| r in s.runs && ApprovalMatches(b, r);
      var j :| 0 <= j < |s.runs| && s.runs[j] == r;
      assert runs[j] in runs && ApprovalMatches(b, runs[j]);
    }
  }

  lemma RunsMatchMore(s: Snapshot, i: nat, run: Run, a: Approval)
    requires i < |s.runs| && RunsMatch(s.approvals, s.runs) && ApprovalMatches(a, run)
    ensures RunsMatch(s.approvals + [a], s.runs[i := run])
  {
    hide ApprovalMatches;
    var runs, approvals := s.runs[i := run], s.approvals + [a];
    assert a in approvals;
    forall r | r in runs && Filled(r.approval) ensures exists b :: b in approvals && ApprovalMatches(b, r) {
      var j :| 0 <= j < |runs| && runs[j] == r;
      if j == i {
        assert a in approvals && ApprovalMatches(a, r);
      } else {
        assert s.runs[j] in s.runs;
        var b :| b in s.approvals && ApprovalMatches(b, s.runs[j]);
        assert b in approvals && ApprovalMatches(b, r);
      }
    }
  }

  /** Nobody decided on a run that names no decision. */
  lemma NoneDecided(s: Snapshot, i: nat)
    requires i < |s.runs| && RunsDistinct(s.runs) && DecisionsMatch(s.approvals, s.runs) && !Filled(s.runs[i].approval)
    ensures forall a | a in s.approvals :: a.run != s.runs[i].id && Filled(a.id)
  {
    forall a | a in s.approvals ensures a.run != s.runs[i].id && Filled(a.id) {
      var r :| r in s.runs && ApprovalMatches(a, r);
      var j :| 0 <= j < |s.runs| && s.runs[j] == r;
      assert j != i;
    }
  }

  lemma DecisionDistinct(s: Snapshot, i: nat, a: Approval)
    requires i < |s.runs| && RunsDistinct(s.runs) && ValidApprovals(s.approvals, s.runs)
    requires a.run == s.runs[i].id && !Filled(s.runs[i].approval) && Usable(s, a.id)
    ensures DecisionsDistinct(s.approvals + [a])
  {
    hide DecisionsMatch, RunsMatch, RunsDistinct;
    NoneDecided(s, i);
    var approvals := s.approvals + [a];
    forall x, y | 0 <= x < y < |approvals|
      ensures approvals[x].id != approvals[y].id && approvals[x].run != approvals[y].run
    {
      assert approvals[x] in s.approvals;
    }
  }

  // ------------------------------------------------------------ the theorem

  /** How many events a command appended. */
  function Grown(s: Snapshot, next: Snapshot): int { |next.events| - |s.events| }

  /** The cursor does not wrap around. */
  predicate CursorHolds(s: Snapshot, next: Snapshot) {
    Grown(s, next) == 0 || s.nextSequence + Grown(s, next) < UINT64
  }

  predicate SameRunIds(runs: seq<Run>, next: seq<Run>) {
    |runs| == |next| && forall i | 0 <= i < |runs| :: runs[i].id == next[i].id
  }

  lemma KnownStays(runs: seq<Run>, next: seq<Run>, id: Id)
    requires SameRunIds(runs, next)
    ensures KnownRun(next, id) <==> KnownRun(runs, id)
  {
    if KnownRun(runs, id) {
      var r :| r in runs && r.id == id;
      var i :| 0 <= i < |runs| && runs[i] == r;
      assert next[i] in next && next[i].id == id;
    }
    if KnownRun(next, id) {
      var r :| r in next && r.id == id;
      var i :| 0 <= i < |next| && next[i] == r;
      assert runs[i] in runs && runs[i].id == id;
    }
  }

  lemma PublishKnown(s: Snapshot, next: Snapshot, run: Run)
    requires (forall e | e in s.events :: KnownRun(s.runs, e.run)) && s.events <= next.events
    requires (forall id :: KnownRun(s.runs, id) ==> KnownRun(next.runs, id)) && run in next.runs
    requires forall j | |s.events| <= j < |next.events| :: next.events[j].run == run.id
    ensures forall e | e in next.events :: KnownRun(next.runs, e.run)
  {
    forall j | 0 <= j < |next.events| ensures KnownRun(next.runs, next.events[j].run) {
      if j < |s.events| { assert next.events[j] == s.events[j] && s.events[j] in s.events; }
    }
  }

  lemma ValidEventsSplit(s: Snapshot)
    ensures ValidEvents(s) <==> EventsSound(s) && (forall e | e in s.events :: KnownRun(s.runs, e.run))
                                && (forall r | r in s.runs :: ValidLog(LogOf(s.events, r.id)))
  {
  }

  /** The event half of the check after a run was changed in place. */
  lemma PublishEvents(s: Snapshot, runs: seq<Run>, approvals: seq<Approval>, run: Run, drafts: seq<Draft>, stamp: Time,
      ids: seq<Id>, next: Snapshot)
    requires ValidEvents(s) && SameRunIds(s.runs, runs) && run in runs && 0 <= s.nextSequence < UINT64
    requires (drafts == [] || NotBefore(s, stamp)) && DraftsSound(drafts)
    requires AppendEvents(s.(runs := runs, approvals := approvals), run.id, run.state, drafts, stamp, ids) == Ok(next)
    ensures ValidEvents(next) <==> CursorHolds(s, next)
    ensures next.runs == runs && next.approvals == approvals && 0 <= next.nextSequence < UINT64
  {
    var base := s.(runs := runs, approvals := approvals);
    assert EventsSound(s) == EventsSound(base) && NotBefore(s, stamp) == NotBefore(base, stamp);
    hide ValidEvents, EventsSound, NotBefore, DraftsSound, ValidLog, KnownRun, AppendEvents;
    ValidEventsSplit(s);
    ValidEventsSplit(next);
    AppendAllSound(base, run.id, run.state, drafts, stamp, ids, next);
    AppendAllShape(base, run.id, run.state, drafts, stamp, ids, next);
    forall id ensures KnownRun(s.runs, id) ==> KnownRun(next.runs, id) { KnownStays(s.runs, runs, id); }
    PublishKnown(s, next, run);
    PublishLogs(s, base, run, drafts, stamp, ids, next);
  }

  lemma PublishLogs(s: Snapshot, base: Snapshot, run: Run, drafts: seq<Draft>, stamp: Time, ids: seq<Id>,
                    next: Snapshot)
    requires (forall r | r in s.runs :: ValidLog(LogOf(s.events, r.id))) && SameRunIds(s.runs, next.runs)
    requires base.events == s.events
    requires AppendEvents(base, run.id, run.state, drafts, stamp, ids) == Ok(next)
    ensures forall r | r in next.runs :: ValidLog(LogOf(next.events, r.id))
  {
    forall r | r in next.runs ensures ValidLog(LogOf(next.events, r.id)) {
      var j :| 0 <= j < |next.runs| && next.runs[j] == r;
      assert s.runs[j] in s.runs && ValidLog(LogOf(s.events, r.id));
      AppendAllLogs(base, run.id, run.state, drafts, stamp, ids, next, r.id);
    }
  }

  lemma DistinctStays(runs: seq<Run>, next: seq<Run>)
    requires RunsDistinct(runs) && SameRunIds(runs, next)
    ensures RunsDistinct(next)
  {
  }

  lemma UpdateAcceptedIff(hash: Hash, s: Snapshot, c: Command, draw: Draw, i: nat, next: Snapshot)
    requires ValidSnapshot(hash, s) && !c.CreateRun? && Malformed(c).None? && i < |s.runs|
    requires FindRun(s.runs, c.run) == Some(i)
    requires ChangeOf(hash, s, i, c, draw).Ok? && Publish(s, i, ChangeOf(hash, s, i, c, draw).value, draw) == Ok(next)
    ensures ValidSnapshot(hash, next) <==>
              && CursorHolds(s, next) && Upto(s.runs[i].createdAt, Stamp(s, draw.now))
              && (c.AttachSourcePlan? || InOrder(s, draw.now))
    ensures next.runs == s.runs[i := ChangeOf(hash, s, i, c, draw).value.run]
  {
    var change := ChangeOf(hash, s, i, c, draw).value;
    var base := s.(runs := s.runs[i := change.run],
                   approvals := s.approvals + (if change.decision.Some? then [change.decision.value] else []));
    var stamp := Stamp(s, draw.now);
    assert s.runs[i] in s.runs;
    assert AppendEvents(base, change.run.id, change.run.state, change.drafts, stamp, draw.events) == Ok(next);
    hide ChangeOf, ValidRun, ValidEvents, ValidApprovals, Stamp, InOrder, EventsInOrder, NotBefore, FindRun,
        RunsDistinct, Publish, AppendEvents, ApprovalMatches, Usable;
    ChangeKeepsRun(hash, s, i, c, draw);
    AppendAllShape(base, change.run.id, change.run.state, change.drafts, stamp, draw.events, next);
    hide RunsValid;
    OneRunValid(hash, s.runs, i, change.run);
    if stamp.Instant? {
      ReadableAcceptedIff(hash, s, c, draw, i, change, base, next);
    }
  }

  /** The rest of the check, once the stamp is readable. */
  lemma ReadableAcceptedIff(hash: Hash, s: Snapshot, c: Command, draw: Draw, i: nat, change: Change, base: Snapshot,
      next: Snapshot)
    requires ValidSnapshot(hash, s) && i < |s.runs| && Stamp(s, draw.now).Instant?
    requires change.run.id == s.runs[i].id && DraftsSound(change.drafts)
    requires c.AttachSourcePlan? <==> change.drafts == []
    requires !c.Decide? ==> change.decision.None? && change.run.approval == s.runs[i].approval
                            && (Filled(s.runs[i].portfolio) ==> change.run.portfolio == s.runs[i].portfolio)
    requires c.Decide? ==> change.decision.Some? && !Filled(s.runs[i].approval)
                           && ApprovalMatches(change.decision.value, change.run) && Usable(s, change.decision.value.id)
    requires base == s.(runs := s.runs[i := change.run],
                        approvals := s.approvals + (if change.decision.Some? then [change.decision.value] else []))
    requires AppendEvents(base, change.run.id, change.run.state, change.drafts, Stamp(s, draw.now), draw.events)
         == Ok(next)
    ensures ValidSnapshot(hash, next) <==>
              && CursorHolds(s, next) && RunsValid(hash, base.runs)
              && (c.AttachSourcePlan? || InOrder(s, draw.now))
  {
    var stamp := Stamp(s, draw.now);
    hide ValidRun, ValidEvents, ValidApprovals, Stamp, InOrder, EventsInOrder, NotBefore, RunsDistinct, AppendEvents,
        ApprovalMatches, Usable, RunsValid, DraftsSound, CursorHolds, EventsSound;
    ReadableLog(s);
    StampInOrderIff(s, draw.now);
    DistinctStays(s.runs, base.runs);
    ApprovalsAccepted(hash, s, i, c, change, base.approvals);
    if change.drafts == [] || NotBefore(s, stamp) {
      assert base.runs[i] in base.runs;
      PublishEvents(s, base.runs, base.approvals, change.run, change.drafts, stamp, draw.events, next);
    } else {
      LateStampRefused(s, base, change, stamp, draw.events, next);
    }
    AppendAllShape(base, change.run.id, change.run.state, change.drafts, stamp, draw.events, next);
  }

  lemma ReadableLog(s: Snapshot)
    requires ValidEvents(s)
    ensures EventsInOrder(s.events) && forall e | e in s.events :: e.stamp.Instant?
  {
    assert forall e | e in s.events :: ValidEvent(e);
  }

  /** An event stamped before the last one on record is refused. */
  lemma LateStampRefused(s: Snapshot, base: Snapshot, change: Change, stamp: Time, ids: seq<Id>, next: Snapshot)
    requires base.events == s.events != [] && change.drafts != []
    requires AppendEvents(base, change.run.id, change.run.state, change.drafts, stamp, ids) == Ok(next)
    requires !Upto(s.events[|s.events| - 1].stamp, stamp)
    ensures !ValidEvents(next)
  {
    hide AppendEvents, ValidEvent, KnownRun, ValidLog;
    AppendAllShape(base, change.run.id, change.run.state, change.drafts, stamp, ids, next);
    var n := |s.events|;
    assert Reports(next.events[n], change.run.id, change.run.state, change.drafts[0], stamp);
    assert next.events[n - 1] == s.events[n - 1];
  }

  lemma OneRunValid(hash: Hash, runs: seq<Run>, i: nat, run: Run)
    requires RunsValid(hash, runs) && i < |runs|
    ensures RunsValid(hash, runs[i := run]) <==> ValidRun(hash, run)
  {
    hide ValidRun;
    var next := runs[i := run];
    assert next[i] in next;
    forall r | r in next && r != run ensures ValidRun(hash, r) {
      var j :| 0 <= j < |next| && next[j] == r;
      assert runs[j] in runs;
    }
  }

  lemma ApprovalsAccepted(hash: Hash, s: Snapshot, i: nat, c: Command, change: Change, approvals: seq<Approval>)
    requires i < |s.runs| && RunsDistinct(s.runs) && ValidApprovals(s.approvals, s.runs)
    requires change.run.id == s.runs[i].id
    requires approvals == s.approvals + (if change.decision.Some? then [change.decision.value] else [])
    requires !c.Decide? ==> change.decision.None? && change.run.approval == s.runs[i].approval
                            && (Filled(s.runs[i].portfolio) ==> change.run.portfolio == s.runs[i].portfolio)
    requires c.Decide? ==>
             change.decision.Some? && !Filled(s.runs[i].approval) && ApprovalMatches(change.decision.value, change.run)
                           && Usable(s, change.decision.value.id)
    ensures ValidApprovals(approvals, s.runs[i := change.run])
  {
    if c.Decide? {
      DecisionJoins(s, i, change.run, change.decision.value);
    } else {
      assert approvals == s.approvals;
      if Filled(s.runs[i].approval) {
        assert s.runs[i] in s.runs;
        var a :| a in s.approvals && ApprovalMatches(a, s.runs[i]);
      }
      ApprovalsStay(s, i, change.run);
    }
  }

  // -------------------------------------------------------------- creation

  lemma CreateEvents(s: Snapshot, run: Run, stamp: Time, ids: seq<Id>, next: Snapshot)
    requires ValidEvents(s) && !KnownRun(s.runs, run.id) && 0 <= s.nextSequence < UINT64 && NotBefore(s, stamp)
    requires AppendEvents(s.(runs := s.runs + [run]), run.id, run.state, [Draft(None, MigrationCreated, [])], stamp,
                          ids)
         == Ok(next)
    ensures ValidEvents(next) <==> CursorHolds(s, next)
    ensures next.runs == s.runs + [run] && next.approvals == s.approvals && 0 <= next.nextSequence < UINT64
  {
    var base := s.(runs := s.runs + [run]);
    var drafts := [Draft(None, MigrationCreated, [])];
    ValidEventsSplit(s);
    ValidEventsSplit(next);
    assert EventsSound(s) == EventsSound(base) && NotBefore(s, stamp) == NotBefore(base, stamp) && DraftsSound(drafts);
    CreateLogs(s, run, stamp, ids, next);
    hide ValidEvents, EventsSound, NotBefore, DraftsSound, ValidLog;
    AppendAllSound(base, run.id, run.state, drafts, stamp, ids, next);
    AppendAllShape(base, run.id, run.state, drafts, stamp, ids, next);
    hide AppendEvents;
    PublishKnown(s, next, run);
  }

  lemma CreateLogs(s: Snapshot, run: Run, stamp: Time, ids: seq<Id>, next: Snapshot)
    requires ValidEvents(s) && !KnownRun(s.runs, run.id)
    requires AppendEvents(s.(runs := s.runs + [run]), run.id, run.state, [Draft(None, MigrationCreated, [])], stamp,
                          ids)
         == Ok(next)
    ensures forall r | r in next.runs :: ValidLog(LogOf(next.events, r.id))
  {
    var base := s.(runs := s.runs + [run]);
    var draft := Draft(None, MigrationCreated, []);
    var id := if ids == [] then Null else ids[0];
    assert [draft][1..] == [];
    var e := EventAt(base, run.id, run.state, draft, stamp, id);
    assert next.events == s.events + [e] && next.runs == s.runs + [run];
    NoLog(s.events, run.id);
    forall r | r in next.runs ensures ValidLog(LogOf(next.events, r.id)) {
      LogOfAppend(s.events, e, r.id);
      if r.id != run.id { assert r in s.runs; }
    }
  }

  lemma {:induction false} NoLog(events: seq<Event>, run: Id)
    requires forall e | e in events :: e.run != run
    ensures LogOf(events, run) == []
  {
    if events == [] {
    } else {
      assert events[|events| - 1] in events;
      NoLog(events[..|events| - 1], run);
    }
  }

  lemma CreateAcceptedIff(hash: Hash, s: Snapshot, c: Command, draw: Draw, next: Snapshot)
    requires ValidSnapshot(hash, s) && c.CreateRun? && Malformed(c).None? && BuildCreate(s, c, draw) == Ok(next)
    ensures ValidSnapshot(hash, next) <==>
              CursorHolds(s, next) && Stamp(s, draw.now).Instant? && InOrder(s, draw.now)
    ensures next.runs == s.runs + [FreshRun(c, draw.row, Stamp(s, draw.now))] && !KnownRun(s.runs, draw.row)
  {
    var stamp := Stamp(s, draw.now);
    var run := FreshRun(c, draw.row, stamp);
    var base := s.(runs := s.runs + [run]);
    var drafts := [Draft(None, MigrationCreated, [])];
    assert !KnownRun(s.runs, run.id) && !Filled(run.approval) && |s.runs| < MAX_RUNS;
    assert ValidRun(hash, run) <==> stamp.Instant?;
    assert AppendEvents(base, run.id, run.state, drafts, stamp, draw.events) == Ok(next);
    hide ValidRun, ValidEvents, ValidApprovals, Stamp, NotBefore, FreshRun, EventsInOrder, InOrder, BuildCreate,
        AppendEvents;
    AppendAllShape(base, run.id, run.state, drafts, stamp, draw.events, next);
    assert run in next.runs;
    if stamp.Instant? {
      ReadableLog(s);
      StampInOrderIff(s, draw.now);
      if NotBefore(s, stamp) {
        CreateEvents(s, run, stamp, draw.events, next);
      } else {
        LateStampRefused(s, base, Change(run, drafts, None), stamp, draw.events, next);
      }
      ApprovalsWithNewRun(s, run);
      NewRunDistinct(s.runs, run);
      hide RunsDistinct, KnownRun;
      assert RunsValid(hash, next.runs);
      hide RunsValid;
    }
  }

  lemma NewRunDistinct(runs: seq<Run>, run: Run)
    requires RunsDistinct(runs) && !KnownRun(runs, run.id)
    ensures RunsDistinct(runs + [run])
  {
    forall i, j | 0 <= i < j < |runs + [run]| ensures (runs + [run])[i].id != (runs + [run])[j].id {
      assert (runs + [run])[i] in runs;
    }
  }

  lemma ApprovalsWithNewRun(s: Snapshot, run: Run)
    requires ValidApprovals(s.approvals, s.runs) && !Filled(run.approval)
    ensures ValidApprovals(s.approvals, s.runs + [run])
  {
    hide ApprovalMatches;
    var runs := s.runs + [run];
    forall a | a in s.approvals ensures exists r :: r in runs && ApprovalMatches(a, r) {
      var r :| r in s.runs && ApprovalMatches(a, r);
      assert r in runs;
    }
    forall r | r in runs && Filled(r.approval) ensures exists a :: a in s.approvals && ApprovalMatches(a, r) {
      assert r in s.runs;
    }
  }

  /** On any snapshot the check accepts, it also accepts what a command built
      from it, exactly when the event cursor does not wrap around, the time
      stamped has a year of four digits, a command that reports an event is not
      stamped before the last one by dropping a fraction of a millisecond, and a
      command on an existing run is not stamped before that run's creation. */
  lemma CommitAcceptsIff(hash: Hash, s: Snapshot, c: Command, draw: Draw, next: Snapshot)
    requires ValidSnapshot(hash, s) && Build(hash, s, c, draw) == Ok(next)
    ensures ValidSnapshot(hash, next) <==>
              && CursorHolds(s, next)
              && FourDigitYear(Moment(s, draw.now))
              && (c.AttachSourcePlan? || InOrder(s, draw.now))
              && (c.CreateRun? || Upto(s.runs[FindRun(s.runs, c.run).value].createdAt, Stamp(s, draw.now)))
  {
    hide ValidSnapshot, CursorHolds, InOrder, Moment;
    if c.CreateRun? {
      hide BuildCreate;
      CreateAcceptedIff(hash, s, c, draw, next);
    } else {
      hide Publish, ChangeOf;
      UpdateAcceptedIff(hash, s, c, draw, FindRun(s.runs, c.run).value, next);
    }
  }
}
