/** Every command keeps the control plane sound, so every history does. */
module ControlPlaneHistory {
  import opened Common
  import opened ControlPlane
  import opened ControlPlaneValidity
  import opened ControlPlaneGate

  // --------------------------------------------------- how many events fit

  function LogSizes(events: seq<Event>, runs: seq<Run>): nat
    decreases |runs|
  {
    if runs == [] then 0 else |LogOf(events, runs[0].id)| + LogSizes(events, runs[1..])
  }

  lemma {:induction false} LogSizesGrow(events: seq<Event>, e: Event, runs: seq<Run>)
    requires RunsDistinct(runs)
    ensures LogSizes(events + [e], runs) == LogSizes(events, runs) + One(KnownRun(runs, e.run))
    decreases |runs|
  {
    if runs == [] {
    } else {
      LogOfAppend(events, e, runs[0].id);
      assert RunsDistinct(runs[1..]) by {
        forall i, j | 0 <= i < j < |runs[1..]| ensures runs[1..][i].id != runs[1..][j].id {
          assert runs[i + 1].id != runs[j + 1].id;
        }
      }
      LogSizesGrow(events, e, runs[1..]);
      KnownSplit(runs, e.run);
    }
  }

  lemma KnownSplit(runs: seq<Run>, id: Id)
    requires runs != [] && RunsDistinct(runs)
    ensures KnownRun(runs, id) <==> runs[0].id == id || KnownRun(runs[1..], id)
    ensures runs[0].id == id ==> !KnownRun(runs[1..], id)
  {
    assert forall r | r in runs :: r == runs[0] || r in runs[1..];
    forall r | r in runs[1..] ensures r.id != runs[0].id {
      var j :| 0 <= j < |runs[1..]| && runs[1..][j] == r;
      assert runs[0].id != runs[j + 1].id;
    }
  }

  lemma {:induction false} AllCounted(events: seq<Event>, runs: seq<Run>)
    requires RunsDistinct(runs) && forall e | e in events :: KnownRun(runs, e.run)
    ensures LogSizes(events, runs) == |events|
    decreases |events|
  {
    if events == [] {
      NothingCounted(runs);
    } else {
      var init, e := events[..|events| - 1], events[|events| - 1];
      assert events == init + [e] && e in events;
      AllCounted(init, runs);
      LogSizesGrow(init, e, runs);
    }
  }

  lemma {:induction false} NothingCounted(runs: seq<Run>)
    ensures LogSizes([], runs) == 0
    decreases |runs|
  {
    if runs == [] {
    } else {
      NothingCounted(runs[1..]);
    }
  }

  lemma {:induction false} SizesBounded(events: seq<Event>, runs: seq<Run>)
    requires forall r | r in runs :: |LogOf(events, r.id)| <= MAX_EVENTS_PER_RUN
    ensures LogSizes(events, runs) <= MAX_EVENTS_PER_RUN * |runs|
    decreases |runs|
  {
    if runs == [] {
    } else {
      SizesBounded(events, runs[1..]);
    }
  }

  /** A valid snapshot holds at most ten million events. */
  lemma EventsBounded(hash: Hash, s: Snapshot)
    requires ValidSnapshot(hash, s)
    ensures |s.events| <= MAX_EVENTS_PER_RUN * MAX_RUNS
  {
    hide RunsValid, ValidApprovals, EventsInOrder, ValidEvent;
    AllCounted(s.events, s.runs);
    SizesBounded(s.events, s.runs);
  }

  // -------------------------------------------------------------- commands

  lemma {:induction false} AppendAllCursor(s: Snapshot, run: Id, state: State, drafts: seq<Draft>, stamp: Time,
      ids: seq<Id>, next: Snapshot)
    requires AppendEvents(s, run, state, drafts, stamp, ids) == Ok(next)
    requires 0 <= s.nextSequence && s.nextSequence + |drafts| < UINT64
    ensures next.nextSequence == s.nextSequence + |drafts|
    decreases |drafts|
  {
    if drafts == [] {
    } else {
      var mid := AppendEvent(s, run, state, drafts[0], stamp, if ids == [] then Null else ids[0]).value;
      assert mid.nextSequence == s.nextSequence + 1;
      hide AppendEvent;
      AppendAllCursor(mid, run, state, drafts[1..], stamp, if ids == [] then [] else ids[1..], next);
    }
  }

  lemma ChangeCarries(hash: Hash, s: Snapshot, i: nat, c: Command, draw: Draw, v: View)
    requires i < |s.runs| && !c.CreateRun? && Malformed(c).None? && ChangeOf(hash, s, i, c, draw).Ok?
    requires ValidRun(hash, s.runs[i]) && Shape(s.runs[i]) && Refines(s.runs[i], v)
    ensures var change := ChangeOf(hash, s, i, c, draw).value;
            && Carries(s.runs[i], v, change) && |change.drafts| <= 4 && (change.drafts == [] ==> c.AttachSourcePlan?)
            && change.run.id == s.runs[i].id && (change.decision.Some? <==> c.Decide?)
            && (c.Decide? ==>
                change.decision.value.run == change.run.id
                && (change.decision.value.approves <==> !change.run.state.Cancelled?))
  {
    var run, stamp := s.runs[i], Stamp(s, draw.now);
    hide ValidRun, Shape, Refines, Carries;
    match c
    case AdvanceSource(_, _, _, _) => AdvanceCarries(hash, run, c, stamp, v);
    case AttachSourcePlan(_, _, _, _) => AttachCarries(hash, run, c, stamp, v);
    case EnterAwaitingApproval(_) => EnterCarries(hash, run, stamp, v);
    case FailSource(_, _, _) => FailCarries(hash, run, c, stamp, v);
    case Decide(_, _, _, _, _) => DecideCarries(hash, run, c, stamp, draw.row, v);
  }

  /** After whole milliseconds every stamp is in order, whatever the clock reads. */
  lemma WholeInOrder(s: Snapshot, now: int)
    requires LastIsWhole(s) && FourDigitYear(Moment(s, now))
    ensures InOrder(s, now) && WholeStamp(Stamp(s, now))
    ensures s.events != [] ==> Upto(s.events[|s.events| - 1].stamp, Stamp(s, now))
  {
  }

  /** The last stamp on record after a command's events. */
  lemma LastStampGrows(s: Snapshot, base: Snapshot, run: Run, drafts: seq<Draft>, now: int, ids: seq<Id>,
      next: Snapshot)
    requires base.events == s.events && LastIsWhole(s) && FourDigitYear(Moment(s, now))
    requires AppendEvents(base, run.id, run.state, drafts, Stamp(s, now), ids) == Ok(next)
    ensures LastIsWhole(next)
    ensures s.events != [] ==>
            next.events != [] && Upto(s.events[|s.events| - 1].stamp, next.events[|next.events| - 1].stamp)
  {
    WholeInOrder(s, now);
    hide Stamp, Moment, WholeStamp;
    AppendAllShape(base, run.id, run.state, drafts, Stamp(s, now), ids, next);
    hide AppendEvents;
    if drafts != [] {
      assert Reports(next.events[|next.events| - 1], run.id, run.state, drafts[|drafts| - 1], Stamp(s, now));
    } else {
      assert next.events == s.events;
    }
  }

  lemma NamesStay(runs: seq<Run>, i: nat, run: Run)
    requires NamesDistinct(runs) && i < |runs| && run.name == runs[i].name && !Terminal(runs[i].state)
    ensures NamesDistinct(runs[i := run])
  {
  }

  /** The changed run is sound in the snapshot that publishes it. */
  lemma ChangedRunSound(s: Snapshot, i: nat, change: Change, drafts: seq<Draft>, draw: Draw, base: Snapshot,
      next: Snapshot)
    requires i < |s.runs| && RunSound(s, s.runs[i]) && drafts == change.drafts && base.events == s.events
    requires Carries(s.runs[i], Replay(LogOf(s.events, s.runs[i].id)), change) && change.run.id == s.runs[i].id
    requires AppendEvents(base, change.run.id, change.run.state, drafts, Stamp(s, draw.now), draw.events) == Ok(next)
    requires DecisionsAgree(next.approvals, change.run) && LastIsWhole(s) && FourDigitYear(Moment(s, draw.now))
    ensures RunSound(next, change.run)
  {
    hide Shape, Refines, Replay, ReplayDrafts, DecisionsAgree;
    AppendAllReplay(base, change.run.id, change.run.state, drafts, Stamp(s, draw.now), draw.events, next);
    LastStampGrows(s, base, change.run, drafts, draw.now, draw.events, next);
    assert change.run.createdAt == s.runs[i].createdAt;
  }

  lemma OtherRunSound(s: Snapshot, run: Run, changed: Run, drafts: seq<Draft>, draw: Draw, base: Snapshot,
      next: Snapshot)
    requires RunSound(s, run) && base.events == s.events && run.id != changed.id
    requires AppendEvents(base, changed.id, changed.state, drafts, Stamp(s, draw.now), draw.events) == Ok(next)
    requires DecisionsAgree(next.approvals, run) && LastIsWhole(s) && FourDigitYear(Moment(s, draw.now))
    ensures RunSound(next, run)
  {
    hide Shape, Refines, Replay, DecisionsAgree;
    AppendAllLogs(base, changed.id, changed.state, drafts, Stamp(s, draw.now), draw.events, next, run.id);
    LastStampGrows(s, base, changed, drafts, draw.now, draw.events, next);
  }

  lemma DecisionsStay(s: Snapshot, i: nat, c: Command, change: Change)
    requires i < |s.runs| && ValidApprovals(s.approvals, s.runs) && RunsDistinct(s.runs)
    requires change.run.id == s.runs[i].id
    requires (change.decision.Some? <==> c.Decide?) && (c.Decide? ==> !Filled(s.runs[i].approval))
    requires c.Decide? ==>
             change.decision.value.run == change.run.id
             && (change.decision.value.approves <==> !change.run.state.Cancelled?)
    requires !c.Decide? ==> !change.run.state.Cancelled? && !s.runs[i].state.Cancelled?
    requires forall r | r in s.runs :: DecisionsAgree(s.approvals, r)
    ensures var approvals := s.approvals + (if change.decision.Some? then [change.decision.value] else []);
            DecisionsAgree(approvals, change.run)
            && forall r | r in s.runs && r.id != change.run.id :: DecisionsAgree(approvals, r)
  {
    var approvals := s.approvals + (if change.decision.Some? then [change.decision.value] else []);
    hide DecisionsMatch, RunsMatch, DecisionsDistinct, RunsDistinct;
    assert s.runs[i] in s.runs && DecisionsAgree(s.approvals, s.runs[i]);
    if c.Decide? { NoneDecided(s, i); }
    forall r | r in s.runs && r.id != change.run.id ensures DecisionsAgree(approvals, r) {
      assert DecisionsAgree(s.approvals, r);
    }
  }

  /** The check of the commit accepts what a command built from a reachable
      state exactly when the time stamped has a year of four digits. */
  lemma UpdateValid(hash: Hash, s: Snapshot, c: Command, draw: Draw, i: nat, next: Snapshot)
    requires ValidSnapshot(hash, s) && s.nextSequence == |s.events| + 1
    requires !c.CreateRun? && Malformed(c).None? && i < |s.runs| && FindRun(s.runs, c.run) == Some(i)
    requires CreatedInTime(s, s.runs[i]) && LastIsWhole(s)
    requires ChangeOf(hash, s, i, c, draw).Ok? && |ChangeOf(hash, s, i, c, draw).value.drafts| <= 4
    requires Publish(s, i, ChangeOf(hash, s, i, c, draw).value, draw) == Ok(next)
    ensures ValidSnapshot(hash, next) <==> FourDigitYear(Moment(s, draw.now))
    ensures next.nextSequence == |next.events| + 1
    ensures FourDigitYear(Moment(s, draw.now)) ==> LastIsWhole(next)
    ensures next.runs == s.runs[i := ChangeOf(hash, s, i, c, draw).value.run] && s.events <= next.events
  {
    var change := ChangeOf(hash, s, i, c, draw).value;
    EventsBounded(hash, s);
    hide ValidSnapshot, ChangeOf, FindRun, Malformed;
    UpdateAcceptedIff(hash, s, c, draw, i, next);
    if FourDigitYear(Moment(s, draw.now)) { WholeInOrder(s, draw.now); }
    var base := s.(runs := s.runs[i := change.run],
                   approvals := s.approvals + (if change.decision.Some? then [change.decision.value] else []));
    assert AppendEvents(base, change.run.id, change.run.state, change.drafts, Stamp(s, draw.now), draw.events)
        == Ok(next);
    hide Publish, Stamp, Moment, InOrder, LastIsWhole;
    if FourDigitYear(Moment(s, draw.now)) {
      LastStampGrows(s, base, change.run, change.drafts, draw.now, draw.events, next);
    }
    AppendAllShape(base, change.run.id, change.run.state, change.drafts, Stamp(s, draw.now), draw.events, next);
    AppendAllCursor(base, change.run.id, change.run.state, change.drafts, Stamp(s, draw.now), draw.events, next);
    hide AppendEvents;
  }

  /** A command on a run keeps everything sound. */
  lemma UpdateKeeps(hash: Hash, s: Snapshot, c: Command, draw: Draw, i: nat, next: Snapshot)
    requires Sound(hash, s) && !c.CreateRun? && Malformed(c).None? && i < |s.runs| && FindRun(s.runs, c.run) == Some(i)
    requires ChangeOf(hash, s, i, c, draw).Ok? && Publish(s, i, ChangeOf(hash, s, i, c, draw).value, draw) == Ok(next)
    ensures ValidSnapshot(hash, next) <==> FourDigitYear(Moment(s, draw.now))
    ensures FourDigitYear(Moment(s, draw.now)) ==> Sound(hash, next) && Later(s, next)
  {
    var change := ChangeOf(hash, s, i, c, draw).value;
    var run := s.runs[i];
    assert run in s.runs && RunSound(s, run) && ValidRun(hash, run);
    ChangeCarries(hash, s, i, c, draw, Replay(LogOf(s.events, run.id)));
    assert c.Decide? ==> !Filled(run.approval);
    hide ChangeOf, Refines, Shape, ValidRun, RunsValid, ValidEvents, Replay, FindRun, Malformed, ReplayDrafts;
    UpdateValid(hash, s, c, draw, i, next);
    DecisionsStay(s, i, c, change);
    NamesStay(s.runs, i, change.run);
    hide Moment, Sound, Later;
    if FourDigitYear(Moment(s, draw.now)) { UpdateSound(hash, s, c, draw, i, change, next); }
  }

  lemma UpdateSound(hash: Hash, s: Snapshot, c: Command, draw: Draw, i: nat, change: Change, next: Snapshot)
    requires Sound(hash, s) && i < |s.runs| && Publish(s, i, change, draw) == Ok(next)
    requires FourDigitYear(Moment(s, draw.now)) && LastIsWhole(next)
    requires Carries(s.runs[i], Replay(LogOf(s.events, s.runs[i].id)), change) && change.run.id == s.runs[i].id
    requires ValidSnapshot(hash, next) && next.nextSequence == |next.events| + 1 && s.events <= next.events
    requires next.runs == s.runs[i := change.run] && NamesDistinct(next.runs)
    requires var approvals := s.approvals + (if change.decision.Some? then [change.decision.value] else []);
             DecisionsAgree(approvals, change.run)
             && forall r | r in s.runs && r.id != change.run.id :: DecisionsAgree(approvals, r)
    ensures Sound(hash, next) && Later(s, next)
  {
    var base := s.(runs := s.runs[i := change.run],
                   approvals := s.approvals + (if change.decision.Some? then [change.decision.value] else []));
    assert RunsDistinct(s.runs) && RunLater(s.runs[i], change.run);
    assert AppendEvents(base, change.run.id, change.run.state, change.drafts, Stamp(s, draw.now), draw.events)
        == Ok(next);
    hide ValidSnapshot, RunSound, Carries, DecisionsAgree, NamesDistinct, RunsDistinct, RunLater, Replay, Publish,
        Stamp;
    AppendAllShape(base, change.run.id, change.run.state, change.drafts, Stamp(s, draw.now), draw.events, next);
    UpdateRunsSound(s, i, change, draw, base, next);
    UpdateLater(s, i, change, base, next);
  }

  lemma UpdateRunsSound(s: Snapshot, i: nat, change: Change, draw: Draw, base: Snapshot, next: Snapshot)
    requires i < |s.runs| && RunsDistinct(s.runs) && (forall r | r in s.runs :: RunSound(s, r))
    requires LastIsWhole(s) && FourDigitYear(Moment(s, draw.now))
    requires base.events == s.events && next.runs == s.runs[i := change.run]
    requires Carries(s.runs[i], Replay(LogOf(s.events, s.runs[i].id)), change) && change.run.id == s.runs[i].id
    requires AppendEvents(base, change.run.id, change.run.state, change.drafts, Stamp(s, draw.now), draw.events)
         == Ok(next)
    requires DecisionsAgree(next.approvals, change.run)
             && forall r | r in s.runs && r.id != change.run.id :: DecisionsAgree(next.approvals, r)
    ensures forall r | r in next.runs :: RunSound(next, r)
  {
    hide RunSound, Carries, DecisionsAgree, AppendEvents, Replay, Stamp;
    assert s.runs[i] in s.runs;
    forall r | r in next.runs ensures RunSound(next, r) {
      var j :| 0 <= j < |next.runs| && next.runs[j] == r;
      if j == i {
        ChangedRunSound(s, i, change, change.drafts, draw, base, next);
      } else {
        assert s.runs[j] in s.runs;
        OtherRunSound(s, r, change.run, change.drafts, draw, base, next);
      }
    }
  }

  lemma RunLaterReflexive(r: Run)
    ensures RunLater(r, r)
  {
  }

  lemma UpdateLater(s: Snapshot, i: nat, change: Change, base: Snapshot, next: Snapshot)
    requires i < |s.runs| && RunLater(s.runs[i], change.run) && next.runs == s.runs[i := change.run]
    requires s.events <= next.events && s.approvals <= next.approvals
    ensures Later(s, next)
  {
    hide RunLater;
    forall j | 0 <= j < |s.runs| ensures RunLater(s.runs[j], next.runs[j]) { RunLaterReflexive(s.runs[j]); }
  }

  // -------------------------------------------------------------- creation

  lemma FreshShape(c: Command, id: Id, stamp: Time)
    requires c.CreateRun? && Malformed(c).None?
    ensures Shape(FreshRun(c, id, stamp))
  {}

  lemma FreshRunSound(s: Snapshot, c: Command, draw: Draw, next: Snapshot)
    requires c.CreateRun? && Malformed(c).None?
    requires var run := FreshRun(c, draw.row, Stamp(s, draw.now));
             AppendEvents(s.(runs := s.runs + [run]), run.id, run.state, [Draft(None, MigrationCreated, [])],
                          run.createdAt, draw.events) == Ok(next)
    requires (forall e | e in s.events :: e.run != draw.row) && forall a | a in s.approvals :: a.run != draw.row
    requires Stamp(s, draw.now).Instant?
    ensures RunSound(next, FreshRun(c, draw.row, Stamp(s, draw.now)))
  {
    hide Stamp, AppendEvents, ReplayDrafts, Shape, LogOf;
    var run := FreshRun(c, draw.row, Stamp(s, draw.now));
    var base := s.(runs := s.runs + [run]);
    var drafts := [Draft(None, MigrationCreated, [])];
    NoLog(s.events, run.id);
    AppendAllReplay(base, run.id, run.state, drafts, run.createdAt, draw.events, next);
    AppendAllShape(base, run.id, run.state, drafts, run.createdAt, draw.events, next);
    FreshShape(c, draw.row, Stamp(s, draw.now));
    ReplayUpTo4(START, run.state, drafts);
    assert Reports(next.events[|s.events|], run.id, run.state, drafts[0], run.createdAt);
  }

  lemma CreateValid(hash: Hash, s: Snapshot, c: Command, draw: Draw, next: Snapshot)
    requires ValidSnapshot(hash, s) && s.nextSequence == |s.events| + 1 && LastIsWhole(s)
    requires c.CreateRun? && Malformed(c).None? && BuildCreate(s, c, draw) == Ok(next)
    ensures ValidSnapshot(hash, next) <==> FourDigitYear(Moment(s, draw.now))
    ensures FourDigitYear(Moment(s, draw.now)) ==> LastIsWhole(next)
    ensures next.nextSequence == |next.events| + 1 && s.events <= next.events
    ensures next.approvals == s.approvals
    ensures next.runs == s.runs + [FreshRun(c, draw.row, Stamp(s, draw.now))] && !KnownRun(s.runs, draw.row)
  {
    var run := FreshRun(c, draw.row, Stamp(s, draw.now));
    var base := s.(runs := s.runs + [run]);
    var drafts := [Draft(None, MigrationCreated, [])];
    EventsBounded(hash, s);
    CreateAcceptedIff(hash, s, c, draw, next);
    if FourDigitYear(Moment(s, draw.now)) { WholeInOrder(s, draw.now); }
    assert AppendEvents(base, run.id, run.state, drafts, Stamp(s, draw.now), draw.events) == Ok(next);
    hide ValidSnapshot, BuildCreate, FreshRun, Stamp, Moment, InOrder, LastIsWhole;
    if FourDigitYear(Moment(s, draw.now)) { LastStampGrows(s, base, run, drafts, draw.now, draw.events, next); }
    AppendAllShape(base, run.id, run.state, drafts, Stamp(s, draw.now), draw.events, next);
    AppendAllCursor(base, run.id, run.state, drafts, Stamp(s, draw.now), draw.events, next);
    hide AppendEvents;
  }

  lemma NoRowsYet(hash: Hash, s: Snapshot, id: Id)
    requires ValidSnapshot(hash, s) && !KnownRun(s.runs, id)
    ensures (forall e | e in s.events :: e.run != id) && forall a | a in s.approvals :: a.run != id
  {
    hide RunsValid, EventsInOrder, ValidEvent, ValidLog;
    forall a | a in s.approvals ensures a.run != id { var r :| r in s.runs && ApprovalMatches(a, r); }
  }

  lemma CreateKeeps(hash: Hash, s: Snapshot, c: Command, draw: Draw, next: Snapshot)
    requires Sound(hash, s) && c.CreateRun? && Malformed(c).None? && BuildCreate(s, c, draw) == Ok(next)
    ensures ValidSnapshot(hash, next) <==> FourDigitYear(Moment(s, draw.now))
    ensures FourDigitYear(Moment(s, draw.now)) ==> Sound(hash, next) && Later(s, next)
  {
    hide ValidSnapshot, RunSound, NamesDistinct, AppendEvents, Moment, Malformed, Later, DecisionsAgree;
    var run := FreshRun(c, draw.row, Stamp(s, draw.now));
    CreateValid(hash, s, c, draw, next);
    NoRowsYet(hash, s, run.id);
    if FourDigitYear(Moment(s, draw.now)) {
      FreshRunSound(s, c, draw, next);
      CreateSound(hash, s, run, draw, next);
    }
  }

  lemma CreateSound(hash: Hash, s: Snapshot, run: Run, draw: Draw, next: Snapshot)
    requires Sound(hash, s) && ValidSnapshot(hash, next) && next.nextSequence == |next.events| + 1
    requires s.events <= next.events && FourDigitYear(Moment(s, draw.now)) && LastIsWhole(next)
    requires next.runs == s.runs + [run] && next.approvals == s.approvals && RunSound(next, run)
    requires !KnownRun(s.runs, run.id) && !NameTaken(s.runs, run.name)
    requires AppendEvents(s.(runs := s.runs + [run]), run.id, run.state, [Draft(None, MigrationCreated, [])],
                          Stamp(s, draw.now), draw.events)
         == Ok(next)
    ensures Sound(hash, next) && Later(s, next)
  {
    hide ValidSnapshot, RunSound, NamesDistinct, RunLater, AppendEvents, Stamp, KnownRun, NameTaken;
    CreateOthers(s, run, [Draft(None, MigrationCreated, [])], draw, s.(runs := s.runs + [run]), next);
    NewName(s.runs, run);
    forall j | 0 <= j < |s.runs| ensures RunLater(s.runs[j], next.runs[j]) { RunLaterReflexive(s.runs[j]); }
  }

  lemma CreateOthers(s: Snapshot, run: Run, drafts: seq<Draft>, draw: Draw, base: Snapshot, next: Snapshot)
    requires (forall r | r in s.runs :: RunSound(s, r)) && !KnownRun(s.runs, run.id) && base.events == s.events
    requires next.approvals == s.approvals && LastIsWhole(s) && FourDigitYear(Moment(s, draw.now))
    requires AppendEvents(base, run.id, run.state, drafts, Stamp(s, draw.now), draw.events) == Ok(next)
    ensures forall r | r in s.runs :: RunSound(next, r)
  {
    forall r | r in s.runs ensures RunSound(next, r) {
      assert RunSound(s, r);
      assert r.id != run.id;
      assert DecisionsAgree(next.approvals, r);
      hide RunSound, AppendEvents, Stamp;
      OtherRunSound(s, r, run, drafts, draw, base, next);
    }
  }

  lemma NewName(runs: seq<Run>, run: Run)
    requires NamesDistinct(runs) && !NameTaken(runs, run.name)
    ensures NamesDistinct(runs + [run])
  {
    var next := runs + [run];
    forall i, j | 0 <= i < j < |next| && !Terminal(next[i].state) && !Terminal(next[j].state)
      ensures next[i].name != next[j].name
    {
      assert next[i] in runs;
    }
  }

  // ------------------------------------------------------------- histories

  /** What a command builds from a reachable state passes the check of its commit
      exactly when the time it is stamped with has a year of four digits, and
      then is sound again, also under a backward clock. */
  lemma BuildKeeps(hash: Hash, s: Snapshot, c: Command, draw: Draw, next: Snapshot)
    requires Sound(hash, s) && Build(hash, s, c, draw) == Ok(next)
    ensures ValidSnapshot(hash, next) <==> FourDigitYear(Moment(s, draw.now))
    ensures ValidSnapshot(hash, next) ==> Sound(hash, next) && Later(s, next)
  {
    hide Sound, Later, ValidSnapshot, Moment;
    if c.CreateRun? {
      CreateKeeps(hash, s, c, draw, next);
    } else {
      var i := FindRun(s.runs, c.run).value;
      hide Publish, ChangeOf;
      UpdateKeeps(hash, s, c, draw, i, next);
    }
  }

  predicate StoreSound(hash: Hash, store: Durable) { store.file == store.memory && Sound(hash, store.memory) }

  lemma LaterReflexive(s: Snapshot)
    ensures Later(s, s)
  {
    forall i | 0 <= i < |s.runs| ensures RunLater(s.runs[i], s.runs[i]) { RunLaterReflexive(s.runs[i]); }
  }

  /** After every outcome of every command the memory is what the file holds. A
      command that builds a snapshot fails exactly when the write fails or the
      time stamped leaves the four-digit years, and then changes both or neither. */
  lemma ApplyKeeps(hash: Hash, store: Durable, c: Command, draw: Draw, persist: Persist)
    requires StoreSound(hash, store)
    ensures var (after, reply) := Apply(hash, store, c, draw, persist);
            && StoreSound(hash, after) && Later(store.memory, after.memory)
            && (Build(hash, store.memory, c, draw).Ok? ==>
                  && (after == store <==> persist.NotWritten? || !FourDigitYear(Moment(store.memory, draw.now))
                                          || Build(hash, store.memory, c, draw).value == store.memory)
                  && (reply.Done? <==> persist.Written? && FourDigitYear(Moment(store.memory, draw.now))))
  {
    LaterReflexive(store.memory);
    var built := Build(hash, store.memory, c, draw);
    if built.Ok? {
      BuildKeeps(hash, store.memory, c, draw, built.value);
    }
    hide Sound, Later, Build, ValidSnapshot, Moment;
  }

  lemma EmptySound(hash: Hash)
    ensures StoreSound(hash, Durable(EMPTY, EMPTY))
  {
  }

  lemma {:induction false} HistoryKeeps(hash: Hash, store: Durable, history: seq<Timed>)
    requires StoreSound(hash, store)
    ensures StoreSound(hash, After(hash, store, history)) && Later(store.memory, After(hash, store, history).memory)
    decreases |history|
  {
    if history == [] {
      LaterReflexive(store.memory);
    } else {
      var next := Apply(hash, store, history[0].command, history[0].draw, history[0].persist).0;
      ApplyKeeps(hash, store, history[0].command, history[0].draw, history[0].persist);
      hide StoreSound, Later, Apply;
      HistoryKeeps(hash, next, history[1..]);
      LaterTransitive(store.memory, next.memory, After(hash, store, history).memory);
    }
  }
}
