/** Exactly which commands a reachable snapshot admits, written out on its runs and
    its log: no other command builds, and none of these is refused. */
module ControlPlaneAdmission {
  import opened Common
  import opened ControlPlane
  import opened ControlPlaneGate
  import opened ControlPlaneHistory
  import opened ControlPlaneTheorems
  import opened ControlPlaneCommands

  // ------------------------------------------------------------------ room

  /** The first `n` of the drawn ids are new, and differ from each other and from the
      id drawn for the row, if there is one. */
  predicate Fresh(s: Snapshot, row: Option<Id>, ids: seq<Id>, n: nat) {
    && n <= |ids|
    && (forall j | 0 <= j < n :: ids[j] != Null && !IdInUse(s, ids[j]) && Some(ids[j]) != row)
    && (forall j, k | 0 <= j < k < n :: ids[j] != ids[k])
  }

  /** The run's log takes `n` more events. */
  predicate Room(s: Snapshot, run: Id, n: nat) { n > 0 ==> |LogOf(s.events, run)| + n <= 10000 }

  predicate RowFree(s: Snapshot, row: Id) { row != Null && !IdInUse(s, row) }

  // -------------------------------------------------------------- admission

  predicate AdmitsCreate(s: Snapshot, c: Command, draw: Draw)
    requires c.CreateRun?
  {
    && c.name != Null && |s.runs| < 1000 && (forall r | r in s.runs && r.name == c.name :: Terminal(r.state))
    && RowFree(s, draw.row) && Fresh(s, Some(draw.row), draw.events, 1)
  }

  /** The update sends each counter forward and cites what the step asks, the second
      piece of evidence only where there is one and with both its parts. */
  predicate Proves(src: Source, to: State, u: Update) {
    && (u.recordsRead.Some? ==> u.recordsRead.value >= 0 && u.recordsRead.value >= src.recordsRead)
    && (u.recordsWritten.Some? ==> u.recordsWritten.value >= 0 && u.recordsWritten.value >= src.recordsWritten)
    && (u.recordsRejected.Some? ==> u.recordsRejected.value >= 0 && u.recordsRejected.value >= src.recordsRejected)
    && if FirstProof(to).None? then u.artifact == u.digest == u.secondaryArtifact == u.secondaryDigest == Null
       else
         && Null !in {u.artifact, u.digest} && (u.secondaryArtifact == Null <==> u.secondaryDigest == Null)
         && (u.secondaryArtifact != Null ==> SecondProof(to).Some?)
  }

  /** Whether the step completes the last source. */
  predicate Finishes(run: Run, source: SourceId, to: State) {
    to == Completed && forall id: SourceId | id != source :: run.sources.At(id).state == Completed
  }

  predicate AdmitsAdvance(s: Snapshot, run: Run, c: Command, draw: Draw)
    requires c.AdvanceSource?
  {
    var n := if Finishes(run, c.source, c.to) then 2 else 1;
    && c.to in {Inventorying, Redacting, Planning, Executing, Verifying, Completed}
    && !Terminal(run.state) && run.sources.At(c.source).state == Preceding(c.to)
    && Proves(run.sources.At(c.source), c.to, c.update)
    && Room(s, run.id, n) && Fresh(s, None, draw.events, n)
  }

  predicate AdmitsAttach(run: Run, c: Command)
    requires c.AttachSourcePlan?
  {
    && Null !in {c.artifact, c.digest} && !Terminal(run.state)
    && run.sources.At(c.source).state == Planning && run.sources.At(c.source).plan == Null
  }

  predicate AdmitsEnter(hash: Hash, s: Snapshot, run: Run, draw: Draw) {
    && (forall id: SourceId :: run.sources.At(id).state == Planning && run.sources.At(id).plan != Null)
    && PortfolioDigest(hash, run) != Null && Room(s, run.id, 4) && Fresh(s, None, draw.events, 4)
  }

  predicate AdmitsFail(s: Snapshot, run: Run, c: Command, draw: Draw)
    requires c.FailSource?
  {
    && c.code != Null && !Terminal(run.state) && run.sources.At(c.source).state != Completed
    && Room(s, run.id, 2) && Fresh(s, None, draw.events, 2)
  }

  predicate AdmitsDecision(hash: Hash, s: Snapshot, run: Run, c: Command, draw: Draw)
    requires c.Decide?
  {
    var n := if c.approve then 1 else 2;
    && c.actor != Null && run.approval == Null && run.state == AwaitingApproval
    && c.digest == PortfolioDigest(hash, run) != Null
    && RowFree(s, draw.row) && Room(s, run.id, n) && Fresh(s, Some(draw.row), draw.events, n)
  }

  predicate Admits(hash: Hash, s: Snapshot, c: Command, draw: Draw) {
    if c.CreateRun? then AdmitsCreate(s, c, draw)
    else
      c.run != Null && exists r :: r in s.runs && r.id == c.run && AdmitsOn(hash, s, r, c, draw)
  }

  predicate AdmitsOn(hash: Hash, s: Snapshot, run: Run, c: Command, draw: Draw)
    requires !c.CreateRun?
  {
    match c
    case AdvanceSource(_, _, _, _) => AdmitsAdvance(s, run, c, draw)
    case AttachSourcePlan(_, _, _, _) => AdmitsAttach(run, c)
    case EnterAwaitingApproval(_) => AdmitsEnter(hash, s, run, draw)
    case FailSource(_, _, _) => AdmitsFail(s, run, c, draw)
    case Decide(_, _, _, _, _) => AdmitsDecision(hash, s, run, c, draw)
  }

  // -------------------------------------------------------------- appending

  predicate Scoped(drafts: seq<Draft>) {
    forall j | 0 <= j < |drafts| :: SourceScoped(drafts[j].kind) <==> drafts[j].source.Some?
  }

  lemma {:induction false} AppendsIff(s: Snapshot, run: Id, state: State, drafts: seq<Draft>, stamp: Time, ids: seq<Id>)
    requires Scoped(drafts)
    ensures AppendEvents(s, run, state, drafts, stamp, ids).Ok? <==>
              Room(s, run, |drafts|) && Fresh(s, None, ids, |drafts|)
    decreases |drafts|
  {
    hide AppendEvent, Room, Fresh, IdInUse, LogOf, SourceScoped;
    if drafts == [] {
      NoneNeeded(s, run, ids);
    } else if ids == [] {
      NoIds(s, run, state, drafts[0], stamp, |drafts|);
    } else {
      FirstFits(s, run, drafts[0], ids, |drafts|, state, stamp);
      var one := AppendEvent(s, run, state, drafts[0], stamp, ids[0]);
      if one.Ok? {
        AppendOne(s, run, state, drafts[0], stamp, ids[0]);
        AppendsIff(one.value, run, state, drafts[1..], stamp, ids[1..]);
        RoomNext(s, one.value, run, |drafts|);
        FreshNext(s, one.value, ids, |drafts|);
      }
    }
  }

  lemma NoneNeeded(s: Snapshot, run: Id, ids: seq<Id>)
    ensures Room(s, run, 0) && Fresh(s, None, ids, 0)
  {
  }

  lemma NoIds(s: Snapshot, run: Id, state: State, draft: Draft, stamp: Time, n: nat)
    requires n > 0
    ensures AppendEvent(s, run, state, draft, stamp, Null).Err? && !Fresh(s, None, [], n)
  {
  }

  /** One event takes one place in its run's log and one id. */
  lemma AppendOne(s: Snapshot, run: Id, state: State, draft: Draft, stamp: Time, id: Id)
    requires AppendEvent(s, run, state, draft, stamp, id).Ok?
    ensures var next := AppendEvent(s, run, state, draft, stamp, id).value;
            && |LogOf(next.events, run)| == |LogOf(s.events, run)| + 1 <= 10000
            && id != Null && !IdInUse(s, id)
            && forall other :: IdInUse(next, other) <==> IdInUse(s, other) || other == id
  {
    var next := AppendEvent(s, run, state, draft, stamp, id).value;
    var e := next.events[|s.events|];
    assert next.events[..|s.events|] == s.events && e.run == run && e.id == id;
    assert forall x :: x in next.events <==> x in s.events || x == e;
  }

  lemma FirstFits(s: Snapshot, run: Id, draft: Draft, ids: seq<Id>, n: nat, state: State, stamp: Time)
    requires n > 0 && ids != [] && (SourceScoped(draft.kind) <==> draft.source.Some?)
    ensures Room(s, run, n) && Fresh(s, None, ids, n) ==> AppendEvent(s, run, state, draft, stamp, ids[0]).Ok?
  {
  }

  lemma RoomNext(s: Snapshot, next: Snapshot, run: Id, n: nat)
    requires n > 0 && |LogOf(next.events, run)| == |LogOf(s.events, run)| + 1 && |LogOf(s.events, run)| < 10000
    ensures Room(s, run, n) <==> Room(next, run, n - 1)
  {
  }

  lemma FreshNext(s: Snapshot, next: Snapshot, ids: seq<Id>, n: nat)
    requires n > 0 && ids != [] && ids[0] != Null && !IdInUse(s, ids[0])
    requires forall other :: IdInUse(next, other) <==> IdInUse(s, other) || other == ids[0]
    ensures Fresh(s, None, ids, n) <==> Fresh(next, None, ids[1..], n - 1)
  {
    hide IdInUse;
    if Fresh(next, None, ids[1..], n - 1) {
      forall j | 0 < j < n ensures ids[j] != Null && !IdInUse(s, ids[j]) && ids[j] != ids[0] {
        assert ids[j] == ids[1..][j - 1];
      }
      forall j, k | 0 <= j < k < n ensures ids[j] != ids[k] {
        if j > 0 { assert ids[j] == ids[1..][j - 1] && ids[k] == ids[1..][k - 1]; }
      }
    }
  }

  /** Ids count against the run and the decision that a command writes besides. */
  lemma FreshBeside(s: Snapshot, base: Snapshot, row: Option<Id>, ids: seq<Id>, n: nat)
    requires forall other :: IdInUse(base, other) <==> IdInUse(s, other) || Some(other) == row
    ensures Fresh(base, None, ids, n) <==> Fresh(s, row, ids, n)
  {
    hide IdInUse;
  }

  // ---------------------------------------------------------------- commands

  /** The snapshot that the events of a command are appended to. */
  lemma BaseIds(s: Snapshot, i: nat, change: Change)
    requires i < |s.runs| && change.run.id == s.runs[i].id
    ensures var base := s.(runs := s.runs[i := change.run],
                           approvals := s.approvals + (if change.decision.Some? then [change.decision.value] else []));
            forall id :: IdInUse(base, id) <==>
                           IdInUse(s, id) || (change.decision.Some? && id == change.decision.value.id)
  {
    var decided := if change.decision.Some? then [change.decision.value] else [];
    var base := s.(runs := s.runs[i := change.run], approvals := s.approvals + decided);
    assert forall a :: a in s.approvals + decided <==> a in s.approvals || a in decided;
    forall id {:trigger IdInUse(base, id)}
      ensures IdInUse(base, id) <==> IdInUse(s, id) || (change.decision.Some? && id == change.decision.value.id)
    {
      SameRunIds(s.runs, i, change.run, id);
      assert KnownRun(base.runs, id) == KnownRun(s.runs, id);
    }
  }

  lemma SameRunIds(runs: seq<Run>, i: nat, run: Run, id: Id)
    requires i < |runs| && run.id == runs[i].id
    ensures KnownRun(runs[i := run], id) <==> KnownRun(runs, id)
  {
    var changed := runs[i := run];
    if KnownRun(runs, id) {
      var j :| 0 <= j < |runs| && runs[j].id == id;
      assert changed[j].id == id && changed[j] in changed;
    }
    if KnownRun(changed, id) {
      var j :| 0 <= j < |changed| && changed[j].id == id;
      assert runs[j].id == id && runs[j] in runs;
    }
  }

  /** Whether the events of a change can be published. */
  predicate Publishable(s: Snapshot, change: Change, draw: Draw) {
    && Room(s, change.run.id, |change.drafts|)
    && Fresh(s, if change.decision.Some? then Some(change.decision.value.id) else None, draw.events, |change.drafts|)
  }

  lemma PublishesIff(s: Snapshot, i: nat, change: Change, draw: Draw)
    requires i < |s.runs| && change.run.id == s.runs[i].id && Scoped(change.drafts)
    ensures Publish(s, i, change, draw).Ok? <==> Publishable(s, change, draw)
  {
    hide IdInUse, Fresh, LogOf, AppendEvents, Scoped;
    var base := s.(runs := s.runs[i := change.run],
                   approvals := s.approvals + (if change.decision.Some? then [change.decision.value] else []));
    BaseIds(s, i, change);
    AppendsIff(base, change.run.id, change.run.state, change.drafts, Stamp(s, draw.now), draw.events);
    FreshBeside(s, base, if change.decision.Some? then Some(change.decision.value.id) else None, draw.events,
                |change.drafts|);
  }

  /** A command on the run at `i` builds if its change can be made and published. */
  lemma BuildsOn(hash: Hash, s: Snapshot, i: nat, c: Command, draw: Draw)
    requires !c.CreateRun? && FindRun(s.runs, c.run) == Some(i) && i < |s.runs| && s.runs[i].id == c.run
    ensures Malformed(c).Some? ==> Build(hash, s, c, draw).Err?
    ensures Malformed(c).None? && ChangeOf(hash, s, i, c, draw).Err? ==> Build(hash, s, c, draw).Err?
    ensures Malformed(c).None? && ChangeOf(hash, s, i, c, draw).Ok? ==>
              var change := ChangeOf(hash, s, i, c, draw).value;
              change.run.id == c.run && Scoped(change.drafts)
              && (Build(hash, s, c, draw).Ok? <==> Publishable(s, change, draw))
  {
    if Malformed(c).None? && ChangeOf(hash, s, i, c, draw).Ok? {
      var change := ChangeOf(hash, s, i, c, draw).value;
      ChangeScoped(hash, s, i, c, draw);
      PublishesIff(s, i, change, draw);
    }
    hide ChangeOf, Publish, Malformed, Publishable, Scoped;
  }

  lemma ChangeScoped(hash: Hash, s: Snapshot, i: nat, c: Command, draw: Draw)
    requires !c.CreateRun? && i < |s.runs| && Malformed(c).None? && ChangeOf(hash, s, i, c, draw).Ok?
    ensures ChangeOf(hash, s, i, c, draw).value.run.id == s.runs[i].id
    ensures Scoped(ChangeOf(hash, s, i, c, draw).value.drafts)
  {
    hide Derive, References, CountersForward, EvidenceFits;
  }

  lemma AdvanceAdmitted(hash: Hash, s: Snapshot, i: nat, c: Command, draw: Draw)
    requires c.AdvanceSource? && FindRun(s.runs, c.run) == Some(i) && i < |s.runs| && s.runs[i].id == c.run
    requires c.run != Null
    ensures Build(hash, s, c, draw).Ok? <==> AdmitsAdvance(s, s.runs[i], c, draw)
  {
    BuildsOn(hash, s, i, c, draw);
    AdvanceChanges(hash, s, i, c, draw);
    if Malformed(c).None? && ChangeOf(hash, s, i, c, draw).Ok? { AdvanceReports(hash, s, i, c, draw); }
    hide Build, ChangeOf, Malformed, Scoped, Fresh, Room;
  }

  lemma AdvanceChanges(hash: Hash, s: Snapshot, i: nat, c: Command, draw: Draw)
    requires c.AdvanceSource? && i < |s.runs| && s.runs[i].id == c.run != Null
    ensures Malformed(c).None? && ChangeOf(hash, s, i, c, draw).Ok? <==>
              && c.to in {Inventorying, Redacting, Planning, Executing, Verifying, Completed}
              && !Terminal(s.runs[i].state) && s.runs[i].sources.At(c.source).state == Preceding(c.to)
              && Proves(s.runs[i].sources.At(c.source), c.to, c.update)
  {
    var src := s.runs[i].sources.At(c.source);
    if StepTo(c.to).Some? { UpdateFits(src, c.to, c.update); }
    hide EvidenceFits, Proves, CountersForward, Settled, References;
  }

  lemma UpdateFits(src: Source, to: State, u: Update)
    requires StepTo(to).Some?
    ensures EvidenceFits(StepTo(to).value, u) && CountersForward(src, u) <==> Proves(src, to, u)
  {
  }

  lemma AdvanceReports(hash: Hash, s: Snapshot, i: nat, c: Command, draw: Draw)
    requires c.AdvanceSource? && i < |s.runs| && Malformed(c).None? && ChangeOf(hash, s, i, c, draw).Ok?
    ensures var change := ChangeOf(hash, s, i, c, draw).value;
            && change.run.id == s.runs[i].id && change.decision.None?
            && |change.drafts| == if Finishes(s.runs[i], c.source, c.to) then 2 else 1
  {
    var change := ChangeOf(hash, s, i, c, draw).value;
    var before, after := s.runs[i].sources, change.run.sources;
    AllCompleted(after);
    assert forall id: SourceId :: after.At(id).state == if id == c.source then c.to else before.At(id).state;
    hide Derive, References, EvidenceFits, CountersForward;
  }

  lemma AllCompleted(sources: Three<Source>)
    ensures Derive(sources).Completed? <==> forall id: SourceId :: sources.At(id).state == Completed
  {
    assert sources.At(Jde) == sources.jde && sources.At(Dynamics) == sources.dynamics && sources.At(Ebs) == sources.ebs;
  }

  lemma AttachAdmitted(hash: Hash, s: Snapshot, i: nat, c: Command, draw: Draw)
    requires c.AttachSourcePlan? && FindRun(s.runs, c.run) == Some(i) && i < |s.runs| && s.runs[i].id == c.run != Null
    ensures Build(hash, s, c, draw).Ok? <==> AdmitsAttach(s.runs[i], c)
  {
    BuildsOn(hash, s, i, c, draw);
    hide Build;
  }

  lemma EnterAdmitted(hash: Hash, s: Snapshot, i: nat, c: Command, draw: Draw)
    requires c.EnterAwaitingApproval? && FindRun(s.runs, c.run) == Some(i) && i < |s.runs| && s.runs[i].id == c.run
    requires c.run != Null && s.runs[i].state == Derive(s.runs[i].sources)
    ensures Build(hash, s, c, draw).Ok? <==> AdmitsEnter(hash, s, s.runs[i], draw)
  {
    var sources := s.runs[i].sources;
    BuildsOn(hash, s, i, c, draw);
    assert sources.At(Jde) == sources.jde && sources.At(Dynamics) == sources.dynamics && sources.At(Ebs) == sources.ebs;
    hide Build, Fresh, Room;
  }

  lemma FailAdmitted(hash: Hash, s: Snapshot, i: nat, c: Command, draw: Draw)
    requires c.FailSource? && FindRun(s.runs, c.run) == Some(i) && i < |s.runs| && s.runs[i].id == c.run != Null
    requires s.runs[i].state == Derive(s.runs[i].sources)
    ensures Build(hash, s, c, draw).Ok? <==> AdmitsFail(s, s.runs[i], c, draw)
  {
    BuildsOn(hash, s, i, c, draw);
    hide Build, Fresh, Room;
  }

  lemma DecideAdmitted(hash: Hash, s: Snapshot, i: nat, c: Command, draw: Draw)
    requires c.Decide? && FindRun(s.runs, c.run) == Some(i) && i < |s.runs| && s.runs[i].id == c.run != Null
    requires s.runs[i].state.AwaitingApproval? ==>
               s.runs[i].portfolio == PortfolioDigest(hash, s.runs[i]) && Filled(s.runs[i].portfolio)
    ensures Build(hash, s, c, draw).Ok? <==> AdmitsDecision(hash, s, s.runs[i], c, draw)
  {
    BuildsOn(hash, s, i, c, draw);
    hide Build, Fresh, Room, IdInUse, Derive, PortfolioDigest;
  }

  lemma CreateAdmitted(hash: Hash, s: Snapshot, c: Command, draw: Draw)
    requires c.CreateRun? && forall e | e in s.events :: KnownRun(s.runs, e.run)
    ensures Build(hash, s, c, draw).Ok? <==> AdmitsCreate(s, c, draw)
  {
    var run := FreshRun(c, draw.row, Stamp(s, draw.now));
    var base := s.(runs := s.runs + [run]);
    var drafts := [Draft(None, MigrationCreated, [])];
    AppendsIff(base, run.id, run.state, drafts, run.createdAt, draw.events);
    if !IdInUse(s, draw.row) { NoLog(s, s.events, draw.row); }
    assert forall r :: r in base.runs <==> r in s.runs || r == run;
    assert forall id :: IdInUse(base, id) <==> IdInUse(s, id) || id == draw.row;
    FreshBeside(s, base, Some(draw.row), draw.events, 1);
    hide Fresh, AppendEvents, IdInUse, LogOf, KnownRun;
  }

  lemma {:induction false} NoLog(s: Snapshot, events: seq<Event>, id: Id)
    requires (forall e | e in events :: KnownRun(s.runs, e.run)) && !KnownRun(s.runs, id)
    ensures LogOf(events, id) == []
    decreases |events|
  {
    if events == [] {
    } else {
      NoLog(s, events[..|events| - 1], id);
      assert events[|events| - 1] in events;
    }
  }

  /** In every reachable snapshot a command builds if and only if the snapshot admits
      it: it names a run that is there and in the state that the command is for,
      brings what the step asks, and there are new ids and room for its events. */
  lemma BuildsIff(hash: Hash, history: seq<Timed>, c: Command, draw: Draw)
    ensures var s := Reached(hash, history);
            Build(hash, s, c, draw).Ok? <==> Admits(hash, s, c, draw)
  {
    var s := Reached(hash, history);
    ReachedSound(hash, history);
    hide Reached;
    if c.CreateRun? {
      EventsKnown(hash, s);
      hide Sound;
      CreateAdmitted(hash, s, c, draw);
    } else {
      var found := FindRun(s.runs, c.run);
      if found.Some? {
        RunFacts(hash, s, s.runs[found.value], Jde);
        OnlyFound(hash, s, found.value);
        hide Sound;
        FoundAdmits(hash, s, found.value, c, draw);
      } else {
        hide Sound, Malformed, AdmitsOn;
      }
    }
  }

  lemma EventsKnown(hash: Hash, s: Snapshot)
    requires Sound(hash, s)
    ensures forall e | e in s.events :: KnownRun(s.runs, e.run)
  {
  }

  lemma OnlyFound(hash: Hash, s: Snapshot, i: nat)
    requires Sound(hash, s) && i < |s.runs|
    ensures forall r | r in s.runs && r.id == s.runs[i].id :: r == s.runs[i]
  {
    assert RunsDistinct(s.runs);
    hide Sound;
  }

  lemma FoundAdmits(hash: Hash, s: Snapshot, i: nat, c: Command, draw: Draw)
    requires !c.CreateRun? && FindRun(s.runs, c.run) == Some(i) && i < |s.runs| && s.runs[i].id == c.run
    requires ValidRun(hash, s.runs[i]) && forall r | r in s.runs && r.id == c.run :: r == s.runs[i]
    ensures Build(hash, s, c, draw).Ok? <==> Admits(hash, s, c, draw)
  {
    assert s.runs[i] in s.runs && c.run != Null;
    assert Admits(hash, s, c, draw) <==> AdmitsOn(hash, s, s.runs[i], c, draw) by { hide AdmitsOn; }
    assert s.runs[i].state == Derive(s.runs[i].sources);
    assert s.runs[i].state.AwaitingApproval? ==>
        s.runs[i].portfolio == PortfolioDigest(hash, s.runs[i]) && Filled(s.runs[i].portfolio);
    hide Build, ValidRun, Derive, AdmitsAdvance, AdmitsAttach, AdmitsEnter, AdmitsFail, AdmitsDecision, Admits;
    match c
    case AdvanceSource(_, _, _, _) => AdvanceAdmitted(hash, s, i, c, draw);
    case AttachSourcePlan(_, _, _, _) => AttachAdmitted(hash, s, i, c, draw);
    case EnterAwaitingApproval(_) => EnterAdmitted(hash, s, i, c, draw);
    case FailSource(_, _, _) => FailAdmitted(hash, s, i, c, draw);
    case Decide(_, _, _, _, _) => DecideAdmitted(hash, s, i, c, draw);
  }
}
