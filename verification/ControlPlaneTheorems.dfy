/** The promises of the control plane, over every history from the empty state. */
module ControlPlaneTheorems {
  import opened Common
  import opened ControlPlane
  import opened ControlPlaneValidity
  import opened ControlPlaneGate
  import opened ControlPlaneHistory

  const FRESH := Durable(EMPTY, EMPTY)

  function Reached(hash: Hash, history: seq<Timed>): Snapshot { After(hash, FRESH, history).memory }

  lemma ReachedSound(hash: Hash, history: seq<Timed>)
    ensures Sound(hash, Reached(hash, history))
  {
    EmptySound(hash);
    HistoryKeeps(hash, FRESH, history);
  }

  /** A run is failed if a source failed, else cancelled if one was, else where its least advanced source is. */
  lemma DerivedStateMeaning(s: Three<Source>)
    ensures Derive(s).Failed? <==> exists id: SourceId :: s.At(id).state.Failed?
    ensures Derive(s).Cancelled? <==> !Derive(s).Failed? && exists id: SourceId :: s.At(id).state.Cancelled?
    ensures InProgress(Derive(s)) ==>
              && (exists id: SourceId :: s.At(id).state == Derive(s))
              && forall id: SourceId :: InProgress(s.At(id).state) && Rank(s.At(id).state) >= Rank(Derive(s))
  {
    assert s.At(Jde) == s.jde && s.At(Dynamics) == s.dynamics && s.At(Ebs) == s.ebs;
  }

  // --------------------------------------------------------- approval gate

  predicate Approves(hash: Hash, a: Approval, run: Run) {
    a.run == run.id && a.id == run.approval && a.approves && a.plan == PortfolioDigest(hash, run)
  }

  lemma RunFacts(hash: Hash, s: Snapshot, run: Run, id: SourceId)
    requires Sound(hash, s) && run in s.runs
    ensures ValidRun(hash, run) && Shape(run) && SourceShape(run, run.sources.At(id))
    ensures DecisionsAgree(s.approvals, run)
    ensures ValidApprovals(s.approvals, s.runs)
  {
    hide ValidRun, SourceShape, ValidApprovals, ValidEvents, Refines, NamesDistinct, DecisionsAgree, CreatedInTime;
    assert RunSound(s, run);
  }

  lemma ExecutableApproved(run: Run, id: SourceId)
    requires Shape(run) && SourceShape(run, run.sources.At(id)) && Executable(run.sources.At(id).state)
    ensures Filled(run.approval) && Filled(run.portfolio) && !run.state.Cancelled?
  {}

  /** A source that is approved, executing, verifying or completed, also inside a
      failed run, rests on exactly one decision for its run: an approval of the
      digest recomputed from the three source plans. */
  lemma ExecutionNeedsApproval(hash: Hash, history: seq<Timed>, run: Run, id: SourceId)
    requires run in Reached(hash, history).runs && Executable(run.sources.At(id).state)
    ensures exists a :: a in Reached(hash, history).approvals && Approves(hash, a, run)
    ensures forall a, b | a in Reached(hash, history).approvals && b in Reached(hash, history).approvals
            && a.run == run.id == b.run :: a == b
    ensures Filled(run.sources.jde.plan) && Filled(run.sources.dynamics.plan) && Filled(run.sources.ebs.plan)
  {
    hide Reached, ValidEvents, Refines, NamesDistinct, Sound, SourceShape;
    ReachedSound(hash, history);
    var s := Reached(hash, history);
    RunFacts(hash, s, run, id);
    ExecutableApproved(run, id);
    var a :| a in s.approvals && ApprovalMatches(a, run);
    assert Approves(hash, a, run);
  }

  /** A failed run has exactly one failed source, and it carries the run's code;
      in any other run no source has failed. */
  lemma OneFailedSource(hash: Hash, history: seq<Timed>, run: Run)
    requires run in Reached(hash, history).runs
    ensures run.state.Failed? <==> exists id: SourceId :: run.sources.At(id).state.Failed?
    ensures forall id: SourceId | run.sources.At(id).state.Failed? ::
            run.sources.At(id).failure == run.failure && Filled(run.failure)
    ensures forall i: SourceId, j: SourceId | run.sources.At(i).state.Failed? && run.sources.At(j).state.Failed? ::
            i == j
  {
    ReachedSound(hash, history);
    assert Shape(run) && ValidRun(hash, run) by { assert RunSound(Reached(hash, history), run); }
    hide Reached, Sound, ValidRun, Shape;
    FailureOfRun(hash, run);
  }

  lemma FailureOfRun(hash: Hash, run: Run)
    requires Shape(run) && ValidRun(hash, run)
    ensures run.state.Failed? <==> exists id: SourceId :: run.sources.At(id).state.Failed?
    ensures forall id: SourceId | run.sources.At(id).state.Failed? ::
            run.sources.At(id).failure == run.failure && Filled(run.failure)
    ensures forall i: SourceId, j: SourceId | run.sources.At(i).state.Failed? && run.sources.At(j).state.Failed? ::
            i == j
  {
    DerivedStateMeaning(run.sources);
    hide Derive;
  }

  lemma ActiveNamesDiffer(hash: Hash, history: seq<Timed>, r: Run, t: Run)
    requires r in Reached(hash, history).runs && t in Reached(hash, history).runs
    requires !Terminal(r.state) && !Terminal(t.state) && r.name == t.name
    ensures r == t
  {
    ReachedSound(hash, history);
    var runs := Reached(hash, history).runs;
    var i :| 0 <= i < |runs| && runs[i] == r;
    var j :| 0 <= j < |runs| && runs[j] == t;
    hide RunSound, ValidSnapshot;
  }

  /** The log determines the run: replaying its events from creation gives the
      source states, the manifest digests, the plan digests once the gate opened,
      and the derived state; each ending was reported exactly once if reached. */
  lemma LogDeterminesRun(hash: Hash, history: seq<Timed>, run: Run)
    requires run in Reached(hash, history).runs
    ensures Refines(run, Replay(LogOf(Reached(hash, history).events, run.id)))
  {
    ReachedSound(hash, history);
    assert RunSound(Reached(hash, history), run);
  }

  /** From any reached state on, sources only move forward, bindings stay,
      terminal runs stand, and the log and decisions only grow. */
  lemma ProgressIsForward(hash: Hash, before: seq<Timed>, after: seq<Timed>)
    ensures Later(Reached(hash, before), After(hash, After(hash, FRESH, before), after).memory)
  {
    EmptySound(hash);
    HistoryKeeps(hash, FRESH, before);
    HistoryKeeps(hash, After(hash, FRESH, before), after);
  }

  // ---------------------------------------------- what the check leaves open

  function Bare(state: State, failure: Id): Source { Source(state, 0, 0, 0, Null, failure, Null, Null) }

  const YEAR_0 := Instant(0)

  function Opening(sequence: int, id: Id, run: Id, stamp: Time): Event {
    Event(sequence, id, run, None, MigrationCreated, stamp, [], Created)
  }

  lemma OneEventLog(e: Event, run: Id)
    ensures LogOf([e], run) == if e.run == run then [e] else []
  {
    assert [] + [e] == [e];
    LogOfAppend([], e, run);
  }

  /** A snapshot of one run and its creation event is as valid as the run. */
  function Single(run: Run, stamp: Time): Snapshot {
    Snapshot(2, [run], [], [Opening(1, run.id, run.id, stamp)])
  }

  lemma SingleValid(hash: Hash, run: Run, stamp: Time)
    requires ValidRun(hash, run) && !Filled(run.approval) && stamp.Instant?
    ensures ValidSnapshot(hash, Single(run, stamp))
  {
    var s := Single(run, stamp);
    OneEventLog(s.events[0], run.id);
    assert Filled(run.id);
    hide ValidRun;
    assert RunsValid(hash, s.runs) && ValidApprovals(s.approvals, s.runs);
    assert s.runs[0] in s.runs;
    assert ValidEvents(s);
  }

  /** One failed run: a source executes without any decision, two have failed. */
  function Ungated(id: Id): Snapshot {
    Single(Run(id, id, Failed, Three(Bare(Executing, Null), Bare(Failed, id), Bare(Failed, id)),
               Null, id, Null, Null, YEAR_0, YEAR_0),
           YEAR_0)
  }

  /** The integrity check alone implies neither the gate nor a single failed source. */
  lemma CheckAllowsUngated(hash: Hash, id: Id)
    requires Filled(id)
    ensures var s := Ungated(id);
            && ValidSnapshot(hash, s) && s.approvals == []
            && Executable(s.runs[0].sources.jde.state) && !OneFailure(s.runs[0].sources)
  {
    SingleValid(hash, Ungated(id).runs[0], YEAR_0);
    hide ValidSnapshot;
  }

  /** Two active runs of one name. */
  function Twins(id: Id, other: Id): Snapshot {
    var run := Run(id, id, Created, Three(Bare(Created, Null), Bare(Created, Null), Bare(Created, Null)),
                   Null, Null, Null, Null, YEAR_0, YEAR_0);
    Snapshot(3, [run, run.(id := other)], [], [Opening(1, id, id, YEAR_0)] + [Opening(2, other, other, YEAR_0)])
  }

  /** Nor does it imply that active runs have distinct names. */
  lemma CheckAllowsTwins(hash: Hash, id: Id, other: Id)
    requires Filled(id) && Filled(other) && id != other
    ensures ValidSnapshot(hash, Twins(id, other)) && !NamesDistinct(Twins(id, other).runs)
  {
    var s := Twins(id, other);
    var e, f := s.events[0], s.events[1];
    forall run: Id ensures LogOf(s.events, run) == (if run == id then [e] else [])
        + (if run == other then [f] else []) {
      OneEventLog(e, run);
      LogOfAppend([e], f, run);
    }
    assert s.runs[0] in s.runs && s.runs[1] in s.runs;
    assert !NamesDistinct(s.runs) by {
      assert s.runs[0].name == s.runs[1].name && !Terminal(s.runs[0].state) && !Terminal(s.runs[1].state);
    }
    hide NamesDistinct;
    assert RunsValid(hash, s.runs) by { hide LogOf; }
    assert RunsDistinct(s.runs) && ValidApprovals(s.approvals, s.runs) by { hide LogOf; }
    hide RunsValid, RunsDistinct, ValidApprovals, ValidRun;
    TwinEvents(s, e, f);
  }

  lemma TwinEvents(s: Snapshot, e: Event, f: Event)
    requires |s.runs| == 2 && s.events == [e] + [f] && s.nextSequence == 3 && s.runs[0].id != s.runs[1].id
    requires Filled(s.runs[0].id) && Filled(s.runs[1].id)
    requires e == Opening(1, s.runs[0].id, s.runs[0].id, YEAR_0) && f == Opening(2, s.runs[1].id, s.runs[1].id, YEAR_0)
    requires forall i | 0 <= i < 2 :: LogOf(s.events, s.runs[i].id) == [s.events[i]]
    ensures ValidEvents(s)
  {
    hide LogOf, NamesDistinct;
    assert s.runs[0] in s.runs && s.runs[1] in s.runs;
    forall r | r in s.runs ensures ValidLog(LogOf(s.events, r.id)) {
      var i :| 0 <= i < 2 && s.runs[i] == r;
    }
  }

  /** A valid snapshot of one created run, with the time of the run and of its event. */
  function Opened(id: Id, created: Time, stamp: Time): Snapshot {
    Single(Run(id, id, Created, Three(Bare(Created, Null), Bare(Created, Null), Bare(Created, Null)),
               Null, Null, Null, Null, created, created), stamp)
  }

  /** A failure report on that run, at a clock reading, is built but refused. */
  predicate Refused(hash: Hash, s: Snapshot, id: Id, now: int, first: Id, second: Id) {
    && ValidSnapshot(hash, s)
    && var next := Build(hash, s, FailSource(id, Jde, id), Draw(now, Null, [first, second]));
       next.Ok? && !ValidSnapshot(hash, next.value)
  }

  /** The check is not inductive on its own: it rejects what a failure report
      builds from an accepted snapshot whose run was created after its event. */
  lemma CheckIsNotInductive(hash: Hash, id: Id, first: Id, second: Id)
    requires Filled(id) && Filled(first) && Filled(second) && id != first && id != second && first != second
    ensures Refused(hash, Opened(id, Instant(1000 * MILLISECOND), YEAR_0), id, 0, first, second)
  {
    var s := Opened(id, Instant(1000 * MILLISECOND), YEAR_0);
    assert Moment(s, 0) == MILLISECOND;
    OpenedRefused(hash, id, Instant(1000 * MILLISECOND), YEAR_0, 0, first, second);
  }

  /** It rejects what is built when the last event is stamped half a millisecond
      and the clock reads seven tenths, because printing drops the fraction. */
  lemma FractionRefused(hash: Hash, id: Id, first: Id, second: Id)
    requires Filled(id) && Filled(first) && Filled(second) && id != first && id != second && first != second
    ensures Refused(hash, Opened(id, YEAR_0, Instant(500_000)), id, 700_000, first, second)
  {
    assert !InOrder(Opened(id, YEAR_0, Instant(500_000)), 700_000);
    OpenedRefused(hash, id, YEAR_0, Instant(500_000), 700_000, first, second);
  }

  /** It rejects what is built after an event in the last millisecond of the year
      9999, whatever the clock reads up to it: the bump prints the year 10000. */
  lemma YearRefused(hash: Hash, id: Id, now: int, first: Id, second: Id)
    requires Filled(id) && Filled(first) && Filled(second) && id != first && id != second && first != second
    requires now <= YEAR_10000 - MILLISECOND
    ensures Refused(hash, Opened(id, YEAR_0, Instant(YEAR_10000 - MILLISECOND)), id, now, first, second)
  {
    assert Moment(Opened(id, YEAR_0, Instant(YEAR_10000 - MILLISECOND)), now) == YEAR_10000;
    OpenedRefused(hash, id, YEAR_0, Instant(YEAR_10000 - MILLISECOND), now, first, second);
  }

  lemma OpenedRefused(hash: Hash, id: Id, created: Time, stamp: Time, now: int, first: Id, second: Id)
    requires Filled(id) && Filled(first) && Filled(second) && id != first && id != second && first != second
    requires created.Instant? && stamp.Instant?
    requires var s := Opened(id, created, stamp);
             !FourDigitYear(Moment(s, now)) || !InOrder(s, now) || !Upto(created, Stamp(s, now))
    ensures Refused(hash, Opened(id, created, stamp), id, now, first, second)
  {
    var s := Opened(id, created, stamp);
    var c, draw := FailSource(id, Jde, id), Draw(now, Null, [first, second]);
    SingleValid(hash, s.runs[0], stamp);
    assert FindRun(s.runs, id) == Some(0) && s.runs[0].createdAt == created;
    hide ValidSnapshot, Moment, InOrder, Stamp, FourDigitYear;
    OpenedBuilds(hash, id, created, stamp, now, first, second);
    hide Build, AppendEvents, Single;
    CommitAcceptsIff(hash, s, c, draw, Build(hash, s, c, draw).value);
  }

  lemma TwoAppend(s: Snapshot, run: Id, state: State, a: Draft, b: Draft, stamp: Time, first: Id, second: Id)
    requires Usable(s, first) && Usable(s, second) && first != second
    requires |LogOf(s.events, run)| + 2 <= MAX_EVENTS_PER_RUN
    requires SourceScoped(a.kind) == a.source.Some? && SourceScoped(b.kind) == b.source.Some?
    ensures AppendEvents(s, run, state, [a, b], stamp, [first, second]).Ok?
  {
    var mid := AppendEvent(s, run, state, a, stamp, first).value;
    LogOfAppend(s.events, EventAt(s, run, state, a, stamp, first), run);
    assert Usable(mid, second);
    assert AppendEvent(mid, run, state, b, stamp, second).Ok?;
    assert AppendEvents(mid, run, state, [b], stamp, [second]).Ok? by { assert [b][1..] == []; }
    assert [a, b][1..] == [b] && [b][1..] == [] && [first, second][1..] == [second];
    hide Usable;
  }

  lemma OpenedBuilds(hash: Hash, id: Id, created: Time, stamp: Time, now: int, first: Id, second: Id)
    requires Filled(id) && Filled(first) && Filled(second) && id != first && id != second && first != second
    ensures Build(hash, Opened(id, created, stamp), FailSource(id, Jde, id), Draw(now, Null, [first, second])).Ok?
  {
    var s := Opened(id, created, stamp);
    var c, draw := FailSource(id, Jde, id), Draw(now, Null, [first, second]);
    hide Stamp;
    var at := Stamp(s, now);
    var change := FailChange(s.runs[0], c, at).value;
    assert FindRun(s.runs, id) == Some(0) && ChangeOf(hash, s, 0, c, draw) == Ok(change);
    var next := s.(runs := s.runs[0 := change.run], approvals := s.approvals + []);
    OneEventLog(s.events[0], id);
    assert Usable(next, first) && Usable(next, second);
    hide ChangeOf, FindRun, Usable, AppendEvents;
    TwoAppend(next, id, change.run.state, change.drafts[0], change.drafts[1], at, first, second);
    assert change.drafts == [change.drafts[0], change.drafts[1]];
  }

  // -------------------------------------------------- clocks that never reject

  /** The last stamp is at most a millisecond per event ahead of the clock. */
  predicate Paced(s: Snapshot, limit: int) {
    s.events == [] || (WholeStamp(s.events[|s.events| - 1].stamp)
                       && s.events[|s.events| - 1].stamp.nanos <= limit + |s.events| * MILLISECOND)
  }

  lemma AppendPaced(s: Snapshot, base: Snapshot, run: Id, state: State, drafts: seq<Draft>, now: int, ids: seq<Id>,
      next: Snapshot, limit: int)
    requires Paced(s, limit) && 0 <= now <= limit && base.events == s.events && FourDigitYear(Moment(s, now))
    requires AppendEvents(base, run, state, drafts, Stamp(s, now), ids) == Ok(next)
    ensures Paced(next, limit)
  {
    hide AppendEvents;
    AppendAllShape(base, run, state, drafts, Stamp(s, now), ids, next);
    if drafts != [] {
      var last := |next.events| - 1;
      assert Reports(next.events[last], run, state, drafts[last - |s.events|], Stamp(s, now));
      assert Moment(s, now) <= limit + |next.events| * MILLISECOND;
    } else {
      assert next.events == s.events;
    }
  }

  lemma BuildPaced(hash: Hash, s: Snapshot, c: Command, draw: Draw, next: Snapshot, limit: int)
    requires Paced(s, limit) && 0 <= draw.now <= limit && FourDigitYear(Moment(s, draw.now))
    requires Build(hash, s, c, draw) == Ok(next)
    ensures Paced(next, limit)
  {
    hide AppendEvents, Paced, Stamp, Moment, FourDigitYear;
    if c.CreateRun? {
      var run := FreshRun(c, draw.row, Stamp(s, draw.now));
      AppendPaced(s, s.(runs := s.runs + [run]), run.id, run.state, [Draft(None, MigrationCreated, [])], draw.now,
                  draw.events, next, limit);
    } else {
      hide ChangeOf;
      var i := FindRun(s.runs, c.run).value;
      var change := ChangeOf(hash, s, i, c, draw).value;
      var base := s.(runs := s.runs[i := change.run],
                     approvals := s.approvals + (if change.decision.Some? then [change.decision.value] else []));
      AppendPaced(s, base, change.run.id, change.run.state, change.drafts, draw.now, draw.events, next, limit);
    }
  }

  lemma {:induction false} HistoryPaced(hash: Hash, store: Durable, history: seq<Timed>, limit: int)
    requires StoreSound(hash, store) && Paced(store.memory, limit)
    requires forall i | 0 <= i < |history| :: 0 <= history[i].draw.now <= limit
    ensures Paced(After(hash, store, history).memory, limit)
    decreases |history|
  {
    if history == [] {
    } else {
      var c, draw := history[0].command, history[0].draw;
      var next := Apply(hash, store, c, draw, history[0].persist).0;
      ApplyKeeps(hash, store, c, draw, history[0].persist);
      var built := Build(hash, store.memory, c, draw);
      hide Sound, Build, Moment, FourDigitYear, Paced, ValidSnapshot;
      if built.Ok? {
        BuildKeeps(hash, store.memory, c, draw, built.value);
        if FourDigitYear(Moment(store.memory, draw.now)) {
          BuildPaced(hash, store.memory, c, draw, built.value, limit);
        }
      }
      assert Paced(next.memory, limit);
      hide Apply, StoreSound;
      HistoryPaced(hash, next, history[1..], limit);
    }
  }

  /** How far the log of a full store can run ahead of the clock: under three hours. */
  const SLACK := MAX_EVENTS_PER_RUN * MAX_RUNS * MILLISECOND + MILLISECOND

  /** If the clock never reads before the year 0 nor later than three hours before
      the year 10000, no command that is built is ever refused by the check of its
      commit, however the clock jumps in between. */
  lemma RevalidationNeverRejects(hash: Hash, history: seq<Timed>, limit: int, c: Command, draw: Draw, next: Snapshot)
    requires (forall i | 0 <= i < |history| :: 0 <= history[i].draw.now <= limit) && 0 <= draw.now <= limit
    requires limit + SLACK < YEAR_10000
    requires Build(hash, Reached(hash, history), c, draw) == Ok(next)
    ensures ValidSnapshot(hash, next) && Sound(hash, next) && Later(Reached(hash, history), next)
  {
    var s := Reached(hash, history);
    EmptySound(hash);
    ReachedSound(hash, history);
    HistoryPaced(hash, FRESH, history, limit);
    EventsBounded(hash, s);
    assert FourDigitYear(Moment(s, draw.now)) by { hide Build, After, ValidSnapshot; }
    hide Sound, Build, Moment, After, Reached, Later, ValidSnapshot;
    BuildKeeps(hash, s, c, draw, next);
  }
}
