/** What holds in every reachable state of the control plane, beyond what the
    integrity check of a commit looks at: the approval gate, and the event log
    as a complete account of each run. */
module ControlPlaneGate {
  import opened Common
  import opened ControlPlane
  import opened ControlPlaneValidity

  // ------------------------------------------------------- replaying a log

  /** What a run's events tell, folded in order from its creation. */
  datatype View = View(
    states: Three<State>, manifests: Three<Id>, plans: Three<Id>, last: State,
    completions: nat, failures: nat, sourceFailures: nat, approvals: nat, rejections: nat, cancellations: nat)

  function Always<T>(value: T): Three<T> { Three(value, value, value) }

  const START := View(Always(Created), Always(Null), Always(Null), Created, 0, 0, 0, 0, 0, 0)

  function FirstDigest(refs: seq<Evidence>): Id { if refs == [] then Null else refs[0].digest }

  function Told(v: View, state: State, draft: Draft): View {
    var id := if draft.source.Some? then draft.source.value else Jde;
    var digest := FirstDigest(draft.refs);
    var moved := match draft.kind
      case InventoryStarted => v.(states := v.states.Put(id, Inventorying))
      case InventoryCompleted => v.(states := v.states.Put(id, Redacting), manifests := v.manifests.Put(id, digest))
      case RedactionCompleted => v.(states := v.states.Put(id, Planning))
      case PlanReady => v.(states := v.states.Put(id, AwaitingApproval), plans := v.plans.Put(id, digest))
      case ExecutionStarted => v.(states := v.states.Put(id, Executing))
      case ExecutionCompleted => v.(states := v.states.Put(id, Verifying))
      case VerificationCompleted => v.(states := v.states.Put(id, Completed))
      case SourceFailed => v.(states := v.states.Put(id, Failed), sourceFailures := v.sourceFailures + 1)
      case MigrationCreated => START
      case PortfolioAwaiting => v
      case PortfolioApproved => v.(states := Always(Approved), approvals := v.approvals + 1)
      case PortfolioRejected => v.(states := Always(Cancelled), rejections := v.rejections + 1)
      case MigrationCompleted => v.(completions := v.completions + 1)
      case MigrationFailed => v.(failures := v.failures + 1)
      case MigrationCancelled => v.(cancellations := v.cancellations + 1);
    moved.(last := state)
  }

  function Replay(log: seq<Event>): View {
    if log == [] then START
    else
      var e := log[|log| - 1];
      Told(Replay(log[..|log| - 1]), e.state, Draft(e.source, e.kind, e.refs))
  }

  function ReplayDrafts(v: View, state: State, drafts: seq<Draft>): View
    decreases |drafts|
  {
    if drafts == [] then v else ReplayDrafts(Told(v, state, drafts[0]), state, drafts[1..])
  }

  function States(s: Three<Source>): Three<State> { Three(s.jde.state, s.dynamics.state, s.ebs.state) }
  function Manifests(s: Three<Source>): Three<Id> { Three(s.jde.manifest, s.dynamics.manifest, s.ebs.manifest) }
  function Plans(s: Three<Source>): Three<Id> { Three(s.jde.plan, s.dynamics.plan, s.ebs.plan) }

  function One(b: bool): nat { if b then 1 else 0 }

  /** The log tells the run: its source states and manifest digests, its plan
      digests once the gate opened, its derived state, and each ending once. */
  predicate Refines(run: Run, v: View) {
    && v.states == States(run.sources) && v.manifests == Manifests(run.sources)
    && v.plans == (if Filled(run.portfolio) then Plans(run.sources) else Always(Null))
    && v.last == run.state
    && v.completions == One(run.state.Completed?)
    && v.failures == One(run.state.Failed?) == v.sourceFailures
    && v.rejections == One(run.state.Cancelled?) == v.cancellations
    && v.approvals == One(Filled(run.approval) && !run.state.Cancelled?)
  }

  // -------------------------------------------------------- shape of a run

  predicate Executable(s: State) { InProgress(s) && Rank(s) >= Rank(Approved) }

  predicate SourceShape(run: Run, s: Source) {
    && (s.state.Failed? ==> run.state.Failed? && s.failure == run.failure)
    && (InProgress(s.state) && Rank(s.state) <= Rank(Inventorying) ==> !Filled(s.manifest))
    && if Filled(run.approval)
       then (if run.state.Cancelled? then s.state.Cancelled? else s.state.Failed? || Executable(s.state))
       else if Filled(run.portfolio) then s.state.Failed? || s.state.AwaitingApproval?
       else s.state.Failed? || (InProgress(s.state) && Rank(s.state) <= Rank(Planning))
  }

  predicate OneFailure(s: Three<Source>) {
    One(s.jde.state.Failed?) + One(s.dynamics.state.Failed?) + One(s.ebs.state.Failed?) <= 1
  }

  predicate Shape(run: Run) {
    && SourceShape(run, run.sources.jde) && SourceShape(run, run.sources.dynamics) && SourceShape(run, run.sources.ebs)
    && OneFailure(run.sources)
    && (Filled(run.approval) ==> Filled(run.portfolio))
    && (run.state.Cancelled? ==> Filled(run.approval))
  }

  /** The decisions on record for a run approve it exactly while it is not cancelled. */
  predicate DecisionsAgree(approvals: seq<Approval>, run: Run) {
    forall a | a in approvals && a.run == run.id :: a.approves <==> !run.state.Cancelled?
  }

  predicate NamesDistinct(runs: seq<Run>) {
    forall i, j | 0 <= i < j < |runs| && !Terminal(runs[i].state) && !Terminal(runs[j].state) ::
        runs[i].name != runs[j].name
  }

  predicate CreatedInTime(s: Snapshot, run: Run) {
    s.events != [] && Upto(run.createdAt, s.events[|s.events| - 1].stamp)
  }

  /** What every stored timestamp of a reachable snapshot is: whole milliseconds. */
  predicate WholeStamp(t: Time) { t.Instant? && FourDigitYear(t.nanos) && t.nanos % MILLISECOND == 0 }

  predicate LastIsWhole(s: Snapshot) { s.events == [] || WholeStamp(s.events[|s.events| - 1].stamp) }

  predicate RunSound(s: Snapshot, run: Run) {
    Shape(run) && Refines(run, Replay(LogOf(s.events, run.id))) && DecisionsAgree(s.approvals, run)
    && CreatedInTime(s, run)
  }

  predicate Sound(hash: Hash, s: Snapshot) {
    && ValidSnapshot(hash, s) && s.nextSequence == |s.events| + 1 && NamesDistinct(s.runs) && LastIsWhole(s)
    && forall r | r in s.runs :: RunSound(s, r)
  }

  // ------------------------------------------------------- growth of a run

  /** Source progress: forward in the frozen sequence, or to an end. */
  predicate Reaches(from: State, to: State) {
    from == to || (!Terminal(from) && (to.Failed? || to.Cancelled? || Rank(to) > Rank(from)))
  }

  predicate SourceLater(s: Source, t: Source) {
    && Reaches(s.state, t.state)
    && s.recordsRead <= t.recordsRead && s.recordsWritten <= t.recordsWritten && s.recordsRejected <= t.recordsRejected
    && (Filled(s.plan) ==> t.plan == s.plan && t.artifact == s.artifact)
    && (Filled(s.manifest) ==> t.manifest == s.manifest)
  }

  predicate RunLater(r: Run, t: Run) {
    && t.id == r.id && t.name == r.name && t.requester == r.requester && t.createdAt == r.createdAt
    && SourceLater(r.sources.jde, t.sources.jde) && SourceLater(r.sources.dynamics, t.sources.dynamics)
    && SourceLater(r.sources.ebs, t.sources.ebs)
    && (Filled(r.portfolio) ==> t.portfolio == r.portfolio) && (Filled(r.approval) ==> t.approval == r.approval)
    && (Terminal(r.state) ==> t == r)
  }

  predicate Later(s: Snapshot, t: Snapshot) {
    && s.events <= t.events && s.approvals <= t.approvals && |s.runs| <= |t.runs|
    && forall i | 0 <= i < |s.runs| :: RunLater(s.runs[i], t.runs[i])
  }

  lemma LaterTransitive(s: Snapshot, t: Snapshot, u: Snapshot)
    requires Later(s, t) && Later(t, u)
    ensures Later(s, u)
  {
    forall i | 0 <= i < |s.runs| ensures RunLater(s.runs[i], u.runs[i]) {
      RunLaterTransitive(s.runs[i], t.runs[i], u.runs[i]);
    }
  }

  lemma RunLaterTransitive(r: Run, t: Run, u: Run)
    requires RunLater(r, t) && RunLater(t, u)
    ensures RunLater(r, u)
  {
    SourceLaterTransitive(r.sources.jde, t.sources.jde, u.sources.jde);
    SourceLaterTransitive(r.sources.dynamics, t.sources.dynamics, u.sources.dynamics);
    SourceLaterTransitive(r.sources.ebs, t.sources.ebs, u.sources.ebs);
    hide SourceLater;
  }

  lemma SourceLaterTransitive(s: Source, t: Source, u: Source)
    requires SourceLater(s, t) && SourceLater(t, u)
    ensures SourceLater(s, u)
  {
  }

  // ------------------------------------------------------------ log lemmas

  lemma {:induction false} AppendAllReplay(s: Snapshot, run: Id, state: State, drafts: seq<Draft>, stamp: Time,
      ids: seq<Id>, next: Snapshot)
    requires AppendEvents(s, run, state, drafts, stamp, ids) == Ok(next)
    ensures Replay(LogOf(next.events, run)) == ReplayDrafts(Replay(LogOf(s.events, run)), state, drafts)
    decreases |drafts|
  {
    if drafts == [] {
    } else {
      var id := if ids == [] then Null else ids[0];
      var mid := AppendEvent(s, run, state, drafts[0], stamp, id).value;
      var e := EventAt(s, run, state, drafts[0], stamp, id);
      LogOfAppend(s.events, e, run);
      assert LogOf(mid.events, run)[..|LogOf(mid.events, run)| - 1] == LogOf(s.events, run);
      assert Replay(LogOf(mid.events, run)) == Told(Replay(LogOf(s.events, run)), state, drafts[0]);
      hide Told, Replay, AppendEvent;
      AppendAllReplay(mid, run, state, drafts[1..], stamp, if ids == [] then [] else ids[1..], next);
    }
  }

  lemma {:induction false} ReplayUpTo4(v: View, state: State, drafts: seq<Draft>)
    ensures |drafts| == 0 ==> ReplayDrafts(v, state, drafts) == v
    ensures |drafts| == 1 ==> ReplayDrafts(v, state, drafts) == Told(v, state, drafts[0])
    ensures |drafts| == 2 ==> ReplayDrafts(v, state, drafts) == Told(Told(v, state, drafts[0]), state, drafts[1])
    ensures |drafts| == 3 ==>
            ReplayDrafts(v, state, drafts) == Told(Told(Told(v, state, drafts[0]), state, drafts[1]), state, drafts[2])
    ensures |drafts| == 4 ==>
              ReplayDrafts(v, state, drafts)
                  == Told(Told(Told(Told(v, state, drafts[0]), state, drafts[1]), state, drafts[2]), state, drafts[3])
    decreases |drafts|
  {
    hide Told;
    if drafts == [] {
    } else {
      ReplayUpTo4(Told(v, state, drafts[0]), state, drafts[1..]);
    }
  }

  // ------------------------------------------------- what each change keeps

  /** One change takes a sound run, and what its log tells, to a sound run. */
  predicate Carries(run: Run, v: View, change: Change) {
    && Shape(change.run) && RunLater(run, change.run)
    && Refines(change.run, ReplayDrafts(v, change.run.state, change.drafts))
    && !Terminal(run.state) && (change.decision.None? ==> !change.run.state.Cancelled?)
  }

  lemma AdvanceCarries(hash: Hash, run: Run, c: Command, stamp: Time, v: View)
    requires ValidRun(hash, run) && Shape(run) && Refines(run, v) && !Terminal(run.state)
    requires c.AdvanceSource? && Malformed(c).None? && AdvanceChange(run, c, stamp).Ok?
    ensures Carries(run, v, AdvanceChange(run, c, stamp).value)
  {
    var change := AdvanceChange(run, c, stamp).value;
    AdvanceDoes(hash, run, c, stamp);
    AdvanceMoves(hash, run, c, stamp);
    AdvanceTells(hash, run, c, stamp, v);
    hide AdvanceChange, Shape, Refines, RunLater;
  }

  /** What an advance changes: one source, its run's derived state and stamp. */
  lemma AdvanceDoes(hash: Hash, run: Run, c: Command, stamp: Time)
    requires ValidRun(hash, run) && c.AdvanceSource? && Malformed(c).None? && !Terminal(run.state)
    requires AdvanceChange(run, c, stamp).Ok?
    ensures var change := AdvanceChange(run, c, stamp).value;
            var step := StepTo(c.to).value;
            var src, moved := run.sources.At(c.source), change.run.sources.At(c.source);
            && change.run == run.(sources := run.sources.Put(c.source, moved), state := change.run.state,
                                  updatedAt := stamp)
            && InProgress(change.run.state) && moved.state == c.to && src.state == step.from
            && SourceLater(src.(manifest := Null), moved.(manifest := Null)) && moved.failure == src.failure
            && moved.manifest == (if c.to.Redacting? then c.update.digest else src.manifest)
            && change.drafts == [Draft(Some(c.source), step.kind, References(step, c.update))]
                                + (if change.run.state.Completed? then [Draft(None, MigrationCompleted, [])] else [])
  {
    hide Derive, References, AdvanceChange, SourceLater, ValidSource;
    var moved := AdvanceChange(run, c, stamp).value.run.sources.At(c.source);
    AdvanceMoved(run, c, stamp);
    AdvanceDerives(run.sources, c.source, moved, c.to);
    AdvanceReports(run, c, stamp);
  }

  lemma AdvanceMoved(run: Run, c: Command, stamp: Time)
    requires c.AdvanceSource? && Malformed(c).None? && AdvanceChange(run, c, stamp).Ok?
    ensures var change := AdvanceChange(run, c, stamp).value;
            var step := StepTo(c.to).value;
            var src, moved := run.sources.At(c.source), change.run.sources.At(c.source);
            && change.run == Settled(run.(sources := run.sources.Put(c.source, moved)), stamp)
            && moved.state == c.to && src.state == step.from
            && SourceLater(src.(manifest := Null), moved.(manifest := Null)) && moved.failure == src.failure
            && moved.manifest == (if c.to.Redacting? then c.update.digest else src.manifest)
  {
    hide Derive, References;
  }

  lemma AdvanceReports(run: Run, c: Command, stamp: Time)
    requires c.AdvanceSource? && Malformed(c).None? && AdvanceChange(run, c, stamp).Ok? && !Terminal(run.state)
    ensures var change := AdvanceChange(run, c, stamp).value;
            var step := StepTo(c.to).value;
            change.drafts == [Draft(Some(c.source), step.kind, References(step, c.update))]
                             + (if change.run.state.Completed? then [Draft(None, MigrationCompleted, [])] else [])
  {
    hide Derive, References, CountersForward;
  }

  lemma AdvanceMoves(hash: Hash, run: Run, c: Command, stamp: Time)
    requires ValidRun(hash, run) && Shape(run) && !Terminal(run.state)
    requires c.AdvanceSource? && Malformed(c).None? && AdvanceChange(run, c, stamp).Ok?
    ensures var change := AdvanceChange(run, c, stamp).value; Shape(change.run) && RunLater(run, change.run)
  {
    var next := AdvanceChange(run, c, stamp).value.run;
    AdvanceDoes(hash, run, c, stamp);
    assert SourceShape(run, run.sources.At(c.source));
    hide AdvanceChange, ValidRun, Malformed;
    assert SourceShape(next, next.sources.At(c.source))
        && SourceLater(run.sources.At(c.source), next.sources.At(c.source));
    hide StepTo;
    forall id: SourceId ensures SourceShape(next, next.sources.At(id))
        && SourceLater(run.sources.At(id), next.sources.At(id)) {
      if id != c.source { assert SourceShape(run, run.sources.At(id)) && next.sources.At(id) == run.sources.At(id); }
    }
    ThreeShapes(run, next);
    assert OneFailure(next.sources);
    hide SourceShape, SourceLater, OneFailure;
  }

  lemma ThreeShapes(run: Run, next: Run)
    requires forall id: SourceId ::
             SourceShape(next, next.sources.At(id)) && SourceLater(run.sources.At(id), next.sources.At(id))
    ensures SourceShape(next, next.sources.jde) && SourceShape(next, next.sources.dynamics)
    ensures SourceShape(next, next.sources.ebs)
    ensures SourceLater(run.sources.jde, next.sources.jde) && SourceLater(run.sources.dynamics, next.sources.dynamics)
            && SourceLater(run.sources.ebs, next.sources.ebs)
  {
    assert next.sources.jde == next.sources.At(Jde) && next.sources.dynamics == next.sources.At(Dynamics)
        && next.sources.ebs == next.sources.At(Ebs);
    assert run.sources.jde == run.sources.At(Jde) && run.sources.dynamics == run.sources.At(Dynamics)
        && run.sources.ebs == run.sources.At(Ebs);
    hide SourceShape, SourceLater;
  }

  /** The event of a step says what the step did. */
  lemma StepTold(v: View, state: State, c: Command)
    requires c.AdvanceSource? && Malformed(c).None?
    ensures var step := StepTo(c.to).value;
            Told(v, state, Draft(Some(c.source), step.kind, References(step, c.update))) ==
              v.(states := v.states.Put(c.source, c.to), last := state,
                 manifests := if c.to.Redacting? then v.manifests.Put(c.source, c.update.digest) else v.manifests)
  {
  }

  lemma PutProjects(sources: Three<Source>, id: SourceId, src: Source)
    ensures var next := sources.Put(id, src);
            && States(next) == States(sources).Put(id, src.state)
            && Manifests(next) == Manifests(sources).Put(id, src.manifest)
            && Plans(next) == Plans(sources).Put(id, src.plan) && Plans(sources).At(id) == sources.At(id).plan
            && Manifests(sources).At(id) == sources.At(id).manifest
  {
  }

  /** The view after an advance. */
  function Advanced(v: View, run: Run, c: Command): View
    requires c.AdvanceSource?
  {
    v.(states := v.states.Put(c.source, c.to), last := run.state,
       completions := v.completions + One(run.state.Completed?),
       manifests := if c.to.Redacting? then v.manifests.Put(c.source, c.update.digest) else v.manifests)
  }

  lemma AdvanceReplays(hash: Hash, run: Run, c: Command, stamp: Time, v: View)
    requires ValidRun(hash, run) && !Terminal(run.state)
    requires c.AdvanceSource? && Malformed(c).None? && AdvanceChange(run, c, stamp).Ok?
    ensures var change := AdvanceChange(run, c, stamp).value;
            ReplayDrafts(v, change.run.state, change.drafts) == Advanced(v, change.run, c)
  {
    var change := AdvanceChange(run, c, stamp).value;
    var next := change.run;
    AdvanceDoes(hash, run, c, stamp);
    StepTold(v, next.state, c);
    hide AdvanceChange, ValidRun, Malformed, StepTo, References, SourceLater;
    ReplayUpTo4(v, next.state, change.drafts);
    hide ReplayDrafts;
    var told := Told(v, next.state, change.drafts[0]);
    assert Told(told, next.state, Draft(None, MigrationCompleted, []))
        == told.(completions := told.completions + 1, last := next.state);
    hide Told;
  }

  lemma AdvanceTells(hash: Hash, run: Run, c: Command, stamp: Time, v: View)
    requires ValidRun(hash, run) && Shape(run) && Refines(run, v) && !Terminal(run.state)
    requires c.AdvanceSource? && Malformed(c).None? && AdvanceChange(run, c, stamp).Ok?
    ensures var change := AdvanceChange(run, c, stamp).value;
            Refines(change.run, ReplayDrafts(v, change.run.state, change.drafts))
  {
    var next := AdvanceChange(run, c, stamp).value.run;
    AdvanceReplays(hash, run, c, stamp, v);
    AdvanceDoes(hash, run, c, stamp);
    hide AdvanceChange, ReplayDrafts, Shape, References, Malformed, StepTo;
    SourcePlanStays(run, next, c.source);
    PutProjects(run.sources, c.source, next.sources.At(c.source));
    hide ValidRun, SourceLater, States, Manifests, Plans;
    assert Manifests(next.sources) == if c.to.Redacting? then Manifests(run.sources).Put(c.source, c.update.digest)
        else Manifests(run.sources) by {
      assert Manifests(run.sources).Put(c.source, Manifests(run.sources).At(c.source)) == Manifests(run.sources);
    }
  }

  lemma SourcePlanStays(run: Run, next: Run, id: SourceId)
    requires next.sources == run.sources.Put(id, next.sources.At(id))
    requires SourceLater(run.sources.At(id).(manifest := Null), next.sources.At(id).(manifest := Null))
    requires Filled(run.portfolio) ==> Filled(run.sources.At(id).plan)
    ensures Filled(run.portfolio) ==> Plans(next.sources) == Plans(run.sources)
  {
  }

  lemma AttachCarries(hash: Hash, run: Run, c: Command, stamp: Time, v: View)
    requires ValidRun(hash, run) && Shape(run) && Refines(run, v) && !Terminal(run.state)
    requires c.AttachSourcePlan? && Malformed(c).None? && AttachChange(run, c, stamp).Ok?
    ensures Carries(run, v, AttachChange(run, c, stamp).value)
  {
    hide Malformed, Shape, RunLater, AttachChange, Refines, ValidRun;
    AttachShape(hash, run, c, stamp);
    AttachTells(hash, run, c, stamp, v);
    assert ReplayDrafts(v, run.state, []) == v;
  }

  lemma AttachShape(hash: Hash, run: Run, c: Command, stamp: Time)
    requires ValidRun(hash, run) && Shape(run) && !Terminal(run.state) && c.AttachSourcePlan?
    requires AttachChange(run, c, stamp).Ok?
    ensures var change := AttachChange(run, c, stamp).value;
            && Shape(change.run) && RunLater(run, change.run)
            && change.run.state == run.state && change.drafts == [] && change.decision.None?
    ensures !run.state.Cancelled?
  {
    hide Derive, Malformed, PortfolioDigest;
  }

  lemma AttachTells(hash: Hash, run: Run, c: Command, stamp: Time, v: View)
    requires Shape(run) && Refines(run, v) && !Terminal(run.state) && c.AttachSourcePlan?
    requires AttachChange(run, c, stamp).Ok?
    ensures Refines(AttachChange(run, c, stamp).value.run, v)
  {
    hide Derive, Malformed, PortfolioDigest, OneFailure;
    assert SourceShape(run, run.sources.At(c.source));
    assert !Filled(run.portfolio);
  }

  lemma EnterCarries(hash: Hash, run: Run, stamp: Time, v: View)
    requires ValidRun(hash, run) && Shape(run) && Refines(run, v) && !Terminal(run.state)
    requires EnterChange(hash, run, stamp).Ok?
    ensures Carries(run, v, EnterChange(hash, run, stamp).value)
  {
    var change := EnterChange(hash, run, stamp).value;
    ReplayUpTo4(v, change.run.state, change.drafts);
    hide ReplayDrafts;
  }

  lemma FailCarries(hash: Hash, run: Run, c: Command, stamp: Time, v: View)
    requires ValidRun(hash, run) && Shape(run) && Refines(run, v) && !Terminal(run.state)
    requires c.FailSource? && Malformed(c).None? && FailChange(run, c, stamp).Ok?
    ensures Carries(run, v, FailChange(run, c, stamp).value)
  {
    hide ReplayDrafts, Malformed, StepTo, PortfolioDigest;
    var change := FailChange(run, c, stamp).value;
    ReplayUpTo4(v, change.run.state, change.drafts);
  }

  lemma DecideCarries(hash: Hash, run: Run, c: Command, stamp: Time, id: Id, v: View)
    requires ValidRun(hash, run) && Shape(run) && Refines(run, v) && run.state.AwaitingApproval?
    requires c.Decide? && !Filled(run.approval) && Filled(run.portfolio) && Filled(id)
    ensures var change := DecideChange(run, c, stamp, id);
            Carries(run, v, change) && (change.decision.value.approves <==> !change.run.state.Cancelled?)
  {
    var change := DecideChange(run, c, stamp, id);
    ReplayUpTo4(v, change.run.state, change.drafts);
    hide ReplayDrafts;
  }
}
