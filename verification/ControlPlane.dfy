/** The control plane's snapshot, its six mutating operations and the integrity
    check that guards every commit. Times are nanoseconds since the start of the
    year 0, in which the RFC 3339 parser of the source begins. */
module ControlPlane {
  import opened Common

  datatype State =
    | Created | Inventorying | Redacting | Planning | AwaitingApproval
    | Approved | Executing | Verifying | Completed | Failed | Cancelled

  predicate InProgress(s: State) { !s.Failed? && !s.Cancelled? }

  predicate Terminal(s: State) { s.Completed? || s.Failed? || s.Cancelled? }

  function Rank(s: State): nat
    requires InProgress(s)
  {
    match s
    case Created => 0 case Inventorying => 1 case Redacting => 2 case Planning => 3 case AwaitingApproval => 4
    case Approved => 5 case Executing => 6 case Verifying => 7 case Completed => 8
  }

  /** The three canonical sources, in storage order. */
  datatype SourceId = Jde | Dynamics | Ebs

  const SOURCES := [Jde, Dynamics, Ebs]

  datatype Three<T> = Three(jde: T, dynamics: T, ebs: T) {
    function At(id: SourceId): T {
      match id case Jde => jde case Dynamics => dynamics case Ebs => ebs
    }

    function Put(id: SourceId, value: T): Three<T> {
      match id
      case Jde => this.(jde := value)
      case Dynamics => this.(dynamics := value)
      case Ebs => this.(ebs := value)
    }
  }

  /** A stored timestamp as it parses; `Unreadable` is text that does not. */
  datatype Time = Instant(nanos: int) | Unreadable

  predicate Upto(a: Time, b: Time) { a.Instant? && b.Instant? && a.nanos <= b.nanos }

  const MILLISECOND := 1_000_000

  /** The start of the year 10000. */
  const YEAR_10000 := 3_652_425 * 86_400_000 * MILLISECOND

  predicate FourDigitYear(nanos: int) { 0 <= nanos < YEAR_10000 }

  /** The stored format keeps milliseconds and drops the rest. A year that does
      not have four digits prints as text the parser refuses. */
  function Printed(nanos: int): Time {
    if FourDigitYear(nanos) then Instant(nanos - nanos % MILLISECOND) else Unreadable
  }

  datatype Source = Source(
    state: State, recordsRead: int, recordsWritten: int, recordsRejected: int,
    plan: Id, failure: Id, manifest: Id, artifact: Id)

  datatype Run = Run(
    id: Id, name: Id, state: State, sources: Three<Source>, portfolio: Id,
    failure: Id, requester: Id, approval: Id, createdAt: Time, updatedAt: Time)

  datatype EvidenceKind =
    | SourceManifest | RedactionReport | TransformPlan | DataflowJob | BigQueryTable | ReconciliationReport | AuditLog

  datatype Evidence = Evidence(artifact: Id, kind: EvidenceKind, digest: Id)

  datatype EventType =
    | InventoryStarted | InventoryCompleted | RedactionCompleted | PlanReady
    | ExecutionStarted | ExecutionCompleted | VerificationCompleted | SourceFailed
    | MigrationCreated | PortfolioAwaiting | PortfolioApproved | PortfolioRejected
    | MigrationCompleted | MigrationFailed | MigrationCancelled

  predicate SourceScoped(kind: EventType) {
    || kind.InventoryStarted? || kind.InventoryCompleted? || kind.RedactionCompleted? || kind.PlanReady?
    || kind.ExecutionStarted? || kind.ExecutionCompleted? || kind.VerificationCompleted? || kind.SourceFailed?
  }

  datatype Event = Event(
    sequence: int, id: Id, run: Id, source: Option<SourceId>, kind: EventType,
    stamp: Time, refs: seq<Evidence>, state: State)

  datatype Approval = Approval(id: Id, run: Id, plan: Id, approves: bool, result: State, actor: Id, decidedAt: Time,
                               reason: Id)

  datatype Snapshot = Snapshot(nextSequence: int, runs: seq<Run>, approvals: seq<Approval>, events: seq<Event>)

  const EMPTY := Snapshot(1, [], [], [])

  const MAX_RUNS := 1000
  const MAX_EVENTS_PER_RUN := 10000
  const MAX_EVIDENCE_PER_EVENT := 50
  const UINT64 := 0x1_0000_0000_0000_0000

  datatype Fault =
    | NotFound | InvalidRequest | InvalidDigest | PortfolioExists | Capacity | NotAwaitingApproval
    | StaleDigest | AlreadyDecided | InvalidTransition | RunTerminal | EventLimit | UnknownCursor | Internal

  /** The digest over the three source plan digests in canonical order. */
  type Hash = (Id, Id, Id) -> Id

  function PortfolioDigest(hash: Hash, run: Run): Id {
    hash(run.sources.jde.plan, run.sources.dynamics.plan, run.sources.ebs.plan)
  }

  // --------------------------------------------------------- derived state

  function LeastAdvanced(a: State, b: State): State
    requires InProgress(a) && InProgress(b)
  {
    if Rank(b) < Rank(a) then b else a
  }

  function Derive(s: Three<Source>): State {
    if s.jde.state.Failed? || s.dynamics.state.Failed? || s.ebs.state.Failed? then Failed
    else if s.jde.state.Cancelled? || s.dynamics.state.Cancelled? || s.ebs.state.Cancelled? then Cancelled
    else LeastAdvanced(LeastAdvanced(s.jde.state, s.dynamics.state), s.ebs.state)
  }

  // ------------------------------------------------------- integrity check

  function LogOf(events: seq<Event>, run: Id): seq<Event> {
    if events == [] then []
    else LogOf(events[..|events| - 1], run) + (if events[|events| - 1].run == run then [events[|events| - 1]] else [])
  }

  predicate ValidSource(s: Source) {
    && s.recordsRead >= 0 && s.recordsWritten >= 0 && s.recordsRejected >= 0
    && (Filled(s.plan) <==> Filled(s.artifact))
    && (s.state.Failed? <==> Filled(s.failure))
  }

  predicate ValidRun(hash: Hash, run: Run) {
    && Filled(run.id) && Filled(run.name)
    && (run.state.Failed? <==> Filled(run.failure))
    && ValidSource(run.sources.jde) && ValidSource(run.sources.dynamics) && ValidSource(run.sources.ebs)
    && Derive(run.sources) == run.state
    && Upto(run.createdAt, run.updatedAt)
    && (Filled(run.portfolio) ==>
          && Filled(run.sources.jde.plan) && Filled(run.sources.dynamics.plan) && Filled(run.sources.ebs.plan)
          && PortfolioDigest(hash, run) == run.portfolio)
    && (InProgress(run.state) && Rank(run.state) >= Rank(AwaitingApproval) ==> Filled(run.portfolio))
  }

  predicate RunsValid(hash: Hash, runs: seq<Run>) { forall r | r in runs :: ValidRun(hash, r) }

  predicate RunsDistinct(runs: seq<Run>) {
    forall i, j | 0 <= i < j < |runs| :: runs[i].id != runs[j].id
  }

  predicate ApprovalMatches(a: Approval, run: Run) {
    && a.run == run.id && run.approval == a.id
    && Filled(a.id) && Filled(a.plan) && a.plan == run.portfolio
    && a.result == (if a.approves then Approved else Cancelled) && Filled(a.actor) && a.decidedAt.Instant?
  }

  predicate DecisionsDistinct(approvals: seq<Approval>) {
    forall i, j | 0 <= i < j < |approvals| ::
      approvals[i].id != approvals[j].id && approvals[i].run != approvals[j].run
  }

  predicate DecisionsMatch(approvals: seq<Approval>, runs: seq<Run>) {
    forall a | a in approvals :: exists r :: r in runs && ApprovalMatches(a, r)
  }

  predicate RunsMatch(approvals: seq<Approval>, runs: seq<Run>) {
    forall r | r in runs && Filled(r.approval) :: exists a :: a in approvals && ApprovalMatches(a, r)
  }

  predicate ValidApprovals(approvals: seq<Approval>, runs: seq<Run>) {
    DecisionsDistinct(approvals) && DecisionsMatch(approvals, runs) && RunsMatch(approvals, runs)
  }

  predicate KnownRun(runs: seq<Run>, id: Id) { exists r :: r in runs && r.id == id }

  predicate ValidEvent(e: Event) {
    && Filled(e.id) && (SourceScoped(e.kind) <==> e.source.Some?) && |e.refs| <= MAX_EVIDENCE_PER_EVENT
    && e.stamp.Instant?
    && forall ref | ref in e.refs :: Filled(ref.artifact) && Filled(ref.digest)
  }

  predicate EventsInOrder(events: seq<Event>) {
    forall i, j | 0 <= i < j < |events| ::
      events[i].id != events[j].id && events[i].sequence < events[j].sequence && Upto(events[i].stamp, events[j].stamp)
  }

  predicate ValidLog(log: seq<Event>) {
    0 < |log| <= MAX_EVENTS_PER_RUN && log[0].kind.MigrationCreated?
  }

  predicate ValidEvents(s: Snapshot) {
    && EventsInOrder(s.events)
    && (forall e | e in s.events :: ValidEvent(e) && e.sequence < s.nextSequence && KnownRun(s.runs, e.run))
    && (forall r | r in s.runs :: ValidLog(LogOf(s.events, r.id)))
  }

  /** The integrity check on load and before every commit. The cursor is a
      uint64; malformed text and non-canonical source lists are not representable. */
  predicate ValidSnapshot(hash: Hash, s: Snapshot) {
    && 0 <= s.nextSequence < UINT64
    && |s.runs| <= MAX_RUNS && RunsDistinct(s.runs) && RunsValid(hash, s.runs)
    && ValidApprovals(s.approvals, s.runs)
    && ValidEvents(s)
  }

  // -------------------------------------------------------------- commands

  datatype Update = Update(
    artifact: Id, digest: Id, secondaryArtifact: Id, secondaryDigest: Id,
    recordsRead: Option<int>, recordsWritten: Option<int>, recordsRejected: Option<int>)

  datatype Command =
    | CreateRun(name: Id, requester: Id)
    | AdvanceSource(run: Id, source: SourceId, to: State, update: Update)
    | AttachSourcePlan(run: Id, source: SourceId, artifact: Id, digest: Id)
    | EnterAwaitingApproval(run: Id)
    | FailSource(run: Id, source: SourceId, code: Id)
    | Decide(run: Id, digest: Id, approve: bool, actor: Id, reason: Id)

  /** The clock reading and the identifiers drawn for one command, in order;
      `Null` stands for a failing random source. */
  datatype Draw = Draw(now: int, row: Id, events: seq<Id>)

  /** The last stamp on record, if the log is not empty. */
  function LastStamp(s: Snapshot): Option<Time> {
    if s.events == [] then None else Some(s.events[|s.events| - 1].stamp)
  }

  /** The clock reading, or a millisecond after the last stamp if it is not later. */
  function Moment(s: Snapshot, now: int): int {
    match LastStamp(s)
    case Some(Instant(last)) => if now <= last then last + MILLISECOND else now
    case _ => now
  }

  function Stamp(s: Snapshot, now: int): Time { Printed(Moment(s, now)) }

  predicate IdInUse(s: Snapshot, id: Id) {
    || (exists r :: r in s.runs && r.id == id)
    || (exists a :: a in s.approvals && a.id == id)
    || (exists e :: e in s.events && e.id == id)
  }

  /** The loop of attempts for an unused identifier ends with one, or fails. */
  predicate Usable(s: Snapshot, id: Id) { Filled(id) && !IdInUse(s, id) }

  /** An event a command wants to append, before it has a place in the log. */
  datatype Draft = Draft(source: Option<SourceId>, kind: EventType, refs: seq<Evidence>)

  function AppendEvent(s: Snapshot, run: Id, state: State, draft: Draft, stamp: Time, id: Id): Result<Snapshot, Fault> {
    if SourceScoped(draft.kind) != draft.source.Some? then Err(Internal)
    else if |LogOf(s.events, run)| >= MAX_EVENTS_PER_RUN then Err(EventLimit)
    else if !Usable(s, id) then Err(Internal)
    else
      var e := Event(s.nextSequence, id, run, draft.source, draft.kind, stamp, draft.refs, state);
      Ok(s.(events := s.events + [e], nextSequence := (s.nextSequence + 1) % UINT64))
  }

  function AppendEvents(s: Snapshot, run: Id, state: State, drafts: seq<Draft>, stamp: Time,
      ids: seq<Id>): Result<Snapshot, Fault>
    decreases |drafts|
  {
    if drafts == [] then Ok(s)
    else
      match AppendEvent(s, run, state, drafts[0], stamp, if ids == [] then Null else ids[0])
      case Err(fault) => Err(fault)
      case Ok(next) => AppendEvents(next, run, state, drafts[1..], stamp, if ids == [] then [] else ids[1..])
  }

  function FindRun(runs: seq<Run>, id: Id): (i: Option<nat>)
    ensures i.Some? ==> i.value < |runs| && runs[i.value].id == id
    ensures i.None? ==> !KnownRun(runs, id)
  {
    if runs == [] then None
    else if runs[0].id == id then Some(0)
    else match FindRun(runs[1..], id)
      case None => None
      case Some(i) => Some(i + 1)
  }

  // --------------------------------------------- what a command does to its run

  /** The changed run, the events it reports and the decision it records. */
  datatype Change = Change(run: Run, drafts: seq<Draft>, decision: Option<Approval>)

  function Settled(run: Run, stamp: Time): Run {
    run.(state := Derive(run.sources), updatedAt := stamp)
  }

  datatype Step = Step(from: State, kind: EventType, evidence: Option<EvidenceKind>, secondary: Option<EvidenceKind>)

  /** The frozen per-source sequence, keyed by the state being entered. */
  function StepTo(to: State): Option<Step> {
    match to
    case Inventorying => Some(Step(Created, InventoryStarted, None, None))
    case Redacting => Some(Step(Inventorying, InventoryCompleted, Some(SourceManifest), None))
    case Planning => Some(Step(Redacting, RedactionCompleted, Some(RedactionReport), None))
    case Executing => Some(Step(Approved, ExecutionStarted, None, None))
    case Verifying => Some(Step(Executing, ExecutionCompleted, Some(DataflowJob), Some(BigQueryTable)))
    case Completed => Some(Step(Verifying, VerificationCompleted, Some(ReconciliationReport), Some(AuditLog)))
    case _ => None
  }

  predicate EvidenceFits(step: Step, u: Update) {
    if step.evidence.None? then !Filled(u.artifact) && !Filled(u.digest) && !Filled(u.secondaryArtifact)
        && !Filled(u.secondaryDigest)
    else
      && Filled(u.artifact) && Filled(u.digest)
      && (Filled(u.secondaryArtifact) || Filled(u.secondaryDigest) ==>
            step.secondary.Some? && Filled(u.secondaryArtifact) && Filled(u.secondaryDigest))
  }

  predicate Forward(counter: int, to: Option<int>) { to.Some? ==> to.value >= 0 && to.value >= counter }

  function Moved(counter: int, to: Option<int>): int { if to.Some? then to.value else counter }

  predicate CountersForward(src: Source, u: Update) {
    Forward(src.recordsRead, u.recordsRead) && Forward(src.recordsWritten, u.recordsWritten)
    && Forward(src.recordsRejected, u.recordsRejected)
  }

  function References(step: Step, u: Update): seq<Evidence> {
    if step.evidence.None? then []
    else
      [Evidence(u.artifact, step.evidence.value, u.digest)]
      + (if Filled(u.secondaryArtifact) && step.secondary.Some?
         then [Evidence(u.secondaryArtifact, step.secondary.value, u.secondaryDigest)] else [])
  }

  function AdvanceChange(run: Run, c: Command, stamp: Time): Result<Change, Fault>
    requires c.AdvanceSource? && StepTo(c.to).Some?
  {
    var step := StepTo(c.to).value;
    var src := run.sources.At(c.source);
    if src.state != step.from then Err(InvalidTransition)
    else if !CountersForward(src, c.update) then Err(InvalidRequest)
    else
      var moved := src.(
        state := c.to,
        recordsRead := Moved(src.recordsRead, c.update.recordsRead),
        recordsWritten := Moved(src.recordsWritten, c.update.recordsWritten),
        recordsRejected := Moved(src.recordsRejected, c.update.recordsRejected),
        manifest := if step.evidence == Some(SourceManifest) then c.update.digest else src.manifest);
      var next := Settled(run.(sources := run.sources.Put(c.source, moved)), stamp);
      var report := Draft(Some(c.source), step.kind, References(step, c.update));
      Ok(Change(next,
                [report] + (if !run.state.Completed? && next.state.Completed? then [Draft(None, MigrationCompleted, [])]
                            else []),
                None))
  }

  function AttachChange(run: Run, c: Command, stamp: Time): Result<Change, Fault>
    requires c.AttachSourcePlan?
  {
    var src := run.sources.At(c.source);
    if !src.state.Planning? || Filled(src.plan) then Err(InvalidTransition)
    else Ok(Change(run.(sources := run.sources.Put(c.source, src.(plan := c.digest, artifact := c.artifact)),
                        updatedAt := stamp), [], None))
  }

  predicate Planned(s: Source) { s.state.Planning? && Filled(s.plan) }

  function AllIn(s: Three<Source>, state: State): Three<Source> {
    Three(s.jde.(state := state), s.dynamics.(state := state), s.ebs.(state := state))
  }

  function PlanReadyDraft(run: Run, id: SourceId): Draft {
    Draft(Some(id), PlanReady, [Evidence(run.sources.At(id).artifact, TransformPlan, run.sources.At(id).plan)])
  }

  function EnterChange(hash: Hash, run: Run, stamp: Time): Result<Change, Fault> {
    if !Planned(run.sources.jde) || !Planned(run.sources.dynamics) || !Planned(run.sources.ebs)
        then Err(InvalidTransition)
    else
      var next := Settled(run.(sources := AllIn(run.sources, AwaitingApproval),
                               portfolio := PortfolioDigest(hash, run)), stamp);
      if !Filled(next.portfolio) then Err(Internal)
      else Ok(Change(next, [PlanReadyDraft(next, Jde), PlanReadyDraft(next, Dynamics), PlanReadyDraft(next, Ebs),
                            Draft(None, PortfolioAwaiting, [])], None))
  }

  function FailChange(run: Run, c: Command, stamp: Time): Result<Change, Fault>
    requires c.FailSource?
  {
    var src := run.sources.At(c.source);
    if Terminal(src.state) then Err(InvalidTransition)
    else
      var sources := run.sources.Put(c.source, src.(state := Failed, failure := c.code));
      Ok(Change(Settled(run.(sources := sources, failure := c.code), stamp),
                [Draft(Some(c.source), SourceFailed, []), Draft(None, MigrationFailed, [])], None))
  }

  function DecideChange(run: Run, c: Command, stamp: Time, id: Id): Change
    requires c.Decide?
  {
    var result := if c.approve then Approved else Cancelled;
    var next := Settled(run.(sources := AllIn(run.sources, result), approval := id), stamp);
    Change(next,
           if c.approve then [Draft(None, PortfolioApproved, [])]
           else [Draft(None, PortfolioRejected, []), Draft(None, MigrationCancelled, [])],
           Some(Approval(id, run.id, run.portfolio, c.approve, result, c.actor, stamp, c.reason)))
  }

  // ------------------------------------------------- the snapshot to commit

  predicate WellFormed(c: Command) {
    match c
    case CreateRun(name, _) => Filled(name)
    case AdvanceSource(_, _, to, update) => StepTo(to).Some? ==> EvidenceFits(StepTo(to).value, update)
    case AttachSourcePlan(_, _, artifact, _) => Filled(artifact)
    case FailSource(_, _, code) => Filled(code)
    case Decide(_, _, _, actor, _) => Filled(actor)
    case _ => true
  }

  /** What a command refuses before it looks at the snapshot. */
  function Malformed(c: Command): Option<Fault> {
    if c.AdvanceSource? && StepTo(c.to).None? then Some(InvalidTransition)
    else if !WellFormed(c) then Some(InvalidRequest)
    else if (c.AttachSourcePlan? || c.Decide?) && !Filled(c.digest) then Some(InvalidDigest)
    else if !c.CreateRun? && !Filled(c.run) then Some(NotFound)
    else None
  }

  function FreshRun(c: Command, id: Id, stamp: Time): Run
    requires c.CreateRun?
  {
    var source := Source(Created, 0, 0, 0, Null, Null, Null, Null);
    Run(id, c.name, Created, Three(source, source, source), Null, Null, c.requester, Null, stamp, stamp)
  }

  predicate NameTaken(runs: seq<Run>, name: Id) {
    exists r :: r in runs && r.name == name && !Terminal(r.state)
  }

  function BuildCreate(s: Snapshot, c: Command, draw: Draw): Result<Snapshot, Fault>
    requires c.CreateRun?
  {
    if NameTaken(s.runs, c.name) then Err(PortfolioExists)
    else if |s.runs| >= MAX_RUNS then Err(Capacity)
    else if !Usable(s, draw.row) then Err(Internal)
    else
      var stamp := Stamp(s, draw.now);
      var run := FreshRun(c, draw.row, stamp);
      AppendEvents(s.(runs := s.runs + [run]), run.id, run.state, [Draft(None, MigrationCreated, [])], stamp,
                   draw.events)
  }

  /** How a command changes the run it names, found at `i`. */
  function ChangeOf(hash: Hash, s: Snapshot, i: nat, c: Command, draw: Draw): Result<Change, Fault>
    requires i < |s.runs| && !c.CreateRun? && Malformed(c).None?
  {
    var run := s.runs[i];
    var stamp := Stamp(s, draw.now);
    if c.Decide? then
      if Filled(run.approval) then Err(AlreadyDecided)
      else if !run.state.AwaitingApproval? || !Filled(run.portfolio) then Err(NotAwaitingApproval)
      else if c.digest != run.portfolio then Err(StaleDigest)
      else if !Usable(s, draw.row) then Err(Internal)
      else Ok(DecideChange(run, c, stamp, draw.row))
    else if Terminal(run.state) then Err(RunTerminal)
    else match c
      case AdvanceSource(_, _, _, _) => AdvanceChange(run, c, stamp)
      case AttachSourcePlan(_, _, _, _) => AttachChange(run, c, stamp)
      case EnterAwaitingApproval(_) => EnterChange(hash, run, stamp)
      case FailSource(_, _, _) => FailChange(run, c, stamp)
  }

  /** A clone of the snapshot with the change applied and its events appended. */
  function Publish(s: Snapshot, i: nat, change: Change, draw: Draw): Result<Snapshot, Fault>
    requires i < |s.runs|
  {
    var next := s.(runs := s.runs[i := change.run],
                   approvals := s.approvals + (if change.decision.Some? then [change.decision.value] else []));
    AppendEvents(next, change.run.id, change.run.state, change.drafts, Stamp(s, draw.now), draw.events)
  }

  /** The snapshot a command would commit, or why it refuses. */
  function Build(hash: Hash, s: Snapshot, c: Command, draw: Draw): Result<Snapshot, Fault> {
    if Malformed(c).Some? then Err(Malformed(c).value)
    else if c.CreateRun? then BuildCreate(s, c, draw)
    else match FindRun(s.runs, c.run)
      case None => Err(NotFound)
      case Some(i) =>
        match ChangeOf(hash, s, i, c, draw)
        case Err(fault) => Err(fault)
        case Ok(change) => Publish(s, i, change, draw)
  }

  // ----------------------------------------------------------------- store

  /** How a durable write ends: nothing written, the file replaced but its
      directory not synced, or both. */
  datatype Persist = NotWritten | WrittenUnsynced | Written

  /** A local store: the snapshot in memory and the one in its file. */
  datatype Durable = Durable(memory: Snapshot, file: Snapshot)

  datatype Reply = Done | Refused(fault: Fault)

  function Commit(hash: Hash, store: Durable, next: Snapshot, persist: Persist): (Durable, Reply) {
    if !ValidSnapshot(hash, next) || persist.NotWritten? then (store, Refused(Internal))
    else (Durable(next, next), if persist.Written? then Done else Refused(Internal))
  }

  function Apply(hash: Hash, store: Durable, c: Command, draw: Draw, persist: Persist): (Durable, Reply) {
    match Build(hash, store.memory, c, draw)
    case Err(fault) => (store, Refused(fault))
    case Ok(next) => Commit(hash, store, next, persist)
  }

  datatype Timed = Timed(command: Command, draw: Draw, persist: Persist)

  function After(hash: Hash, store: Durable, history: seq<Timed>): Durable
    decreases |history|
  {
    if history == [] then store
    else After(hash, Apply(hash, store, history[0].command, history[0].draw, history[0].persist).0, history[1..])
  }
}
