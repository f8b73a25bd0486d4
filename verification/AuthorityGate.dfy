/** The lifecycle side of the authority: runs, staged approvals with single-use
    nonces, trust-spine checkpoints, releases, launches and reconciliations.
    Each transaction is a function from the tables to what it writes. */
module AuthorityGate {
  import opened Common
  import opened AuthorityTables

  datatype Stage = Simulation | Production

  datatype Phase =
    | Planned | Validated | PolicyDecided | Verified | SimulationApproved
    | ApprovedForExecution | Dispatched | Reconciled | Certified

  predicate PastSeal(phase: Phase) {
    phase.ApprovedForExecution? || phase.Dispatched? || phase.Reconciled? || phase.Certified?
  }

  datatype Run = Run(
    state: RunState, revision: int, plan: Id,
    simulation: Id, production: Id, approval: Id, release: Id)

  /** The digests that a nonce, an approval command and an approval row must share. */
  datatype Binding = Binding(
    stage: Stage, request: Id, plan: Id, release: Id, artifact: Id,
    subject: Id, checkpoint: Id, simulationRecord: Id)

  datatype Approval = Approval(
    run: Id, binding: Binding, nonce: Id, record: Id, prior: Id, approves: bool, actor: Id)

  datatype Nonce = Nonce(run: Id, request: Id, binding: Binding, expiresAt: int, consumedBy: Id)

  datatype Checkpoint = Checkpoint(
    revision: int, digest: Id, source: Id, request: Id, plan: Id, phase: Phase,
    sequence: int, chain: Id, modelCalls: int, modelCallsAtSeal: Option<int>,
    postSealCalls: int, seal: Id, production: Id)

  datatype Entry = Entry(
    stage: Stage, approval: Id, record: Id, authorityRecord: Id, source: Id,
    subject: Id, predecessor: Id, key: Id, authority: Id, approver: Id)

  datatype Release = Release(
    run: Id, approval: Id, subject: Id, kind: Id, artifact: Id, signer: Id, signature: Id)

  datatype Launch = Launch(release: Id, request: Id, launched: bool, operation: Id, result: Id)

  datatype Reconciliation = Reconciliation(id: Id, launch: Id, verified: bool, result: Id, evidence: Id)

  datatype JournalKey = JournalKey(run: RunKey, stage: Stage)
  datatype LaunchKey = LaunchKey(run: RunKey, id: Id)
  /** Reconciliations are stored by their unique (run, release) pair. */
  datatype ReleaseKey = ReleaseKey(run: RunKey, release: Id)

  datatype Gate = Gate(
    runs: map<RunKey, Run>,
    approvals: map<TenantKey, Approval>,
    nonces: map<TenantKey, Nonce>,
    checkpoints: map<RunKey, Checkpoint>,
    journal: map<JournalKey, Entry>,
    releases: map<TenantKey, Release>,
    launches: map<LaunchKey, Launch>,
    reconciliations: map<ReleaseKey, Reconciliation>)

  const EMPTY_GATE := Gate(map[], map[], map[], map[], map[], map[], map[], map[])

  datatype GateCommand =
    | CreateRun
    | Transition(expected: int, to: RunState, plan: Id, code: Id)
    | RegisterNonce(nonce: Id, requestId: Id, binding: Binding, expiresAt: int)
    | RecordApproval(
        approval: Id, requestId: Id, nonce: Id, record: Id, binding: Binding,
        prior: Id, approves: bool, actor: Id, expected: int)
    | CreateCheckpoint(checkpoint: Checkpoint)
    | AppendJournal(entry: Entry)
    | CommitSeal(
        expected: int, checkpointRevision: int, checkpointDigest: Id,
        simulation: Id, production: Id, entry: Entry, sealed: Checkpoint)
    | CreateRelease(
        release: Id, approval: Id, subject: Id, kind: Id, artifact: Id,
        signer: Id, signature: Id, expected: int)
    | RecordLaunch(
        launch: Id, release: Id, request: Id, launched: bool, operation: Id, result: Id)
    | RecordReconciliation(
        id: Id, release: Id, launch: Id, verified: bool, result: Id, evidence: Id)

  datatype GateVerdict =
    | Refuse(error: Error)
    | Repeat // the same facts are on record; nothing is written
    | Write(gate: Gate, notes: seq<Note>)

  // ------------------------------------------------------------ validation

  predicate ValidBinding(b: Binding) {
    && Filled(b.request) && Filled(b.plan) && Filled(b.release) && Filled(b.artifact)
    && Filled(b.subject) && Filled(b.checkpoint)
    && (b.stage.Production? <==> Filled(b.simulationRecord))
  }

  predicate ValidCheckpoint(c: Checkpoint) {
    && c.revision >= 1 && c.sequence >= 0 && 0 <= c.modelCalls <= 30 && c.postSealCalls == 0
    && Filled(c.digest) && Filled(c.source) && Filled(c.request) && Filled(c.plan) && Filled(c.chain)
    && if PastSeal(c.phase)
       then Filled(c.seal) && Filled(c.production) && c.modelCallsAtSeal == Some(c.modelCalls)
       else !Filled(c.seal) && !Filled(c.production) && c.modelCallsAtSeal == None
  }

  predicate ValidEntry(e: Entry) {
    && Filled(e.approval) && Filled(e.record) && Filled(e.authorityRecord) && Filled(e.source)
    && Filled(e.subject) && Filled(e.predecessor) && Filled(e.key)
    && Filled(e.authority) && Filled(e.approver)
  }

  /** The checks every command passes before its transaction opens. */
  predicate WellFormed(c: GateCommand) {
    match c
    case CreateRun => true
    case Transition(expected, to, plan, _) => expected >= 1 && (to.AwaitingApproval? ==> Filled(plan))
    case RegisterNonce(nonce, request, binding, _) =>
      Filled(nonce) && Filled(request) && ValidBinding(binding)
    case RecordApproval(approval, request, nonce, record, binding, prior, _, actor, expected) =>
      && Filled(approval) && Filled(request) && Filled(nonce) && Filled(record) && ValidBinding(binding)
      && (binding.stage.Production? <==> Filled(prior)) && Filled(actor) && expected >= 1
    case CreateCheckpoint(checkpoint) =>
      ValidCheckpoint(checkpoint) && checkpoint.revision == 1 && !PastSeal(checkpoint.phase)
    case AppendJournal(entry) => ValidEntry(entry) && entry.stage.Simulation?
    case CommitSeal(expected, revision, digest, simulation, production, entry, sealed) =>
      && expected >= 1 && revision >= 1 && Filled(digest) && Filled(simulation) && Filled(production)
      && simulation != production && ValidCheckpoint(sealed) && ValidEntry(entry)
      && entry.stage.Production? && entry.approval == production
      && sealed.phase.ApprovedForExecution? && sealed.revision == revision + 1 && sealed.production == production
    case CreateRelease(release, approval, subject, kind, artifact, signer, signature, expected) =>
      && Filled(release) && Filled(approval) && Filled(subject) && Filled(kind) && Filled(artifact)
      && Filled(signer) && Filled(signature) && expected >= 1
    case RecordLaunch(launch, release, request, _, operation, result) =>
      Filled(launch) && Filled(release) && Filled(request) && Filled(operation) && Filled(result)
    case RecordReconciliation(id, release, launch, _, result, evidence) =>
      Filled(id) && Filled(release) && Filled(launch) && Filled(result) && Filled(evidence)
  }

  /** The plan digest an idempotent command is bound to. */
  function PlanOf(c: GateCommand): Id {
    match c
    case Transition(_, _, plan, _) => plan
    case RecordApproval(_, _, _, _, binding, _, _, _, _) => binding.plan
    case CommitSeal(_, _, _, _, _, _, sealed) => sealed.plan
    case CreateRelease(_, _, subject, _, _, _, _, _) => subject
    case _ => Null
  }

  // ---------------------------------------------------------- transactions

  function Decide(g: Gate, k: RunKey, c: GateCommand, now: int): GateVerdict {
    if !WellFormed(c) then Refuse(Invalid)
    else if c.CreateRun? then
      if k in g.runs then Refuse(Conflict)
      else Write(g.(runs := g.runs[k := Run(Created, 1, Null, Null, Null, Null, Null)]),
                 [RunNote(RunCreated, Null, Null, Null, [])])
    else if k !in g.runs then Refuse(NotFound)
    else match c
      case Transition(_, _, _, _) => TransitionTx(g, k, c)
      case RegisterNonce(_, _, _, _) => RegisterNonceTx(g, k, c, now)
      case RecordApproval(_, _, _, _, _, _, _, _, _) => RecordApprovalTx(g, k, c, now)
      case CreateCheckpoint(_) => CreateCheckpointTx(g, k, c)
      case AppendJournal(_) => AppendJournalTx(g, k, c)
      case CommitSeal(_, _, _, _, _, _, _) => CommitSealTx(g, k, c)
      case CreateRelease(_, _, _, _, _, _, _, _) => CreateReleaseTx(g, k, c)
      case RecordLaunch(_, _, _, _, _, _) => RecordLaunchTx(g, k, c)
      case RecordReconciliation(_, _, _, _, _, _) => RecordReconciliationTx(g, k, c)
  }

  predicate VerifiedRelease(g: Gate, k: RunKey, release: Id) {
    ReleaseKey(k, release) in g.reconciliations && g.reconciliations[ReleaseKey(k, release)].verified
  }

  function TransitionTx(g: Gate, k: RunKey, c: GateCommand): GateVerdict
    requires k in g.runs && c.Transition?
  {
    var run := g.runs[k];
    if run.revision != c.expected then Refuse(RevisionConflict)
    else if Terminal(run.state) || !TransitionAllowed(run.state, c.to) then Refuse(Conflict)
    else if c.to.AwaitingApproval?
            && (Filled(run.simulation) || Filled(run.production) || Filled(run.approval) || Filled(run.release))
    then Refuse(Conflict)
    else if c.to.Succeeded? && !Filled(run.release) then Refuse(Conflict)
    else if Filled(run.plan) && run.plan != c.plan then Refuse(Conflict)
    else if c.to.Succeeded? && !VerifiedRelease(g, k, run.release) then Refuse(Conflict)
    else
      var plan := if Filled(c.plan) then c.plan else run.plan;
      var next := run.(state := c.to, revision := run.revision + 1, plan := plan);
      var refs := if c.to.AwaitingApproval? then [plan] else [];
      Write(g.(runs := g.runs[k := next]), [RunNote(RunTransitioned, Null, run.release, c.code, refs)])
  }

  function RegisterNonceTx(g: Gate, k: RunKey, c: GateCommand, now: int): GateVerdict
    requires k in g.runs && c.RegisterNonce?
  {
    var run := g.runs[k];
    var row := TenantKey(k.tenant, c.nonce);
    if !run.state.AwaitingApproval? || run.plan != c.binding.plan then Refuse(Conflict)
    else if c.binding.stage.Simulation? && Filled(run.simulation) then Refuse(Conflict)
    else if c.binding.stage.Production? && (!Filled(run.simulation) || Filled(run.production)) then Refuse(Conflict)
    else if c.expiresAt <= now || row in g.nonces || RequestUsed(g, k.tenant, c.requestId) then Refuse(Conflict)
    else Write(g.(nonces := g.nonces[row := Nonce(k.run, c.requestId, c.binding, c.expiresAt, Null)]), [])
  }

  predicate RequestUsed(g: Gate, tenant: Id, request: Id) {
    exists n :: n in g.nonces && n.tenant == tenant && g.nonces[n].request == request
  }

  /** Both staged approvals of a run: the production row continues the simulation row. */
  predicate Linked(simulation: Approval, production: Approval, prior: Id) {
    && simulation.binding.stage.Simulation? && production.binding.stage.Production?
    && simulation.approves && production.prior == prior
    && production.binding.simulationRecord == simulation.record
    && production.record != simulation.record
    && production.binding.subject != simulation.binding.subject
  }

  predicate ApprovalOf(g: Gate, k: RunKey, id: Id, stage: Stage) {
    var row := TenantKey(k.tenant, id);
    row in g.approvals && g.approvals[row].run == k.run && g.approvals[row].binding.stage == stage
  }

  function RecordApprovalTx(g: Gate, k: RunKey, c: GateCommand, now: int): GateVerdict
    requires k in g.runs && c.RecordApproval?
  {
    var run := g.runs[k];
    var row := Approval(k.run, c.binding, c.nonce, c.record, c.prior, c.approves, c.actor);
    if run.revision != c.expected then Refuse(RevisionConflict)
    else if !run.state.AwaitingApproval? || run.plan != c.binding.plan || Filled(run.approval) then Refuse(Conflict)
    else if Filled(run.production) || run.simulation != c.prior then Refuse(Conflict)
    else if c.binding.stage.Production? && !PriorApproves(g, k, c) then Refuse(Conflict)
    else if !NonceOpen(g, k, c, now) then Refuse(Conflict)
    else if !ApprovalInsertable(g, k, c.approval, row) then Refuse(ConstraintViolation)
    else
      var nonce := TenantKey(k.tenant, c.nonce);
      var state := if c.approves then AwaitingApproval else Rejected;
      var staged := if c.binding.stage.Simulation? then run.(simulation := c.approval)
          else run.(production := c.approval);
      Write(g.(runs := g.runs[k := staged.(state := state, revision := run.revision + 1)],
               approvals := g.approvals[TenantKey(k.tenant, c.approval) := row],
               nonces := g.nonces[nonce := g.nonces[nonce].(consumedBy := c.approval)]),
            [RunNote(ApprovalRecorded, c.approval, Null, DecisionCode(c.binding.stage, c.approves),
                     [c.record, c.binding.subject])])
  }

  function DecisionCode(stage: Stage, approves: bool): Id {
    Text((if stage.Simulation? then "SIMULATION" else "PRODUCTION") + (if approves then "_APPROVE" else "_REJECT"))
  }

  predicate PriorApproves(g: Gate, k: RunKey, c: GateCommand)
    requires c.RecordApproval?
  {
    && ApprovalOf(g, k, c.prior, Simulation)
    && var prior := g.approvals[TenantKey(k.tenant, c.prior)];
       prior.approves && prior.record == c.binding.simulationRecord && prior.binding.subject != c.binding.subject
  }

  predicate NonceOpen(g: Gate, k: RunKey, c: GateCommand, now: int)
    requires c.RecordApproval?
  {
    var row := TenantKey(k.tenant, c.nonce);
    && row in g.nonces
    && var nonce := g.nonces[row];
       && nonce.run == k.run && nonce.request == c.requestId && nonce.binding == c.binding
       && !Filled(nonce.consumedBy) && nonce.expiresAt > now
  }

  /** The keys of the approvals table and its staged-approval trigger. */
  predicate ApprovalInsertable(g: Gate, k: RunKey, id: Id, row: Approval) {
    && TenantKey(k.tenant, id) !in g.approvals
    && !StageDecided(g, k, row.binding.stage)
    && (row.binding.stage.Production? ==>
          TenantKey(k.tenant, row.prior) in g.approvals
          && Linked(g.approvals[TenantKey(k.tenant, row.prior)], row, row.prior))
  }

  predicate StageDecided(g: Gate, k: RunKey, stage: Stage) {
    exists a :: a in g.approvals && a.tenant == k.tenant && g.approvals[a].run == k.run
        && g.approvals[a].binding.stage == stage
  }

  predicate DigestTaken(g: Gate, k: RunKey, digest: Id) {
    exists other :: other in g.checkpoints && other != k && other.tenant == k.tenant
        && g.checkpoints[other].digest == digest
  }

  function CreateCheckpointTx(g: Gate, k: RunKey, c: GateCommand): GateVerdict
    requires k in g.runs && c.CreateCheckpoint?
  {
    var run := g.runs[k];
    var checkpoint := c.checkpoint;
    var journal := JournalKey(k, Simulation);
    if run.plan != checkpoint.plan || !run.state.AwaitingApproval? then Refuse(Conflict)
    else if checkpoint.phase.SimulationApproved?
            && !(journal in g.journal && g.journal[journal].source == checkpoint.source)
    then Refuse(Conflict)
    else if k in g.checkpoints then
      if g.checkpoints[k] == checkpoint then Repeat else Refuse(Conflict)
    else if DigestTaken(g, k, checkpoint.digest) then Refuse(ConstraintViolation)
    else Write(g.(checkpoints := g.checkpoints[k := checkpoint]), [])
  }

  function AppendJournalTx(g: Gate, k: RunKey, c: GateCommand): GateVerdict
    requires k in g.runs && c.AppendJournal?
  {
    var run := g.runs[k];
    var entry := c.entry;
    var journal := JournalKey(k, Simulation);
    if !run.state.AwaitingApproval? || run.simulation != entry.approval then Refuse(Conflict)
    else if !ApprovalOf(g, k, entry.approval, Simulation)
        || !EntryMatches(entry, g.approvals[TenantKey(k.tenant, entry.approval)])
    then Refuse(Conflict)
    else if journal in g.journal then
      if g.journal[journal] == entry then Repeat else Refuse(Conflict)
    else if !JournalInsertable(g.journal, k, entry) then Refuse(ConstraintViolation)
    else Write(g.(journal := g.journal[journal := entry]), [])
  }

  /** A journal entry restates its approving authority row. */
  predicate EntryMatches(entry: Entry, row: Approval) {
    && row.approves && row.record == entry.authorityRecord
    && row.binding.subject == entry.subject && row.actor == entry.approver
  }

  predicate JournalInsertable(journal: map<JournalKey, Entry>, k: RunKey, entry: Entry) {
    && JournalKey(k, entry.stage) !in journal
    && forall stage :: JournalKey(k, stage) in journal ==>
         journal[JournalKey(k, stage)].record != entry.record && journal[JournalKey(k, stage)].key != entry.key
  }

  function CommitSealTx(g: Gate, k: RunKey, c: GateCommand): GateVerdict
    requires k in g.runs && c.CommitSeal?
  {
    var run := g.runs[k];
    if run.revision != c.expected then Refuse(RevisionConflict)
    else if !run.state.AwaitingApproval? || run.plan != c.sealed.plan || run.simulation != c.simulation
            || run.production != c.production || Filled(run.approval)
    then Refuse(Conflict)
    else if k !in g.checkpoints then Refuse(NotFound)
    else
      var current := g.checkpoints[k];
      if current.revision != c.checkpointRevision || current.digest != c.checkpointDigest then Refuse(RevisionConflict)
      else if !SealContinues(current, c.sealed, c.entry) then Refuse(Conflict)
      else if !SealAuthorised(g, k, c, current) then Refuse(Conflict)
      else if !JournalInsertable(g.journal, k, c.entry) || DigestTaken(g, k, c.sealed.digest)
          then Refuse(ConstraintViolation)
      else
        Write(g.(runs := g.runs[k := run.(state := Approved, approval := c.production, revision := run.revision + 1)],
                 checkpoints := g.checkpoints[k := c.sealed],
                 journal := g.journal[JournalKey(k, Production) := c.entry]),
              [RunNote(CheckpointSealed, c.production, Null, Text("PRODUCTION_SEALED"),
                       [c.sealed.digest, c.sealed.seal, c.entry.record])])
  }

  /** The sealed checkpoint freezes the current one; only revision, digests and seal move. */
  predicate SealContinues(current: Checkpoint, sealed: Checkpoint, entry: Entry) {
    && current.phase.SimulationApproved? && !Filled(current.seal) && !Filled(current.production)
    && current.modelCallsAtSeal == None && current.postSealCalls == 0
    && sealed.source == current.source && sealed.request == current.request && sealed.plan == current.plan
    && sealed.sequence == current.sequence && sealed.modelCalls == current.modelCalls
    && sealed.chain != current.chain
    && entry.source == current.source && entry.predecessor == current.chain
  }

  /** Both staged decisions approve, are linked, name this checkpoint, and are journalled. */
  predicate SealAuthorised(g: Gate, k: RunKey, c: GateCommand, current: Checkpoint)
    requires c.CommitSeal?
  {
    && ApprovalOf(g, k, c.simulation, Simulation) && ApprovalOf(g, k, c.production, Production)
    && JournalKey(k, Simulation) in g.journal
    && var simulation := g.approvals[TenantKey(k.tenant, c.simulation)];
       var production := g.approvals[TenantKey(k.tenant, c.production)];
       var journalled := g.journal[JournalKey(k, Simulation)];
       && Linked(simulation, production, c.simulation)
       && simulation.binding.checkpoint == current.digest && simulation.binding.plan == current.plan
       && production.binding.checkpoint == current.digest && production.binding.plan == current.plan
       && EntryMatches(c.entry, production)
       && journalled.approval == c.simulation && journalled.authorityRecord == simulation.record
       && journalled.source == current.source && journalled.subject == simulation.binding.subject
       && journalled.record != c.entry.record
  }

  function CreateReleaseTx(g: Gate, k: RunKey, c: GateCommand): GateVerdict
    requires k in g.runs && c.CreateRelease?
  {
    var run := g.runs[k];
    var row := TenantKey(k.tenant, c.release);
    if run.revision != c.expected then Refuse(RevisionConflict)
    else if !run.state.Approved? || run.approval != c.approval || run.plan != c.subject || Filled(run.release)
    then Refuse(Conflict)
    else if !(ApprovalOf(g, k, c.approval, Production)
              && g.approvals[TenantKey(k.tenant, c.approval)].approves
              && g.approvals[TenantKey(k.tenant, c.approval)].binding.subject == c.subject)
    then Refuse(Conflict)
    else if row in g.releases || KindReleased(g, k, c.kind) then Refuse(Conflict)
    else
      Write(g.(runs := g.runs[k := run.(release := c.release, revision := run.revision + 1)],
               releases := g.releases[row :=
                   Release(k.run, c.approval, c.subject, c.kind, c.artifact, c.signer, c.signature)]),
            [RunNote(ReleaseCreated, c.approval, c.release, Null, [c.subject, c.artifact, c.signature])])
  }

  predicate KindReleased(g: Gate, k: RunKey, kind: Id) {
    exists r :: r in g.releases && r.tenant == k.tenant && g.releases[r].run == k.run && g.releases[r].kind == kind
  }

  function RecordLaunchTx(g: Gate, k: RunKey, c: GateCommand): GateVerdict
    requires k in g.runs && c.RecordLaunch?
  {
    var run := g.runs[k];
    var key := LaunchKey(k, c.launch);
    var row := Launch(c.release, c.request, c.launched, c.operation, c.result);
    if run.release != c.release || !(run.state.Approved? || run.state.Running?) then Refuse(Conflict)
    else if key in g.launches && g.launches[key] == row then Repeat
    else if key in g.launches || ReleaseLaunched(g, k, c.release) then Refuse(IdempotencyReuse)
    else Write(g.(launches := g.launches[key := row]),
               [RunNote(LaunchRecorded, run.approval, c.release, Null, [c.request, c.result])])
  }

  predicate ReleaseLaunched(g: Gate, k: RunKey, release: Id) {
    exists l :: l in g.launches && l.run == k && g.launches[l].release == release
  }

  function RecordReconciliationTx(g: Gate, k: RunKey, c: GateCommand): GateVerdict
    requires k in g.runs && c.RecordReconciliation?
  {
    var run := g.runs[k];
    var launch := LaunchKey(k, c.launch);
    var key := ReleaseKey(k, c.release);
    var row := Reconciliation(c.id, c.launch, c.verified, c.result, c.evidence);
    if run.release != c.release then Refuse(Conflict)
    else if !(launch in g.launches && g.launches[launch].launched && g.launches[launch].release == c.release)
    then Refuse(Conflict)
    else if key in g.reconciliations && g.reconciliations[key] == row then Repeat
    else if key in g.reconciliations || ReconciliationIdUsed(g, k.tenant, c.id) then Refuse(IdempotencyReuse)
    else Write(g.(reconciliations := g.reconciliations[key := row]),
               [RunNote(ReconciliationRecorded, run.approval, c.release, Null, [c.result, c.evidence])])
  }

  predicate ReconciliationIdUsed(g: Gate, tenant: Id, id: Id) {
    exists r :: r in g.reconciliations && r.run.tenant == tenant && g.reconciliations[r].id == id
  }
}
