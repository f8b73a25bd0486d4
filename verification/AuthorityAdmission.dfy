/** Exactly which lifecycle commands a reachable database admits, written out on its
    rows. Much of what the transactions check again can no longer fail there:
    key and trigger violations come down to reused ids, keys and digests. */
module AuthorityAdmission {
  import opened Common
  import opened AuthorityTables
  import A = Authority
  import H = AuthorityHistory
  import opened AuthorityGate
  import opened AuthorityGateProofs

  datatype Edge = Edge(from: RunState, to: RunState)

  const EDGES := {
    Edge(Created, Running), Edge(Created, Cancelled),
    Edge(Running, AwaitingInput), Edge(Running, AwaitingApproval), Edge(Running, Succeeded), Edge(Running, Failed),
    Edge(Running, Cancelled), Edge(Running, BudgetExhausted), Edge(Running, DeadLettered),
    Edge(AwaitingInput, Running), Edge(AwaitingInput, Failed), Edge(AwaitingInput, Cancelled),
    Edge(AwaitingInput, BudgetExhausted),
    Edge(AwaitingApproval, Failed), Edge(AwaitingApproval, Cancelled),
    Edge(Approved, Running), Edge(Approved, Succeeded), Edge(Approved, Failed), Edge(Approved, Cancelled),
    Edge(Approved, DeadLettered)}

  lemma EdgesAre(from: RunState, to: RunState)
    ensures TransitionAllowed(from, to) <==> Edge(from, to) in EDGES
    ensures TransitionAllowed(from, to) ==> !Terminal(from)
  {
  }

  predicate Complete(b: Binding) {
    && Null !in {b.request, b.plan, b.release, b.artifact, b.subject, b.checkpoint}
    && (b.stage == Production <==> b.simulationRecord != Null)
  }

  predicate Whole(e: Entry) {
    Null !in {e.approval, e.record, e.authorityRecord, e.source, e.subject, e.predecessor, e.key, e.authority,
              e.approver}
  }

  /** The run waits for its first or, once a simulation is approved, its second decision. */
  predicate Waits(run: Run, b: Binding) {
    && run.state == AwaitingApproval && run.plan == b.plan && Complete(b)
    && if b.stage == Simulation then run.simulation == Null else run.simulation != Null && run.production == Null
  }

  // -------------------------------------------------------------- admission

  predicate AdmitsTransition(g: Gate, k: RunKey, c: GateCommand)
    requires k in g.runs && c.Transition?
  {
    var run := g.runs[k];
    && c.expected == run.revision && Edge(run.state, c.to) in EDGES && (run.plan == Null || c.plan == run.plan)
    && (c.to == AwaitingApproval ==> c.plan != Null && run.simulation == Null)
    && (c.to == Succeeded ==>
          && run.release != Null && ReleaseKey(k, run.release) in g.reconciliations
          && g.reconciliations[ReleaseKey(k, run.release)].verified)
  }

  predicate AdmitsChallenge(g: Gate, k: RunKey, c: GateCommand, now: int)
    requires k in g.runs && c.RegisterNonce?
  {
    && Waits(g.runs[k], c.binding) && Null !in {c.nonce, c.requestId} && now < c.expiresAt
    && TenantKey(k.tenant, c.nonce) !in g.nonces
    && forall n | n in g.nonces && n.tenant == k.tenant :: g.nonces[n].request != c.requestId
  }

  predicate AdmitsDecision(g: Gate, k: RunKey, c: GateCommand, now: int)
    requires k in g.runs && c.RecordApproval?
  {
    var run, nonce := g.runs[k], TenantKey(k.tenant, c.nonce);
    && Waits(run, c.binding) && c.expected == run.revision && c.prior == run.simulation
    && Null !in {c.approval, c.requestId, c.nonce, c.record, c.actor}
    && nonce in g.nonces && now < g.nonces[nonce].expiresAt
    && g.nonces[nonce] == Nonce(k.run, c.requestId, c.binding, g.nonces[nonce].expiresAt, Null)
    && TenantKey(k.tenant, c.approval) !in g.approvals
    && (c.binding.stage == Production ==>
          && TenantKey(k.tenant, run.simulation) in g.approvals
          && var simulation := g.approvals[TenantKey(k.tenant, run.simulation)];
             simulation.record == c.binding.simulationRecord && simulation.record != c.record
             && simulation.binding.subject != c.binding.subject)
  }

  /** What a checkpoint before the seal must be. */
  predicate Unsealed(p: Checkpoint) {
    && p.revision == 1 && p.sequence >= 0 && 0 <= p.modelCalls <= 30 && p.postSealCalls == 0
    && Null !in {p.digest, p.source, p.request, p.plan, p.chain}
    && p.phase in {Planned, Validated, PolicyDecided, Verified, SimulationApproved}
    && p.modelCallsAtSeal == None && p.seal == Null && p.production == Null
  }

  predicate CheckpointFits(g: Gate, k: RunKey, p: Checkpoint)
    requires k in g.runs
  {
    && Unsealed(p) && g.runs[k].state == AwaitingApproval && g.runs[k].plan == p.plan
    && (p.phase == SimulationApproved ==>
          JournalKey(k, Simulation) in g.journal && g.journal[JournalKey(k, Simulation)].source == p.source)
  }

  predicate DigestFree(g: Gate, k: RunKey, digest: Id) {
    forall o | o in g.checkpoints && o.tenant == k.tenant && o != k :: g.checkpoints[o].digest != digest
  }

  /** The entry repeats the simulation decision of the run. */
  predicate EntryFits(g: Gate, k: RunKey, e: Entry)
    requires k in g.runs
  {
    && Whole(e) && e.stage == Simulation && g.runs[k].state == AwaitingApproval && e.approval == g.runs[k].simulation
    && TenantKey(k.tenant, e.approval) in g.approvals
    && var row := g.approvals[TenantKey(k.tenant, e.approval)];
       e.authorityRecord == row.record && e.subject == row.binding.subject && e.approver == row.actor
  }

  /** The sealed checkpoint is the current one under new digests and the seal, and the
      entry continues its chain. */
  predicate Freezes(now: Checkpoint, c: GateCommand)
    requires c.CommitSeal?
  {
    var next, e := c.sealed, c.entry;
    && now.phase == SimulationApproved && c.checkpointRevision == now.revision && c.checkpointDigest == now.digest
    && next == now.(revision := now.revision + 1, phase := ApprovedForExecution, digest := next.digest,
                    chain := next.chain, seal := next.seal, production := c.production,
                    modelCallsAtSeal := Some(now.modelCalls))
    && Null !in {next.digest, next.chain, next.seal} && next.chain != now.chain
    && Whole(e) && e.stage == Production && e.approval == c.production && e.source == now.source
    && e.predecessor == now.chain
  }

  /** Both decisions were taken on the current checkpoint, the entry repeats the second
      and the journal's entry the first. */
  predicate Vouched(g: Gate, k: RunKey, c: GateCommand, now: Checkpoint)
    requires c.CommitSeal?
  {
    var first, second := TenantKey(k.tenant, c.simulation), TenantKey(k.tenant, c.production);
    && first in g.approvals && second in g.approvals && JournalKey(k, Simulation) in g.journal
    && var before, e := g.journal[JournalKey(k, Simulation)], c.entry;
       && g.approvals[first].binding.checkpoint == now.digest == g.approvals[second].binding.checkpoint
       && e.authorityRecord == g.approvals[second].record && e.subject == g.approvals[second].binding.subject
       && e.approver == g.approvals[second].actor
       && before.approval == c.simulation && before.authorityRecord == g.approvals[first].record
       && before.source == now.source && before.subject == g.approvals[first].binding.subject
  }

  /** A journal takes one entry a stage, with its own record and key. */
  predicate JournalFree(g: Gate, k: RunKey, e: Entry, other: Stage) {
    && JournalKey(k, e.stage) !in g.journal
    && (JournalKey(k, other) in g.journal ==>
          g.journal[JournalKey(k, other)].record != e.record && g.journal[JournalKey(k, other)].key != e.key)
  }

  predicate AdmitsSeal(g: Gate, k: RunKey, c: GateCommand)
    requires k in g.runs && c.CommitSeal?
  {
    var run := g.runs[k];
    && c.expected == run.revision && run.state == AwaitingApproval && run.production != Null
    && c.simulation == run.simulation && c.production == run.production && c.simulation != c.production
    && k in g.checkpoints && g.checkpoints[k].plan == run.plan
    && Freezes(g.checkpoints[k], c) && Vouched(g, k, c, g.checkpoints[k])
    && JournalFree(g, k, c.entry, Simulation) && DigestFree(g, k, c.sealed.digest)
  }

  predicate AdmitsRelease(g: Gate, k: RunKey, c: GateCommand)
    requires k in g.runs && c.CreateRelease?
  {
    var run := g.runs[k];
    && c.expected == run.revision && run.state == Approved && run.release == Null
    && c.approval == run.approval && c.subject == run.plan
    && Null !in {c.release, c.subject, c.kind, c.artifact, c.signer, c.signature}
    && TenantKey(k.tenant, run.approval) in g.approvals
    && g.approvals[TenantKey(k.tenant, run.approval)].binding.subject == run.plan
    && TenantKey(k.tenant, c.release) !in g.releases
    && KindFree(g, k, c.kind)
  }

  predicate KindFree(g: Gate, k: RunKey, kind: Id) {
    forall r | r in g.releases && r.tenant == k.tenant && g.releases[r].run == k.run :: g.releases[r].kind != kind
  }

  predicate LaunchFits(g: Gate, k: RunKey, c: GateCommand)
    requires k in g.runs && c.RecordLaunch?
  {
    && g.runs[k].state in {Approved, Running} && c.release == g.runs[k].release
    && Null !in {c.launch, c.release, c.request, c.operation, c.result}
  }

  predicate ReconciliationFits(g: Gate, k: RunKey, c: GateCommand)
    requires k in g.runs && c.RecordReconciliation?
  {
    && c.release == g.runs[k].release && Null !in {c.id, c.release, c.launch, c.result, c.evidence}
    && LaunchKey(k, c.launch) in g.launches
    && g.launches[LaunchKey(k, c.launch)].launched && g.launches[LaunchKey(k, c.launch)].release == c.release
  }

  /** The database changes. */
  predicate Admits(g: Gate, k: RunKey, c: GateCommand, now: int) {
    if c == CreateRun then k !in g.runs
    else
      && k in g.runs
      && match c
         case CreateRun => false
         case Transition(_, _, _, _) => AdmitsTransition(g, k, c)
         case RegisterNonce(_, _, _, _) => AdmitsChallenge(g, k, c, now)
         case RecordApproval(_, _, _, _, _, _, _, _, _) => AdmitsDecision(g, k, c, now)
         case CreateCheckpoint(p) => CheckpointFits(g, k, p) && k !in g.checkpoints && DigestFree(g, k, p.digest)
         case AppendJournal(e) =>
           EntryFits(g, k, e) && JournalFree(g, k, e, Production)
         case CommitSeal(_, _, _, _, _, _, _) => AdmitsSeal(g, k, c)
         case CreateRelease(_, _, _, _, _, _, _, _) => AdmitsRelease(g, k, c)
         case RecordLaunch(id, release, _, _, _, _) =>
           && LaunchFits(g, k, c) && LaunchKey(k, id) !in g.launches
           && forall l | l in g.launches && l.run == k :: g.launches[l].release != release
         case RecordReconciliation(id, release, _, _, _, _) =>
           && ReconciliationFits(g, k, c) && ReleaseKey(k, release) !in g.reconciliations
           && forall r | r in g.reconciliations && r.run.tenant == k.tenant :: g.reconciliations[r].id != id
  }

  /** The same facts are on record: the command answers and nothing changes. */
  predicate OnFile(g: Gate, k: RunKey, c: GateCommand) {
    && k in g.runs
    && match c
       case CreateCheckpoint(p) => CheckpointFits(g, k, p) && k in g.checkpoints && g.checkpoints[k] == p
       case AppendJournal(e) =>
         EntryFits(g, k, e) && JournalKey(k, Simulation) in g.journal && g.journal[JournalKey(k, Simulation)] == e
       case RecordLaunch(id, release, request, launched, operation, result) =>
         LaunchFits(g, k, c) && LaunchKey(k, id) in g.launches
         && g.launches[LaunchKey(k, id)] == Launch(release, request, launched, operation, result)
       case RecordReconciliation(id, release, launch, verified, result, evidence) =>
         ReconciliationFits(g, k, c) && ReleaseKey(k, release) in g.reconciliations
         && g.reconciliations[ReleaseKey(k, release)] == Reconciliation(id, launch, verified, result, evidence)
       case _ => false
  }

  // ---------------------------------------------------------------- lemmas

  /** A run that waits has approved whatever it has decided, and is not approved yet. */
  lemma WaitingRun(g: Gate, k: RunKey)
    requires GateInv(g) && k in g.runs && g.runs[k].state.AwaitingApproval?
    ensures var run := g.runs[k];
            && run.revision >= 1 && run.plan != Null && run.approval == Null && run.release == Null
            && (run.simulation != Null ==>
                  ApprovalOf(g, k, run.simulation, Simulation)
                  && g.approvals[TenantKey(k.tenant, run.simulation)].approves
                  && g.approvals[TenantKey(k.tenant, run.simulation)].binding.plan == run.plan)
            && (run.production != Null ==>
                  run.simulation != Null && ApprovalOf(g, k, run.production, Production)
                  && g.approvals[TenantKey(k.tenant, run.production)].approves
                  && g.approvals[TenantKey(k.tenant, run.production)].binding.plan == run.plan
                  && Linked(g.approvals[TenantKey(k.tenant, run.simulation)],
                            g.approvals[TenantKey(k.tenant, run.production)], run.simulation))
  {
    assert RunInv(g, k);
    hide Sealed, Released, Proven, Linked;
    assert ApprovalOf(g, k, g.runs[k].simulation, Simulation) ==>
        ApprovalInv(g, TenantKey(k.tenant, g.runs[k].simulation));
    assert ApprovalOf(g, k, g.runs[k].production, Production) ==>
        ApprovalInv(g, TenantKey(k.tenant, g.runs[k].production));
  }

  /** A stage that the run does not name was not decided. */
  lemma Undecided(g: Gate, k: RunKey, stage: Stage)
    requires GateInv(g) && k in g.runs
    requires (if stage.Simulation? then g.runs[k].simulation else g.runs[k].production) == Null
    ensures !StageDecided(g, k, stage)
  {
    hide RunInv, NonceInv, FactsInv;
    forall a | a in g.approvals && a.tenant == k.tenant && g.approvals[a].run == k.run
      ensures g.approvals[a].binding.stage != stage
    {
      assert ApprovalInv(g, a);
    }
  }

  /** What a command is checked for before its transaction opens. */
  lemma Dispatched(g: Gate, k: RunKey, c: GateCommand, now: int)
    requires !c.CreateRun?
    ensures !WellFormed(c) || k !in g.runs ==> Decide(g, k, c, now).Refuse?
    ensures WellFormed(c) && k in g.runs ==>
              Decide(g, k, c, now) ==
                match c
                case Transition(_, _, _, _) => TransitionTx(g, k, c)
                case RegisterNonce(_, _, _, _) => RegisterNonceTx(g, k, c, now)
                case RecordApproval(_, _, _, _, _, _, _, _, _) => RecordApprovalTx(g, k, c, now)
                case CreateCheckpoint(_) => CreateCheckpointTx(g, k, c)
                case AppendJournal(_) => AppendJournalTx(g, k, c)
                case CommitSeal(_, _, _, _, _, _, _) => CommitSealTx(g, k, c)
                case CreateRelease(_, _, _, _, _, _, _, _) => CreateReleaseTx(g, k, c)
                case RecordLaunch(_, _, _, _, _, _) => RecordLaunchTx(g, k, c)
                case RecordReconciliation(_, _, _, _, _, _) => RecordReconciliationTx(g, k, c)
                case CreateRun => Refuse(Invalid)
  {
    hide WellFormed, TransitionTx, RegisterNonceTx, RecordApprovalTx, CreateCheckpointTx, AppendJournalTx, CommitSealTx,
        CreateReleaseTx, RecordLaunchTx, RecordReconciliationTx;
  }

  lemma TransitionAdmitted(g: Gate, k: RunKey, c: GateCommand)
    requires GateInv(g) && c.Transition? && k in g.runs
    ensures WellFormed(c) && TransitionTx(g, k, c).Write? <==> AdmitsTransition(g, k, c)
  {
    RunBasics(g, k);
    EdgesAre(g.runs[k].state, c.to);
    hide GateInv, EDGES, TransitionAllowed, Terminal;
  }

  lemma RunBasics(g: Gate, k: RunKey)
    requires GateInv(g) && k in g.runs
    ensures var run := g.runs[k];
            && run.revision >= 1
            && (run.production != Null || run.approval != Null || run.release != Null ==> run.simulation != Null)
            && (run.state.Approved? ==> run.approval != Null)
            && (run.approval != Null ==>
                  ApprovalOf(g, k, run.approval, Production) && g.approvals[TenantKey(k.tenant, run.approval)].approves)
  {
    assert RunInv(g, k);
    hide GateInv, Released, Proven, SomeRejection, Linked;
  }

  lemma ChallengeAdmitted(g: Gate, k: RunKey, c: GateCommand, now: int)
    requires c.RegisterNonce? && k in g.runs
    ensures WellFormed(c) && RegisterNonceTx(g, k, c, now).Write? <==> AdmitsChallenge(g, k, c, now)
  {
  }

  lemma DecisionAdmitted(g: Gate, k: RunKey, c: GateCommand, now: int)
    requires GateInv(g) && c.RecordApproval? && k in g.runs
    ensures WellFormed(c) && RecordApprovalTx(g, k, c, now).Write? <==> AdmitsDecision(g, k, c, now)
  {
    var run := g.runs[k];
    if run.state.AwaitingApproval? {
      WaitingRun(g, k);
      if run.simulation == Null { Undecided(g, k, Simulation); }
      if run.production == Null { Undecided(g, k, Production); }
      hide GateInv, StageDecided;
      if c.binding.stage.Simulation? { FirstDecision(g, k, c, now); } else { SecondDecision(g, k, c, now); }
    }
    hide GateInv, StageDecided, NonceOpen, ApprovalInsertable, PriorApproves, Complete, ValidBinding;
  }

  lemma FirstDecision(g: Gate, k: RunKey, c: GateCommand, now: int)
    requires c.RecordApproval? && k in g.runs && g.runs[k].state.AwaitingApproval? && c.binding.stage.Simulation?
    requires g.runs[k].approval == Null && g.runs[k].revision >= 1
    requires g.runs[k].production != Null ==> g.runs[k].simulation != Null
    requires g.runs[k].simulation == Null ==> !StageDecided(g, k, Simulation)
    ensures WellFormed(c) && RecordApprovalTx(g, k, c, now).Write? <==> AdmitsDecision(g, k, c, now)
  {
    hide StageDecided, PriorApproves;
  }

  lemma SecondDecision(g: Gate, k: RunKey, c: GateCommand, now: int)
    requires c.RecordApproval? && k in g.runs && g.runs[k].state.AwaitingApproval? && c.binding.stage.Production?
    requires g.runs[k].approval == Null && g.runs[k].revision >= 1
    requires g.runs[k].simulation != Null ==>
               ApprovalOf(g, k, g.runs[k].simulation, Simulation)
               && g.approvals[TenantKey(k.tenant, g.runs[k].simulation)].approves
    requires g.runs[k].production == Null ==> !StageDecided(g, k, Production)
    ensures WellFormed(c) && RecordApprovalTx(g, k, c, now).Write? <==> AdmitsDecision(g, k, c, now)
  {
    hide StageDecided;
  }

  lemma CheckpointAdmitted(g: Gate, k: RunKey, c: GateCommand)
    requires c.CreateCheckpoint? && k in g.runs
    ensures WellFormed(c) && CreateCheckpointTx(g, k, c).Write? <==>
              CheckpointFits(g, k, c.checkpoint) && k !in g.checkpoints && DigestFree(g, k, c.checkpoint.digest)
    ensures WellFormed(c) && CreateCheckpointTx(g, k, c).Repeat? <==>
              CheckpointFits(g, k, c.checkpoint) && k in g.checkpoints && g.checkpoints[k] == c.checkpoint
  {
  }

  lemma EntryInsertable(g: Gate, k: RunKey, e: Entry, other: Stage)
    requires other != e.stage
    ensures JournalInsertable(g.journal, k, e) <==> JournalFree(g, k, e, other)
  {
    if JournalFree(g, k, e, other) {
      forall stage | JournalKey(k, stage) in g.journal
        ensures g.journal[JournalKey(k, stage)].record != e.record && g.journal[JournalKey(k, stage)].key != e.key
      {
        assert stage == other;
      }
    }
  }

  lemma EntryAdmitted(g: Gate, k: RunKey, c: GateCommand)
    requires GateInv(g) && c.AppendJournal? && k in g.runs
    ensures WellFormed(c) && AppendJournalTx(g, k, c).Write? <==>
              EntryFits(g, k, c.entry) && JournalFree(g, k, c.entry, Production)
    ensures WellFormed(c) && AppendJournalTx(g, k, c).Repeat? <==>
              EntryFits(g, k, c.entry) && JournalKey(k, Simulation) in g.journal
              && g.journal[JournalKey(k, Simulation)] == c.entry
  {
    EntryGuards(g, k, c.entry);
    if c.entry.stage.Simulation? { EntryInsertable(g, k, c.entry, Production); }
    hide GateInv, JournalInsertable, JournalFree, EntryFits, ValidEntry, ApprovalOf, EntryMatches;
  }

  lemma EntryGuards(g: Gate, k: RunKey, e: Entry)
    requires GateInv(g) && k in g.runs
    ensures EntryFits(g, k, e) <==>
              && ValidEntry(e) && e.stage.Simulation? && g.runs[k].state.AwaitingApproval?
              && g.runs[k].simulation == e.approval && ApprovalOf(g, k, e.approval, Simulation)
              && EntryMatches(e, g.approvals[TenantKey(k.tenant, e.approval)])
  {
    if g.runs[k].state.AwaitingApproval? { WaitingRun(g, k); }
    EntryWhole(e);
    hide GateInv, Linked, ValidEntry, Whole;
  }

  lemma EntryWhole(e: Entry)
    ensures Whole(e) <==> ValidEntry(e)
  {
  }

  lemma FreezesIff(now: Checkpoint, c: GateCommand)
    requires ValidCheckpoint(now) && c.CommitSeal? && c.expected >= 1
    requires Filled(c.simulation) && Filled(c.production) && c.simulation != c.production
    ensures WellFormed(c) && now.revision == c.checkpointRevision && now.digest == c.checkpointDigest
            && SealContinues(now, c.sealed, c.entry)
       <==> Freezes(now, c)
  {
  }

  lemma VouchedIff(g: Gate, k: RunKey, c: GateCommand, now: Checkpoint)
    requires c.CommitSeal? && JournalFree(g, k, c.entry, Simulation) && now.plan != Null
    requires ApprovalOf(g, k, c.simulation, Simulation) && ApprovalOf(g, k, c.production, Production)
    requires var first, second := g.approvals[TenantKey(k.tenant, c.simulation)],
                                  g.approvals[TenantKey(k.tenant, c.production)];
             Linked(first, second, c.simulation) && second.approves
             && first.binding.plan == now.plan == second.binding.plan
    ensures SealAuthorised(g, k, c, now) <==> Vouched(g, k, c, now)
  {
    hide Linked;
  }

  lemma SealAdmitted(g: Gate, k: RunKey, c: GateCommand)
    requires GateInv(g) && c.CommitSeal? && k in g.runs
    ensures WellFormed(c) && CommitSealTx(g, k, c).Write? <==> AdmitsSeal(g, k, c)
  {
    var run := g.runs[k];
    assert AdmitsSeal(g, k, c) ==> c.entry.stage.Production?;
    assert WellFormed(c) ==>
        Filled(c.simulation) && Filled(c.production) && c.simulation != c.production && c.entry.stage.Production?;
    if run.state.AwaitingApproval? && k in g.checkpoints && c.expected == run.revision && c.simulation == run.simulation
        && c.production == run.production && run.production != Null && c.simulation != c.production
        && c.entry.stage.Production? {
      SealWeighed(g, k, c);
    } else {
      hide GateInv, WellFormed, Freezes, Vouched, SealAuthorised, SealContinues, JournalInsertable, DigestTaken;
    }
  }

  lemma SealWeighed(g: Gate, k: RunKey, c: GateCommand)
    requires GateInv(g) && c.CommitSeal? && k in g.runs && k in g.checkpoints
    requires var run := g.runs[k];
             && run.state.AwaitingApproval? && c.expected == run.revision && c.simulation == run.simulation
             && c.production == run.production && run.production != Null && c.simulation != c.production
             && c.entry.stage.Production?
    ensures WellFormed(c) && CommitSealTx(g, k, c).Write? <==> AdmitsSeal(g, k, c)
  {
    var run := g.runs[k];
    WaitingRun(g, k);
    var now := g.checkpoints[k];
    assert ValidCheckpoint(now);
    FreezesIff(now, c);
    EntryInsertable(g, k, c.entry, Simulation);
    if JournalFree(g, k, c.entry, Simulation) && now.plan == run.plan { VouchedIff(g, k, c, now); }
    hide GateInv, JournalInsertable, JournalFree, Freezes, Vouched, SealAuthorised, ValidCheckpoint, Linked,
        ApprovalOf;
    DigestIsFree(g, k, c.sealed.digest);
    hide DigestTaken, DigestFree;
    assert SealContinues(now, c.sealed, c.entry) ==> c.sealed.plan == now.plan;
    assert Freezes(now, c) ==> c.sealed.plan == now.plan by { FreezesPlan(now, c); }
    hide SealContinues, WellFormed;
  }

  lemma FreezesPlan(now: Checkpoint, c: GateCommand)
    requires c.CommitSeal?
    ensures Freezes(now, c) ==> c.sealed.plan == now.plan
  {
  }

  lemma DigestIsFree(g: Gate, k: RunKey, digest: Id)
    ensures DigestTaken(g, k, digest) <==> !DigestFree(g, k, digest)
  {
  }

  lemma ReleaseAdmitted(g: Gate, k: RunKey, c: GateCommand)
    requires GateInv(g) && c.CreateRelease? && k in g.runs
    ensures WellFormed(c) && CreateReleaseTx(g, k, c).Write? <==> AdmitsRelease(g, k, c)
  {
    RunBasics(g, k);
    KindIsFree(g, k, c.kind);
    ReleaseNamed(c);
    hide GateInv, ApprovalOf, KindReleased, KindFree, WellFormed;
    ApprovalThere(g, k, c.approval);
    var run := g.runs[k];
    if !(c.expected == run.revision && run.state.Approved? && run.approval == c.approval && run.plan == c.subject) {
      assert CreateReleaseTx(g, k, c).Refuse?;
    }
  }

  lemma ReleaseNamed(c: GateCommand)
    requires c.CreateRelease?
    ensures WellFormed(c) <==>
              c.expected >= 1 && c.approval != Null
              && Null !in {c.release, c.subject, c.kind, c.artifact, c.signer, c.signature}
  {
  }

  lemma ApprovalThere(g: Gate, k: RunKey, id: Id)
    ensures ApprovalOf(g, k, id, Production) ==> TenantKey(k.tenant, id) in g.approvals
  {
  }

  lemma KindIsFree(g: Gate, k: RunKey, kind: Id)
    ensures KindReleased(g, k, kind) <==> !KindFree(g, k, kind)
  {
  }

  lemma LaunchAdmitted(g: Gate, k: RunKey, c: GateCommand)
    requires c.RecordLaunch? && k in g.runs
    ensures WellFormed(c) && RecordLaunchTx(g, k, c).Write? <==>
              LaunchFits(g, k, c) && LaunchKey(k, c.launch) !in g.launches
              && forall l | l in g.launches && l.run == k :: g.launches[l].release != c.release
    ensures WellFormed(c) && RecordLaunchTx(g, k, c).Repeat? <==>
              LaunchFits(g, k, c) && LaunchKey(k, c.launch) in g.launches
              && g.launches[LaunchKey(k, c.launch)] == Launch(c.release, c.request, c.launched, c.operation, c.result)
  {
  }

  lemma ReconciliationAdmitted(g: Gate, k: RunKey, c: GateCommand)
    requires c.RecordReconciliation? && k in g.runs
    ensures WellFormed(c) && RecordReconciliationTx(g, k, c).Write? <==>
              ReconciliationFits(g, k, c) && ReleaseKey(k, c.release) !in g.reconciliations
              && forall r | r in g.reconciliations && r.run.tenant == k.tenant :: g.reconciliations[r].id != c.id
    ensures WellFormed(c) && RecordReconciliationTx(g, k, c).Repeat? <==>
              ReconciliationFits(g, k, c) && ReleaseKey(k, c.release) in g.reconciliations
              && g.reconciliations[ReleaseKey(k, c.release)]
                 == Reconciliation(c.id, c.launch, c.verified, c.result, c.evidence)
  {
  }

  lemma NeverRepeats(g: Gate, k: RunKey, c: GateCommand, now: int)
    ensures Decide(g, k, c, now).Repeat? ==>
              c.CreateCheckpoint? || c.AppendJournal? || c.RecordLaunch? || c.RecordReconciliation?
  {
  }

  lemma RunAdmits(g: Gate, k: RunKey, c: GateCommand, now: int)
    requires GateInv(g) && (c.CreateRun? || c.Transition? || c.RegisterNonce? || c.RecordApproval? || c.CreateRelease?)
    ensures Decide(g, k, c, now).Write? <==> Admits(g, k, c, now)
    ensures !Decide(g, k, c, now).Repeat? && !OnFile(g, k, c)
  {
    NeverRepeats(g, k, c, now);
    if !c.CreateRun? {
      Dispatched(g, k, c, now);
      hide Decide, WellFormed, GateInv, TransitionTx, RegisterNonceTx, RecordApprovalTx, CreateReleaseTx,
          AdmitsTransition, AdmitsChallenge, AdmitsDecision, AdmitsRelease;
      if k in g.runs {
        match c
        case Transition(_, _, _, _) => TransitionAdmitted(g, k, c);
        case RegisterNonce(_, _, _, _) => ChallengeAdmitted(g, k, c, now);
        case RecordApproval(_, _, _, _, _, _, _, _, _) => DecisionAdmitted(g, k, c, now);
        case CreateRelease(_, _, _, _, _, _, _, _) => ReleaseAdmitted(g, k, c);
      }
    }
  }

  lemma RecordAdmits(g: Gate, k: RunKey, c: GateCommand, now: int)
    requires GateInv(g)
    requires c.CreateCheckpoint? || c.AppendJournal? || c.CommitSeal? || c.RecordLaunch? || c.RecordReconciliation?
    ensures Decide(g, k, c, now).Write? <==> Admits(g, k, c, now)
    ensures Decide(g, k, c, now).Repeat? <==> OnFile(g, k, c)
  {
    NeverRepeats(g, k, c, now);
    Dispatched(g, k, c, now);
    hide Decide, WellFormed, GateInv, CreateCheckpointTx, AppendJournalTx, CommitSealTx, RecordLaunchTx,
        RecordReconciliationTx, AdmitsSeal, CheckpointFits, EntryFits, JournalFree, LaunchFits, ReconciliationFits,
        DigestFree;
    if k in g.runs {
      match c
      case CreateCheckpoint(_) => CheckpointAdmitted(g, k, c);
      case AppendJournal(_) => EntryAdmitted(g, k, c);
      case CommitSeal(_, _, _, _, _, _, _) => SealAdmitted(g, k, c);
      case RecordLaunch(_, _, _, _, _, _) => LaunchAdmitted(g, k, c);
      case RecordReconciliation(_, _, _, _, _, _) => ReconciliationAdmitted(g, k, c);
    }
  }

  /** In every reachable database a lifecycle command takes effect if and only if the
      rows admit it, and is answered from the rows if and only if they hold it
      already; otherwise it is refused. */
  lemma AdmittedIff(history: seq<A.Timed>, k: RunKey, c: GateCommand, now: int)
    ensures var g := A.Run(A.EMPTY, history).gate;
            && (Decide(g, k, c, now).Write? <==> Admits(g, k, c, now))
            && (Decide(g, k, c, now).Repeat? <==> OnFile(g, k, c))
  {
    hide A.Run, Decide, Admits, OnFile, GateInv;
    H.EmptyHolds();
    H.HistoryKeeps(A.EMPTY, history);
    var g := A.Run(A.EMPTY, history).gate;
    if c.CreateRun? || c.Transition? || c.RegisterNonce? || c.RecordApproval? || c.CreateRelease? {
      RunAdmits(g, k, c, now);
    } else {
      RecordAdmits(g, k, c, now);
    }
  }
}
