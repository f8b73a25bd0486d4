/** What every lifecycle transaction keeps, and how the tables may grow. */
module AuthorityGateProofs {
  import opened Common
  import opened AuthorityTables
  import opened AuthorityGate

  // ------------------------------------------------------------- invariant

  predicate Journalled(g: Gate, k: RunKey, stage: Stage, approval: Id) {
    JournalKey(k, stage) in g.journal && g.journal[JournalKey(k, stage)].approval == approval
  }

  /** The sealed approval chain behind a run's approval id. */
  predicate Sealed(g: Gate, k: RunKey) {
    k in g.runs
    && var run := g.runs[k];
    && Filled(run.approval) && run.approval == run.production && Filled(run.simulation)
    && ApprovalOf(g, k, run.simulation, Simulation) && ApprovalOf(g, k, run.approval, Production)
    && k in g.checkpoints
    && var simulation := g.approvals[TenantKey(k.tenant, run.simulation)];
       var production := g.approvals[TenantKey(k.tenant, run.approval)];
       var checkpoint := g.checkpoints[k];
       && Linked(simulation, production, run.simulation) && production.approves
       && simulation.binding.plan == run.plan && production.binding.plan == run.plan
       && simulation.binding.checkpoint == production.binding.checkpoint
       && checkpoint.phase.ApprovedForExecution? && checkpoint.plan == run.plan
       && checkpoint.production == run.approval && Filled(checkpoint.seal)
       && checkpoint.modelCallsAtSeal == Some(checkpoint.modelCalls) && checkpoint.postSealCalls == 0
       && Journalled(g, k, Simulation, run.simulation) && Journalled(g, k, Production, run.approval)
  }

  /** A release of the run's approval, signed over its plan. */
  predicate Released(g: Gate, k: RunKey) {
    k in g.runs
    && var run := g.runs[k];
       var row := TenantKey(k.tenant, run.release);
    && Filled(run.release) && row in g.releases
    && g.releases[row].run == k.run && g.releases[row].approval == run.approval && g.releases[row].subject == run.plan
    && ApprovalOf(g, k, run.approval, Production)
    && g.approvals[TenantKey(k.tenant, run.approval)].binding.subject == run.plan
  }

  /** A launched result and a verified reconciliation of one release. */
  predicate Proven(g: Gate, k: RunKey, release: Id) {
    && VerifiedRelease(g, k, release)
    && var launch := LaunchKey(k, g.reconciliations[ReleaseKey(k, release)].launch);
       launch in g.launches && g.launches[launch].launched && g.launches[launch].release == release
  }

  predicate RunInv(g: Gate, k: RunKey)
    requires k in g.runs
  {
    var run := g.runs[k];
    && run.revision >= 1
    && (run.state.AwaitingApproval? || Filled(run.simulation) ==> Filled(run.plan))
    && (Filled(run.simulation) ==> ApprovalOf(g, k, run.simulation, Simulation))
    && (Filled(run.production) ==>
          && ApprovalOf(g, k, run.production, Production) && Filled(run.simulation)
          && Linked(g.approvals[TenantKey(k.tenant, run.simulation)], g.approvals[TenantKey(k.tenant, run.production)],
                    run.simulation))
    && (Filled(run.approval) ==> Sealed(g, k))
    && (Filled(run.release) ==> Filled(run.approval) && Released(g, k))
    && (run.state.Approved? ==> Filled(run.approval))
    && (run.state.Succeeded? ==> Filled(run.release) && Proven(g, k, run.release))
    && (run.state.Created? ==> !Filled(run.simulation))
    && (!Filled(run.approval) && Filled(run.simulation) ==> run.state.AwaitingApproval? || Terminal(run.state))
    && (Filled(run.approval) ==> !run.state.AwaitingApproval? && !run.state.Created?)
    && (run.state.Rejected? <==> SomeRejection(g, k))
  }

  predicate SomeRejection(g: Gate, k: RunKey)
    requires k in g.runs
  {
    var run := g.runs[k];
    || (ApprovalOf(g, k, run.simulation, Simulation) && !g.approvals[TenantKey(k.tenant, run.simulation)].approves)
    || (ApprovalOf(g, k, run.production, Production) && !g.approvals[TenantKey(k.tenant, run.production)].approves)
  }

  /** Every approval row is the one its run names at that stage, and consumed one nonce. */
  predicate ApprovalInv(g: Gate, a: TenantKey)
    requires a in g.approvals
  {
    var row := g.approvals[a];
    var k := RunKey(a.tenant, row.run);
    var nonce := TenantKey(a.tenant, row.nonce);
    && Filled(a.id) && k in g.runs
    && (if row.binding.stage.Simulation? then g.runs[k].simulation else g.runs[k].production) == a.id
    && row.binding.plan == g.runs[k].plan
    && nonce in g.nonces && g.nonces[nonce].consumedBy == a.id
  }

  /** A consumed nonce names the approval it was bound to. */
  predicate NonceInv(g: Gate, n: TenantKey)
    requires n in g.nonces
  {
    var nonce := g.nonces[n];
    Filled(nonce.consumedBy) ==>
      var a := TenantKey(n.tenant, nonce.consumedBy);
      a in g.approvals && g.approvals[a].nonce == n.id && g.approvals[a].run == nonce.run
      && g.approvals[a].binding == nonce.binding
  }

  predicate FactsInv(g: Gate) {
    && (forall k | k in g.checkpoints :: k in g.runs && ValidCheckpoint(g.checkpoints[k])
          && (PastSeal(g.checkpoints[k].phase) ==> Filled(g.runs[k].approval)))
    && (forall r | r in g.reconciliations && g.reconciliations[r].verified :: Proven(g, r.run, r.release))
  }

  predicate GateInv(g: Gate) {
    && (forall k | k in g.runs :: RunInv(g, k))
    && (forall a | a in g.approvals :: ApprovalInv(g, a))
    && (forall n | n in g.nonces :: NonceInv(g, n))
    && FactsInv(g)
  }

  // -------------------------------------------------------------- growth

  predicate Extends<K, V(==)>(m: map<K, V>, m': map<K, V>) {
    forall x | x in m :: x in m' && m'[x] == m[x]
  }

  /** The tables that only ever gain rows. */
  predicate AppendOnly(g: Gate, h: Gate) {
    && Extends(g.approvals, h.approvals) && Extends(g.journal, h.journal) && Extends(g.releases, h.releases)
    && Extends(g.launches, h.launches) && Extends(g.reconciliations, h.reconciliations)
  }

  /** Rows other than k's are untouched, and the append-only tables grow. */
  predicate Elsewhere(g: Gate, h: Gate, k: RunKey) {
    && AppendOnly(g, h)
    && (forall o | o in g.runs && o != k :: o in h.runs && h.runs[o] == g.runs[o])
    && (forall o | o in h.runs && o != k :: o in g.runs)
    && (forall o | o in g.checkpoints && o != k :: o in h.checkpoints && h.checkpoints[o] == g.checkpoints[o])
    && (forall o | o in h.checkpoints && o != k :: o in g.checkpoints)
    && (forall a | a in h.approvals :: Filled(a.id))
  }

  lemma RunFrame(g: Gate, h: Gate, k: RunKey, o: RunKey)
    requires Elsewhere(g, h, k) && o in g.runs && o in h.runs && g.runs[o] == h.runs[o]
    requires o in g.checkpoints && PastSeal(g.checkpoints[o].phase) ==>
             o in h.checkpoints && h.checkpoints[o] == g.checkpoints[o]
    requires RunInv(g, o)
    ensures RunInv(h, o)
  {
  }

  lemma ApprovalFrame(g: Gate, h: Gate, a: TenantKey)
    requires a in g.approvals && ApprovalInv(g, a) && Extends(g.approvals, h.approvals)
    requires var k := RunKey(a.tenant, g.approvals[a].run);
             k in h.runs && h.runs[k].plan == g.runs[k].plan
             && (Filled(g.runs[k].simulation) ==> h.runs[k].simulation == g.runs[k].simulation)
             && (Filled(g.runs[k].production) ==> h.runs[k].production == g.runs[k].production)
    requires forall n | n in g.nonces && Filled(g.nonces[n].consumedBy) :: n in h.nonces && h.nonces[n] == g.nonces[n]
    ensures ApprovalInv(h, a)
  {
  }

  /** How one transaction may move a run's row: set fields stay, a terminal row
      stays, the approval gate is entered only before any decision, and every
      change raises the revision by one. */
  predicate RunStep(run: Run, next: Run) {
    && (next == run || next.revision == run.revision + 1)
    && (Terminal(run.state) ==> next == run)
    && (Filled(run.plan) ==> next.plan == run.plan)
    && (Filled(run.simulation) ==> next.simulation == run.simulation)
    && (Filled(run.production) ==> next.production == run.production)
    && (Filled(run.approval) ==> next.approval == run.approval)
    && (Filled(run.release) ==> next.release == run.release)
    && (next.state.AwaitingApproval? && !run.state.AwaitingApproval? ==>
          !Filled(next.simulation) && !Filled(next.production) && !Filled(next.approval) && !Filled(next.release))
    && (next.state != run.state ==> TransitionAllowed(run.state, next.state) || run.state.AwaitingApproval?)
  }

  /** No nonce or checkpoint row is ever deleted; consumed nonces and sealed checkpoints are frozen. */
  predicate Frozen(g: Gate, h: Gate) {
    && g.nonces.Keys <= h.nonces.Keys && g.checkpoints.Keys <= h.checkpoints.Keys
    && (forall n | n in g.nonces && Filled(g.nonces[n].consumedBy) :: n in h.nonces && h.nonces[n] == g.nonces[n])
    && (forall o | o in g.checkpoints && PastSeal(g.checkpoints[o].phase) ::
        o in h.checkpoints && h.checkpoints[o] == g.checkpoints[o])
  }

  predicate Step(g: Gate, h: Gate, k: RunKey) {
    Elsewhere(g, h, k) && Frozen(g, h) && k in h.runs && (k in g.runs ==> RunStep(g.runs[k], h.runs[k]))
  }

  lemma Assemble(g: Gate, h: Gate, k: RunKey)
    requires GateInv(g) && Step(g, h, k) && k in g.runs && RunInv(h, k)
    requires forall a | a in h.approvals && a !in g.approvals :: ApprovalInv(h, a)
    requires forall n | n in h.nonces :: NonceInv(h, n)
    requires FactsInv(h)
    ensures GateInv(h)
  {
    hide ApprovalInv, RunInv, NonceInv, FactsInv;
    forall o | o in h.runs && o != k ensures RunInv(h, o) {
      assert RunInv(g, o);
      RunFrame(g, h, k, o);
    }
    forall a | a in h.approvals ensures ApprovalInv(h, a) {
      if a in g.approvals {
        ApprovalStays(g, h, k, a);
      }
    }
  }

  lemma ApprovalStays(g: Gate, h: Gate, k: RunKey, a: TenantKey)
    requires GateInv(g) && Step(g, h, k) && a in g.approvals && k in g.runs
    ensures ApprovalInv(h, a)
  {
    var o := RunKey(a.tenant, g.approvals[a].run);
    assert ApprovalInv(g, a) && RunInv(g, o);
    ApprovalFrame(g, h, a);
  }

  lemma NoncesStay(g: Gate, h: Gate)
    requires (forall n | n in g.nonces :: NonceInv(g, n)) && Extends(g.approvals, h.approvals) && h.nonces == g.nonces
    ensures forall n | n in h.nonces :: NonceInv(h, n)
  {
    forall n | n in h.nonces ensures NonceInv(h, n) { assert NonceInv(g, n); }
  }

  lemma FactsStay(g: Gate, h: Gate, k: RunKey)
    requires FactsInv(g) && Step(g, h, k) && h.checkpoints == g.checkpoints && h.reconciliations == g.reconciliations
    ensures FactsInv(h)
  {
  }

  /** A transaction that touches neither approvals, nonces, checkpoints nor
      reconciliations has only its own run left to justify. */
  lemma AssembleQuiet(g: Gate, h: Gate, k: RunKey)
    requires GateInv(g) && Step(g, h, k) && k in g.runs && RunInv(h, k)
    requires h.approvals == g.approvals && h.nonces == g.nonces
    requires h.checkpoints == g.checkpoints && h.reconciliations == g.reconciliations
    ensures GateInv(h)
  {
    hide ApprovalInv, RunInv, NonceInv, FactsInv;
    NoncesStay(g, h);
    FactsStay(g, h, k);
    Assemble(g, h, k);
  }

  // ----------------------------------------------------------- step lemmas

  lemma CreateRunKeeps(g: Gate, k: RunKey, h: Gate)
    requires GateInv(g) && k !in g.runs && h == g.(runs := g.runs[k := Run(Created, 1, Null, Null, Null, Null, Null)])
    ensures Step(g, h, k) && GateInv(h)
  {
    hide NonceInv, FactsInv, RunInv;
    assert Step(g, h, k);
    forall o | o in h.runs ensures RunInv(h, o) {
      if o != k { RunFrame(g, h, k, o); } else { FreshRun(g, k, h); }
    }
    assert FactsInv(h) && (forall a | a in h.approvals :: ApprovalInv(h, a)) by { FreshRunFacts(g, k, h); }
    NoncesStay(g, h);
  }

  lemma FreshRunFacts(g: Gate, k: RunKey, h: Gate)
    requires FactsInv(g) && (forall a | a in g.approvals :: ApprovalInv(g, a))
    requires k !in g.runs && h == g.(runs := g.runs[k := Run(Created, 1, Null, Null, Null, Null, Null)])
    ensures FactsInv(h) && (forall a | a in h.approvals :: ApprovalInv(h, a))
  {
    forall a | a in h.approvals ensures ApprovalInv(h, a) { assert ApprovalInv(g, a); }
  }

  lemma FreshRun(g: Gate, k: RunKey, h: Gate)
    requires k !in g.runs && h == g.(runs := g.runs[k := Run(Created, 1, Null, Null, Null, Null, Null)])
    requires forall a | a in g.approvals :: Filled(a.id)
    ensures RunInv(h, k)
  {
  }

  lemma TransitionStep(g: Gate, k: RunKey, c: GateCommand, h: Gate, notes: seq<Note>)
    requires k in g.runs && c.Transition? && TransitionTx(g, k, c) == Write(h, notes)
    requires forall a | a in g.approvals :: Filled(a.id)
    ensures Step(g, h, k) && h == g.(runs := h.runs)
  {
  }

  lemma TransitionRun(g: Gate, k: RunKey, c: GateCommand, h: Gate, notes: seq<Note>)
    requires k in g.runs && c.Transition? && WellFormed(c) && TransitionTx(g, k, c) == Write(h, notes)
    requires RunInv(g, k)
    requires VerifiedRelease(g, k, g.runs[k].release) ==> Proven(g, k, g.runs[k].release)
    ensures RunInv(h, k)
  {
  }

  lemma RegisterNonceStep(g: Gate, k: RunKey, c: GateCommand, now: int, h: Gate, notes: seq<Note>)
    requires k in g.runs && c.RegisterNonce? && RegisterNonceTx(g, k, c, now) == Write(h, notes)
    requires forall a | a in g.approvals :: Filled(a.id)
    ensures Step(g, h, k) && Elsewhere(g, h, k) && h == g.(nonces := h.nonces)
    ensures forall n | n in h.nonces :: if n in g.nonces then h.nonces[n] == g.nonces[n] else NonceInv(h, n)
  {}

  lemma RegisterNonceKeeps(g: Gate, k: RunKey, c: GateCommand, now: int, h: Gate, notes: seq<Note>)
    requires GateInv(g) && k in g.runs && c.RegisterNonce? && RegisterNonceTx(g, k, c, now) == Write(h, notes)
    ensures Step(g, h, k) && GateInv(h)
  {
    hide RunInv, FactsInv, RegisterNonceTx, Step;
    RegisterNonceStep(g, k, c, now, h, notes);
    assert RunInv(h, k) by { RunFrame(g, h, k, k); }
    assert FactsInv(h) by { FactsStay(g, h, k); }
    forall n | n in h.nonces ensures NonceInv(h, n) { assert n in g.nonces ==> NonceInv(g, n); }
    Assemble(g, h, k);
  }

  lemma RecordApprovalStep(g: Gate, k: RunKey, c: GateCommand, now: int, h: Gate, notes: seq<Note>)
    requires k in g.runs && c.RecordApproval? && WellFormed(c) && RecordApprovalTx(g, k, c, now) == Write(h, notes)
    requires forall a | a in g.approvals :: Filled(a.id)
    ensures Step(g, h, k)
    ensures h.checkpoints == g.checkpoints && h.reconciliations == g.reconciliations
  {
  }

  lemma RecordApprovalRun(g: Gate, k: RunKey, c: GateCommand, now: int, h: Gate, notes: seq<Note>)
    requires k in g.runs && c.RecordApproval? && WellFormed(c) && RecordApprovalTx(g, k, c, now) == Write(h, notes)
    requires RunInv(g, k)
    requires forall a | a in g.approvals :: Filled(a.id)
    ensures RunInv(h, k)
  {
  }

  lemma RecordApprovalRows(g: Gate, k: RunKey, c: GateCommand, now: int, h: Gate, notes: seq<Note>)
    requires k in g.runs && c.RecordApproval? && WellFormed(c) && RecordApprovalTx(g, k, c, now) == Write(h, notes)
    requires forall n | n in g.nonces :: NonceInv(g, n)
    ensures forall a | a in h.approvals && a !in g.approvals :: ApprovalInv(h, a)
    ensures forall n | n in h.nonces :: NonceInv(h, n)
  {
    forall n | n in h.nonces ensures NonceInv(h, n) { assert NonceInv(g, n); }
  }

  lemma CheckpointStep(g: Gate, k: RunKey, c: GateCommand, h: Gate, notes: seq<Note>)
    requires k in g.runs && c.CreateCheckpoint? && WellFormed(c) && CreateCheckpointTx(g, k, c) == Write(h, notes)
    requires FactsInv(g) && forall a | a in g.approvals :: Filled(a.id)
    ensures Step(g, h, k) && FactsInv(h) && h == g.(checkpoints := h.checkpoints)
  {
    hide CreateCheckpointTx, Elsewhere;
    CheckpointElsewhere(g, k, c, h, notes);
  }

  lemma CheckpointElsewhere(g: Gate, k: RunKey, c: GateCommand, h: Gate, notes: seq<Note>)
    requires k in g.runs && c.CreateCheckpoint? && WellFormed(c) && CreateCheckpointTx(g, k, c) == Write(h, notes)
    requires forall a | a in g.approvals :: Filled(a.id)
    ensures Elsewhere(g, h, k) && Frozen(g, h) && k !in g.checkpoints && k in h.checkpoints
    ensures h == g.(checkpoints := g.checkpoints[k := h.checkpoints[k]])
    ensures ValidCheckpoint(h.checkpoints[k]) && !PastSeal(h.checkpoints[k].phase)
  {}

  lemma CheckpointKeeps(g: Gate, k: RunKey, c: GateCommand, h: Gate, notes: seq<Note>)
    requires GateInv(g) && k in g.runs && c.CreateCheckpoint? && WellFormed(c)
    requires CreateCheckpointTx(g, k, c) == Write(h, notes)
    ensures Step(g, h, k) && GateInv(h)
  {
    CheckpointStep(g, k, c, h, notes);
    hide RunInv, FactsInv, CreateCheckpointTx;
    assert RunInv(h, k) by { RunFrame(g, h, k, k); }
    NoncesStay(g, h);
    Assemble(g, h, k);
  }

  lemma JournalStep(g: Gate, k: RunKey, c: GateCommand, h: Gate, notes: seq<Note>)
    requires k in g.runs && c.AppendJournal? && AppendJournalTx(g, k, c) == Write(h, notes)
    requires forall a | a in g.approvals :: Filled(a.id)
    ensures Step(g, h, k) && Elsewhere(g, h, k) && h == g.(journal := h.journal)
  {}

  lemma JournalKeeps(g: Gate, k: RunKey, c: GateCommand, h: Gate, notes: seq<Note>)
    requires GateInv(g) && k in g.runs && c.AppendJournal? && AppendJournalTx(g, k, c) == Write(h, notes)
    ensures Step(g, h, k) && GateInv(h)
  {
    hide RunInv, FactsInv, AppendJournalTx, Step;
    JournalStep(g, k, c, h, notes);
    assert RunInv(h, k) by { RunFrame(g, h, k, k); }
    AssembleQuiet(g, h, k);
  }

  lemma SealStep(g: Gate, k: RunKey, c: GateCommand, h: Gate, notes: seq<Note>)
    requires k in g.runs && c.CommitSeal? && WellFormed(c) && CommitSealTx(g, k, c) == Write(h, notes)
    requires forall a | a in g.approvals :: Filled(a.id)
    ensures Step(g, h, k)
    ensures h.approvals == g.approvals && h.nonces == g.nonces
  {
    hide CommitSealTx, Elsewhere, Frozen, RunStep;
    SealElsewhere(g, k, c, h, notes);
    SealRunStep(g, k, c, h, notes);
  }

  lemma SealElsewhere(g: Gate, k: RunKey, c: GateCommand, h: Gate, notes: seq<Note>)
    requires k in g.runs && c.CommitSeal? && WellFormed(c) && CommitSealTx(g, k, c) == Write(h, notes)
    requires forall a | a in g.approvals :: Filled(a.id)
    ensures Elsewhere(g, h, k) && h.approvals == g.approvals && h.nonces == g.nonces
  {}

  lemma SealRunStep(g: Gate, k: RunKey, c: GateCommand, h: Gate, notes: seq<Note>)
    requires k in g.runs && c.CommitSeal? && WellFormed(c) && CommitSealTx(g, k, c) == Write(h, notes)
    ensures Frozen(g, h) && k in h.runs && RunStep(g.runs[k], h.runs[k])
  {}

  lemma SealRun(g: Gate, k: RunKey, c: GateCommand, h: Gate, notes: seq<Note>)
    requires k in g.runs && c.CommitSeal? && WellFormed(c) && CommitSealTx(g, k, c) == Write(h, notes)
    requires RunInv(g, k)
    ensures RunInv(h, k)
  {
  }

  lemma SealFacts(g: Gate, k: RunKey, c: GateCommand, h: Gate, notes: seq<Note>)
    requires k in g.runs && c.CommitSeal? && WellFormed(c) && CommitSealTx(g, k, c) == Write(h, notes)
    requires FactsInv(g)
    ensures FactsInv(h)
  {
  }

  lemma ReleaseKeeps(g: Gate, k: RunKey, c: GateCommand, h: Gate, notes: seq<Note>)
    requires k in g.runs && c.CreateRelease? && WellFormed(c) && CreateReleaseTx(g, k, c) == Write(h, notes)
    requires RunInv(g, k)
    requires forall a | a in g.approvals :: Filled(a.id)
    ensures Step(g, h, k) && RunInv(h, k)
    ensures h.approvals == g.approvals && h.nonces == g.nonces && h.checkpoints == g.checkpoints
    ensures h.reconciliations == g.reconciliations
  {
  }

  lemma LaunchKeeps(g: Gate, k: RunKey, c: GateCommand, h: Gate, notes: seq<Note>)
    requires GateInv(g) && k in g.runs && c.RecordLaunch? && RecordLaunchTx(g, k, c) == Write(h, notes)
    ensures Step(g, h, k) && GateInv(h)
  {
    hide RunInv, FactsInv;
    assert Step(g, h, k);
    assert RunInv(h, k) by { RunFrame(g, h, k, k); }
    AssembleQuiet(g, h, k);
  }

  lemma ReconciliationKeeps(g: Gate, k: RunKey, c: GateCommand, h: Gate, notes: seq<Note>)
    requires GateInv(g) && k in g.runs && c.RecordReconciliation? && RecordReconciliationTx(g, k, c) == Write(h, notes)
    ensures Step(g, h, k) && GateInv(h)
  {
    hide RunInv;
    assert Step(g, h, k);
    assert RunInv(h, k) by { RunFrame(g, h, k, k); }
    NoncesStay(g, h);
    Assemble(g, h, k);
  }

  /** Every lifecycle transaction keeps the invariant and moves its run by one step. */
  lemma DecideKeeps(g: Gate, k: RunKey, c: GateCommand, now: int, h: Gate, notes: seq<Note>)
    requires GateInv(g) && Decide(g, k, c, now) == Write(h, notes)
    ensures Step(g, h, k) && GateInv(h)
  {
    hide RunInv, NonceInv, FactsInv, TransitionTx, RecordApprovalTx, CommitSealTx, CreateReleaseTx;
    match c
    case CreateRun => CreateRunKeeps(g, k, h);
    case RegisterNonce(_, _, _, _) => RegisterNonceKeeps(g, k, c, now, h, notes);
    case CreateCheckpoint(_) => CheckpointKeeps(g, k, c, h, notes);
    case AppendJournal(_) => JournalKeeps(g, k, c, h, notes);
    case RecordLaunch(_, _, _, _, _, _) => LaunchKeeps(g, k, c, h, notes);
    case RecordReconciliation(_, _, _, _, _, _) => ReconciliationKeeps(g, k, c, h, notes);
    case Transition(_, _, _, _) => TransitionKeeps(g, k, c, h, notes);
    case RecordApproval(_, _, _, _, _, _, _, _, _) => RecordApprovalKeeps(g, k, c, now, h, notes);
    case CommitSeal(_, _, _, _, _, _, _) => SealKeeps(g, k, c, h, notes);
    case CreateRelease(_, _, _, _, _, _, _, _) =>
      ReleaseKeeps(g, k, c, h, notes);
      AssembleQuiet(g, h, k);
  }

  lemma TransitionKeeps(g: Gate, k: RunKey, c: GateCommand, h: Gate, notes: seq<Note>)
    requires GateInv(g) && k in g.runs && c.Transition? && WellFormed(c) && TransitionTx(g, k, c) == Write(h, notes)
    ensures Step(g, h, k) && GateInv(h)
  {
    TransitionStep(g, k, c, h, notes);
    TransitionRun(g, k, c, h, notes);
    hide RunInv, TransitionTx, Proven;
    AssembleQuiet(g, h, k);
  }

  lemma RecordApprovalKeeps(g: Gate, k: RunKey, c: GateCommand, now: int, h: Gate, notes: seq<Note>)
    requires GateInv(g) && k in g.runs && c.RecordApproval? && WellFormed(c)
    requires RecordApprovalTx(g, k, c, now) == Write(h, notes)
    ensures Step(g, h, k) && GateInv(h)
  {
    RecordApprovalStep(g, k, c, now, h, notes);
    RecordApprovalRun(g, k, c, now, h, notes);
    RecordApprovalRows(g, k, c, now, h, notes);
    hide RunInv, NonceInv, FactsInv, RecordApprovalTx;
    FactsStay(g, h, k);
    Assemble(g, h, k);
  }

  lemma SealKeeps(g: Gate, k: RunKey, c: GateCommand, h: Gate, notes: seq<Note>)
    requires GateInv(g) && k in g.runs && c.CommitSeal? && WellFormed(c) && CommitSealTx(g, k, c) == Write(h, notes)
    ensures Step(g, h, k) && GateInv(h)
  {
    SealStep(g, k, c, h, notes);
    SealRun(g, k, c, h, notes);
    SealFacts(g, k, c, h, notes);
    hide RunInv, NonceInv, FactsInv, CommitSealTx;
    NoncesStay(g, h);
    Assemble(g, h, k);
  }

  // ------------------------------------------------------ growth over time

  /** What any number of transactions may do to a run's row. */
  predicate RunLater(run: Run, next: Run) {
    && next.revision >= run.revision && (next.revision == run.revision ==> next == run)
    && (Terminal(run.state) ==> next == run)
    && (Filled(run.plan) ==> next.plan == run.plan)
    && (Filled(run.simulation) ==> next.simulation == run.simulation)
    && (Filled(run.production) ==> next.production == run.production)
    && (Filled(run.approval) ==> next.approval == run.approval)
    && (Filled(run.release) ==> next.release == run.release)
    && (Filled(run.simulation) && !run.state.AwaitingApproval? ==> !next.state.AwaitingApproval?)
  }

  predicate Later(g: Gate, h: Gate) {
    && AppendOnly(g, h) && Frozen(g, h)
    && forall k | k in g.runs :: k in h.runs && RunLater(g.runs[k], h.runs[k])
  }

  lemma StepIsLater(g: Gate, h: Gate, k: RunKey)
    requires Step(g, h, k)
    ensures Later(g, h)
  {
  }

  lemma LaterTransitive(g: Gate, h: Gate, i: Gate)
    requires Later(g, h) && Later(h, i)
    ensures Later(g, i)
  {
  }
}
