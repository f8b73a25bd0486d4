/** Runs that wait for their approval: which of them no command can approve any more. */
module AuthorityPending {
  import opened Common
  import opened AuthorityTables
  import opened AuthorityGate
  import opened AuthorityGateProofs

  // ------------------------------------------------------------- condition

  /** The decisions on record are about the checkpoint of this digest. */
  predicate DecidedOn(g: Gate, k: RunKey, digest: Id)
    requires k in g.runs
  {
    var run := g.runs[k];
    && Filled(run.simulation) && ApprovalOf(g, k, run.simulation, Simulation)
    && g.approvals[TenantKey(k.tenant, run.simulation)].binding.checkpoint == digest
    && (Filled(run.production) ==>
          && ApprovalOf(g, k, run.production, Production)
          && g.approvals[TenantKey(k.tenant, run.production)].binding.checkpoint == digest)
  }

  /** The run waits for approval, and what is on record agrees with its checkpoint. */
  predicate Ready(g: Gate, k: RunKey) {
    && k in g.runs && k in g.checkpoints && g.runs[k].state.AwaitingApproval?
    && g.checkpoints[k].phase.SimulationApproved? && DecidedOn(g, k, g.checkpoints[k].digest)
  }

  /** No other run of the tenant holds this checkpoint digest, or its holder can
      still be sealed, which replaces the digest. */
  predicate Obtainable(g: Gate, k: RunKey, digest: Id) {
    forall o | o in g.checkpoints && o != k && o.tenant == k.tenant && g.checkpoints[o].digest == digest :: Ready(g, o)
  }

  /** The checkpoint digest the simulation decision was about. */
  function DigestOf(g: Gate, k: RunKey): Id
    requires k in g.runs
  {
    var row := TenantKey(k.tenant, g.runs[k].simulation);
    if row in g.approvals then g.approvals[row].binding.checkpoint else Null
  }

  /** A run without approval is live, and it has neither a decision nor a
      checkpoint, or its checkpoint and its decisions agree, or its decisions agree
      on a digest that it can still store a checkpoint under. */
  predicate Approvable(g: Gate, k: RunKey)
    requires k in g.runs
  {
    && !Terminal(g.runs[k].state)
    && if !Filled(g.runs[k].simulation) then k !in g.checkpoints
       else if k in g.checkpoints then Ready(g, k)
       else DecidedOn(g, k, DigestOf(g, k)) && Obtainable(g, k, DigestOf(g, k))
  }

  /** The production decision was made about the plan, or can still be: its
      subject must not be the subject of the simulation decision. */
  predicate PlanOpen(g: Gate, k: RunKey)
    requires k in g.runs
  {
    var run := g.runs[k];
    var first, second := TenantKey(k.tenant, run.simulation), TenantKey(k.tenant, run.production);
    if Filled(run.production) then second in g.approvals && g.approvals[second].binding.subject == run.plan
    else Filled(run.simulation) ==> first in g.approvals && g.approvals[first].binding.subject != run.plan
  }

  // -------------------------------------------------------- more invariants

  /** A simulation entry restates the decision its run names; a production entry
      came with the seal. */
  predicate EntryTidy(g: Gate, j: JournalKey)
    requires j in g.journal
  {
    var entry := g.journal[j];
    && j.run in g.runs
    && if j.stage.Production? then Filled(g.runs[j.run].approval)
       else
         && Filled(entry.approval) && Filled(entry.source) && g.runs[j.run].simulation == entry.approval
         && ApprovalOf(g, j.run, entry.approval, Simulation)
         && EntryMatches(entry, g.approvals[TenantKey(j.run.tenant, entry.approval)])
  }

  /** The checkpoint of a run without approval is about its plan and not sealed,
      and it claims a simulation approval only if one is journalled. */
  predicate CheckpointTidy(g: Gate, k: RunKey)
    requires k in g.checkpoints && k in g.runs
  {
    var run, checkpoint := g.runs[k], g.checkpoints[k];
    !Filled(run.approval) ==>
      && checkpoint.plan == run.plan && Filled(run.plan) && (run.state.AwaitingApproval? || Terminal(run.state))
      && !PastSeal(checkpoint.phase)
      && (checkpoint.phase.SimulationApproved? ==>
            JournalKey(k, Simulation) in g.journal && g.journal[JournalKey(k, Simulation)].source == checkpoint.source)
  }

  predicate DigestsDistinct(g: Gate) {
    forall k, o | k in g.checkpoints && o in g.checkpoints && k != o && k.tenant == o.tenant ::
        g.checkpoints[k].digest != g.checkpoints[o].digest
  }

  predicate DecisionFilled(row: Approval) { Filled(row.record) && Filled(row.actor) && ValidBinding(row.binding) }

  predicate Tidy(g: Gate) {
    && (forall j | j in g.journal :: EntryTidy(g, j))
    && (forall k | k in g.checkpoints :: k in g.runs && CheckpointTidy(g, k))
    && DigestsDistinct(g)
    && (forall a | a in g.approvals :: DecisionFilled(g.approvals[a]))
  }

  // --------------------------------------------------- commands by their rows

  /** A run may enter `awaiting_approval` by a command, but leaves it to a
      terminal state unless it is decided or sealed. */
  predicate Moves(g: Gate, h: Gate, k: RunKey)
    requires k in g.runs && k in h.runs
  {
    g.runs[k].state.AwaitingApproval? ==> h.runs[k].state.AwaitingApproval? || Terminal(h.runs[k].state)
  }

  lemma PlainRows(g: Gate, k: RunKey, c: GateCommand, now: int, h: Gate, notes: seq<Note>)
    requires Decide(g, k, c, now) == Write(h, notes)
    requires !c.RecordApproval? && !c.CreateCheckpoint? && !c.AppendJournal? && !c.CommitSeal?
    ensures h.approvals == g.approvals && h.checkpoints == g.checkpoints && h.journal == g.journal
    ensures k in h.runs && (k in g.runs ==> Moves(g, h, k) && h.runs[k].simulation == g.runs[k].simulation)
    ensures k in g.runs ==> h.runs[k].production == g.runs[k].production && h.runs[k].approval == g.runs[k].approval
  {}

  lemma DecisionRows(g: Gate, k: RunKey, c: GateCommand, now: int, h: Gate, notes: seq<Note>)
    requires Decide(g, k, c, now) == Write(h, notes) && c.RecordApproval?
    ensures h.checkpoints == g.checkpoints && h.journal == g.journal
    ensures k in g.runs && k in h.runs && Moves(g, h, k) && h.runs[k].approval == g.runs[k].approval
    ensures forall a | a in h.approvals :: if a in g.approvals then h.approvals[a] == g.approvals[a]
                                           else DecisionFilled(h.approvals[a])
  {
    hide TransitionTx, RegisterNonceTx, CreateCheckpointTx, AppendJournalTx, CommitSealTx, CreateReleaseTx,
        RecordLaunchTx, RecordReconciliationTx;
  }

  lemma CheckpointRows(g: Gate, k: RunKey, c: GateCommand, now: int, h: Gate, notes: seq<Note>)
    requires Decide(g, k, c, now) == Write(h, notes) && c.CreateCheckpoint?
    ensures k in g.runs && k !in g.checkpoints && h == g.(checkpoints := g.checkpoints[k := c.checkpoint])
    ensures !DigestTaken(g, k, c.checkpoint.digest) && c.checkpoint.plan == g.runs[k].plan && Filled(g.runs[k].plan)
    ensures g.runs[k].state.AwaitingApproval? && !PastSeal(c.checkpoint.phase)
    ensures c.checkpoint.phase.SimulationApproved? ==>
              JournalKey(k, Simulation) in g.journal
              && g.journal[JournalKey(k, Simulation)].source == c.checkpoint.source
  {}

  lemma JournalRows(g: Gate, k: RunKey, c: GateCommand, now: int, h: Gate, notes: seq<Note>)
    requires Decide(g, k, c, now) == Write(h, notes) && c.AppendJournal?
    ensures k in g.runs && h == g.(journal := g.journal[JournalKey(k, Simulation) := c.entry]) && Moves(g, h, k)
    ensures EntryTidy(h, JournalKey(k, Simulation))
  {
    hide TransitionTx, RegisterNonceTx, RecordApprovalTx, CreateCheckpointTx, CommitSealTx, CreateReleaseTx,
        RecordLaunchTx, RecordReconciliationTx, JournalInsertable;
  }

  /** The seal finds its run ready, and replaces the digest of its checkpoint by
      one that is free. */
  lemma SealRows(g: Gate, k: RunKey, c: GateCommand, now: int, h: Gate, notes: seq<Note>)
    requires Decide(g, k, c, now) == Write(h, notes) && c.CommitSeal?
    ensures k in g.runs && Ready(g, k) && Filled(g.runs[k].production) && h.approvals == g.approvals
    ensures h.runs == g.runs[k := g.runs[k].(state := Approved, approval := g.runs[k].production,
                                             revision := g.runs[k].revision + 1)]
    ensures h.checkpoints == g.checkpoints[k := c.sealed] && !DigestTaken(g, k, c.sealed.digest)
    ensures h.journal == g.journal[JournalKey(k, Production) := c.entry] && Filled(h.runs[k].approval)
  {
    hide TransitionTx, RegisterNonceTx, RecordApprovalTx, CreateCheckpointTx, AppendJournalTx, CreateReleaseTx,
        RecordLaunchTx, RecordReconciliationTx, JournalInsertable, DigestTaken;
  }

  // ------------------------------------------------------------ tidiness stays

  lemma EntryStays(g: Gate, h: Gate, o: RunKey, j: JournalKey)
    requires Step(g, h, o) && j in g.journal && EntryTidy(g, j)
    ensures j in h.journal && EntryTidy(h, j)
  {}

  lemma CheckpointStays(g: Gate, h: Gate, o: RunKey, k: RunKey)
    requires Step(g, h, o) && k in g.checkpoints && k in g.runs && CheckpointTidy(g, k)
    requires k in h.checkpoints && h.checkpoints[k] == g.checkpoints[k] && k in h.runs && Moves(g, h, k)
    ensures CheckpointTidy(h, k)
  {}

  lemma OthersMove(g: Gate, h: Gate, o: RunKey, k: RunKey)
    requires Step(g, h, o) && k in g.runs && k != o
    ensures k in h.runs && Moves(g, h, k)
  {}

  /** Where no checkpoint changes and entries are only added, tidiness is a matter
      of the new entries and decisions. */
  lemma TidyWithRows(g: Gate, h: Gate, o: RunKey)
    requires Tidy(g) && Step(g, h, o) && h.checkpoints == g.checkpoints
    requires o in h.runs && (o in g.runs ==> Moves(g, h, o))
    requires forall j | j in h.journal && j !in g.journal :: EntryTidy(h, j)
    requires forall a | a in h.approvals && a !in g.approvals :: DecisionFilled(h.approvals[a])
    ensures Tidy(h)
  {
    hide EntryTidy, CheckpointTidy, DecisionFilled, Moves;
    forall j | j in h.journal ensures EntryTidy(h, j) {
      if j in g.journal { EntryStays(g, h, o, j); }
    }
    forall k | k in h.checkpoints ensures k in h.runs && CheckpointTidy(h, k) {
      if k != o { OthersMove(g, h, o, k); }
      CheckpointStays(g, h, o, k);
    }
  }

  lemma CheckpointedTidy(g: Gate, h: Gate, k: RunKey, checkpoint: Checkpoint)
    requires Tidy(g) && Step(g, h, k) && k in g.runs && k !in g.checkpoints
    requires h == g.(checkpoints := g.checkpoints[k := checkpoint]) && !DigestTaken(g, k, checkpoint.digest)
    requires checkpoint.plan == g.runs[k].plan && Filled(g.runs[k].plan)
    requires g.runs[k].state.AwaitingApproval? && !PastSeal(checkpoint.phase)
    requires checkpoint.phase.SimulationApproved? ==>
               JournalKey(k, Simulation) in g.journal
               && g.journal[JournalKey(k, Simulation)].source == checkpoint.source
    ensures Tidy(h)
  {
    hide EntryTidy, DecisionFilled, DigestTaken;
    forall j | j in h.journal ensures EntryTidy(h, j) { EntryStays(g, h, k, j); }
    assert DigestsDistinct(h) by { DistinctWith(g, h, k); }
  }

  lemma DistinctWith(g: Gate, h: Gate, k: RunKey)
    requires DigestsDistinct(g) && k in h.checkpoints && !DigestTaken(g, k, h.checkpoints[k].digest)
    requires h.checkpoints == g.checkpoints[k := h.checkpoints[k]]
    ensures DigestsDistinct(h)
  {}

  lemma SealedTidy(g: Gate, h: Gate, k: RunKey)
    requires Tidy(g) && Step(g, h, k) && k in g.runs && k in h.runs && Filled(h.runs[k].approval)
    requires k in h.checkpoints && h.checkpoints == g.checkpoints[k := h.checkpoints[k]]
    requires !DigestTaken(g, k, h.checkpoints[k].digest) && h.approvals == g.approvals
    requires JournalKey(k, Production) in h.journal
    requires h.journal == g.journal[JournalKey(k, Production) := h.journal[JournalKey(k, Production)]]
    ensures Tidy(h)
  {
    hide DecisionFilled, DigestTaken;
    assert DigestsDistinct(h) by { DistinctWith(g, h, k); }
    forall j | j in h.journal ensures EntryTidy(h, j) {
      if j in g.journal { EntryStays(g, h, k, j); }
    }
    forall o | o in h.checkpoints ensures o in h.runs && CheckpointTidy(h, o) {
      if o != k { CheckpointStays(g, h, k, o); }
    }
  }

  lemma DecideTidy(g: Gate, k: RunKey, c: GateCommand, now: int, h: Gate, notes: seq<Note>)
    requires GateInv(g) && Tidy(g) && Decide(g, k, c, now) == Write(h, notes)
    ensures Tidy(h)
  {
    hide Tidy, GateInv, Decide, Step, EntryTidy, DecisionFilled, Moves, DigestTaken, Ready;
    DecideKeeps(g, k, c, now, h, notes);
    if c.RecordApproval? {
      DecisionRows(g, k, c, now, h, notes);
      TidyWithRows(g, h, k);
    } else if c.CreateCheckpoint? {
      CheckpointRows(g, k, c, now, h, notes);
      CheckpointedTidy(g, h, k, c.checkpoint);
    } else if c.AppendJournal? {
      JournalRows(g, k, c, now, h, notes);
      TidyWithRows(g, h, k);
    } else if c.CommitSeal? {
      SealRows(g, k, c, now, h, notes);
      SealedTidy(g, h, k);
    } else {
      PlainRows(g, k, c, now, h, notes);
      TidyWithRows(g, h, k);
    }
  }

  // ------------------------------------------- without prospect, no approval

  lemma ApprovalStands(g: Gate, h: Gate, o: RunKey, k: RunKey, id: Id, stage: Stage)
    requires Step(g, h, o) && ApprovalOf(g, k, id, stage)
    ensures ApprovalOf(h, k, id, stage) && h.approvals[TenantKey(k.tenant, id)] == g.approvals[TenantKey(k.tenant, id)]
  {}

  /** Decisions on record are never replaced, so if they agree later they agreed before. */
  lemma DecidedBefore(g: Gate, h: Gate, o: RunKey, k: RunKey, digest: Id)
    requires Step(g, h, o) && k in g.runs && RunInv(g, k) && k in h.runs && DecidedOn(h, k, digest)
    requires Filled(g.runs[k].simulation)
    ensures DecidedOn(g, k, digest)
  {
    hide Sealed, Released, Proven, SomeRejection, Linked, Frozen;
    var run := g.runs[k];
    ApprovalStands(g, h, o, k, run.simulation, Simulation);
    if Filled(run.production) { ApprovalStands(g, h, o, k, run.production, Production); }
  }

  /** A run whose stored checkpoint is not replaced was ready if it is ready now. */
  lemma ReadyBefore(g: Gate, h: Gate, o: RunKey, k: RunKey)
    requires GateInv(g) && Tidy(g) && Step(g, h, o) && Ready(h, k)
    requires k in g.checkpoints && h.checkpoints[k] == g.checkpoints[k]
    ensures Ready(g, k)
  {
    assert RunInv(g, k) && CheckpointTidy(g, k);
    hide GateInv, Tidy, DecidedOn;
    assert Filled(h.runs[k].simulation) by { DecidedHasSimulation(h, k, h.checkpoints[k].digest); }
    assert g.runs[k].state.AwaitingApproval?;
    assert Filled(g.runs[k].simulation) by { JournalledHasSimulation(g, k); }
    DecidedBefore(g, h, o, k, h.checkpoints[k].digest);
  }

  lemma DecidedHasSimulation(g: Gate, k: RunKey, digest: Id)
    requires k in g.runs && DecidedOn(g, k, digest)
    ensures Filled(g.runs[k].simulation)
  {}

  lemma JournalledHasSimulation(g: Gate, k: RunKey)
    requires Tidy(g) && k in g.checkpoints && k in g.runs && !Filled(g.runs[k].approval)
    requires g.checkpoints[k].phase.SimulationApproved?
    ensures Filled(g.runs[k].simulation) && JournalKey(k, Simulation) in g.journal
  {
    assert CheckpointTidy(g, k) && EntryTidy(g, JournalKey(k, Simulation));
  }

  /** What one command does to the checkpoints: it stores its run's first under a
      digest nobody holds, or seals a ready run, or leaves them alone. */
  predicate CheckpointsMove(g: Gate, h: Gate, o: RunKey) {
    || h.checkpoints == g.checkpoints
    || (&& o in g.runs && o !in g.checkpoints && o in h.checkpoints && h.runs == g.runs && h.approvals == g.approvals
        && h.checkpoints == g.checkpoints[o := h.checkpoints[o]] && !DigestTaken(g, o, h.checkpoints[o].digest))
    || (Ready(g, o) && o in h.checkpoints && h.checkpoints == g.checkpoints[o := h.checkpoints[o]]
        && o in h.runs && Filled(h.runs[o].approval))
  }

  lemma DecideMovesCheckpoints(g: Gate, k: RunKey, c: GateCommand, now: int, h: Gate, notes: seq<Note>)
    requires Decide(g, k, c, now) == Write(h, notes)
    ensures CheckpointsMove(g, h, k)
    ensures k in g.runs && k in h.runs && !Filled(g.runs[k].approval) && Filled(h.runs[k].approval) ==>
              Ready(g, k) && Filled(g.runs[k].production) && h.runs[k].production == g.runs[k].production
              && h.runs[k].plan == g.runs[k].plan && h.approvals == g.approvals
  {
    hide Decide, Ready, DigestTaken, DecisionFilled, EntryTidy, Moves;
    if c.RecordApproval? {
      DecisionRows(g, k, c, now, h, notes);
    } else if c.CreateCheckpoint? {
      CheckpointRows(g, k, c, now, h, notes);
    } else if c.AppendJournal? {
      JournalRows(g, k, c, now, h, notes);
    } else if c.CommitSeal? {
      SealRows(g, k, c, now, h, notes);
    } else {
      PlainRows(g, k, c, now, h, notes);
    }
  }

  /** A digest that can be obtained later could be obtained before. */
  lemma ObtainableBefore(g: Gate, h: Gate, o: RunKey, k: RunKey, digest: Id)
    requires GateInv(g) && Tidy(g) && Step(g, h, o) && CheckpointsMove(g, h, o) && Obtainable(h, k, digest)
    ensures Obtainable(g, k, digest)
  {
    hide GateInv, Tidy, Step, DigestTaken;
    forall x | x in g.checkpoints && x != k && x.tenant == k.tenant && g.checkpoints[x].digest == digest
      ensures Ready(g, x)
    {
      if h.checkpoints[x] == g.checkpoints[x] {
        hide Ready;
        assert Ready(h, x);
        ReadyBefore(g, h, o, x);
      }
    }
  }

  lemma StepOf(g: Gate, h: Gate, o: RunKey, k: RunKey)
    requires Step(g, h, o) && k in g.runs
    ensures k in h.runs && RunStep(g.runs[k], h.runs[k])
  {}

  lemma KeptUnlessApproved(g: Gate, h: Gate, o: RunKey, k: RunKey)
    requires CheckpointsMove(g, h, o) && k in g.checkpoints && k in h.runs && !Filled(h.runs[k].approval)
    ensures k in h.checkpoints && h.checkpoints[k] == g.checkpoints[k]
  {}

  lemma DigestStands(g: Gate, h: Gate, o: RunKey, k: RunKey)
    requires Step(g, h, o) && k in g.runs && RunInv(g, k) && k in h.runs && Filled(g.runs[k].simulation)
    ensures DigestOf(h, k) == DigestOf(g, k)
  {
    StepOf(g, h, o, k);
    ApprovalStands(g, h, o, k, g.runs[k].simulation, Simulation);
  }

  /** The case of a run with a decision and no checkpoint yet. */
  lemma PendingBefore(g: Gate, h: Gate, o: RunKey, k: RunKey)
    requires GateInv(g) && Tidy(g) && Step(g, h, o) && CheckpointsMove(g, h, o)
    requires k in g.runs && k in h.runs && k !in g.checkpoints && Filled(g.runs[k].simulation) && Approvable(h, k)
    ensures DecidedOn(g, k, DigestOf(g, k)) && Obtainable(g, k, DigestOf(g, k))
  {
    assert RunInv(g, k);
    DigestStands(g, h, o, k);
    StepOf(g, h, o, k);
    hide GateInv, Tidy, Step, RunInv;
    if k in h.checkpoints {
      assert h.runs == g.runs && h.approvals == g.approvals && o == k;
      assert DecidedOn(g, k, h.checkpoints[k].digest);
    } else {
      DecidedBefore(g, h, o, k, DigestOf(g, k));
      ObtainableBefore(g, h, o, k, DigestOf(g, k));
    }
  }

  /** A run that can be approved later could be approved before. */
  lemma ApprovableBefore(g: Gate, h: Gate, o: RunKey, k: RunKey)
    requires GateInv(g) && Tidy(g) && Step(g, h, o) && CheckpointsMove(g, h, o)
    requires k in g.runs && k in h.runs && !Filled(h.runs[k].approval) && Approvable(h, k)
    ensures Approvable(g, k)
  {
    StepOf(g, h, o, k);
    if k in g.checkpoints {
      KeptUnlessApproved(g, h, o, k);
      hide GateInv, Tidy, Step, DigestTaken, CheckpointsMove;
      assert Ready(h, k) by { CheckpointedIsReady(h, k); }
      ReadyBefore(g, h, o, k);
      hide Ready;
      assert Filled(g.runs[k].simulation) by { ReadyHasSimulation(g, k); }
    } else if Filled(g.runs[k].simulation) {
      PendingBefore(g, h, o, k);
      hide GateInv, Tidy, Step, CheckpointsMove, DecidedOn, Obtainable;
    }
  }

  lemma CheckpointedIsReady(g: Gate, k: RunKey)
    requires k in g.runs && Approvable(g, k) && k in g.checkpoints
    ensures Ready(g, k)
  {}

  lemma ReadyHasSimulation(g: Gate, k: RunKey)
    requires Ready(g, k)
    ensures Filled(g.runs[k].simulation) && !Terminal(g.runs[k].state)
  {}

  /** So one command never gives a run without prospect an approval or a prospect. */
  lemma UnapprovableStays(g: Gate, o: RunKey, c: GateCommand, now: int, h: Gate, notes: seq<Note>, k: RunKey)
    requires GateInv(g) && Tidy(g) && Decide(g, o, c, now) == Write(h, notes)
    requires k in g.runs && !Filled(g.runs[k].approval) && !Approvable(g, k)
    ensures k in h.runs && !Filled(h.runs[k].approval) && !Approvable(h, k)
  {
    DecideKeeps(g, o, c, now, h, notes);
    DecideMovesCheckpoints(g, o, c, now, h, notes);
    StepOf(g, h, o, k);
    hide Decide, GateInv, Tidy, CheckpointsMove, Approvable, Ready;
    if Ready(g, k) { ReadyIsApprovable(g, k); }
    if !Filled(h.runs[k].approval) && Approvable(h, k) { ApprovableBefore(g, h, o, k); }
  }

  lemma ReadyIsApprovable(g: Gate, k: RunKey)
    requires Ready(g, k)
    ensures Approvable(g, k)
  {}

  /** A decision for another subject than the plan is never made good. */
  lemma PlanOpenBefore(g: Gate, h: Gate, o: RunKey, k: RunKey)
    requires Step(g, h, o) && k in g.runs && RunInv(g, k) && k in h.runs && RunInv(h, k) && PlanOpen(h, k)
    ensures PlanOpen(g, k)
  {
    hide Sealed, Released, Proven, SomeRejection;
    var run := g.runs[k];
    if Filled(run.simulation) { ApprovalStands(g, h, o, k, run.simulation, Simulation); }
    if Filled(run.production) { ApprovalStands(g, h, o, k, run.production, Production); }
  }
}
