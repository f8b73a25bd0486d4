/** Which runs can still be approved, and which can still succeed: the exact
    conditions for every run key in every reachable database. */
module AuthorityProspects {
  import opened Common
  import opened AuthorityTables
  import opened Authority
  import opened AuthorityHistory
  import opened AuthorityPending
  import Gate = AuthorityGate
  import GateProofs = AuthorityGateProofs
  import Outlook = AuthorityOutlook

  // ------------------------------------------------------------- condition

  /** An approved run has its outlook; any other can be approved, on its plan. */
  predicate Promising(g: Gate.Gate, k: RunKey)
    requires k in g.runs
  {
    if Filled(g.runs[k].approval) then Outlook.Hopeful(g, k) else Approvable(g, k) && PlanOpen(g, k)
  }

  predicate ApprovedIn(db: Db, k: RunKey) { k in db.gate.runs && Filled(db.gate.runs[k].approval) }

  ghost predicate CanBeApproved(db: Db, k: RunKey) { exists more :: ApprovedIn(Run(db, more), k) }

  // ------------------------------------------------------ invariant of a run

  predicate Neat(db: Db) { Outlook.Orderly(db) && Tidy(db.gate) }

  lemma ApplyNeat(db: Db, c: Command, now: int)
    requires Neat(db)
    ensures Neat(Apply(db, c, now).db)
  {
    hide Apply, Gate.Decide, Outlook.OneLaunch, Outlook.LaunchesNamed, Outlook.RunsScoped, Tidy, GateProofs.GateInv;
    Outlook.ApplyOrderly(db, c, now);
    Outlook.GateAfter(db, c, now);
    var h := Apply(db, c, now).db.gate;
    if h != db.gate {
      DecideTidy(db.gate, c.run, c.gate, now, h, Gate.Decide(db.gate, c.run, c.gate, now).notes);
    }
  }

  lemma {:induction false} HistoryNeat(db: Db, history: seq<Timed>)
    requires Neat(db)
    ensures Neat(Run(db, history))
    decreases |history|
  {
    hide Apply, Neat;
    if history == [] {
    } else {
      ApplyNeat(db, history[0].command, history[0].now);
      HistoryNeat(Apply(db, history[0].command, history[0].now).db, history[1..]);
    }
  }

  lemma EmptyNeat()
    ensures Neat(EMPTY)
  {
    Outlook.EmptyOrderly();
  }

  // ------------------------------------------- without promise, no success

  /** A seal on a decision for another subject leaves a hopeless run. */
  lemma SealedOnPlan(g: Gate.Gate, o: RunKey, c: Gate.GateCommand, now: int, h: Gate.Gate, notes: seq<Note>, k: RunKey)
    requires GateProofs.GateInv(g) && GateProofs.GateInv(h) && Gate.Decide(g, o, c, now) == Gate.Write(h, notes)
    requires k in g.runs && k in h.runs && !Filled(g.runs[k].approval) && Filled(h.runs[k].approval)
    requires Outlook.Hopeful(h, k)
    ensures PlanOpen(g, k)
  {
    assert k == o && c.CommitSeal? by { NewlyApproved(g, o, c, now, h, notes, k); }
    SealRows(g, o, c, now, h, notes);
    assert GateProofs.RunInv(g, k);
    hide Gate.Decide, GateProofs.GateInv, GateProofs.Sealed, Gate.Linked, Ready;
  }

  lemma NewlyApproved(g: Gate.Gate, o: RunKey, c: Gate.GateCommand, now: int, h: Gate.Gate, notes: seq<Note>, k: RunKey)
    requires Gate.Decide(g, o, c, now) == Gate.Write(h, notes) && k in g.runs && k in h.runs
    requires !Filled(g.runs[k].approval) && Filled(h.runs[k].approval)
    ensures k == o && c.CommitSeal?
  {}

  lemma UnpromisingStays(g: Gate.Gate, o: RunKey, c: Gate.GateCommand, now: int, h: Gate.Gate, notes: seq<Note>,
      k: RunKey)
    requires GateProofs.GateInv(g) && Tidy(g) && Gate.Decide(g, o, c, now) == Gate.Write(h, notes)
    requires Outlook.OneLaunch(h) && k in g.runs && !Promising(g, k)
    ensures k in h.runs && !Promising(h, k)
  {
    hide Gate.Decide, Tidy, Approvable, PlanOpen, Outlook.Hopeful, Outlook.OneLaunch, GateProofs.RunInv,
        GateProofs.Step;
    if Filled(g.runs[k].approval) {
      Outlook.DoomStays(g, o, c, now, h, notes, k);
    } else if !Approvable(g, k) {
      UnapprovableStays(g, o, c, now, h, notes, k);
    } else {
      GateProofs.DecideKeeps(g, o, c, now, h, notes);
      StepOf(g, h, o, k);
      assert GateProofs.RunInv(g, k) && GateProofs.RunInv(h, k);
      if Filled(h.runs[k].approval) {
        if Outlook.Hopeful(h, k) { SealedOnPlan(g, o, c, now, h, notes, k); }
      } else if PlanOpen(h, k) {
        PlanOpenBefore(g, h, o, k);
      }
    }
  }

  lemma {:induction false} UnpromisingNeverSucceeds(db: Db, history: seq<Timed>, k: RunKey)
    requires Neat(db) && k in db.gate.runs && !Promising(db.gate, k)
    ensures !Outlook.SucceededIn(Run(db, history), k)
    decreases |history|
  {
    hide Apply, Promising, Gate.Decide, Tidy;
    if history == [] {
      if Outlook.SucceededIn(db, k) { SucceededIsPromising(db, k); }
    } else {
      var c, now := history[0].command, history[0].now;
      var next := Apply(db, c, now).db;
      ApplyNeat(db, c, now);
      Outlook.GateAfter(db, c, now);
      if next.gate != db.gate {
        UnpromisingStays(db.gate, c.run, c.gate, now, next.gate, Gate.Decide(db.gate, c.run, c.gate, now).notes, k);
      }
      hide Neat, Outlook.SucceededIn;
      UnpromisingNeverSucceeds(next, history[1..], k);
    }
  }

  lemma SucceededIsPromising(db: Db, k: RunKey)
    requires Neat(db) && Outlook.SucceededIn(db, k)
    ensures Promising(db.gate, k)
  {
    assert GateProofs.RunInv(db.gate, k);
  }

  lemma {:induction false} UnapprovableForever(db: Db, history: seq<Timed>, k: RunKey)
    requires Neat(db) && k in db.gate.runs && !Filled(db.gate.runs[k].approval) && !Approvable(db.gate, k)
    ensures !ApprovedIn(Run(db, history), k)
    decreases |history|
  {
    hide Apply, Approvable, Gate.Decide, Tidy;
    if history == [] {
    } else {
      var c, now := history[0].command, history[0].now;
      var next := Apply(db, c, now).db;
      ApplyNeat(db, c, now);
      Outlook.GateAfter(db, c, now);
      if next.gate != db.gate {
        UnapprovableStays(db.gate, c.run, c.gate, now, next.gate, Gate.Decide(db.gate, c.run, c.gate, now).notes, k);
      }
      hide Neat, ApprovedIn;
      UnapprovableForever(next, history[1..], k);
    }
  }

  // ---------------------------------------------- with promise, a way there

  ghost predicate Leads(start: Db, db: Db) { exists more :: Run(start, more) == db }

  lemma LeadsSelf(db: Db)
    ensures Leads(db, db)
  {
    assert Run(db, []) == db;
  }

  /** A lifecycle command the tables allow is one more step of the way. */
  lemma Onward(start: Db, db: Db, k: RunKey, c: Gate.GateCommand, h: Gate.Gate) returns (next: Db)
    requires Leads(start, db) && Neat(db) && (k in db.gate.runs || Scoped(k)) && Outlook.Allowed(db.gate, k, c, h)
    ensures Leads(start, next) && Neat(next) && next.gate == h && GateProofs.Elsewhere(db.gate, h, k)
  {
    hide Neat, Apply, Outlook.Allowed, Run, GateProofs.Elsewhere;
    var step := CarriedNeat(db, k, c, h);
    next := Apply(db, step, 0).db;
    AllowedElsewhere(db, k, c, h);
    var more :| Run(start, more) == db;
    RunExtends(start, more, Timed(step, 0));
    assert Run(start, more + [Timed(step, 0)]) == next;
  }

  lemma CarriedNeat(db: Db, k: RunKey, c: Gate.GateCommand, h: Gate.Gate) returns (step: Command)
    requires Neat(db) && (k in db.gate.runs || Scoped(k)) && Outlook.Allowed(db.gate, k, c, h)
    ensures Apply(db, step, 0).db.gate == h && Neat(Apply(db, step, 0).db)
  {
    hide Apply, Outlook.Allowed, Outlook.Orderly, Tidy;
    step := Outlook.Carried(db, k, c, h);
    ApplyNeat(db, step, 0);
  }

  lemma AllowedElsewhere(db: Db, k: RunKey, c: Gate.GateCommand, h: Gate.Gate)
    requires Neat(db) && Outlook.Allowed(db.gate, k, c, h)
    ensures GateProofs.Elsewhere(db.gate, h, k)
  {
    hide Gate.Decide, Gate.WellFormed, GateProofs.GateInv, Tidy;
    GateProofs.DecideKeeps(db.gate, k, c, 0, h, Gate.Decide(db.gate, k, c, 0).notes);
  }

  lemma ElsewhereOn(g: Gate.Gate, h: Gate.Gate, i: Gate.Gate, k: RunKey)
    requires GateProofs.Elsewhere(g, h, k) && GateProofs.Elsewhere(h, i, k)
    ensures GateProofs.Elsewhere(g, i, k)
  {}

  // ------------------------------------------------------- to the approval gate

  function Gone(g: Gate.Gate, k: RunKey, to: RunState, plan: Id): Gate.Gate
    requires k in g.runs
  {
    var run := g.runs[k];
    g.(runs := g.runs[k := run.(state := to, revision := run.revision + 1,
                                plan := if Filled(plan) then plan else run.plan)])
  }

  lemma MayGo(g: Gate.Gate, k: RunKey, to: RunState, plan: Id)
    requires k in g.runs && g.runs[k].revision >= 1 && (Filled(g.runs[k].plan) ==> plan == g.runs[k].plan)
    requires !Terminal(g.runs[k].state) && TransitionAllowed(g.runs[k].state, to) && !to.Succeeded?
    requires to.AwaitingApproval? ==>
               Filled(plan) && !Filled(g.runs[k].simulation) && !Filled(g.runs[k].production)
               && !Filled(g.runs[k].approval) && !Filled(g.runs[k].release)
    ensures Outlook.Allowed(g, k, Gate.Transition(g.runs[k].revision, to, plan, Null), Gone(g, k, to, plan))
  {}

  /** The run waits for its first decision. */
  predicate Waiting(g: Gate.Gate, k: RunKey) {
    k in g.runs && g.runs[k].state.AwaitingApproval? && !Filled(g.runs[k].simulation) && k !in g.checkpoints
  }

  /** A live run without any decision. */
  predicate Undecided(g: Gate.Gate, k: RunKey) {
    k in g.runs && !Terminal(g.runs[k].state) && !Filled(g.runs[k].simulation) && k !in g.checkpoints
  }

  lemma UndecidedFacts(db: Db, k: RunKey)
    requires Neat(db) && Undecided(db.gate, k)
    ensures db.gate.runs[k].revision >= 1 && !db.gate.runs[k].state.Approved?
    ensures !Filled(db.gate.runs[k].production) && !Filled(db.gate.runs[k].approval) && !Filled(db.gate.runs[k].release)
  {
    assert GateProofs.RunInv(db.gate, k);
  }

  /** From `running` the run may ask for approval; from the states before it may run. */
  lemma Wait(start: Db, db: Db, k: RunKey) returns (next: Db)
    requires Leads(start, db) && Neat(db) && Undecided(db.gate, k)
    ensures Leads(start, next) && Neat(next) && Waiting(next.gate, k)
    decreases if db.gate.runs[k].state.Running? then 0 else 1
  {
    hide Leads, Neat, Outlook.Allowed, GateProofs.Elsewhere;
    UndecidedFacts(db, k);
    var run := db.gate.runs[k];
    if run.state.AwaitingApproval? {
      next := db;
    } else if run.state.Running? {
      var plan := if Filled(run.plan) then run.plan else Text("");
      MayGo(db.gate, k, AwaitingApproval, plan);
      next := Onward(start, db, k, Gate.Transition(run.revision, AwaitingApproval, plan, Null),
                     Gone(db.gate, k, AwaitingApproval, plan));
    } else {
      MayGo(db.gate, k, Running, run.plan);
      var mid := Onward(start, db, k, Gate.Transition(run.revision, Running, run.plan, Null),
                        Gone(db.gate, k, Running, run.plan));
      next := Wait(start, mid, k);
    }
  }

  // ------------------------------------------------------------ a decision

  /** An identifier that no nonce, approval, checkpoint or given row carries. */
  lemma Fresh(g: Gate.Gate, others: set<Id>) returns (x: Id)
    ensures Filled(x) && x !in others
    ensures forall n | n in g.nonces :: n.id != x && g.nonces[n].request != x
    ensures forall a | a in g.approvals :: a.id != x
    ensures forall o | o in g.checkpoints :: g.checkpoints[o].digest != x
  {
    var nonces := (set n | n in g.nonces :: n.id) + (set n | n in g.nonces :: g.nonces[n].request);
    var approvals := set a | a in g.approvals :: a.id;
    var digests := set o | o in g.checkpoints :: g.checkpoints[o].digest;
    x := Outlook.Unused(others + nonces + approvals + digests);
    forall n | n in g.nonces ensures n.id != x && g.nonces[n].request != x {
      assert n.id in nonces && g.nonces[n].request in nonces;
    }
    assert forall a | a in g.approvals :: a.id in approvals;
    assert forall o | o in g.checkpoints :: g.checkpoints[o].digest in digests;
  }

  function Asked(g: Gate.Gate, k: RunKey, x: Id, b: Gate.Binding): Gate.Gate {
    g.(nonces := g.nonces[TenantKey(k.tenant, x) := Gate.Nonce(k.run, x, b, 1, Null)])
  }

  function Ruled(g: Gate.Gate, k: RunKey, x: Id, b: Gate.Binding, prior: Id): Gate.Gate
    requires k in g.runs
  {
    var run := g.runs[k];
    var staged := if b.stage.Simulation? then run.(simulation := x) else run.(production := x);
    g.(runs := g.runs[k := staged.(revision := run.revision + 1)],
       approvals := g.approvals[TenantKey(k.tenant, x) := Gate.Approval(k.run, b, x, x, prior, true, x)],
       nonces := g.nonces[TenantKey(k.tenant, x) := Gate.Nonce(k.run, x, b, 1, x)])
  }

  /** A decision of this stage may be asked for and made. */
  predicate Askable(g: Gate.Gate, k: RunKey, b: Gate.Binding, prior: Id) {
    && k in g.runs && g.runs[k].state.AwaitingApproval? && !Filled(g.runs[k].approval) && g.runs[k].revision >= 1
    && Gate.ValidBinding(b) && b.plan == g.runs[k].plan && !Filled(g.runs[k].production)
    && g.runs[k].simulation == prior && (b.stage.Production? <==> Filled(prior))
    && !Gate.StageDecided(g, k, b.stage)
    && (b.stage.Production? ==>
          && Gate.ApprovalOf(g, k, prior, Gate.Simulation)
          && var row := g.approvals[TenantKey(k.tenant, prior)];
             row.approves && row.record == b.simulationRecord && row.binding.subject != b.subject)
  }

  lemma MayAsk(g: Gate.Gate, k: RunKey, x: Id, b: Gate.Binding, prior: Id)
    requires Askable(g, k, b, prior) && Filled(x)
    requires forall n | n in g.nonces :: n.id != x && g.nonces[n].request != x
    ensures Outlook.Allowed(g, k, Gate.RegisterNonce(x, x, b, 1), Asked(g, k, x, b))
  {
    hide Gate.StageDecided;
  }

  lemma MayRule(g: Gate.Gate, k: RunKey, x: Id, b: Gate.Binding, prior: Id)
    requires Askable(g, k, b, prior) && Filled(x) && TenantKey(k.tenant, x) in g.nonces
    requires g.nonces[TenantKey(k.tenant, x)] == Gate.Nonce(k.run, x, b, 1, Null)
    requires forall a | a in g.approvals :: a.id != x
    requires Filled(prior) ==>
               TenantKey(k.tenant, prior) in g.approvals && g.approvals[TenantKey(k.tenant, prior)].record != x
    ensures Outlook.Allowed(g, k, Gate.RecordApproval(x, x, x, x, b, prior, true, x, g.runs[k].revision),
                            Ruled(g, k, x, b, prior))
  {
    hide Gate.StageDecided, Gate.TransitionTx, Gate.RegisterNonceTx, Gate.CreateCheckpointTx, Gate.AppendJournalTx,
        Gate.CommitSealTx, Gate.CreateReleaseTx, Gate.RecordLaunchTx, Gate.RecordReconciliationTx;
  }

  lemma Rule(start: Db, db: Db, k: RunKey, x: Id, b: Gate.Binding, prior: Id) returns (next: Db)
    requires Leads(start, db) && Neat(db) && Askable(db.gate, k, b, prior) && Filled(x)
    requires forall n | n in db.gate.nonces :: n.id != x && db.gate.nonces[n].request != x
    requires forall a | a in db.gate.approvals :: a.id != x
    requires Filled(prior) ==> TenantKey(k.tenant, prior) in db.gate.approvals
                               && db.gate.approvals[TenantKey(k.tenant, prior)].record != x
    ensures Leads(start, next) && Neat(next) && next.gate == Ruled(db.gate, k, x, b, prior)
    ensures GateProofs.Elsewhere(db.gate, next.gate, k)
  {
    hide Leads, Neat, Outlook.Allowed, GateProofs.Elsewhere;
    MayAsk(db.gate, k, x, b, prior);
    var mid := Onward(start, db, k, Gate.RegisterNonce(x, x, b, 1), Asked(db.gate, k, x, b));
    assert Askable(mid.gate, k, b, prior) by { AskableStill(db.gate, k, x, b, prior); }
    hide Askable;
    MayRule(mid.gate, k, x, b, prior);
    next := Onward(start, mid, k, Gate.RecordApproval(x, x, x, x, b, prior, true, x, mid.gate.runs[k].revision),
                   Ruled(mid.gate, k, x, b, prior));
    assert Ruled(mid.gate, k, x, b, prior) == Ruled(db.gate, k, x, b, prior);
    ElsewhereOn(db.gate, mid.gate, next.gate, k);
  }

  lemma AskableStill(g: Gate.Gate, k: RunKey, x: Id, b: Gate.Binding, prior: Id)
    requires Askable(g, k, b, prior)
    ensures Askable(Asked(g, k, x, b), k, b, prior)
  {}

  lemma Undecidable(db: Db, k: RunKey, stage: Gate.Stage)
    requires Neat(db) && k in db.gate.runs
    requires if stage.Simulation? then !Filled(db.gate.runs[k].simulation) else !Filled(db.gate.runs[k].production)
    ensures !Gate.StageDecided(db.gate, k, stage)
  {
    forall a | a in db.gate.approvals && a.tenant == k.tenant && db.gate.approvals[a].run == k.run
      ensures db.gate.approvals[a].binding.stage != stage
    {
      assert GateProofs.ApprovalInv(db.gate, a) && RunKey(a.tenant, db.gate.approvals[a].run) == k;
    }
  }

  /** The run is decided on a checkpoint it can still store. */
  predicate Decided(g: Gate.Gate, k: RunKey) {
    && k in g.runs && g.runs[k].state.AwaitingApproval? && k !in g.checkpoints
    && DecidedOn(g, k, DigestOf(g, k)) && Obtainable(g, k, DigestOf(g, k))
  }

  lemma Simulate(start: Db, db: Db, k: RunKey) returns (next: Db)
    requires Leads(start, db) && Neat(db) && Waiting(db.gate, k)
    ensures Leads(start, next) && Neat(next) && Decided(next.gate, k) && PlanOpen(next.gate, k)
  {
    hide Leads, GateProofs.Elsewhere;
    var g, plan := db.gate, db.gate.runs[k].plan;
    var x := Fresh(g, {plan});
    var b := Gate.Binding(Gate.Simulation, x, plan, x, x, x, x, Null);
    assert Askable(g, k, b, Null) by {
      Undecidable(db, k, Gate.Simulation);
      assert GateProofs.RunInv(g, k);
    }
    hide Neat, Askable;
    next := Rule(start, db, k, x, b, Null);
    SimulatedIsDecided(g, k, x, b);
  }

  lemma SimulatedIsDecided(g: Gate.Gate, k: RunKey, x: Id, b: Gate.Binding)
    requires Waiting(g, k) && Filled(x) && b.stage.Simulation? && b.checkpoint == b.subject == x != g.runs[k].plan
    requires !Filled(g.runs[k].production) && forall o | o in g.checkpoints :: g.checkpoints[o].digest != x
    ensures var h := Ruled(g, k, x, b, Null); Decided(h, k) && PlanOpen(h, k)
  {}

  // ------------------------------------------------------- the checkpoint

  lemma DecidedFacts(db: Db, k: RunKey)
    requires Neat(db) && k in db.gate.runs && db.gate.runs[k].state.AwaitingApproval?
    requires Filled(db.gate.runs[k].simulation)
    ensures var run, row := db.gate.runs[k], TenantKey(k.tenant, db.gate.runs[k].simulation);
            && run.revision >= 1 && Filled(run.plan) && !Filled(run.approval) && !Filled(run.release)
            && Gate.ApprovalOf(db.gate, k, run.simulation, Gate.Simulation)
            && db.gate.approvals[row].approves && DecisionFilled(db.gate.approvals[row])
            && Gate.JournalKey(k, Gate.Production) !in db.gate.journal
  {
    assert GateProofs.RunInv(db.gate, k);
    assert Gate.JournalKey(k, Gate.Production) in db.gate.journal ==>
             EntryTidy(db.gate, Gate.JournalKey(k, Gate.Production));
  }

  function Entered(g: Gate.Gate, k: RunKey, row: Gate.Approval, x: Id): Gate.Gate
    requires k in g.runs
  {
    g.(journal := g.journal[Gate.JournalKey(k, Gate.Simulation) := SimulationEntry(g.runs[k].simulation, row, x)])
  }

  function SimulationEntry(id: Id, row: Gate.Approval, x: Id): Gate.Entry {
    Gate.Entry(Gate.Simulation, id, x, row.record, x, row.binding.subject, x, x, x, row.actor)
  }

  lemma MayEnter(g: Gate.Gate, k: RunKey, row: Gate.Approval, x: Id)
    requires k in g.runs && g.runs[k].state.AwaitingApproval? && Filled(g.runs[k].simulation) && Filled(x)
    requires Gate.ApprovalOf(g, k, g.runs[k].simulation, Gate.Simulation)
    requires row == g.approvals[TenantKey(k.tenant, g.runs[k].simulation)] && row.approves && DecisionFilled(row)
    requires Gate.JournalKey(k, Gate.Production) !in g.journal && Gate.JournalKey(k, Gate.Simulation) !in g.journal
    ensures Outlook.Allowed(g, k, Gate.AppendJournal(SimulationEntry(g.runs[k].simulation, row, x)),
                            Entered(g, k, row, x))
  {
    forall stage ensures Gate.JournalKey(k, stage) !in g.journal {
      match stage case Simulation => case Production =>
    }
  }

  /** The simulation decision is journalled, by now or by one command. */
  lemma Enter(start: Db, db: Db, k: RunKey) returns (next: Db)
    requires Leads(start, db) && Neat(db) && Decided(db.gate, k)
    ensures Leads(start, next) && Neat(next) && Gate.JournalKey(k, Gate.Simulation) in next.gate.journal
    ensures next.gate == db.gate.(journal := next.gate.journal)
  {
    hide Leads, Neat, Outlook.Allowed, GateProofs.Elsewhere, Obtainable;
    var g := db.gate;
    if Gate.JournalKey(k, Gate.Simulation) in g.journal {
      next := db;
    } else {
      DecidedFacts(db, k);
      var row := g.approvals[TenantKey(k.tenant, g.runs[k].simulation)];
      var x := Outlook.Unused({});
      MayEnter(g, k, row, x);
      next := Onward(start, db, k, Gate.AppendJournal(SimulationEntry(g.runs[k].simulation, row, x)),
                     Entered(g, k, row, x));
    }
  }

  function FirstCheckpoint(digest: Id, source: Id, plan: Id): Gate.Checkpoint {
    Gate.Checkpoint(1, digest, source, plan, plan, Gate.SimulationApproved, 0, plan, 0, None, 0, Null, Null)
  }

  lemma MayStore(g: Gate.Gate, k: RunKey, digest: Id, source: Id)
    requires k in g.runs && g.runs[k].state.AwaitingApproval? && Filled(g.runs[k].plan) && k !in g.checkpoints
    requires Filled(digest) && Filled(source) && !Gate.DigestTaken(g, k, digest)
    requires Gate.JournalKey(k, Gate.Simulation) in g.journal
    requires g.journal[Gate.JournalKey(k, Gate.Simulation)].source == source
    ensures var checkpoint := FirstCheckpoint(digest, source, g.runs[k].plan);
            Outlook.Allowed(g, k, Gate.CreateCheckpoint(checkpoint), g.(checkpoints := g.checkpoints[k := checkpoint]))
  {
    hide Gate.DigestTaken;
  }

  lemma Store(start: Db, db: Db, k: RunKey) returns (next: Db)
    requires Leads(start, db) && Neat(db) && Decided(db.gate, k) && !Gate.DigestTaken(db.gate, k, DigestOf(db.gate, k))
    ensures Leads(start, next) && Neat(next) && Ready(next.gate, k)
    ensures PlanOpen(db.gate, k) ==> PlanOpen(next.gate, k)
  {
    hide Leads, Neat, Outlook.Allowed, GateProofs.Elsewhere, Obtainable, Gate.DigestTaken;
    var mid := Enter(start, db, k);
    var g, digest := mid.gate, DigestOf(db.gate, k);
    assert !Gate.DigestTaken(g, k, digest) by { SameDigests(db.gate, g, k, digest); }
    DecidedFacts(mid, k);
    var source := g.journal[Gate.JournalKey(k, Gate.Simulation)].source;
    assert Filled(source) by { EntryHasSource(mid, k); }
    MayStore(g, k, digest, source);
    var checkpoint := FirstCheckpoint(digest, source, g.runs[k].plan);
    next := Onward(start, mid, k, Gate.CreateCheckpoint(checkpoint), g.(checkpoints := g.checkpoints[k := checkpoint]));
  }

  lemma SameDigests(g: Gate.Gate, h: Gate.Gate, k: RunKey, digest: Id)
    requires h.checkpoints == g.checkpoints && !Gate.DigestTaken(g, k, digest)
    ensures !Gate.DigestTaken(h, k, digest)
  {}

  lemma EntryHasSource(db: Db, k: RunKey)
    requires Neat(db) && Gate.JournalKey(k, Gate.Simulation) in db.gate.journal
    ensures Filled(db.gate.journal[Gate.JournalKey(k, Gate.Simulation)].source)
  {
    assert EntryTidy(db.gate, Gate.JournalKey(k, Gate.Simulation));
  }

  // -------------------------------------------------------------- the seal

  /** Everything the seal checks, with both decisions made. */
  predicate Sealable(g: Gate.Gate, k: RunKey) {
    && Ready(g, k) && Filled(g.runs[k].production) && Gate.JournalKey(k, Gate.Simulation) in g.journal
    && var run, checkpoint, entry := g.runs[k], g.checkpoints[k], g.journal[Gate.JournalKey(k, Gate.Simulation)];
       var first := g.approvals[TenantKey(k.tenant, run.simulation)];
       var second := g.approvals[TenantKey(k.tenant, run.production)];
       && run.revision >= 1 && !Filled(run.approval) && !Filled(run.release) && run.simulation != run.production
       && Gate.ValidCheckpoint(checkpoint) && checkpoint.plan == run.plan
       && Gate.Linked(first, second, run.simulation) && second.approves
       && DecisionFilled(first) && DecisionFilled(second)
       && first.binding.plan == run.plan && second.binding.plan == run.plan
       && entry.approval == run.simulation && Gate.EntryMatches(entry, first) && entry.source == checkpoint.source
       && Gate.JournalKey(k, Gate.Production) !in g.journal
  }

  lemma ReadyIsSealable(db: Db, k: RunKey)
    requires Neat(db) && Ready(db.gate, k) && Filled(db.gate.runs[k].production)
    ensures Sealable(db.gate, k)
  {
    var g, run := db.gate, db.gate.runs[k];
    DecidedFacts(db, k);
    JournalledHasSimulation(g, k);
    assert GateProofs.RunInv(g, k) && CheckpointTidy(g, k) && EntryTidy(g, Gate.JournalKey(k, Gate.Simulation));
    assert GateProofs.ApprovalInv(g, TenantKey(k.tenant, run.simulation));
    assert GateProofs.ApprovalInv(g, TenantKey(k.tenant, run.production));
  }

  function SealEntry(run: Gate.Run, checkpoint: Gate.Checkpoint, row: Gate.Approval, x: Id): Gate.Entry {
    Gate.Entry(Gate.Production, run.production, x, row.record, checkpoint.source, row.binding.subject, checkpoint.chain,
               x, x, row.actor)
  }

  function SealOf(run: Gate.Run, c: Gate.Checkpoint, x: Id): Gate.Checkpoint {
    c.(revision := c.revision + 1, digest := x, phase := Gate.ApprovedForExecution, chain := x,
       modelCallsAtSeal := Some(c.modelCalls), seal := x, production := run.production)
  }

  function SealedBy(g: Gate.Gate, k: RunKey, x: Id): Gate.Gate
    requires Sealable(g, k)
  {
    var run, checkpoint := g.runs[k], g.checkpoints[k];
    var row := g.approvals[TenantKey(k.tenant, run.production)];
    g.(runs := g.runs[k := run.(state := Approved, approval := run.production, revision := run.revision + 1)],
       checkpoints := g.checkpoints[k := SealOf(run, checkpoint, x)],
       journal := g.journal[Gate.JournalKey(k, Gate.Production) := SealEntry(run, checkpoint, row, x)])
  }

  lemma MaySeal(g: Gate.Gate, k: RunKey, x: Id)
    requires Sealable(g, k) && Filled(x) && x != g.checkpoints[k].chain
    requires x != g.journal[Gate.JournalKey(k, Gate.Simulation)].record
    requires x != g.journal[Gate.JournalKey(k, Gate.Simulation)].key
    requires forall o | o in g.checkpoints :: g.checkpoints[o].digest != x
    ensures var run, c := g.runs[k], g.checkpoints[k];
            var entry := SealEntry(run, c, g.approvals[TenantKey(k.tenant, run.production)], x);
            Outlook.Allowed(g, k, Gate.CommitSeal(run.revision, c.revision, c.digest, run.simulation, run.production,
                                                  entry, SealOf(run, c, x)), SealedBy(g, k, x))
  {
    var run, c := g.runs[k], g.checkpoints[k];
    var entry := SealEntry(run, c, g.approvals[TenantKey(k.tenant, run.production)], x);
    assert Gate.JournalInsertable(g.journal, k, entry) by { SealInsertable(g, k, entry); }
    assert !Gate.DigestTaken(g, k, x);
    hide Gate.TransitionTx, Gate.RegisterNonceTx, Gate.RecordApprovalTx, Gate.CreateCheckpointTx, Gate.AppendJournalTx,
        Gate.CreateReleaseTx, Gate.RecordLaunchTx, Gate.RecordReconciliationTx, Gate.JournalInsertable,
        Gate.DigestTaken;
  }

  lemma SealInsertable(g: Gate.Gate, k: RunKey, entry: Gate.Entry)
    requires entry.stage.Production? && Gate.JournalKey(k, Gate.Production) !in g.journal
    requires Gate.JournalKey(k, Gate.Simulation) in g.journal
    requires entry.record != g.journal[Gate.JournalKey(k, Gate.Simulation)].record
    requires entry.key != g.journal[Gate.JournalKey(k, Gate.Simulation)].key
    ensures Gate.JournalInsertable(g.journal, k, entry)
  {
    forall stage | Gate.JournalKey(k, stage) in g.journal
      ensures g.journal[Gate.JournalKey(k, stage)].record != entry.record
      ensures g.journal[Gate.JournalKey(k, stage)].key != entry.key
    {
      assert stage.Simulation?;
    }
  }

  /** An approved run without a release, sealed under a digest new to the tables. */
  predicate FreshlySealed(g: Gate.Gate, h: Gate.Gate, k: RunKey) {
    && k in h.runs && h.runs[k].state.Approved? && Filled(h.runs[k].approval) && !Filled(h.runs[k].release)
    && k in h.checkpoints && forall o | o in g.checkpoints :: g.checkpoints[o].digest != h.checkpoints[k].digest
  }

  lemma SealIt(start: Db, db: Db, k: RunKey) returns (next: Db)
    requires Leads(start, db) && Neat(db) && Ready(db.gate, k) && Filled(db.gate.runs[k].production)
    ensures Leads(start, next) && Neat(next) && GateProofs.Elsewhere(db.gate, next.gate, k)
    ensures FreshlySealed(db.gate, next.gate, k)
    ensures PlanOpen(db.gate, k) ==> Outlook.PlanDecided(next.gate, k)
  {
    hide Leads, Neat, Outlook.Allowed, GateProofs.Elsewhere;
    ReadyIsSealable(db, k);
    var g, run, c := db.gate, db.gate.runs[k], db.gate.checkpoints[k];
    var entry := g.journal[Gate.JournalKey(k, Gate.Simulation)];
    var x := Fresh(g, {c.chain, entry.record, entry.key});
    MaySeal(g, k, x);
    next := Onward(start, db, k,
                   Gate.CommitSeal(run.revision, c.revision, c.digest, run.simulation, run.production,
                                   SealEntry(run, c, g.approvals[TenantKey(k.tenant, run.production)], x),
                                   SealOf(run, c, x)), SealedBy(g, k, x));
  }

  /** The production decision is made on the plan where the simulation left it open. */
  lemma Produce(start: Db, db: Db, k: RunKey) returns (next: Db)
    requires Leads(start, db) && Neat(db) && Ready(db.gate, k) && !Filled(db.gate.runs[k].production)
    ensures Leads(start, next) && Neat(next) && GateProofs.Elsewhere(db.gate, next.gate, k)
    ensures Ready(next.gate, k) && Filled(next.gate.runs[k].production) && next.gate.checkpoints == db.gate.checkpoints
    ensures PlanOpen(db.gate, k) ==> PlanOpen(next.gate, k)
  {
    hide Leads, GateProofs.Elsewhere, Neat, Askable, Ready, PlanOpen;
    var row := DecisionOf(db, k);
    var g, run := db.gate, db.gate.runs[k];
    var x := Fresh(g, {row.binding.subject, row.record});
    var b := ProductionOf(run, row, g.checkpoints[k].digest, x);
    ProductionAskable(db, k, x);
    next := Rule(start, db, k, x, b, run.simulation);
    ProducedIsReady(g, k, x, b);
  }

  lemma DecisionOf(db: Db, k: RunKey) returns (row: Gate.Approval)
    requires Neat(db) && Ready(db.gate, k)
    ensures k in db.gate.runs && k in db.gate.checkpoints && Filled(db.gate.runs[k].simulation)
    ensures TenantKey(k.tenant, db.gate.runs[k].simulation) in db.gate.approvals
    ensures row == db.gate.approvals[TenantKey(k.tenant, db.gate.runs[k].simulation)]
  {
    row := db.gate.approvals[TenantKey(k.tenant, db.gate.runs[k].simulation)];
  }

  lemma ProductionAskable(db: Db, k: RunKey, x: Id)
    requires Neat(db) && Ready(db.gate, k) && !Filled(db.gate.runs[k].production) && Filled(x)
    requires x != db.gate.approvals[TenantKey(k.tenant, db.gate.runs[k].simulation)].binding.subject
    ensures var run := db.gate.runs[k];
            var row := db.gate.approvals[TenantKey(k.tenant, run.simulation)];
            Askable(db.gate, k, ProductionOf(run, row, db.gate.checkpoints[k].digest, x), run.simulation)
  {
    DecidedFacts(db, k);
    Undecidable(db, k, Gate.Production);
    assert Filled(db.gate.checkpoints[k].digest);
    hide Outlook.Orderly, Tidy, Neat;
  }

  function ProductionOf(run: Gate.Run, row: Gate.Approval, digest: Id, x: Id): Gate.Binding {
    var subject := if row.binding.subject != run.plan then run.plan else x;
    Gate.Binding(Gate.Production, x, run.plan, x, x, subject, digest, row.record)
  }

  lemma ProducedIsReady(g: Gate.Gate, k: RunKey, x: Id, b: Gate.Binding)
    requires Ready(g, k) && Filled(x) && forall a | a in g.approvals :: a.id != x
    requires b == ProductionOf(g.runs[k], g.approvals[TenantKey(k.tenant, g.runs[k].simulation)],
                               g.checkpoints[k].digest, x)
    requires !Filled(g.runs[k].production)
    ensures var h := Ruled(g, k, x, b, g.runs[k].simulation);
            Ready(h, k) && Filled(h.runs[k].production) && (PlanOpen(g, k) ==> PlanOpen(h, k))
  {}

  lemma SealReady(start: Db, db: Db, k: RunKey) returns (next: Db)
    requires Leads(start, db) && Neat(db) && Ready(db.gate, k)
    ensures Leads(start, next) && Neat(next) && GateProofs.Elsewhere(db.gate, next.gate, k)
    ensures FreshlySealed(db.gate, next.gate, k)
    ensures PlanOpen(db.gate, k) ==> Outlook.PlanDecided(next.gate, k)
  {
    hide Leads, Neat, GateProofs.Elsewhere, PlanOpen, Outlook.PlanDecided, DecidedOn;
    if Filled(db.gate.runs[k].production) {
      next := SealIt(start, db, k);
    } else {
      var mid := Produce(start, db, k);
      next := SealIt(start, mid, k);
      ElsewhereOn(db.gate, mid.gate, next.gate, k);
    }
  }

  // --------------------------------------------------------- the whole way

  /** If another run holds the digest, that run is sealed first. */
  lemma Obtain(start: Db, db: Db, k: RunKey) returns (next: Db)
    requires Leads(start, db) && Neat(db) && Decided(db.gate, k)
    ensures Leads(start, next) && Neat(next) && Decided(next.gate, k)
    ensures !Gate.DigestTaken(next.gate, k, DigestOf(next.gate, k))
    ensures PlanOpen(db.gate, k) ==> PlanOpen(next.gate, k)
  {
    hide Leads, Neat, GateProofs.Elsewhere, PlanOpen, DecidedOn, Ready;
    var g, digest := db.gate, DigestOf(db.gate, k);
    if Gate.DigestTaken(g, k, digest) {
      var o :| o in g.checkpoints && o != k && o.tenant == k.tenant && g.checkpoints[o].digest == digest;
      next := SealReady(start, db, o);
      assert DigestsDistinct(g) by { NeatDistinct(db); }
      HolderSealed(g, next.gate, o, k, digest);
    } else {
      next := db;
    }
  }

  lemma NeatDistinct(db: Db)
    requires Neat(db)
    ensures DigestsDistinct(db.gate)
  {}

  lemma HolderSealed(g: Gate.Gate, h: Gate.Gate, o: RunKey, k: RunKey, digest: Id)
    requires GateProofs.Elsewhere(g, h, o) && FreshlySealed(g, h, o) && DigestsDistinct(g) && Decided(g, k)
    requires o in g.checkpoints && o != k && o.tenant == k.tenant && g.checkpoints[o].digest == digest == DigestOf(g, k)
    ensures Decided(h, k) && DigestOf(h, k) == digest && !Gate.DigestTaken(h, k, digest)
    ensures PlanOpen(g, k) ==> PlanOpen(h, k)
  {
    hide Ready;
  }

  /** A run that can be approved is, on its plan if that is open. */
  lemma Approve(start: Db, db: Db, k: RunKey) returns (next: Db)
    requires Leads(start, db) && Neat(db) && k in db.gate.runs && !Filled(db.gate.runs[k].approval)
    requires Approvable(db.gate, k)
    ensures Leads(start, next) && Neat(next) && k in next.gate.runs && next.gate.runs[k].state.Approved?
    ensures Filled(next.gate.runs[k].approval) && !Filled(next.gate.runs[k].release)
    ensures PlanOpen(db.gate, k) ==> Outlook.PlanDecided(next.gate, k)
  {
    hide Leads, Neat, GateProofs.Elsewhere, PlanOpen, Outlook.PlanDecided, DecidedOn, Obtainable, Gate.DigestTaken;
    if !Filled(db.gate.runs[k].simulation) {
      var waiting := Wait(start, db, k);
      var decided := Simulate(start, waiting, k);
      next := ApproveDecided(start, decided, k);
    } else if k in db.gate.checkpoints {
      next := SealReady(start, db, k);
    } else {
      AwaitsIfDecided(db, k);
      next := ApproveDecided(start, db, k);
    }
  }

  lemma AwaitsIfDecided(db: Db, k: RunKey)
    requires Neat(db) && k in db.gate.runs && !Filled(db.gate.runs[k].approval)
    requires Filled(db.gate.runs[k].simulation) && !Terminal(db.gate.runs[k].state)
    ensures db.gate.runs[k].state.AwaitingApproval?
  {
    assert GateProofs.RunInv(db.gate, k);
  }

  lemma ApproveDecided(start: Db, db: Db, k: RunKey) returns (next: Db)
    requires Leads(start, db) && Neat(db) && Decided(db.gate, k)
    ensures Leads(start, next) && Neat(next) && k in next.gate.runs && next.gate.runs[k].state.Approved?
    ensures Filled(next.gate.runs[k].approval) && !Filled(next.gate.runs[k].release)
    ensures PlanOpen(db.gate, k) ==> Outlook.PlanDecided(next.gate, k)
  {
    hide Leads, Neat, GateProofs.Elsewhere, PlanOpen, Outlook.PlanDecided, Decided, Ready, Gate.DigestTaken;
    var free := Obtain(start, db, k);
    var ready := Store(start, free, k);
    next := SealReady(start, ready, k);
  }

  // --------------------------------------------------------------- theorems

  lemma ReachedNeat(history: seq<Timed>)
    ensures Neat(Run(EMPTY, history))
  {
    hide Neat, Run;
    EmptyNeat();
    HistoryNeat(EMPTY, history);
  }

  /** From any reachable database, a run without approval has a continuation that
      approves it if and only if it is approvable. */
  lemma ApprovalPossibleIff(history: seq<Timed>, k: RunKey)
    requires k in Run(EMPTY, history).gate.runs && !Filled(Run(EMPTY, history).gate.runs[k].approval)
    ensures CanBeApproved(Run(EMPTY, history), k) <==> Approvable(Run(EMPTY, history).gate, k)
  {
    hide Run, Neat, Approvable, PlanOpen, Outlook.PlanDecided;
    ReachedNeat(history);
    var db := Run(EMPTY, history);
    if Approvable(db.gate, k) {
      LeadsSelf(db);
      var next := Approve(db, db, k);
      var more :| Run(db, more) == next;
      assert ApprovedIn(Run(db, more), k);
    } else {
      forall more ensures !ApprovedIn(Run(db, more), k) { UnapprovableForever(db, more, k); }
    }
  }

  lemma CanSucceedAfter(start: Db, db: Db, k: RunKey)
    requires Leads(start, db) && Outlook.CanSucceed(db, k)
    ensures Outlook.CanSucceed(start, k)
  {
    hide Run, Outlook.SucceededIn;
    var first :| Run(start, first) == db;
    var second :| Outlook.SucceededIn(Run(db, second), k);
    RunJoins(start, first, second);
    assert Outlook.SucceededIn(Run(start, first + second), k);
  }

  lemma PromisingCanSucceed(start: Db, db: Db, k: RunKey)
    requires Leads(start, db) && Neat(db) && k in db.gate.runs && Promising(db.gate, k)
    ensures Outlook.CanSucceed(start, k)
  {
    hide Leads, Outlook.Orderly, Tidy, Approvable, PlanOpen, Outlook.Hopeful, Outlook.CanSucceed, Outlook.PlanDecided;
    if Filled(db.gate.runs[k].approval) {
      Outlook.HopefulCanSucceed(db, k);
      CanSucceedAfter(start, db, k);
    } else {
      var next := Approve(start, db, k);
      Outlook.UnreleasedCanSucceed(next, k);
      CanSucceedAfter(start, next, k);
    }
  }

  lemma CreatedIsPromising(db: Db, k: RunKey)
    requires Neat(db) && k !in db.gate.runs
    ensures var h := db.gate.(runs := db.gate.runs[k := Gate.Run(Created, 1, Null, Null, Null, Null, Null)]);
            Outlook.Allowed(db.gate, k, Gate.CreateRun, h) && Promising(h, k)
  {
    assert k !in db.gate.checkpoints;
  }

  lemma NeverUnscoped(db: Db, history: seq<Timed>, k: RunKey)
    requires Neat(db) && !Scoped(k)
    ensures !Outlook.SucceededIn(Run(db, history), k)
  {
    HistoryNeat(db, history);
    hide Run, Tidy, Outlook.OneLaunch, Outlook.LaunchesNamed, DbInv;
  }

  /** From any reachable database, a run key has a continuation to success if and
      only if it is well formed and its run, if there is one already, is promising. */
  lemma AnySuccessIff(history: seq<Timed>, k: RunKey)
    ensures var db := Run(EMPTY, history);
            Outlook.CanSucceed(db, k) <==> Scoped(k) && (k in db.gate.runs ==> Promising(db.gate, k))
  {
    hide Run, Neat, Promising, Outlook.SucceededIn;
    ReachedNeat(history);
    var db := Run(EMPTY, history);
    LeadsSelf(db);
    if !Scoped(k) {
      forall more ensures !Outlook.SucceededIn(Run(db, more), k) { NeverUnscoped(db, more, k); }
    } else if k !in db.gate.runs {
      CreatedIsPromising(db, k);
      var h := db.gate.(runs := db.gate.runs[k := Gate.Run(Created, 1, Null, Null, Null, Null, Null)]);
      var next := Onward(db, db, k, Gate.CreateRun, h);
      PromisingCanSucceed(db, next, k);
    } else if Promising(db.gate, k) {
      PromisingCanSucceed(db, db, k);
    } else {
      forall more ensures !Outlook.SucceededIn(Run(db, more), k) { UnpromisingNeverSucceeds(db, more, k); }
    }
  }
}
