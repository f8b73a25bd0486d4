/** A complete run: the chain of conditions that a success requires can be met.
    Turned aside at one of four commands, the same run can no longer succeed. */
module AuthorityExample {
  import opened Common
  import opened AuthorityTables
  import opened Authority
  import AuthorityHistory
  import AuthorityTheorems
  import Gate = AuthorityGate
  import Log = AuthorityLog
  import Outlook = AuthorityOutlook
  import Pending = AuthorityPending
  import Prospects = AuthorityProspects

  const A := Text("a")
  const B := Text("b")
  const C := Text("c")
  const KEY := RunKey(A, A)

  /** Some history leads to these lifecycle tables with these idempotency keys used. */
  ghost predicate Reachable(g: Gate.Gate, used: set<IdempotencyKey>) {
    exists history :: Leads(history, g, used)
  }

  predicate Leads(history: seq<Timed>, g: Gate.Gate, used: set<IdempotencyKey>) {
    Run(EMPTY, history).gate == g && Run(EMPTY, history).stored.Keys <= used
  }

  predicate Allowed(g: Gate.Gate, c: Gate.GateCommand, h: Gate.Gate) {
    && Gate.WellFormed(c) && Gate.Decide(g, KEY, c, 0).Write? && Gate.Decide(g, KEY, c, 0).gate == h && KEY in h.runs
    && (c.RecordApproval? ==> Filled(c.binding.request))
  }

  lemma Applied(db: Db, c: Gate.GateCommand, key: Id, h: Gate.Gate)
    requires Allowed(db.gate, c, h)
    requires OperationOf(c).Some? ==> IdempotencyKey(KEY, OperationOf(c).value, key) !in db.stored && Filled(key)
    ensures var next := Apply(db, Lifecycle(KEY, c, key, A), 0).db;
            next.gate == h && (OperationOf(c).None? ==> next.stored == db.stored)
            && (OperationOf(c).Some? ==>
                next.stored.Keys == db.stored.Keys + {IdempotencyKey(KEY, OperationOf(c).value, key)})
  {
    hide Gate.Decide, Gate.WellFormed, Log.AppendAll;
  }

  lemma Bound(g: Gate.Gate, used: set<IdempotencyKey>, c: Gate.GateCommand, key: Id, h: Gate.Gate)
    requires Reachable(g, used) && Allowed(g, c, h) && OperationOf(c).Some? && Filled(key)
    requires IdempotencyKey(KEY, OperationOf(c).value, key) !in used
    ensures Reachable(h, used + {IdempotencyKey(KEY, OperationOf(c).value, key)})
  {
    hide Allowed, Apply, Run;
    var history :| Leads(history, g, used);
    var next := Timed(Lifecycle(KEY, c, key, A), 0);
    Applied(Run(EMPTY, history), c, key, h);
    AuthorityHistory.RunExtends(EMPTY, history, next);
    assert Leads(history + [next], h, used + {IdempotencyKey(KEY, OperationOf(c).value, key)});
  }

  lemma Unbound(g: Gate.Gate, used: set<IdempotencyKey>, c: Gate.GateCommand, h: Gate.Gate)
    requires Reachable(g, used) && Allowed(g, c, h) && OperationOf(c).None?
    ensures Reachable(h, used)
  {
    hide Allowed, Apply, Run;
    var history :| Leads(history, g, used);
    var next := Timed(Lifecycle(KEY, c, A, A), 0);
    Applied(Run(EMPTY, history), c, A, h);
    AuthorityHistory.RunExtends(EMPTY, history, next);
    assert Leads(history + [next], h, used);
  }

  // ------------------------------------------------------------- the run's way

  /** The simulation subject differs from the production subject, which is the plan
      in a run that succeeds. */
  const SIMULATED := Gate.Binding(Gate.Simulation, A, B, A, A, A, A, Null)
  const FIRST := Gate.Approval(A, SIMULATED, A, A, Null, true, A)
  const FIRST_ENTRY := Gate.Entry(Gate.Simulation, A, A, A, A, A, A, A, A, A)
  const BEFORE_SEAL := Gate.Checkpoint(1, A, A, A, B, Gate.SimulationApproved, 0, A, 3, None, 0, Null, Null)
  const AFTER_SEAL := Gate.Checkpoint(2, B, A, A, B, Gate.ApprovedForExecution, 0, B, 3, Some(3), 0, A, B)

  function Row(id: Id): TenantKey { TenantKey(A, id) }

  function Produced(subject: Id): Gate.Binding { Gate.Binding(Gate.Production, B, B, A, A, subject, A, A) }

  function Second(subject: Id): Gate.Approval { Gate.Approval(A, Produced(subject), B, B, A, true, A) }

  function SecondEntry(subject: Id): Gate.Entry { Gate.Entry(Gate.Production, B, B, B, A, subject, A, B, A, A) }

  function FirstNonce(consumer: Id): Gate.Nonce { Gate.Nonce(A, A, SIMULATED, 1, consumer) }

  function SecondNonce(subject: Id, consumer: Id): Gate.Nonce { Gate.Nonce(A, B, Produced(subject), 1, consumer) }

  function Approvals(subject: Id): map<TenantKey, Gate.Approval> { map[Row(A) := FIRST, Row(B) := Second(subject)] }

  function Nonces(subject: Id): map<TenantKey, Gate.Nonce> {
    map[Row(A) := FirstNonce(A), Row(B) := SecondNonce(subject, B)]
  }

  const JOURNAL := map[Gate.JournalKey(KEY, Gate.Simulation) := FIRST_ENTRY]

  function BothEntries(subject: Id): map<Gate.JournalKey, Gate.Entry> {
    map[Gate.JournalKey(KEY, Gate.Simulation) := FIRST_ENTRY,
        Gate.JournalKey(KEY, Gate.Production) := SecondEntry(subject)]
  }

  const RELEASES := map[Row(A) := Gate.Release(A, B, B, A, A, A, A)]

  function Launches(launched: bool): map<Gate.LaunchKey, Gate.Launch> {
    map[Gate.LaunchKey(KEY, A) := Gate.Launch(A, A, launched, A, A)]
  }

  function Reconciliations(verified: bool): map<Gate.ReleaseKey, Gate.Reconciliation> {
    map[Gate.ReleaseKey(KEY, A) := Gate.Reconciliation(A, A, verified, A, A)]
  }

  const CREATED := Gate.EMPTY_GATE.(runs := map[KEY := Gate.Run(Created, 1, Null, Null, Null, Null, Null)])
  const STARTED := Gate.EMPTY_GATE.(runs := map[KEY := Gate.Run(Running, 2, Null, Null, Null, Null, Null)])
  const WAIT := map[KEY := Gate.Run(AwaitingApproval, 3, B, Null, Null, Null, Null)]
  const WAITING := Gate.EMPTY_GATE.(runs := WAIT)
  const ASKED := Gate.EMPTY_GATE.(runs := WAIT, nonces := map[Row(A) := FirstNonce(Null)])

  const HALF := map[KEY := Gate.Run(AwaitingApproval, 4, B, A, Null, Null, Null)]
  const SIMULATION_APPROVED :=
    Gate.Gate(HALF, map[Row(A) := FIRST], map[Row(A) := FirstNonce(A)], map[], map[], map[], map[], map[])
  const JOURNALLED :=
    Gate.Gate(HALF, map[Row(A) := FIRST], map[Row(A) := FirstNonce(A)], map[], JOURNAL, map[], map[], map[])
  const CHECKPOINTED :=
    Gate.Gate(HALF, map[Row(A) := FIRST], map[Row(A) := FirstNonce(A)], map[KEY := BEFORE_SEAL], JOURNAL, map[], map[],
              map[])

  function AskedAgain(subject: Id): Gate.Gate {
    Gate.Gate(HALF, map[Row(A) := FIRST], map[Row(A) := FirstNonce(A), Row(B) := SecondNonce(subject, Null)],
              map[KEY := BEFORE_SEAL], JOURNAL, map[], map[], map[])
  }

  function BothApproved(subject: Id): Gate.Gate {
    Gate.Gate(map[KEY := Gate.Run(AwaitingApproval, 5, B, A, B, Null, Null)],
              Approvals(subject), Nonces(subject), map[KEY := BEFORE_SEAL], JOURNAL, map[], map[], map[])
  }

  /** The tables once sealed, with this run row. */
  function Sealed(subject: Id, run: Gate.Run): Gate.Gate {
    Gate.Gate(map[KEY := run], Approvals(subject), Nonces(subject), map[KEY := AFTER_SEAL], BothEntries(subject),
              map[], map[], map[])
  }

  const SEALED_RUN := Gate.Run(Approved, 6, B, A, B, B, Null)
  const STRANDED_RUN := Gate.Run(Running, 7, B, A, B, B, Null)
  const RELEASED_RUN := Gate.Run(Approved, 7, B, A, B, B, A)
  const DONE_RUN := Gate.Run(Succeeded, 8, B, A, B, B, A)

  const RELEASED := Sealed(B, RELEASED_RUN).(releases := RELEASES)

  function Launched(launched: bool): Gate.Gate { RELEASED.(launches := Launches(launched)) }

  function Reconciled(verified: bool): Gate.Gate {
    Launched(true).(reconciliations := Reconciliations(verified))
  }

  const DONE := Reconciled(true).(runs := map[KEY := DONE_RUN])

  lemma MayCreate()
    ensures Allowed(Gate.EMPTY_GATE, Gate.CreateRun, CREATED)
  {}

  lemma MayStart()
    ensures Allowed(CREATED, Gate.Transition(1, Running, Null, Null), STARTED)
  {}

  lemma MayWait()
    ensures Allowed(STARTED, Gate.Transition(2, AwaitingApproval, B, Null), WAITING)
  {}

  lemma MayAsk()
    ensures Allowed(WAITING, Gate.RegisterNonce(A, A, SIMULATED, 1), ASKED)
  {}

  lemma MayApprove()
    ensures Allowed(ASKED, Gate.RecordApproval(A, A, A, A, SIMULATED, Null, true, A, 3), SIMULATION_APPROVED)
  {
    assert A.text[0] != B.text[0];
  }

  lemma MayJournal()
    ensures Allowed(SIMULATION_APPROVED, Gate.AppendJournal(FIRST_ENTRY), JOURNALLED)
  {
    assert A.text[0] != B.text[0];
  }

  lemma MayCheckpoint()
    ensures Allowed(JOURNALLED, Gate.CreateCheckpoint(BEFORE_SEAL), CHECKPOINTED)
  {
    assert A.text[0] != B.text[0];
  }

  lemma MayAskAgain(subject: Id)
    requires Filled(subject)
    ensures Allowed(CHECKPOINTED, Gate.RegisterNonce(B, B, Produced(subject), 1), AskedAgain(subject))
  {
    assert A.text[0] != B.text[0];
  }

  function Again(subject: Id): Gate.GateCommand { Gate.RecordApproval(B, B, B, B, Produced(subject), A, true, A, 4) }

  lemma AgainAuthorised(subject: Id)
    requires Filled(subject) && subject != A
    ensures Gate.PriorApproves(AskedAgain(subject), KEY, Again(subject))
    ensures Gate.NonceOpen(AskedAgain(subject), KEY, Again(subject), 0)
    ensures Gate.ApprovalInsertable(AskedAgain(subject), KEY, B, Second(subject))
  {
    assert A.text[0] != B.text[0];
  }

  lemma MayApproveAgain(subject: Id)
    requires Filled(subject) && subject != A
    ensures Allowed(AskedAgain(subject), Again(subject), BothApproved(subject))
  {
    hide Gate.TransitionTx, Gate.RegisterNonceTx, Gate.CreateCheckpointTx, Gate.AppendJournalTx, Gate.CommitSealTx,
        Gate.CreateReleaseTx, Gate.RecordLaunchTx, Gate.RecordReconciliationTx, Gate.PriorApproves, Gate.NonceOpen,
        Gate.ApprovalInsertable, Gate.DecisionCode;
    AgainAuthorised(subject);
    assert A.text[0] != B.text[0];
  }

  lemma MaySeal(subject: Id)
    requires Filled(subject) && subject != A
    ensures Allowed(BothApproved(subject), Gate.CommitSeal(5, 1, A, A, B, SecondEntry(subject), AFTER_SEAL),
                    Sealed(subject, SEALED_RUN))
  {
    hide Gate.TransitionTx, Gate.RegisterNonceTx, Gate.RecordApprovalTx, Gate.CreateCheckpointTx, Gate.AppendJournalTx,
        Gate.CreateReleaseTx, Gate.RecordLaunchTx, Gate.RecordReconciliationTx;
    assert A.text[0] != B.text[0];
  }

  lemma MayMoveOn()
    ensures Allowed(Sealed(B, SEALED_RUN), Gate.Transition(6, Running, B, Null), Sealed(B, STRANDED_RUN))
  {
    hide Gate.RegisterNonceTx, Gate.RecordApprovalTx, Gate.CreateCheckpointTx, Gate.AppendJournalTx, Gate.CommitSealTx,
        Gate.CreateReleaseTx, Gate.RecordLaunchTx, Gate.RecordReconciliationTx;
    assert A.text[0] != B.text[0];
  }

  lemma MayRelease()
    ensures Allowed(Sealed(B, SEALED_RUN), Gate.CreateRelease(A, B, B, A, A, A, A, 6), RELEASED)
  {
    hide Gate.TransitionTx, Gate.RegisterNonceTx, Gate.RecordApprovalTx, Gate.CreateCheckpointTx, Gate.AppendJournalTx,
        Gate.CommitSealTx, Gate.RecordLaunchTx, Gate.RecordReconciliationTx;
    assert A.text[0] != B.text[0];
  }

  lemma MayLaunch(launched: bool)
    ensures Allowed(RELEASED, Gate.RecordLaunch(A, A, A, launched, A, A), Launched(launched))
  {
    hide Gate.TransitionTx, Gate.RegisterNonceTx, Gate.RecordApprovalTx, Gate.CreateCheckpointTx, Gate.AppendJournalTx,
        Gate.CommitSealTx, Gate.CreateReleaseTx, Gate.RecordReconciliationTx;
    assert A.text[0] != B.text[0];
  }

  lemma MayReconcile(verified: bool)
    ensures Allowed(Launched(true), Gate.RecordReconciliation(A, A, A, verified, A, A), Reconciled(verified))
  {
    hide Gate.TransitionTx, Gate.RegisterNonceTx, Gate.RecordApprovalTx, Gate.CreateCheckpointTx, Gate.AppendJournalTx,
        Gate.CommitSealTx, Gate.CreateReleaseTx, Gate.RecordLaunchTx;
    assert A.text[0] != B.text[0];
  }

  lemma MaySucceed()
    ensures Allowed(Reconciled(true), Gate.Transition(7, Succeeded, B, Null), DONE)
  {
    hide Gate.RegisterNonceTx, Gate.RecordApprovalTx, Gate.CreateCheckpointTx, Gate.AppendJournalTx, Gate.CommitSealTx,
        Gate.CreateReleaseTx, Gate.RecordLaunchTx, Gate.RecordReconciliationTx;
    assert A.text[0] != B.text[0];
  }

  lemma Opening()
    ensures Reachable(WAITING,
                      {IdempotencyKey(KEY, Create, A), IdempotencyKey(KEY, Move, A), IdempotencyKey(KEY, Move, B)})
  {
    assert Leads([], Gate.EMPTY_GATE, {});
    assert A.text[0] != B.text[0];
    hide Reachable, Leads, Allowed;
    MayCreate();
    Bound(Gate.EMPTY_GATE, {}, Gate.CreateRun, A, CREATED);
    MayStart();
    Bound(CREATED, {} + {IdempotencyKey(KEY, Create, A)}, Gate.Transition(1, Running, Null, Null), A, STARTED);
    MayWait();
    Bound(STARTED, {} + {IdempotencyKey(KEY, Create, A)} + {IdempotencyKey(KEY, Move, A)},
          Gate.Transition(2, AwaitingApproval, B, Null), B, WAITING);
    assert {} + {IdempotencyKey(KEY, Create, A)} + {IdempotencyKey(KEY, Move, A)} + {IdempotencyKey(KEY, Move, B)}
        == {IdempotencyKey(KEY, Create, A), IdempotencyKey(KEY, Move, A), IdempotencyKey(KEY, Move, B)};
  }

  lemma Simulating(used: set<IdempotencyKey>)
    requires Reachable(WAITING, used) && IdempotencyKey(KEY, Decision(Gate.Simulation), A) !in used
    ensures Reachable(CHECKPOINTED, used + {IdempotencyKey(KEY, Decision(Gate.Simulation), A)})
  {
    hide Reachable, Leads, Allowed;
    MayAsk();
    Unbound(WAITING, used, Gate.RegisterNonce(A, A, SIMULATED, 1), ASKED);
    MayApprove();
    Bound(ASKED, used, Gate.RecordApproval(A, A, A, A, SIMULATED, Null, true, A, 3), A, SIMULATION_APPROVED);
    var next := used + {IdempotencyKey(KEY, Decision(Gate.Simulation), A)};
    MayJournal();
    Unbound(SIMULATION_APPROVED, next, Gate.AppendJournal(FIRST_ENTRY), JOURNALLED);
    MayCheckpoint();
    Unbound(JOURNALLED, next, Gate.CreateCheckpoint(BEFORE_SEAL), CHECKPOINTED);
  }

  lemma Producing(used: set<IdempotencyKey>, subject: Id)
    requires Reachable(CHECKPOINTED, used) && IdempotencyKey(KEY, Decision(Gate.Production), A) !in used
    requires IdempotencyKey(KEY, Seal, A) !in used && Filled(subject) && subject != A
    ensures Reachable(Sealed(subject, SEALED_RUN),
                      used + {IdempotencyKey(KEY, Decision(Gate.Production), A)} + {IdempotencyKey(KEY, Seal, A)})
  {
    hide Reachable, Leads, Allowed;
    MayAskAgain(subject);
    Unbound(CHECKPOINTED, used, Gate.RegisterNonce(B, B, Produced(subject), 1), AskedAgain(subject));
    MayApproveAgain(subject);
    Bound(AskedAgain(subject), used, Again(subject), A, BothApproved(subject));
    MaySeal(subject);
    Bound(BothApproved(subject), used + {IdempotencyKey(KEY, Decision(Gate.Production), A)},
          Gate.CommitSeal(5, 1, A, A, B, SecondEntry(subject), AFTER_SEAL), A, Sealed(subject, SEALED_RUN));
  }

  /** The approved run, with only its first keys used. */
  lemma Approving(subject: Id) returns (used: set<IdempotencyKey>)
    requires Filled(subject) && subject != A
    ensures Reachable(Sealed(subject, SEALED_RUN), used)
    ensures IdempotencyKey(KEY, Publish, A) !in used && IdempotencyKey(KEY, Move, C) !in used
  {
    hide Reachable, Leads, Sealed;
    assert A.text[0] != C.text[0] && B.text[0] != C.text[0];
    used := {IdempotencyKey(KEY, Create, A), IdempotencyKey(KEY, Move, A), IdempotencyKey(KEY, Move, B)};
    Opening();
    Simulating(used);
    used := used + {IdempotencyKey(KEY, Decision(Gate.Simulation), A)};
    Producing(used, subject);
    used := used + {IdempotencyKey(KEY, Decision(Gate.Production), A)} + {IdempotencyKey(KEY, Seal, A)};
  }

  lemma Releasing() returns (used: set<IdempotencyKey>)
    ensures Reachable(RELEASED, used) && IdempotencyKey(KEY, Move, C) !in used
  {
    hide Reachable, Leads, Allowed;
    assert B.text[0] != A.text[0];
    var first := Approving(B);
    MayRelease();
    Bound(Sealed(B, SEALED_RUN), first, Gate.CreateRelease(A, B, B, A, A, A, A, 6), A, RELEASED);
    used := first + {IdempotencyKey(KEY, Publish, A)};
  }

  lemma Launching(launched: bool) returns (used: set<IdempotencyKey>)
    ensures Reachable(Launched(launched), used) && IdempotencyKey(KEY, Move, C) !in used
  {
    hide Reachable, Leads, Allowed;
    used := Releasing();
    MayLaunch(launched);
    Unbound(RELEASED, used, Gate.RecordLaunch(A, A, A, launched, A, A), Launched(launched));
  }

  lemma Reconciling(verified: bool) returns (used: set<IdempotencyKey>)
    ensures Reachable(Reconciled(verified), used) && IdempotencyKey(KEY, Move, C) !in used
  {
    hide Reachable, Leads, Allowed;
    used := Launching(true);
    MayReconcile(verified);
    Unbound(Launched(true), used, Gate.RecordReconciliation(A, A, A, verified, A, A), Reconciled(verified));
  }

  /** A run can succeed: fourteen commands take it through both approvals, the
      seal, a release, a launch and a verified reconciliation. */
  lemma SuccessIsReachable()
    ensures exists history ::
            KEY in Run(EMPTY, history).gate.runs && Run(EMPTY, history).gate.runs[KEY].state.Succeeded?
  {
    hide Run, Allowed;
    var used := Reconciling(true);
    MaySucceed();
    Bound(Reconciled(true), used, Gate.Transition(7, Succeeded, B, Null), C, DONE);
    var last := used + {IdempotencyKey(KEY, Move, C)};
    var history :| Leads(history, DONE, last);
    assert KEY in Run(EMPTY, history).gate.runs;
  }

  // ------------------------------------------------------- four ways aside

  /** A live run with an approval that no continuation takes to success. */
  ghost predicate Doomed(db: Db, k: RunKey) {
    && k in db.gate.runs && Filled(db.gate.runs[k].approval) && !Terminal(db.gate.runs[k].state)
    && !Outlook.CanSucceed(db, k)
  }

  lemma Hopeless(g: Gate.Gate, used: set<IdempotencyKey>) returns (history: seq<Timed>)
    requires Reachable(g, used) && KEY in g.runs && Filled(g.runs[KEY].approval) && !Terminal(g.runs[KEY].state)
    requires !Outlook.Hopeful(g, KEY)
    ensures Run(EMPTY, history).gate == g && Doomed(Run(EMPTY, history), KEY)
  {
    hide Run, Outlook.Hopeful, Outlook.CanSucceed;
    history :| Leads(history, g, used);
    Outlook.SuccessPossibleIff(history, KEY);
  }

  /** The run was moved on to `running` before its release was created. */
  lemma StrandedIsReachable()
    ensures exists history :: Doomed(Run(EMPTY, history), KEY) && AuthorityTheorems.Stranded(Run(EMPTY, history), KEY)
  {
    hide Run, Reachable, Allowed, Doomed;
    assert B.text[0] != A.text[0];
    var used := Approving(B);
    MayMoveOn();
    Bound(Sealed(B, SEALED_RUN), used, Gate.Transition(6, Running, B, Null), C, Sealed(B, STRANDED_RUN));
    var history := Hopeless(Sealed(B, STRANDED_RUN), used + {IdempotencyKey(KEY, Move, C)});
  }

  /** The seal was committed on a production approval of another subject than the plan. */
  lemma OtherSubjectIsReachable()
    ensures exists history :: Doomed(Run(EMPTY, history), KEY) && Run(EMPTY, history).gate.runs[KEY].state.Approved?
                              && !Outlook.PlanDecided(Run(EMPTY, history).gate, KEY)
  {
    hide Run, Reachable, Allowed;
    assert A.text[0] != C.text[0] && B.text[0] != C.text[0];
    var used := Approving(C);
    assert Approvals(C)[Row(B)].binding.subject == C;
    assert !Outlook.PlanDecided(Sealed(C, SEALED_RUN), KEY);
    var history := Hopeless(Sealed(C, SEALED_RUN), used);
  }

  /** The one launch a release may have was recorded as failed. */
  lemma FailedLaunchIsReachable()
    ensures exists history :: Doomed(Run(EMPTY, history), KEY)
              && Outlook.LaunchFailed(Run(EMPTY, history).gate, KEY, Run(EMPTY, history).gate.runs[KEY].release)
  {
    hide Run, Reachable, Allowed;
    var used := Launching(false);
    assert Gate.LaunchKey(KEY, A) in Launched(false).launches;
    var history := Hopeless(Launched(false), used);
  }

  /** The one reconciliation a release may have was recorded as failed. */
  lemma FailedReconciliationIsReachable()
    ensures exists history :: Doomed(Run(EMPTY, history), KEY)
              && Outlook.ReconciliationFailed(Run(EMPTY, history).gate, KEY, Run(EMPTY, history).gate.runs[KEY].release)
  {
    hide Run, Reachable, Allowed;
    var used := Reconciling(false);
    var history := Hopeless(Reconciled(false), used);
  }

  // ------------------------------------------------ two ways aside before that

  const TOO_EARLY := BEFORE_SEAL.(phase := Gate.Planned)
  const EARLY := WAITING.(checkpoints := map[KEY := TOO_EARLY])

  lemma MayCheckpointEarly()
    ensures Allowed(WAITING, Gate.CreateCheckpoint(TOO_EARLY), EARLY)
  {
    assert A.text[0] != B.text[0];
  }

  /** A checkpoint stored before the simulation decision can never be sealed: a
      live run that no continuation approves. */
  lemma EarlyCheckpointIsReachable()
    ensures exists history :: KEY in Run(EMPTY, history).gate.runs
              && Run(EMPTY, history).gate.runs[KEY].state.AwaitingApproval?
              && !Prospects.CanBeApproved(Run(EMPTY, history), KEY)
  {
    hide Run, Reachable, Allowed, Prospects.CanBeApproved;
    var used := {IdempotencyKey(KEY, Create, A), IdempotencyKey(KEY, Move, A), IdempotencyKey(KEY, Move, B)};
    Opening();
    MayCheckpointEarly();
    Unbound(WAITING, used, Gate.CreateCheckpoint(TOO_EARLY), EARLY);
    var history := Found(EARLY, used);
    Prospects.ApprovalPossibleIff(history, KEY);
  }

  lemma Found(g: Gate.Gate, used: set<IdempotencyKey>) returns (history: seq<Timed>)
    requires Reachable(g, used)
    ensures Run(EMPTY, history).gate == g
  {
    history :| Leads(history, g, used);
  }

  /** The simulation decision is about the plan itself. */
  const SPENT := SIMULATED.(subject := B)
  const SPENT_NONCE := FirstNonce(Null).(binding := SPENT)
  const ASKED_ON_PLAN := Gate.EMPTY_GATE.(runs := WAIT, nonces := map[Row(A) := SPENT_NONCE])
  const SIMULATED_ON_PLAN :=
    Gate.EMPTY_GATE.(runs := HALF, approvals := map[Row(A) := FIRST.(binding := SPENT)],
                     nonces := map[Row(A) := SPENT_NONCE.(consumedBy := A)])

  lemma MayAskOnPlan()
    ensures Allowed(WAITING, Gate.RegisterNonce(A, A, SPENT, 1), ASKED_ON_PLAN)
  {}

  lemma MayApproveOnPlan()
    ensures Allowed(ASKED_ON_PLAN, Gate.RecordApproval(A, A, A, A, SPENT, Null, true, A, 3), SIMULATED_ON_PLAN)
  {
    assert A.text[0] != B.text[0];
  }

  /** A simulation decision on the plan leaves no subject for a production decision
      that could be released: the run can be approved but not succeed. */
  lemma PlanSimulatedIsReachable()
    ensures exists history :: Prospects.CanBeApproved(Run(EMPTY, history), KEY)
                              && !Outlook.CanSucceed(Run(EMPTY, history), KEY)
  {
    hide Run, Reachable, Allowed, Prospects.CanBeApproved, Outlook.CanSucceed;
    assert A.text[0] != B.text[0];
    var used := {IdempotencyKey(KEY, Create, A), IdempotencyKey(KEY, Move, A), IdempotencyKey(KEY, Move, B)};
    Opening();
    MayAskOnPlan();
    Unbound(WAITING, used, Gate.RegisterNonce(A, A, SPENT, 1), ASKED_ON_PLAN);
    MayApproveOnPlan();
    Bound(ASKED_ON_PLAN, used, Gate.RecordApproval(A, A, A, A, SPENT, Null, true, A, 3), A, SIMULATED_ON_PLAN);
    var history := Found(SIMULATED_ON_PLAN, used + {IdempotencyKey(KEY, Decision(Gate.Simulation), A)});
    assert Pending.Approvable(SIMULATED_ON_PLAN, KEY) && !Pending.PlanOpen(SIMULATED_ON_PLAN, KEY);
    Prospects.ApprovalPossibleIff(history, KEY);
    Prospects.AnySuccessIff(history, KEY);
  }
}
