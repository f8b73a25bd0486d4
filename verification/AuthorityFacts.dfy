/** Where the rows come from: every fact in a reachable database was stated by a
    command of its history, word for word, and entered the tables with it. */
module AuthorityFacts {
  import opened Common
  import opened AuthorityTables
  import opened Authority
  import opened AuthorityHistory
  import Gate = AuthorityGate
  import Work = AuthorityWork
  import Log = AuthorityLog

  // ----------------------------------------------------------------- facts

  /** What a row says for good, as soon as it says it. */
  datatype Fact =
    | Challenge(run: RunKey, nonce: Id, request: Id, binding: Gate.Binding, expiresAt: int)
    | Ruling(run: RunKey, id: Id, approval: Gate.Approval)
    | Entered(run: RunKey, entry: Gate.Entry)
    | Checkpointed(run: RunKey, checkpoint: Gate.Checkpoint)
    | Issued(run: RunKey, id: Id, release: Gate.Release)
    | Launched(run: RunKey, id: Id, launch: Gate.Launch)
    | Reconciled(run: RunKey, id: Id, reconciliation: Gate.Reconciliation)
    | Planned(run: RunKey, plan: Id)
    | Moved(run: RunKey, revision: int, state: RunState)
    | Queued(run: RunKey, id: Id, node: Id, input: Id, effectKey: Id, maxAttempts: int)
    | Begun(run: RunKey, id: Id, task: Id, worker: Id, startedAt: int)
    | Finished(run: RunKey, id: Id, succeeded: bool, output: Id, failure: Id, completedAt: int)
    | Reserving(run: RunKey, effect: Id, task: Id, attempt: Id, request: Id)
    | Committed(tenant: Id, effect: Id, result: Id)

  /** The fact is on record. */
  predicate OnRecord(db: Db, fact: Fact) {
    var g, w := db.gate, db.work;
    match fact
    case Challenge(k, nonce, request, binding, expiresAt) =>
      var n := TenantKey(k.tenant, nonce);
      n in g.nonces && g.nonces[n].(consumedBy := Null) == Gate.Nonce(k.run, request, binding, expiresAt, Null)
    case Ruling(k, id, approval) =>
      var a := TenantKey(k.tenant, id); a in g.approvals && g.approvals[a] == approval && approval.run == k.run
    case Entered(k, entry) =>
      var j := Gate.JournalKey(k, entry.stage); j in g.journal && g.journal[j] == entry
    case Checkpointed(k, checkpoint) => k in g.checkpoints && g.checkpoints[k] == checkpoint
    case Issued(k, id, release) =>
      var r := TenantKey(k.tenant, id); r in g.releases && g.releases[r] == release && release.run == k.run
    case Launched(k, id, launch) =>
      var l := Gate.LaunchKey(k, id); l in g.launches && g.launches[l] == launch
    case Reconciled(k, release, reconciliation) =>
      var r := Gate.ReleaseKey(k, release); r in g.reconciliations && g.reconciliations[r] == reconciliation
    case Planned(k, plan) => k in g.runs && g.runs[k].plan == plan && Filled(plan)
    case Moved(k, revision, state) => k in g.runs && g.runs[k].revision == revision && g.runs[k].state == state
    case Queued(k, id, node, input, effectKey, maxAttempts) =>
      var t := Work.TaskKey(k, id);
      && t in w.tasks && w.tasks[t].node == node && w.tasks[t].input == input
      && w.tasks[t].effectKey == effectKey && w.tasks[t].maxAttempts == maxAttempts
    case Begun(k, id, task, worker, startedAt) =>
      var a := Work.AttemptKey(k, id);
      && a in w.attempts && w.attempts[a].task == task && w.attempts[a].worker == worker
      && w.attempts[a].startedAt == startedAt
    case Finished(k, id, succeeded, output, failure, completedAt) =>
      var a := Work.AttemptKey(k, id);
      && a in w.attempts && w.attempts[a].status == (if succeeded then Work.Succeeded else Work.Failed)
      && w.attempts[a].output == output && w.attempts[a].failure == failure
      && w.attempts[a].completedAt == Some(completedAt)
    case Reserving(k, effect, task, attempt, request) =>
      var e := TenantKey(k.tenant, effect);
      e in w.effects && w.effects[e].(result := Null) == Work.Effect(k.run, task, attempt, request, Null)
    case Committed(tenant, effect, result) =>
      var e := TenantKey(tenant, effect); e in w.effects && w.effects[e].result == result && Filled(result)
  }

  /** The command states the fact. */
  predicate States(step: Timed, fact: Fact) {
    match step.command
    case Lifecycle(k, c, _, _) => StatesGate(k, c, fact)
    case Task(k, c) => StatesWork(k, c, step.now, fact)
    case Relay(_) => false
  }

  predicate StatesGate(k: RunKey, c: Gate.GateCommand, fact: Fact) {
    match fact
    case Challenge(run, nonce, request, binding, expiresAt) =>
      run == k && c == Gate.RegisterNonce(nonce, request, binding, expiresAt)
    case Ruling(run, id, a) =>
      && run == k && c.RecordApproval? && c.approval == id && c.nonce == a.nonce && c.record == a.record
      && c.binding == a.binding && c.prior == a.prior && c.approves == a.approves && c.actor == a.actor
    case Entered(run, entry) =>
      run == k && (c == Gate.AppendJournal(entry) || (c.CommitSeal? && c.entry == entry))
    case Checkpointed(run, checkpoint) =>
      run == k && (c == Gate.CreateCheckpoint(checkpoint) || (c.CommitSeal? && c.sealed == checkpoint))
    case Issued(run, id, r) =>
      && run == k && c.CreateRelease? && c.release == id && c.approval == r.approval && c.subject == r.subject
      && c.kind == r.kind && c.artifact == r.artifact && c.signer == r.signer && c.signature == r.signature
    case Launched(run, id, l) =>
      run == k && c == Gate.RecordLaunch(id, l.release, l.request, l.launched, l.operation, l.result)
    case Reconciled(run, release, r) =>
      run == k && c == Gate.RecordReconciliation(r.id, release, r.launch, r.verified, r.result, r.evidence)
    case Planned(run, plan) => run == k && c.Transition? && c.plan == plan
    case Moved(run, revision, state) =>
      run == k && MovesTo(c, revision, state)
    case _ => false
  }

  /** The revision and state that a command asks to move its run to. */
  predicate MovesTo(c: Gate.GateCommand, revision: int, state: RunState) {
    match c
    case CreateRun => revision == 1 && state == Created
    case Transition(expected, to, _, _) => revision == expected + 1 && state == to
    case RecordApproval(_, _, _, _, _, _, approves, _, expected) =>
      revision == expected + 1 && state == if approves then AwaitingApproval else Rejected
    case CommitSeal(expected, _, _, _, _, _, _) => revision == expected + 1 && state == Approved
    case CreateRelease(_, _, _, _, _, _, _, expected) => revision == expected + 1 && state == Approved
    case _ => false
  }

  predicate StatesWork(k: RunKey, c: Work.WorkCommand, now: int, fact: Fact) {
    match fact
    case Queued(run, id, node, input, effectKey, maxAttempts) =>
      run == k && c == Work.Enqueue(id, node, input, effectKey, maxAttempts)
    case Begun(run, id, task, worker, startedAt) =>
      run == k && c.Claim? && c.attempt == id && c.task == task && c.worker == worker && startedAt == now
    case Finished(run, id, succeeded, output, failure, completedAt) =>
      && run == k && c.Complete? && c.lease.attempt == id && c.succeeded == succeeded && c.output == output
      && c.failure == failure && completedAt == now
    case Reserving(run, effect, task, attempt, request) =>
      run == k && c.Reserve? && c.effect == effect && c.lease.task == task && c.lease.attempt == attempt
      && c.request == request
    case Committed(tenant, effect, result) => k.tenant == tenant && c == Work.CommitEffect(effect, result)
    case _ => false
  }

  // -------------------------------------------------------------- one step

  lemma RunStates(g: Gate.Gate, k: RunKey, c: Gate.GateCommand, now: int, h: Gate.Gate, notes: seq<Note>, db: Db,
      after: Db, fact: Fact)
    requires Gate.Decide(g, k, c, now) == Gate.Write(h, notes) && db.gate == g && after.gate == h
    requires after.work == db.work && OnRecord(after, fact) && !OnRecord(db, fact)
    requires c.CreateRun? || c.Transition?
    ensures StatesGate(k, c, fact)
  {
    hide Gate.RegisterNonceTx, Gate.RecordApprovalTx, Gate.CreateCheckpointTx, Gate.AppendJournalTx,
        Gate.CommitSealTx, Gate.CreateReleaseTx, Gate.RecordLaunchTx, Gate.RecordReconciliationTx,
        Gate.PriorApproves, Gate.ApprovalInsertable, Gate.SealAuthorised, Gate.SealContinues,
        Gate.JournalInsertable, Gate.DigestTaken, Gate.WellFormed, Gate.KindReleased;
  }

  lemma RulingStates(g: Gate.Gate, k: RunKey, c: Gate.GateCommand, now: int, h: Gate.Gate, notes: seq<Note>, db: Db,
      after: Db, fact: Fact)
    requires Gate.Decide(g, k, c, now) == Gate.Write(h, notes) && db.gate == g && after.gate == h
    requires after.work == db.work && OnRecord(after, fact) && !OnRecord(db, fact)
    requires c.RegisterNonce? || c.RecordApproval?
    ensures StatesGate(k, c, fact)
  {
    hide Gate.TransitionTx, Gate.CreateCheckpointTx, Gate.AppendJournalTx, Gate.CommitSealTx,
        Gate.CreateReleaseTx, Gate.RecordLaunchTx, Gate.RecordReconciliationTx, Gate.PriorApproves,
        Gate.ApprovalInsertable, Gate.SealAuthorised, Gate.SealContinues, Gate.JournalInsertable,
        Gate.DigestTaken, Gate.WellFormed, Gate.KindReleased;
  }

  lemma TrustStates(g: Gate.Gate, k: RunKey, c: Gate.GateCommand, now: int, h: Gate.Gate, notes: seq<Note>, db: Db,
      after: Db, fact: Fact)
    requires Gate.Decide(g, k, c, now) == Gate.Write(h, notes) && db.gate == g && after.gate == h
    requires after.work == db.work && OnRecord(after, fact) && !OnRecord(db, fact)
    requires c.CreateCheckpoint? || c.AppendJournal? || c.CommitSeal?
    ensures StatesGate(k, c, fact)
  {
    hide Gate.TransitionTx, Gate.RegisterNonceTx, Gate.RecordApprovalTx, Gate.CreateReleaseTx,
        Gate.RecordLaunchTx, Gate.RecordReconciliationTx, Gate.PriorApproves, Gate.ApprovalInsertable,
        Gate.SealAuthorised, Gate.SealContinues, Gate.JournalInsertable, Gate.DigestTaken, Gate.WellFormed,
        Gate.KindReleased;
  }

  lemma ReleaseStates(g: Gate.Gate, k: RunKey, c: Gate.GateCommand, now: int, h: Gate.Gate, notes: seq<Note>, db: Db,
      after: Db, fact: Fact)
    requires Gate.Decide(g, k, c, now) == Gate.Write(h, notes) && db.gate == g && after.gate == h
    requires after.work == db.work && OnRecord(after, fact) && !OnRecord(db, fact)
    requires c.CreateRelease? || c.RecordLaunch? || c.RecordReconciliation?
    ensures StatesGate(k, c, fact)
  {
    hide Gate.TransitionTx, Gate.RegisterNonceTx, Gate.RecordApprovalTx, Gate.CreateCheckpointTx,
        Gate.AppendJournalTx, Gate.CommitSealTx, Gate.PriorApproves, Gate.ApprovalInsertable,
        Gate.SealAuthorised, Gate.SealContinues, Gate.JournalInsertable, Gate.DigestTaken, Gate.WellFormed,
        Gate.KindReleased;
  }

  lemma DecisionStates(g: Gate.Gate, k: RunKey, c: Gate.GateCommand, now: int, h: Gate.Gate, notes: seq<Note>, db: Db,
      after: Db, fact: Fact)
    requires Gate.Decide(g, k, c, now) == Gate.Write(h, notes) && db.gate == g && after.gate == h
    requires after.work == db.work && OnRecord(after, fact) && !OnRecord(db, fact)
    ensures StatesGate(k, c, fact)
  {
    hide Gate.Decide, OnRecord, StatesGate;
    if c.CreateRun? || c.Transition? {
      RunStates(g, k, c, now, h, notes, db, after, fact);
    } else if c.RegisterNonce? || c.RecordApproval? {
      RulingStates(g, k, c, now, h, notes, db, after, fact);
    } else if c.CreateCheckpoint? || c.AppendJournal? || c.CommitSeal? {
      TrustStates(g, k, c, now, h, notes, db, after, fact);
    } else {
      ReleaseStates(g, k, c, now, h, notes, db, after, fact);
    }
  }

  lemma WorkStates(w: Work.Work, k: RunKey, standing: Work.Standing, c: Work.WorkCommand, now: int, db: Db, after: Db,
      fact: Fact)
    requires Work.Decide(w, k, standing, c, now).Write? && db.work == w
    requires after.work == Work.Decide(w, k, standing, c, now).work && after.gate == db.gate
    requires OnRecord(after, fact) && !OnRecord(db, fact)
    ensures StatesWork(k, c, now, fact)
  {
    if c.Recover? {
      RecoveryStatesNothing(w, k, c.found, c.delay, now, db, after, fact);
      hide OnRecord;
    } else if c.Claim? {
      ClaimStates(w, k, standing, c, now, db, after, fact);
      hide OnRecord, StatesWork, Work.ClaimTx;
    } else if c.Complete? {
      CompletionStates(w, k, standing, c, now, db, after, fact);
      hide OnRecord, StatesWork, Work.CompleteTx;
    } else {
      OthersState(w, k, standing, c, now, db, after, fact);
      hide OnRecord, StatesWork;
    }
  }

  /** A claim changes no definition and no effect, times out at most the attempt it
      takes over, and adds at most its own. */
  predicate Claimed(w: Work.Work, u: Work.Work, k: RunKey, c: Work.WorkCommand, now: int)
    requires c.Claim?
  {
    && u.effects == w.effects && u.tasks.Keys == w.tasks.Keys && w.attempts.Keys <= u.attempts.Keys
    && (forall t | t in w.tasks :: u.tasks[t].node == w.tasks[t].node && u.tasks[t].input == w.tasks[t].input
          && u.tasks[t].effectKey == w.tasks[t].effectKey && u.tasks[t].maxAttempts == w.tasks[t].maxAttempts)
    && (forall a | a in w.attempts :: u.attempts[a] == w.attempts[a]
          || u.attempts[a] == w.attempts[a].(status := Work.TimedOut, completedAt := Some(now), output := Null,
                                             failure := Work.LEASE_EXPIRED))
    && forall a | a in u.attempts && a !in w.attempts :: a == Work.AttemptKey(k, c.attempt)
         && u.attempts[a].task == c.task && u.attempts[a].worker == c.worker && u.attempts[a].startedAt == now
         && u.attempts[a].status.InProgress?
  }

  lemma GrantClaims(w: Work.Work, k: RunKey, c: Work.WorkCommand, now: int, recovered: bool, notes: seq<Note>)
    requires c.Claim? && Work.TaskKey(k, c.task) in w.tasks && Work.GrantTx(w, k, c, now, recovered, notes).Write?
    ensures Claimed(w, Work.GrantTx(w, k, c, now, recovered, notes).work, k, c, now)
    ensures var u := Work.GrantTx(w, k, c, now, recovered, notes).work;
            forall a | a in w.attempts :: u.attempts[a] == w.attempts[a]
  {}

  lemma ClaimRows(w: Work.Work, k: RunKey, standing: Work.Standing, c: Work.WorkCommand, now: int)
    requires c.Claim? && Work.Decide(w, k, standing, c, now).Write?
    ensures Claimed(w, Work.Decide(w, k, standing, c, now).work, k, c, now)
  {
    hide Work.GrantTx;
    var task := w.tasks[Work.TaskKey(k, c.task)];
    if task.status.Leased? {
      var stale := Work.AttemptKey(k, task.holder.value.attempt);
      var ended := Work.EndAttempt(w, stale, Work.TimedOut, Null, Work.LEASE_EXPIRED, now);
      var notes := [TaskNote(LeaseExpired, c.task, task.holder.value.attempt, Work.LEASE_EXPIRED, [])];
      GrantClaims(ended, k, c, now, true, notes);
    } else {
      GrantClaims(w, k, c, now, false, []);
    }
  }

  lemma ClaimStates(w: Work.Work, k: RunKey, standing: Work.Standing, c: Work.WorkCommand, now: int, db: Db, after: Db,
      fact: Fact)
    requires c.Claim? && Work.Decide(w, k, standing, c, now).Write? && db.work == w
    requires after.work == Work.Decide(w, k, standing, c, now).work && after.gate == db.gate
    requires OnRecord(after, fact) && !OnRecord(db, fact)
    ensures StatesWork(k, c, now, fact)
  {
    ClaimRows(w, k, standing, c, now);
    hide Work.Decide;
  }

  lemma CompletionStates(w: Work.Work, k: RunKey, standing: Work.Standing, c: Work.WorkCommand, now: int, db: Db,
      after: Db, fact: Fact)
    requires c.Complete? && Work.Decide(w, k, standing, c, now).Write? && db.work == w
    requires after.work == Work.Decide(w, k, standing, c, now).work && after.gate == db.gate
    requires OnRecord(after, fact) && !OnRecord(db, fact)
    ensures StatesWork(k, c, now, fact)
  {}

  lemma OthersState(w: Work.Work, k: RunKey, standing: Work.Standing, c: Work.WorkCommand, now: int, db: Db, after: Db,
      fact: Fact)
    requires !c.Claim? && !c.Complete? && !c.Recover? && Work.Decide(w, k, standing, c, now).Write? && db.work == w
    requires after.work == Work.Decide(w, k, standing, c, now).work && after.gate == db.gate
    requires OnRecord(after, fact) && !OnRecord(db, fact)
    ensures StatesWork(k, c, now, fact)
  {}

  lemma {:induction false} RecoveryStatesNothing(w: Work.Work, k: RunKey, found: seq<Id>, delay: int, now: int, db: Db,
      after: Db, fact: Fact)
    requires Work.RecoverAll(w, k, found, delay, now).Some? && db.work == w && after.gate == db.gate
    requires after.work == Work.RecoverAll(w, k, found, delay, now).value.0 && OnRecord(after, fact)
    ensures OnRecord(db, fact)
    decreases |found|
  {
    if found == [] {
    } else {
      var next := db.(work := Work.RecoverRow(w, k, found[0], delay, now));
      RecoveryStatesNothing(next.work, k, found[1..], delay, now, next, after, fact);
    }
  }

  lemma StepStates(db: Db, step: Timed, fact: Fact)
    requires OnRecord(Apply(db, step.command, step.now).db, fact) && !OnRecord(db, fact)
    ensures States(step, fact)
  {
    hide OnRecord, StatesGate, StatesWork, Gate.Decide, Work.Decide, Log.AppendAll, Log.Outbox, StandingOf;
    var after := Apply(db, step.command, step.now).db;
    if after.gate == db.gate && after.work == db.work { SameRecord(db, after, fact); }
    match step.command
    case Lifecycle(k, c, _, _) =>
      var v := Gate.Decide(db.gate, k, c, step.now);
      if v.Write? { DecisionStates(db.gate, k, c, step.now, v.gate, v.notes, db, after, fact); }
    case Task(k, c) =>
      if Work.Decide(db.work, k, StandingOf(db.gate, k), c, step.now).Write? {
        WorkStates(db.work, k, StandingOf(db.gate, k), c, step.now, db, after, fact);
      }
    case Relay(_) =>
  }

  lemma SameRecord(db: Db, after: Db, fact: Fact)
    requires after.gate == db.gate && after.work == db.work
    ensures OnRecord(after, fact) == OnRecord(db, fact)
  {}

  // --------------------------------------------------------------- theorem

  /** The command at this place of the history entered the fact. */
  predicate Enters(history: seq<Timed>, i: nat, fact: Fact)
    requires i < |history|
  {
    && States(history[i], fact)
    && !OnRecord(Run(EMPTY, history[..i]), fact) && OnRecord(Run(EMPTY, history[..i + 1]), fact)
  }

  lemma EntersLonger(history: seq<Timed>, more: seq<Timed>, i: nat, fact: Fact)
    requires i < |history| && Enters(history, i, fact)
    ensures Enters(history + more, i, fact)
  {
    assert (history + more)[..i] == history[..i] && (history + more)[..i + 1] == history[..i + 1];
  }

  /** Every fact of a reachable database was stated by a command of the history, and
      entered the tables with it. */
  lemma {:induction false} EveryFactWasStated(history: seq<Timed>, fact: Fact)
    requires OnRecord(Run(EMPTY, history), fact)
    ensures exists i: nat :: i < |history| && Enters(history, i, fact)
    decreases |history|
  {
    hide OnRecord, States, Apply, Run;
    if history == [] {
      NothingAtFirst(fact);
    } else {
      var init, last := history[..|history| - 1], history[|history| - 1];
      assert history == init + [last];
      RunExtends(EMPTY, init, last);
      if OnRecord(Run(EMPTY, init), fact) {
        EveryFactWasStated(init, fact);
        var i: nat :| i < |init| && Enters(init, i, fact);
        EntersLonger(init, [last], i, fact);
      } else {
        StepStates(Run(EMPTY, init), last, fact);
        assert history[..|history| - 1] == init && history[..|history|] == history;
        assert Enters(history, |history| - 1, fact);
      }
    }
  }

  lemma NothingAtFirst(fact: Fact)
    ensures !OnRecord(Run(EMPTY, []), fact)
  {}

  // ------------------------------------------------------------ challenges

  /** The decision entered at place j spent the challenge entered at place i. */
  predicate Spends(history: seq<Timed>, i: nat, j: nat, request: Id, expiresAt: int, k: RunKey, id: Id,
      approval: Gate.Approval)
    requires i < j < |history|
  {
    && Enters(history, i, Challenge(k, approval.nonce, request, approval.binding, expiresAt))
    && Enters(history, j, Ruling(k, id, approval)) && history[j].now < expiresAt
    && history[j].command.Lifecycle? && history[j].command.gate.RecordApproval?
    && history[j].command.gate.requestId == request
  }

  lemma DecisionFindsChallenge(db: Db, step: Timed, k: RunKey, id: Id, approval: Gate.Approval)
    requires OnRecord(Apply(db, step.command, step.now).db, Ruling(k, id, approval))
    requires !OnRecord(db, Ruling(k, id, approval)) && States(step, Ruling(k, id, approval))
    ensures var c := step.command.gate;
            var n := TenantKey(k.tenant, approval.nonce);
            && n in db.gate.nonces && db.gate.nonces[n].expiresAt > step.now
            && OnRecord(db, Challenge(k, approval.nonce, c.requestId, approval.binding, db.gate.nonces[n].expiresAt))
  {
    hide Log.AppendAll, Gate.Decide;
    var c := step.command.gate;
    var v := Gate.Decide(db.gate, k, c, step.now);
    assert v.Write?;
    assert Gate.NonceOpen(db.gate, k, c, step.now) by { RecordedWasOpen(db.gate, k, c, step.now); }
  }

  lemma RecordedWasOpen(g: Gate.Gate, k: RunKey, c: Gate.GateCommand, now: int)
    requires c.RecordApproval? && Gate.Decide(g, k, c, now).Write?
    ensures Gate.NonceOpen(g, k, c, now)
  {}

  /** Every decision on record spent a challenge that an earlier command had
      registered for that run with that request and every bound digest, and did so
      before the challenge expired. */
  lemma DecisionSpendsChallenge(history: seq<Timed>, k: RunKey, id: Id, approval: Gate.Approval)
    requires OnRecord(Run(EMPTY, history), Ruling(k, id, approval))
    ensures exists i: nat, j: nat, request: Id, expiresAt: int ::
              i < j < |history| && Spends(history, i, j, request, expiresAt, k, id, approval)
  {
    hide OnRecord, States, Apply, Run, Enters;
    EveryFactWasStated(history, Ruling(k, id, approval));
    var j: nat :| j < |history| && Enters(history, j, Ruling(k, id, approval));
    var db, request, expiresAt := EnteredDecision(history, j, k, id, approval);
    var challenge := Challenge(k, approval.nonce, request, approval.binding, expiresAt);
    EveryFactWasStated(history[..j], challenge);
    var i: nat :| i < |history[..j]| && Enters(history[..j], i, challenge);
    EntersLonger(history[..j], history[j..], i, challenge);
    assert history[..j] + history[j..] == history;
    assert Spends(history, i, j, request, expiresAt, k, id, approval);
  }

  lemma EnteredDecision(history: seq<Timed>, j: nat, k: RunKey, id: Id, approval: Gate.Approval)
    returns (db: Db, request: Id, expiresAt: int)
    requires j < |history| && Enters(history, j, Ruling(k, id, approval))
    ensures db == Run(EMPTY, history[..j]) && expiresAt > history[j].now
    ensures OnRecord(db, Challenge(k, approval.nonce, request, approval.binding, expiresAt))
    ensures history[j].command.Lifecycle? && history[j].command.gate.RecordApproval?
    ensures request == history[j].command.gate.requestId
  {
    hide OnRecord, States, Apply, Run;
    db := Run(EMPTY, history[..j]);
    assert history[..j + 1] == history[..j] + [history[j]];
    RunExtends(EMPTY, history[..j], history[j]);
    RulingCommand(history[j], k, id, approval);
    DecisionFindsChallenge(db, history[j], k, id, approval);
    request := history[j].command.gate.requestId;
    expiresAt := db.gate.nonces[TenantKey(k.tenant, approval.nonce)].expiresAt;
  }

  lemma RulingCommand(step: Timed, k: RunKey, id: Id, approval: Gate.Approval)
    requires States(step, Ruling(k, id, approval))
    ensures step.command.Lifecycle? && step.command.gate.RecordApproval?
  {}
}
