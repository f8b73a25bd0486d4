/** The event log never lies: every event restates rows that are on record, and
    tells the revision, state and time of the moment it was written. */
module AuthorityTestimony {
  import opened Common
  import opened AuthorityTables
  import opened Authority
  import opened AuthorityHistory
  import Gate = AuthorityGate
  import GateProofs = AuthorityGateProofs
  import Work = AuthorityWork
  import WorkProofs = AuthorityWorkProofs
  import Log = AuthorityLog
  import LogProofs = AuthorityLogProofs

  // ----------------------------------------------------------------- truth

  /** A lifecycle event names its rows and cites their digests. */
  predicate TrueOfGate(g: Gate.Gate, k: RunKey, n: Note, state: RunState) {
    && k in g.runs && n.task == Null && n.attempt == Null
    && var run := g.runs[k];
       match n.kind
       case RunCreated => n == RunNote(RunCreated, Null, Null, Null, []) && state == Created
       case RunTransitioned =>
         && n.approval == Null && (Filled(n.release) ==> n.release == run.release)
         && (if state.AwaitingApproval? then Filled(run.plan) && n.refs == [run.plan] else n.refs == [])
       case ApprovalRecorded =>
         var a := TenantKey(k.tenant, n.approval);
         && a in g.approvals && g.approvals[a].run == k.run && n.release == Null
         && n.refs == [g.approvals[a].record, g.approvals[a].binding.subject]
         && n.code == DecisionWord(g.approvals[a].binding.stage, g.approvals[a].approves)
         && state == if g.approvals[a].approves then AwaitingApproval else Rejected
       case CheckpointSealed =>
         var j := Gate.JournalKey(k, Gate.Production);
         && k in g.checkpoints && Gate.PastSeal(g.checkpoints[k].phase) && j in g.journal
         && n.approval == run.approval && Filled(run.approval) && n.release == Null && state == Approved
         && n.code == Text("PRODUCTION_SEALED")
         && n.refs == [g.checkpoints[k].digest, g.checkpoints[k].seal, g.journal[j].record]
       case ReleaseCreated =>
         var r := TenantKey(k.tenant, n.release);
         && n.release == run.release && Filled(n.release) && r in g.releases && g.releases[r].run == k.run
         && n.approval == g.releases[r].approval && n.code == Null && state == Approved
         && n.refs == [g.releases[r].subject, g.releases[r].artifact, g.releases[r].signature]
       case LaunchRecorded =>
         && n.release == run.release && Filled(n.release) && n.approval == run.approval && n.code == Null
         && exists l :: l in g.launches && l.run == k && g.launches[l].release == n.release
                        && n.refs == [g.launches[l].request, g.launches[l].result]
       case ReconciliationRecorded =>
         var r := Gate.ReleaseKey(k, n.release);
         && n.release == run.release && Filled(n.release) && n.approval == run.approval && n.code == Null
         && r in g.reconciliations
         && n.refs == [g.reconciliations[r].result, g.reconciliations[r].evidence]
       case _ => false
  }

  function DecisionWord(stage: Gate.Stage, approves: bool): Id {
    match stage
    case Simulation => if approves then Text("SIMULATION_APPROVE") else Text("SIMULATION_REJECT")
    case Production => if approves then Text("PRODUCTION_APPROVE") else Text("PRODUCTION_REJECT")
  }

  /** A work event names its task and attempt and tells how the attempt stands. */
  predicate TrueOfWork(w: Work.Work, k: RunKey, n: Note) {
    var t, a := Work.TaskKey(k, n.task), Work.AttemptKey(k, n.attempt);
    && t in w.tasks && n.approval == Null && n.release == Null
    && match n.kind
       case TaskEnqueued => n.attempt == Null && n.code == Null && n.refs == [w.tasks[t].input]
       case AttemptStarted => a in w.attempts && w.attempts[a].task == n.task && n.code == Null && n.refs == []
       case AttemptCompleted =>
         && a in w.attempts && w.attempts[a].task == n.task && n.code == w.attempts[a].failure
         && ((w.attempts[a].status.Succeeded? && n.refs == [w.attempts[a].output])
             || (w.attempts[a].status.Failed? && n.refs == []))
       case LeaseExpired =>
         && a in w.attempts && w.attempts[a].task == n.task && w.attempts[a].status.TimedOut?
         && n.code == w.attempts[a].failure && n.refs == []
       case RetryScheduled =>
         && a in w.attempts && w.attempts[a].task == n.task && n.code == w.attempts[a].failure && n.refs == []
         && (w.attempts[a].status.Failed? || w.attempts[a].status.TimedOut?)
       case TaskDeadLettered => w.tasks[t].status.Buried? && n.code == Text("ATTEMPTS_EXHAUSTED") && n.refs == []
       case EffectReserved => n.code == Null && exists e :: e in w.effects && Reserved(w, k, n, e)
       case EffectCommitted => n.code == Null && exists e :: e in w.effects && Settled(w, k, n, e)
       case _ => false
  }

  predicate Reserved(w: Work.Work, k: RunKey, n: Note, e: TenantKey) {
    && e in w.effects && e.tenant == k.tenant && w.effects[e].run == k.run && w.effects[e].task == n.task
    && w.effects[e].attempt == n.attempt && n.refs == [w.effects[e].request]
  }

  predicate Settled(w: Work.Work, k: RunKey, n: Note, e: TenantKey) {
    && e in w.effects && e.tenant == k.tenant && w.effects[e].run == k.run && w.effects[e].task == n.task
    && w.effects[e].attempt == n.attempt && Filled(w.effects[e].result) && n.refs == [w.effects[e].result]
  }

  predicate OfRun(kind: EventKind) {
    kind.RunCreated? || kind.RunTransitioned? || kind.ApprovalRecorded? || kind.CheckpointSealed?
    || kind.ReleaseCreated? || kind.LaunchRecorded? || kind.ReconciliationRecorded?
  }

  predicate True(db: Db, k: RunKey, n: Note, state: RunState) {
    if OfRun(n.kind) then TrueOfGate(db.gate, k, n, state) else TrueOfWork(db.work, k, n)
  }

  // ------------------------------------------------------------ truth stays

  lemma SealTruthStays(g: Gate.Gate, h: Gate.Gate, k: RunKey, n: Note, state: RunState)
    requires TrueOfGate(g, k, n, state) && GateProofs.Later(g, h) && n.kind.CheckpointSealed?
    ensures TrueOfGate(h, k, n, state)
  {}

  lemma LaunchTruthStays(g: Gate.Gate, h: Gate.Gate, k: RunKey, n: Note, state: RunState)
    requires TrueOfGate(g, k, n, state) && GateProofs.Later(g, h) && n.kind.LaunchRecorded? && GateProofs.RunInv(g, k)
    ensures TrueOfGate(h, k, n, state)
  {
    hide GateProofs.Proven, GateProofs.SomeRejection, GateProofs.Released, GateProofs.Frozen;
    var l :| l in g.launches && l.run == k && g.launches[l].release == n.release
             && n.refs == [g.launches[l].request, g.launches[l].result];
    assert l in h.launches && h.launches[l] == g.launches[l];
  }

  lemma OtherTruthStays(g: Gate.Gate, h: Gate.Gate, k: RunKey, n: Note, state: RunState)
    requires TrueOfGate(g, k, n, state) && GateProofs.Later(g, h) && GateProofs.RunInv(g, k)
    requires !n.kind.CheckpointSealed? && !n.kind.LaunchRecorded?
    ensures TrueOfGate(h, k, n, state)
  {
    hide GateProofs.Proven, GateProofs.SomeRejection, GateProofs.Released, GateProofs.Frozen, GateProofs.Sealed;
  }

  lemma GateTruthStays(g: Gate.Gate, h: Gate.Gate, k: RunKey, n: Note, state: RunState)
    requires TrueOfGate(g, k, n, state) && GateProofs.GateInv(g) && GateProofs.Later(g, h) && k in g.runs
    ensures TrueOfGate(h, k, n, state)
  {
    assert GateProofs.RunInv(g, k);
    hide GateProofs.GateInv, GateProofs.RunInv, GateProofs.Later, TrueOfGate;
    if n.kind.CheckpointSealed? {
      SealTruthStays(g, h, k, n, state);
    } else if n.kind.LaunchRecorded? {
      LaunchTruthStays(g, h, k, n, state);
    } else {
      OtherTruthStays(g, h, k, n, state);
    }
  }

  lemma WorkTruthStays(w: Work.Work, u: Work.Work, k: RunKey, n: Note)
    requires TrueOfWork(w, k, n) && WorkProofs.Later(w, u)
    ensures TrueOfWork(u, k, n)
  {
    if n.kind.EffectReserved? {
      var e :| e in w.effects && Reserved(w, k, n, e);
      assert Reserved(u, k, n, e);
    }
    if n.kind.EffectCommitted? {
      var e :| e in w.effects && Settled(w, k, n, e);
      assert Settled(u, k, n, e);
    }
  }

  lemma TrueRunKnown(g: Gate.Gate, k: RunKey, n: Note, state: RunState)
    requires TrueOfGate(g, k, n, state)
    ensures k in g.runs
  {}

  lemma TruthStays(db: Db, after: Db, k: RunKey, n: Note, state: RunState)
    requires True(db, k, n, state) && DbInv(db) && Later(db, after)
    ensures True(after, k, n, state)
  {
    hide TrueOfGate, TrueOfWork, GateProofs.GateInv, WorkProofs.WorkInv, LogProofs.LogInv, GateProofs.Later,
        WorkProofs.Later, LogProofs.Later;
    if OfRun(n.kind) {
      TrueRunKnown(db.gate, k, n, state);
      GateTruthStays(db.gate, after.gate, k, n, state);
    } else {
      WorkTruthStays(db.work, after.work, k, n);
    }
  }

  // ----------------------------------------------------- new events are true

  lemma MoveNotesTrue(g: Gate.Gate, k: RunKey, c: Gate.GateCommand, now: int, h: Gate.Gate, notes: seq<Note>)
    requires Gate.Decide(g, k, c, now) == Gate.Write(h, notes) && k in h.runs && GateProofs.RunInv(h, k)
    requires c.CreateRun? || c.Transition? || c.RegisterNonce? || c.CreateCheckpoint? || c.AppendJournal?
    ensures forall n | n in notes :: OfRun(n.kind) && TrueOfGate(h, k, n, h.runs[k].state)
  {
    hide Gate.RecordApprovalTx, Gate.CommitSealTx, Gate.CreateReleaseTx, Gate.RecordLaunchTx,
        Gate.RecordReconciliationTx, GateProofs.Sealed, GateProofs.Released, GateProofs.Proven,
        GateProofs.SomeRejection;
  }

  lemma RulingNotesTrue(g: Gate.Gate, k: RunKey, c: Gate.GateCommand, now: int, h: Gate.Gate, notes: seq<Note>)
    requires Gate.Decide(g, k, c, now) == Gate.Write(h, notes) && k in h.runs && GateProofs.RunInv(h, k)
    requires c.RecordApproval?
    ensures forall n | n in notes :: OfRun(n.kind) && TrueOfGate(h, k, n, h.runs[k].state)
  {
    hide Gate.TransitionTx, Gate.RegisterNonceTx, Gate.CreateCheckpointTx, Gate.AppendJournalTx,
        Gate.CommitSealTx, Gate.CreateReleaseTx, Gate.RecordLaunchTx, Gate.RecordReconciliationTx,
        GateProofs.Sealed, GateProofs.Released, GateProofs.Proven, GateProofs.SomeRejection, Gate.PriorApproves,
        Gate.NonceOpen, Gate.ApprovalInsertable, Gate.WellFormed;
  }

  lemma SealNotesTrue(g: Gate.Gate, k: RunKey, c: Gate.GateCommand, now: int, h: Gate.Gate, notes: seq<Note>)
    requires Gate.Decide(g, k, c, now) == Gate.Write(h, notes) && k in h.runs && GateProofs.RunInv(h, k)
    requires c.CommitSeal?
    ensures forall n | n in notes :: OfRun(n.kind) && TrueOfGate(h, k, n, h.runs[k].state)
  {
    hide Gate.TransitionTx, Gate.RegisterNonceTx, Gate.RecordApprovalTx, Gate.CreateCheckpointTx,
        Gate.AppendJournalTx, Gate.CreateReleaseTx, Gate.RecordLaunchTx, Gate.RecordReconciliationTx,
        GateProofs.Released, GateProofs.Proven, GateProofs.SomeRejection, Gate.SealAuthorised,
        Gate.SealContinues;
  }

  lemma ReleaseNotesTrue(g: Gate.Gate, k: RunKey, c: Gate.GateCommand, now: int, h: Gate.Gate, notes: seq<Note>)
    requires Gate.Decide(g, k, c, now) == Gate.Write(h, notes) && k in h.runs && GateProofs.RunInv(h, k)
    requires c.CreateRelease? || c.RecordLaunch? || c.RecordReconciliation?
    ensures forall n | n in notes :: OfRun(n.kind) && TrueOfGate(h, k, n, h.runs[k].state)
  {
    hide Gate.TransitionTx, Gate.RegisterNonceTx, Gate.RecordApprovalTx, Gate.CreateCheckpointTx,
        Gate.AppendJournalTx, Gate.CommitSealTx, GateProofs.Sealed, GateProofs.Released, GateProofs.Proven,
        GateProofs.SomeRejection;
    if c.RecordLaunch? && notes != [] { assert Gate.LaunchKey(k, c.launch) in h.launches; }
  }

  lemma GateNotesTrue(g: Gate.Gate, k: RunKey, c: Gate.GateCommand, now: int, h: Gate.Gate, notes: seq<Note>)
    requires Gate.Decide(g, k, c, now) == Gate.Write(h, notes) && k in h.runs && GateProofs.RunInv(h, k)
    ensures forall n | n in notes :: OfRun(n.kind) && TrueOfGate(h, k, n, h.runs[k].state)
  {
    hide Gate.Decide, TrueOfGate, GateProofs.RunInv, OfRun;
    if c.RecordApproval? {
      RulingNotesTrue(g, k, c, now, h, notes);
    } else if c.CommitSeal? {
      SealNotesTrue(g, k, c, now, h, notes);
    } else if c.CreateRelease? || c.RecordLaunch? || c.RecordReconciliation? {
      ReleaseNotesTrue(g, k, c, now, h, notes);
    } else {
      MoveNotesTrue(g, k, c, now, h, notes);
    }
  }

  lemma WorkNotesTrue(w: Work.Work, k: RunKey, standing: Work.Standing, c: Work.WorkCommand, now: int)
    requires WorkProofs.WorkInv(w) && Work.Decide(w, k, standing, c, now).Write?
    ensures var v := Work.Decide(w, k, standing, c, now);
            forall n | n in v.notes :: !OfRun(n.kind) && TrueOfWork(v.work, v.run, n)
  {
    hide WorkProofs.WorkInv, WorkProofs.Later;
    if c.Recover? {
      RecoveryNotesTrue(w, k, c.found, c.delay, now);
      hide TrueOfWork;
    } else if c.Claim? {
      ClaimNotesTrue(w, k, standing, c, now);
      hide TrueOfWork, Work.ClaimTx;
    } else if c.Complete? {
      CompletionNotesTrue(w, k, standing, c, now);
      hide TrueOfWork, Work.CompleteTx;
    } else {
      EffectNotesTrue(w, k, standing, c, now);
      hide TrueOfWork;
    }
  }

  lemma GrantNotesTrue(w: Work.Work, k: RunKey, c: Work.WorkCommand, now: int, recovered: bool, notes: seq<Note>)
    requires c.Claim? && Work.TaskKey(k, c.task) in w.tasks && Work.GrantTx(w, k, c, now, recovered, notes).Write?
    ensures var v := Work.GrantTx(w, k, c, now, recovered, notes);
            && (forall n | n in v.notes && n !in notes :: !OfRun(n.kind) && TrueOfWork(v.work, k, n)) && v.run == k
            && v.work.tasks.Keys == w.tasks.Keys
            && forall a | a in w.attempts :: a in v.work.attempts && v.work.attempts[a] == w.attempts[a]
  {}

  lemma ClaimNotesTrue(w: Work.Work, k: RunKey, standing: Work.Standing, c: Work.WorkCommand, now: int)
    requires c.Claim? && Work.Decide(w, k, standing, c, now).Write? && WorkProofs.WorkInv(w)
    ensures var v := Work.Decide(w, k, standing, c, now);
            forall n | n in v.notes :: !OfRun(n.kind) && TrueOfWork(v.work, v.run, n)
  {
    assert WorkProofs.TaskInv(w, Work.TaskKey(k, c.task));
    hide WorkProofs.WorkInv, Work.GrantTx;
    var task := w.tasks[Work.TaskKey(k, c.task)];
    if task.status.Leased? {
      var ended := Work.EndAttempt(w, Work.AttemptKey(k, task.holder.value.attempt), Work.TimedOut, Null,
                                   Work.LEASE_EXPIRED, now);
      GrantNotesTrue(ended, k, c, now, true,
                     [TaskNote(LeaseExpired, c.task, task.holder.value.attempt, Work.LEASE_EXPIRED, [])]);
    } else {
      GrantNotesTrue(w, k, c, now, false, []);
    }
  }

  lemma CompletionNotesTrue(w: Work.Work, k: RunKey, standing: Work.Standing, c: Work.WorkCommand, now: int)
    requires c.Complete? && Work.Decide(w, k, standing, c, now).Write?
    ensures var v := Work.Decide(w, k, standing, c, now);
            forall n | n in v.notes :: !OfRun(n.kind) && TrueOfWork(v.work, v.run, n)
  {}

  lemma EffectNotesTrue(w: Work.Work, k: RunKey, standing: Work.Standing, c: Work.WorkCommand, now: int)
    requires !c.Claim? && !c.Complete? && !c.Recover? && Work.Decide(w, k, standing, c, now).Write?
    requires WorkProofs.WorkInv(w)
    ensures var v := Work.Decide(w, k, standing, c, now);
            forall n | n in v.notes :: !OfRun(n.kind) && TrueOfWork(v.work, v.run, n)
  {
    var v := Work.Decide(w, k, standing, c, now);
    if c.CommitEffect? {
      var e := TenantKey(k.tenant, c.effect);
      assert WorkProofs.EffectInv(w, e);
      hide WorkProofs.WorkInv;
      assert e in v.work.effects;
    } else if c.Reserve? {
      hide WorkProofs.WorkInv;
      assert TenantKey(k.tenant, c.effect) in v.work.effects;
    } else {
      hide WorkProofs.WorkInv;
    }
  }

  lemma {:induction false} RecoveryNotesTrue(w: Work.Work, k: RunKey, found: seq<Id>, delay: int, now: int)
    requires WorkProofs.WorkInv(w) && Work.RecoverAll(w, k, found, delay, now).Some?
    ensures var done := Work.RecoverAll(w, k, found, delay, now).value;
            forall n | n in done.1 :: !OfRun(n.kind) && TrueOfWork(done.0, k, n)
    decreases |found|
  {
    hide WorkProofs.WorkInv, WorkProofs.Later, TrueOfWork, OfRun;
    if found == [] {
    } else {
      var next := Work.RecoverRow(w, k, found[0], delay, now);
      var done := Work.RecoverAll(w, k, found, delay, now).value;
      WorkProofs.RecoverEnds(w, k, found[0], delay, now);
      WorkProofs.LeaseEndKeeps(w, next, Work.TaskKey(k, found[0]),
                               Work.AttemptKey(k, w.tasks[Work.TaskKey(k, found[0])].holder.value.attempt));
      WorkProofs.RecoverKeeps(next, k, found[1..], delay, now);
      RecoveryNotesTrue(next, k, found[1..], delay, now);
      RowNotesTrue(w, k, found[0], delay, now);
      forall n | n in Work.RecoverNotes(w, k, found[0]) ensures TrueOfWork(done.0, k, n) {
        WorkTruthStays(next, done.0, k, n);
      }
    }
  }

  lemma RowNotesTrue(w: Work.Work, k: RunKey, id: Id, delay: int, now: int)
    requires Work.Recoverable(w, k, id, now) && Work.RecoverySound(w, k, id)
    ensures forall n | n in Work.RecoverNotes(w, k, id) ::
              !OfRun(n.kind) && TrueOfWork(Work.RecoverRow(w, k, id, delay, now), k, n)
  {}

  // --------------------------------------------------------------- one step

  /** What appending adds: events of that run, with these notes and this moment. */
  predicate Written(event: Log.Event, notes: seq<Note>, revision: int, state: RunState, now: int) {
    && event.note in notes && event.revision == revision && event.state == state && event.occurredAt == now
    && event.delivery == Log.FreshDelivery(now)
  }

  lemma {:induction false} AppendedIs(l: Log.Log, k: RunKey, notes: seq<Note>, revision: int, state: RunState, now: int)
    requires LogProofs.LogInv(l) && k in l.next
    ensures var m := Log.AppendAll(l, k, notes, revision, state, now);
            && (forall e | e in l.events :: e in m.events && m.events[e] == l.events[e])
            && forall e | e in m.events && e !in l.events ::
                 e.run == k && Written(m.events[e], notes, revision, state, now)
    decreases |notes|
  {
    hide LogProofs.LogInv, LogProofs.Later, Written;
    if notes == [] {
    } else {
      LogProofs.AppendKeeps(l, k, notes[0], revision, state, now);
      var next := Log.Append(l, k, notes[0], revision, state, now);
      AppendedIs(next, k, notes[1..], revision, state, now);
      var m := Log.AppendAll(l, k, notes, revision, state, now);
      forall e | e in m.events && e !in l.events
        ensures e.run == k && Written(m.events[e], notes, revision, state, now)
      {
        if e in next.events {
          assert e == Log.EventKey(k, l.next[k]);
          FirstWritten(m.events[e], notes, revision, state, now);
        } else {
          LaterWritten(m.events[e], notes, revision, state, now);
        }
      }
    }
  }

  lemma FirstWritten(event: Log.Event, notes: seq<Note>, revision: int, state: RunState, now: int)
    requires notes != [] && event == Log.Event(notes[0], revision, state, now, Log.FreshDelivery(now))
    ensures Written(event, notes, revision, state, now)
  {}

  lemma LaterWritten(event: Log.Event, notes: seq<Note>, revision: int, state: RunState, now: int)
    requires notes != [] && Written(event, notes[1..], revision, state, now)
    ensures Written(event, notes, revision, state, now)
  {}

  predicate AllTrue(db: Db) {
    forall e | e in db.log.events :: True(db, e.run, db.log.events[e].note, db.log.events[e].state)
  }

  /** Where each event after a step comes from: it was there, but for its delivery,
      or it was written now about the run's new row. */
  predicate Testifies(db: Db, after: Db, e: Log.EventKey, now: int)
    requires e in after.log.events
  {
    if e in db.log.events then after.log.events[e].(delivery := db.log.events[e].delivery) == db.log.events[e]
    else
      && e.run in after.gate.runs
      && var run, event := after.gate.runs[e.run], after.log.events[e];
         && event.revision == run.revision && event.state == run.state && event.occurredAt == now
         && event.delivery == Log.FreshDelivery(now) && True(after, e.run, event.note, event.state)
  }

  lemma CommitTestifies(db: Db, after: Db, k: RunKey, notes: seq<Note>, now: int, base: Log.Log)
    requires LogProofs.LogInv(base) && k in base.next && base.events == db.log.events && k in after.gate.runs
    requires var run := after.gate.runs[k];
             after.log == Log.AppendAll(base, k, notes, run.revision, run.state, now)
    requires forall n | n in notes :: True(after, k, n, after.gate.runs[k].state)
    ensures forall e | e in after.log.events :: Testifies(db, after, e, now)
  {
    hide LogProofs.LogInv, True;
    AppendedIs(base, k, notes, after.gate.runs[k].revision, after.gate.runs[k].state, now);
  }

  lemma LifecycleTestifies(db: Db, k: RunKey, c: Gate.GateCommand, key: Id, request: Id, now: int)
    requires DbInv(db)
    ensures var after := LifecycleTx(db, k, c, key, request, now).db;
            forall e | e in after.log.events :: Testifies(db, after, e, now)
  {
    hide Gate.Decide, True, LogProofs.LogInv, WorkProofs.WorkInv, GateProofs.GateInv, Log.AppendAll;
    var after := LifecycleTx(db, k, c, key, request, now).db;
    var v := Gate.Decide(db.gate, k, c, now);
    if v.Write? && k in v.gate.runs && after != db {
      assert after == CommitGate(db, k, v.gate, v.notes, now).(stored := after.stored);
      GateDecided(db.gate, k, c, now, v.gate, v.notes);
      assert GateProofs.RunInv(v.gate, k) by { RunHolds(v.gate, k); }
      hide LifecycleTx;
      GateNotesTrue(db.gate, k, c, now, v.gate, v.notes);
      var base := if k in db.log.next then db.log else Log.Open(db.log, k);
      if k !in db.log.next { LogProofs.OpenKeeps(db.log, k); }
      forall n | n in v.notes ensures True(after, k, n, after.gate.runs[k].state) {
        GateTruth(after, k, n, after.gate.runs[k].state);
      }
      CommitTestifies(db, after, k, v.notes, now, base);
    }
  }

  lemma RunHolds(g: Gate.Gate, k: RunKey)
    requires GateProofs.GateInv(g) && k in g.runs
    ensures GateProofs.RunInv(g, k)
  {}

  lemma GateTruth(db: Db, k: RunKey, n: Note, state: RunState)
    requires OfRun(n.kind) && TrueOfGate(db.gate, k, n, state)
    ensures True(db, k, n, state)
  {}

  lemma TaskTestifies(db: Db, k: RunKey, c: Work.WorkCommand, now: int)
    requires DbInv(db)
    ensures var after := TaskTx(db, k, c, now).db;
            forall e | e in after.log.events :: Testifies(db, after, e, now)
  {
    hide Work.Decide, True, LogProofs.LogInv, WorkProofs.WorkInv, GateProofs.GateInv, Log.AppendAll, StandingOf;
    var after := TaskTx(db, k, c, now).db;
    var v := Work.Decide(db.work, k, StandingOf(db.gate, k), c, now);
    if v.Write? && v.run in db.gate.runs && v.run in db.log.next && after != db {
      WorkNotesTrue(db.work, k, StandingOf(db.gate, k), c, now);
      forall n | n in v.notes ensures True(after, v.run, n, after.gate.runs[v.run].state) {
        WorkTruth(after, v.run, n, after.gate.runs[v.run].state);
      }
      CommitTestifies(db, after, v.run, v.notes, now, db.log);
    }
  }

  lemma WorkTruth(db: Db, k: RunKey, n: Note, state: RunState)
    requires !OfRun(n.kind) && TrueOfWork(db.work, k, n)
    ensures True(db, k, n, state)
  {}

  lemma RelayTestifies(db: Db, c: Log.OutboxCommand, now: int)
    requires DbInv(db)
    ensures var after := db.(log := Log.Outbox(db.log, c, now).log);
            forall e | e in after.log.events :: Testifies(db, after, e, now)
  {
    hide DbInv, True;
  }

  lemma StepTestifies(db: Db, c: Command, now: int)
    requires DbInv(db)
    ensures forall e | e in Apply(db, c, now).db.log.events :: Testifies(db, Apply(db, c, now).db, e, now)
  {
    hide DbInv, Testifies, LifecycleTx, TaskTx, Log.Outbox;
    match c
    case Lifecycle(k, gate, key, request) => LifecycleTestifies(db, k, gate, key, request, now);
    case Task(k, work) => TaskTestifies(db, k, work, now);
    case Relay(outbox) => RelayTestifies(db, outbox, now);
  }

  lemma ApplyTrue(db: Db, c: Command, now: int)
    requires DbInv(db) && AllTrue(db)
    ensures AllTrue(Apply(db, c, now).db)
  {
    hide DbInv, True, Apply, Later;
    var after := Apply(db, c, now).db;
    StepTestifies(db, c, now);
    ApplyKeeps(db, c, now);
    forall e | e in after.log.events ensures True(after, e.run, after.log.events[e].note, after.log.events[e].state) {
      if e in db.log.events { TruthStays(db, after, e.run, db.log.events[e].note, db.log.events[e].state); }
    }
  }

  // --------------------------------------------------------------- theorems

  lemma {:induction false} HistoryTrue(db: Db, history: seq<Timed>)
    requires DbInv(db) && AllTrue(db)
    ensures AllTrue(Run(db, history))
    decreases |history|
  {
    hide DbInv, AllTrue, Apply, Later;
    if history == [] {
    } else {
      ApplyTrue(db, history[0].command, history[0].now);
      ApplyKeeps(db, history[0].command, history[0].now);
      HistoryTrue(Apply(db, history[0].command, history[0].now).db, history[1..]);
    }
  }

  /** Every event of a reachable database is true of its rows. */
  lemma EveryEventIsTrue(history: seq<Timed>, e: Log.EventKey)
    requires e in Run(EMPTY, history).log.events
    ensures var db := Run(EMPTY, history); True(db, e.run, db.log.events[e].note, db.log.events[e].state)
  {
    EmptyHolds();
    HistoryTrue(EMPTY, history);
    hide Run, True;
  }

  /** The command at this place wrote the event, about the run as it then was. */
  predicate Wrote(history: seq<Timed>, i: nat, e: Log.EventKey, event: Log.Event)
    requires i < |history|
  {
    var before, after := Run(EMPTY, history[..i]), Run(EMPTY, history[..i + 1]);
    && e !in before.log.events && e in after.log.events && event.occurredAt == history[i].now
    && e.run in after.gate.runs && event.revision == after.gate.runs[e.run].revision
    && event.state == after.gate.runs[e.run].state
  }

  lemma WroteLonger(history: seq<Timed>, more: seq<Timed>, i: nat, e: Log.EventKey, event: Log.Event)
    requires i < |history| && Wrote(history, i, e, event)
    ensures Wrote(history + more, i, e, event)
  {
    assert (history + more)[..i] == history[..i] && (history + more)[..i + 1] == history[..i + 1];
  }

  /** Every event of a reachable database tells the time of the command that wrote
      it, and the revision and state its run then had. */
  lemma {:induction false} EveryEventTellsItsMoment(history: seq<Timed>, e: Log.EventKey)
    requires e in Run(EMPTY, history).log.events
    ensures exists i: nat :: i < |history| && Wrote(history, i, e, Run(EMPTY, history).log.events[e])
    decreases |history|
  {
    hide Apply, Run, DbInv, True, Later;
    if history == [] {
      NoEventsAtFirst(e);
    } else {
      var init, last := history[..|history| - 1], history[|history| - 1];
      assert history == init + [last];
      RunExtends(EMPTY, init, last);
      EmptyHolds();
      HistoryKeeps(EMPTY, init);
      var db, after := Run(EMPTY, init), Run(EMPTY, history);
      StepTestifies(db, last.command, last.now);
      assert Testifies(db, after, e, last.now);
      if e in db.log.events {
        EveryEventTellsItsMoment(init, e);
        var i: nat :| i < |init| && Wrote(init, i, e, db.log.events[e]);
        WroteLonger(init, [last], i, e, db.log.events[e]);
        SameMoment(history, i, e, db.log.events[e], after.log.events[e]);
      } else {
        assert history[..|history| - 1] == init && history[..|history|] == history;
        assert Wrote(history, |history| - 1, e, after.log.events[e]);
      }
    }
  }

  lemma SameMoment(history: seq<Timed>, i: nat, e: Log.EventKey, event: Log.Event, next: Log.Event)
    requires i < |history| && Wrote(history, i, e, event) && next.(delivery := event.delivery) == event
    ensures Wrote(history, i, e, next)
  {}

  lemma NoEventsAtFirst(e: Log.EventKey)
    ensures e !in Run(EMPTY, []).log.events
  {}
}
