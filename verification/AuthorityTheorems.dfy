/** The promises of the authority, over every history of commands. */
module AuthorityTheorems {
  import opened Common
  import opened AuthorityTables
  import opened Authority
  import opened AuthorityHistory
  import Gate = AuthorityGate
  import GateProofs = AuthorityGateProofs
  import Work = AuthorityWork
  import WorkProofs = AuthorityWorkProofs
  import Log = AuthorityLog
  import LogProofs = AuthorityLogProofs
  import Outlook = AuthorityOutlook

  // ------------------------------------------------------- approval chain

  /** Everything a succeeded run rests on. */
  predicate WholeChain(g: Gate.Gate, k: RunKey) {
    && GateProofs.Sealed(g, k) && GateProofs.Released(g, k)
    && k in g.runs && GateProofs.Proven(g, k, g.runs[k].release)
  }

  /** A run succeeds only on two linked approvals by distinct subjects, a sealed
      checkpoint with unchanged model calls, a release of that approval over its
      plan, a launched result and a verified reconciliation. */
  lemma SuccessNeedsTheWholeChain(history: seq<Timed>, k: RunKey)
    requires k in Run(EMPTY, history).gate.runs && Run(EMPTY, history).gate.runs[k].state.Succeeded?
    ensures WholeChain(Run(EMPTY, history).gate, k)
  {
    EmptyHolds();
    HistoryKeeps(EMPTY, history);
    var g := Run(EMPTY, history).gate;
    hide Run;
    assert GateProofs.RunInv(g, k);
  }

  /** A run carries an approval id exactly while its chain is sealed. */
  lemma ApprovedIffSealed(history: seq<Timed>, k: RunKey)
    requires k in Run(EMPTY, history).gate.runs
    ensures var g := Run(EMPTY, history).gate; Filled(g.runs[k].approval) <==> GateProofs.Sealed(g, k)
  {
    EmptyHolds();
    HistoryKeeps(EMPTY, history);
    var g := Run(EMPTY, history).gate;
    hide Run;
    assert GateProofs.RunInv(g, k);
  }

  /** Each approval consumed one nonce, and no nonce served two approvals. */
  lemma NoncesAreSingleUse(history: seq<Timed>, a: TenantKey, b: TenantKey)
    requires var g := Run(EMPTY, history).gate; a in g.approvals && b in g.approvals && a.tenant == b.tenant
    ensures var g := Run(EMPTY, history).gate;
            && TenantKey(a.tenant, g.approvals[a].nonce) in g.nonces
            && g.nonces[TenantKey(a.tenant, g.approvals[a].nonce)].binding == g.approvals[a].binding
            && (g.approvals[a].nonce == g.approvals[b].nonce ==> a == b)
  {
    EmptyHolds();
    HistoryKeeps(EMPTY, history);
    var g := Run(EMPTY, history).gate;
    hide Run, GateProofs.RunInv;
    assert GateProofs.ApprovalInv(g, a) && GateProofs.ApprovalInv(g, b);
    assert GateProofs.NonceInv(g, TenantKey(a.tenant, g.approvals[a].nonce));
  }

  /** A terminal run never changes again and never starts another attempt. */
  lemma {:induction false} TerminalRunsStand(db: Db, history: seq<Timed>, k: RunKey)
    requires DbInv(db) && k in db.gate.runs && Terminal(db.gate.runs[k].state)
    ensures var after := Run(db, history);
            && k in after.gate.runs && after.gate.runs[k] == db.gate.runs[k]
            && forall a | a in after.work.attempts && a.run == k :: a in db.work.attempts
    decreases |history|
  {
    if history == [] {
    } else {
      var next := Apply(db, history[0].command, history[0].now).db;
      ApplyKeeps(db, history[0].command, history[0].now);
      forall a | a in next.work.attempts && a.run == k ensures a in db.work.attempts {
        EndedStartsNothing(db, history[0].command, history[0].now, a);
      }
      assert k in next.gate.runs && next.gate.runs[k] == db.gate.runs[k] by { hide Apply, DbInv; }
      hide Apply, DbInv;
      TerminalRunsStand(next, history[1..], k);
    }
  }

  lemma EndedStartsNothing(db: Db, c: Command, now: int, a: Work.AttemptKey)
    requires a.run in db.gate.runs && Terminal(db.gate.runs[a.run].state)
    requires a in Apply(db, c, now).db.work.attempts
    ensures a in db.work.attempts
  {
    if a !in db.work.attempts && c.Task? {
      WorkProofs.OnlyClaimsStart(db.work, c.run, StandingOf(db.gate, c.run), c.work, now, a);
    }
    hide Gate.Decide, Work.Decide, Log.Outbox;
  }

  // --------------------------------------------------------- lease fencing

  /** A task is running exactly while one of its attempts is in progress; there is
      never a second one, and it carries the task's current generation. */
  lemma RunningIffOneAttempt(history: seq<Timed>, t: Work.TaskKey)
    requires t in Run(EMPTY, history).work.tasks
    ensures var w := Run(EMPTY, history).work;
            && (w.tasks[t].status.Leased? <==> exists a :: InProgress(w, t, a))
            && (forall a, b | InProgress(w, t, a) && InProgress(w, t, b) :: a == b)
            && (forall a | InProgress(w, t, a) :: w.attempts[a].generation == w.tasks[t].generation)
  {
    EmptyHolds();
    HistoryKeeps(EMPTY, history);
    var w := Run(EMPTY, history).work;
    hide Run;
    assert WorkProofs.TaskInv(w, t);
    forall a | InProgress(w, t, a)
      ensures w.tasks[t].status.Leased? && a == Work.AttemptKey(t.run, w.tasks[t].holder.value.attempt)
    {
      assert WorkProofs.AttemptInv(w, a);
    }
    if w.tasks[t].status.Leased? {
      assert InProgress(w, t, Work.AttemptKey(t.run, w.tasks[t].holder.value.attempt));
    }
  }

  predicate InProgress(w: Work.Work, t: Work.TaskKey, a: Work.AttemptKey) {
    a in w.attempts && a.run == t.run && w.attempts[a].task == t.id && w.attempts[a].status.InProgress?
  }

  /** Attempts of a task are numbered 1..started without gap or repetition, and
      started never exceeds the task's limit; retries never exceed starts. */
  lemma AttemptsNumbered(history: seq<Timed>, t: Work.TaskKey, n: int)
    requires t in Run(EMPTY, history).work.tasks
    ensures var w := Run(EMPTY, history).work;
            && 0 <= w.tasks[t].retries <= w.tasks[t].started <= w.tasks[t].maxAttempts
            && (1 <= n <= w.tasks[t].started <==> exists a :: NumberedAs(w, t, a, n))
            && (forall a, b | NumberedAs(w, t, a, n) && NumberedAs(w, t, b, n) :: a == b)
  {
    EmptyHolds();
    HistoryKeeps(EMPTY, history);
    var w := Run(EMPTY, history).work;
    hide Run;
    assert WorkProofs.TaskInv(w, t);
    forall a | NumberedAs(w, t, a, n) ensures 1 <= n <= w.tasks[t].started { assert WorkProofs.AttemptInv(w, a); }
    if 1 <= n <= w.tasks[t].started {
      assert WorkProofs.Numbered(w, t, n);
      var a :| a in w.attempts && a.run == t.run && w.attempts[a].task == t.id && w.attempts[a].number == n;
      assert NumberedAs(w, t, a, n);
    }
  }

  predicate NumberedAs(w: Work.Work, t: Work.TaskKey, a: Work.AttemptKey, n: int) {
    a in w.attempts && a.run == t.run && w.attempts[a].task == t.id && w.attempts[a].number == n
  }

  /** `step` hands out a lease on task `t`. */
  predicate Grants(db: Db, step: Timed, t: Work.TaskKey) {
    && step.command.Task? && step.command.run == t.run
    && var reply := Apply(db, step.command, step.now).reply;
       reply.Worked? && reply.work.Granted? && reply.work.lease.task == t.id
  }

  /** Once a later claim of the task has succeeded, an earlier lease can neither
      heartbeat, complete nor reserve, however the history goes on. */
  lemma SupersededLeaseIsDead(
    db: Db, first: Timed, between: seq<Timed>, second: Timed, after: seq<Timed>,
    t: Work.TaskKey, c: Work.WorkCommand, now: int)
    requires DbInv(db) && Grants(db, first, t)
    requires var mid := Run(Apply(db, first.command, first.now).db, between); Grants(mid, second, t)
    requires var lease := Apply(db, first.command, first.now).reply.work.lease;
             WorkProofs.Presents(c, lease) && Work.WellFormed(c)
    ensures var mid := Run(Apply(db, first.command, first.now).db, between);
            var end := Run(Apply(mid, second.command, second.now).db, after);
            Apply(end, Task(t.run, c), now) == Outcome(end, Denied(StaleLease))
  {
    var start := Apply(db, first.command, first.now).db;
    var mid := Run(start, between);
    var next := Apply(mid, second.command, second.now).db;
    var end := Run(next, after);
    var lease := Apply(db, first.command, first.now).reply.work.lease;
    ApplyKeeps(db, first.command, first.now);
    HistoryKeeps(start, between);
    ApplyKeeps(mid, second.command, second.now);
    HistoryKeeps(next, after);
    GrantSetsGeneration(db, first, t);
    GrantSetsGeneration(mid, second, t);
    hide Apply, Run;
    assert t in end.work.tasks && lease.generation < end.work.tasks[t].generation && t.run in end.gate.runs;
    SupersededRefused(end, t, c, lease, now);
  }

  lemma GrantSetsGeneration(db: Db, step: Timed, t: Work.TaskKey)
    requires Grants(db, step, t)
    ensures var next := Apply(db, step.command, step.now);
            && t in db.work.tasks && t in next.db.work.tasks && Scoped(t.run)
            && next.reply.work.lease.generation == db.work.tasks[t].generation + 1 == next.db.work.tasks[t].generation
  {
    WorkProofs.GrantRaises(db.work, t.run, StandingOf(db.gate, t.run), step.command.work, step.now);
    hide Work.Decide;
  }

  lemma SupersededRefused(db: Db, t: Work.TaskKey, c: Work.WorkCommand, l: Work.Lease, now: int)
    requires t in db.work.tasks && t.id == l.task && l.generation < db.work.tasks[t].generation && t.run in db.gate.runs
    requires WorkProofs.Presents(c, l) && Work.WellFormed(c) && Scoped(t.run)
    ensures Apply(db, Task(t.run, c), now) == Outcome(db, Denied(StaleLease))
  {
    WorkProofs.OldLeaseRefused(db.work, t.run, StandingOf(db.gate, t.run), c, l, now);
    hide Work.Decide, Work.WellFormed;
  }

  // ------------------------------------------------------- ordered delivery

  function FrontierOf(l: Log.Log, k: RunKey): (p: nat) {
    if k in l.next && l.next[k] >= 1 then LogProofs.Frontier(l, k) else 0
  }

  /** The sequence numbers that a history marks published in one run, in order. */
  function Marks(db: Db, history: seq<Timed>, k: RunKey): seq<int>
    decreases |history|
  {
    if history == [] then []
    else
      var c, now := history[0].command, history[0].now;
      (if Publishes(db, c, now, k) then [c.outbox.parcel.event.sequence] else [])
          + Marks(Apply(db, c, now).db, history[1..], k)
  }

  predicate Publishes(db: Db, c: Command, now: int, k: RunKey) {
    Apply(db, c, now).reply == Relayed(Log.Marked) && c.Relay? && c.outbox.MarkPublished?
    && c.outbox.parcel.event.run == k
  }

  /** `marks` counts up by one from the number after `from` to `to`. */
  predicate Consecutive(marks: seq<int>, from: int, to: int) {
    |marks| == to - from && forall i | 0 <= i < |marks| :: marks[i] == from + 1 + i
  }

  /** Whatever relays do, each run's events are published one by one in log order:
      none skipped, none repeated. */
  lemma {:induction false} PublishedInOrder(db: Db, history: seq<Timed>, k: RunKey)
    requires DbInv(db)
    ensures Consecutive(Marks(db, history, k), FrontierOf(db.log, k), FrontierOf(Run(db, history).log, k))
    decreases |history|
  {
    hide DbInv, Apply, FrontierOf, Later, Publishes;
    if history == [] {
    } else {
      var c, now := history[0].command, history[0].now;
      var next := Apply(db, c, now).db;
      ApplyKeeps(db, c, now);
      StepPublishes(db, c, now, k);
      PublishedInOrder(next, history[1..], k);
      assert Run(db, history) == Run(next, history[1..]);
    }
  }

  lemma StepPublishes(db: Db, c: Command, now: int, k: RunKey)
    requires DbInv(db) && DbInv(Apply(db, c, now).db) && Later(db, Apply(db, c, now).db)
    ensures FrontierOf(Apply(db, c, now).db.log, k)
         == FrontierOf(db.log, k) + (if Publishes(db, c, now, k) then 1 else 0)
    ensures Publishes(db, c, now, k) ==> c.outbox.parcel.event.sequence == FrontierOf(db.log, k) + 1
  {
    var after := Apply(db, c, now).db;
    if Publishes(db, c, now, k) {
      assert Log.Carries(db.log, c.outbox.parcel, now);
      LogProofs.MarkAdvances(db.log, c.outbox.parcel, now);
    } else if k in db.log.next {
      forall s | LogProofs.PublishedAt(after.log, k, s) ensures LogProofs.PublishedAt(db.log, k, s) {
        NothingPublished(db, c, now, k, s);
      }
      hide Apply;
      LogProofs.FrontierStays(db.log, after.log, k);
    } else if k in after.log.next {
      forall s ensures !LogProofs.PublishedAt(after.log, k, s) {
        if LogProofs.PublishedAt(after.log, k, s) { NothingPublished(db, c, now, k, s); }
      }
      hide Apply;
      LogProofs.FrontierUnique(after.log, k, 0);
    }
  }

  lemma NothingPublished(db: Db, c: Command, now: int, k: RunKey, s: int)
    requires DbInv(db) && !Publishes(db, c, now, k) && LogProofs.PublishedAt(Apply(db, c, now).db.log, k, s)
    ensures LogProofs.PublishedAt(db.log, k, s)
  {
    if c.Relay? {
      if !LogProofs.PublishedAt(db.log, k, s) { LogProofs.OnlyMarksPublish(db.log, c.outbox, now, k, s); }
    } else if c.Task? {
      TaskPublishesNothing(db, c.run, c.work, now, k, s);
    } else {
      LifecyclePublishesNothing(db, c.run, c.gate, c.key, c.request, now, k, s);
    }
  }

  lemma TaskPublishesNothing(db: Db, run: RunKey, c: Work.WorkCommand, now: int, k: RunKey, s: int)
    requires LogProofs.LogInv(db.log) && LogProofs.PublishedAt(TaskTx(db, run, c, now).db.log, k, s)
    ensures LogProofs.PublishedAt(db.log, k, s)
  {
    hide Work.Decide, LogProofs.LogInv, Log.AppendAll;
    var verdict := Work.Decide(db.work, run, StandingOf(db.gate, run), c, now);
    if verdict.Write? && verdict.run in db.gate.runs && verdict.run in db.log.next {
      var row := db.gate.runs[verdict.run];
      if LogProofs.PublishedAt(Log.AppendAll(db.log, verdict.run, verdict.notes, row.revision, row.state, now), k, s) {
        LogProofs.AppendPublishesNothing(db.log, verdict.run, verdict.notes, row.revision, row.state, now, k, s);
      }
    }
  }

  lemma LifecyclePublishesNothing(db: Db, run: RunKey, c: Gate.GateCommand, key: Id, request: Id, now: int, k: RunKey,
      s: int)
    requires LogProofs.LogInv(db.log) && LogProofs.PublishedAt(LifecycleTx(db, run, c, key, request, now).db.log, k, s)
    ensures LogProofs.PublishedAt(db.log, k, s)
  {
    hide Gate.Decide, LogProofs.LogInv;
    var verdict := Gate.Decide(db.gate, run, c, now);
    if verdict.Write? && run in verdict.gate.runs {
      var row := verdict.gate.runs[run];
      var base := if run in db.log.next then db.log else Log.Open(db.log, run);
      if LogProofs.PublishedAt(Log.AppendAll(base, run, verdict.notes, row.revision, row.state, now), k, s) {
        assert LogProofs.LogInv(base) by { if run !in db.log.next { LogProofs.OpenKeeps(db.log, run); } }
        LogProofs.AppendPublishesNothing(base, run, verdict.notes, row.revision, row.state, now, k, s);
      }
    }
  }

  // ------------------------------------------------- where the code is sharp

  /** A run that left `approved` before its release was created: no edge leads back. */
  predicate Stranded(db: Db, k: RunKey) {
    k in db.gate.runs
    && var run := db.gate.runs[k];
       Filled(run.approval) && !Filled(run.release) && (run.state.Running? || run.state.AwaitingInput?)
  }

  /** A run moved on before its release was created can never succeed. */
  lemma StrandedNeverSucceeds(db: Db, history: seq<Timed>, k: RunKey)
    requires DbInv(db) && Stranded(db, k)
    ensures k in Run(db, history).gate.runs && !Run(db, history).gate.runs[k].state.Succeeded?
  {
    hide DbInv, Run;
    Outlook.DoomedNeverSucceeds(db, history, k);
  }

  /** Recording a launch again with the facts it was first recorded with answers
      with the stored row exactly while the run is approved or running; in any
      later state it is refused as a conflict. */
  lemma LaunchRetryIff(db: Db, k: RunKey, c: Gate.GateCommand, key: Id, request: Id, at: int, history: seq<Timed>,
      now: int)
    requires DbInv(db) && c.RecordLaunch? && Apply(db, Lifecycle(k, c, key, request), at).reply.Recorded?
    ensures var after := Run(Apply(db, Lifecycle(k, c, key, request), at).db, history);
            && k in after.gate.runs
            && var state := after.gate.runs[k].state;
               Apply(after, Lifecycle(k, c, key, request), now) ==
                 Outcome(after, if state.Approved? || state.Running? then Recorded(0, true) else Denied(Conflict))
  {
    var first := Apply(db, Lifecycle(k, c, key, request), at).db;
    var after := Run(first, history);
    ApplyKeeps(db, Lifecycle(k, c, key, request), at);
    HistoryKeeps(first, history);
    LaunchRecordedAs(db, k, c, key, request, at);
    assert k in after.gate.runs && after.gate.runs[k].release == c.release
           && Gate.LaunchKey(k, c.launch) in after.gate.launches
           && after.gate.launches[Gate.LaunchKey(k, c.launch)]
              == Gate.Launch(c.release, c.request, c.launched, c.operation, c.result)
    by { hide Run, Apply, DbInv; }
    hide Run, DbInv, Later, Apply;
    LaunchAgain(after, k, c, key, request, now);
  }

  lemma LaunchAgain(db: Db, k: RunKey, c: Gate.GateCommand, key: Id, request: Id, now: int)
    requires c.RecordLaunch? && Scoped(k) && Gate.WellFormed(c) && k in db.gate.runs
    requires db.gate.runs[k].release == c.release
    requires Gate.LaunchKey(k, c.launch) in db.gate.launches
    requires db.gate.launches[Gate.LaunchKey(k, c.launch)]
         == Gate.Launch(c.release, c.request, c.launched, c.operation, c.result)
    ensures var state := db.gate.runs[k].state;
            Apply(db, Lifecycle(k, c, key, request), now) ==
              Outcome(db, if state.Approved? || state.Running? then Recorded(0, true) else Denied(Conflict))
  {
  }

  lemma LaunchRecordedAs(db: Db, k: RunKey, c: Gate.GateCommand, key: Id, request: Id, now: int)
    requires c.RecordLaunch? && LifecycleTx(db, k, c, key, request, now).reply.Recorded?
    ensures var g := LifecycleTx(db, k, c, key, request, now).db.gate;
            && Scoped(k) && Gate.WellFormed(c) && k in g.runs && g.runs[k].release == c.release
            && Gate.LaunchKey(k, c.launch) in g.launches
            && g.launches[Gate.LaunchKey(k, c.launch)]
               == Gate.Launch(c.release, c.request, c.launched, c.operation, c.result)
  {
    hide Log.AppendAll;
  }
}
