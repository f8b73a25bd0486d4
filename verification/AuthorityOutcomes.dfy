/** What the end of an attempt means for its task: finished work never runs again,
    failed work may be claimed again exactly from its retry time on, and work
    without an attempt left never. */
module AuthorityOutcomes {
  import opened Common
  import opened AuthorityTables
  import opened Authority
  import opened AuthorityHistory
  import Gate = AuthorityGate
  import Work = AuthorityWork
  import WorkProofs = AuthorityWorkProofs
  import Log = AuthorityLog
  import Theorems = AuthorityTheorems
  import Fences = AuthorityFences

  // ----------------------------------------------------------- closed tasks

  /** The task has ended: it is done or out of attempts. */
  predicate Closed(w: Work.Work, t: Work.TaskKey) {
    t in w.tasks && (w.tasks[t].status.Done? || w.tasks[t].status.Buried?)
  }

  predicate AttemptOn(w: Work.Work, a: Work.AttemptKey, t: Work.TaskKey) {
    a in w.attempts && a.run == t.run && w.attempts[a].task == t.id
  }

  predicate NoNewAttempt(w: Work.Work, u: Work.Work, t: Work.TaskKey) {
    forall a | a in u.attempts && AttemptOn(u, a, t) :: a in w.attempts
  }

  /** A claim of the task that the run's standing and a new attempt id allow. */
  predicate Proper(db: Db, t: Work.TaskKey, claim: Work.WorkCommand) {
    && Scoped(t.run) && claim.Claim? && claim.task == t.id && Work.WellFormed(claim)
    && StandingOf(db.gate, t.run).Live? && Work.AttemptKey(t.run, claim.attempt) !in db.work.attempts
  }

  predicate Granted(step: Outcome) { step.reply.Worked? && step.reply.work.Granted? }

  /** From this database on, whatever happens, no claim of the task is granted and
      no attempt is added to it. */
  ghost predicate NeverAgain(db: Db, t: Work.TaskKey) {
    forall history: seq<Timed>, claim: Work.WorkCommand, now: int | claim.Claim? && claim.task == t.id ::
      NoNewAttempt(db.work, Run(db, history).work, t) && !Granted(Apply(Run(db, history), Task(t.run, claim), now))
  }

  lemma ClosedStartsNothing(db: Db, c: Command, now: int, t: Work.TaskKey, a: Work.AttemptKey)
    requires Closed(db.work, t) && a !in db.work.attempts && c.Task?
    requires Work.Decide(db.work, c.run, StandingOf(db.gate, c.run), c.work, now).Write?
    ensures !AttemptOn(Work.Decide(db.work, c.run, StandingOf(db.gate, c.run), c.work, now).work, a, t)
  {
    var v := Work.Decide(db.work, c.run, StandingOf(db.gate, c.run), c.work, now);
    if a in v.work.attempts {
      WorkProofs.OnlyClaimsStart(db.work, c.run, StandingOf(db.gate, c.run), c.work, now, a);
    }
  }

  lemma ClosedStays(db: Db, c: Command, now: int, t: Work.TaskKey)
    requires DbInv(db) && Closed(db.work, t)
    ensures Closed(Apply(db, c, now).db.work, t) && NoNewAttempt(db.work, Apply(db, c, now).db.work, t)
  {
    hide AttemptOn, Closed, Gate.Decide, Work.Decide, Log.AppendAll, Log.Outbox, StandingOf, DbInv;
    forall a | AttemptOn(Apply(db, c, now).db.work, a, t) ensures a in db.work.attempts {
      if a !in db.work.attempts {
        OnAttempt(db.work, a, t);
        if c.Task? && Work.Decide(db.work, c.run, StandingOf(db.gate, c.run), c.work, now).Write? {
          ClosedStartsNothing(db, c, now, t, a);
        }
      }
    }
    hide Apply;
    StillClosed(db, c, now, t);
  }

  lemma OnAttempt(w: Work.Work, a: Work.AttemptKey, t: Work.TaskKey)
    requires a !in w.attempts
    ensures !AttemptOn(w, a, t)
  {}

  lemma StillClosed(db: Db, c: Command, now: int, t: Work.TaskKey)
    requires DbInv(db) && Closed(db.work, t)
    ensures Closed(Apply(db, c, now).db.work, t)
  {
    hide Apply, DbInv;
    ApplyKeeps(db, c, now);
  }

  lemma {:induction false} ClosedForGood(db: Db, history: seq<Timed>, t: Work.TaskKey)
    requires DbInv(db) && Closed(db.work, t)
    ensures Closed(Run(db, history).work, t) && NoNewAttempt(db.work, Run(db, history).work, t)
    decreases |history|
  {
    hide Apply, DbInv, AttemptOn, Closed, Later;
    if history == [] {
      SameAttempts(db.work, t);
    } else {
      var next := Apply(db, history[0].command, history[0].now).db;
      ApplyKeeps(db, history[0].command, history[0].now);
      ClosedStays(db, history[0].command, history[0].now, t);
      ClosedForGood(next, history[1..], t);
      HistoryKeeps(next, history[1..]);
      AttemptsBack(db.work, next, Run(next, history[1..]), t);
    }
  }

  lemma SameAttempts(w: Work.Work, t: Work.TaskKey)
    ensures NoNewAttempt(w, w, t)
  {}

  lemma AttemptsBack(w: Work.Work, next: Db, after: Db, t: Work.TaskKey)
    requires NoNewAttempt(w, next.work, t) && NoNewAttempt(next.work, after.work, t) && Later(next, after)
    ensures NoNewAttempt(w, after.work, t)
  {
    forall a | a in after.work.attempts && AttemptOn(after.work, a, t) ensures a in w.attempts {
      assert AttemptOn(next.work, a, t);
    }
  }

  lemma ClosedRefuses(db: Db, t: Work.TaskKey, claim: Work.WorkCommand, now: int)
    requires Closed(db.work, t) && claim.Claim? && claim.task == t.id
    ensures !Granted(Apply(db, Task(t.run, claim), now))
  {
    hide Log.AppendAll;
  }

  lemma ClosedIsForever(db: Db, t: Work.TaskKey)
    requires DbInv(db) && Closed(db.work, t)
    ensures NeverAgain(db, t)
  {
    hide Apply, Run, DbInv, NoNewAttempt, Closed, Granted;
    forall history: seq<Timed>, claim: Work.WorkCommand, now: int | claim.Claim? && claim.task == t.id
      ensures NoNewAttempt(db.work, Run(db, history).work, t)
      ensures !Granted(Apply(Run(db, history), Task(t.run, claim), now))
    {
      ClosedForGood(db, history, t);
      ClosedRefuses(Run(db, history), t, claim, now);
    }
  }

  // ---------------------------------------------------------- waiting tasks

  /** The task is free from this time on and has an attempt left. */
  predicate Waits(w: Work.Work, t: Work.TaskKey, from: int) {
    && t in w.tasks && w.tasks[t].status.Retryable? && w.tasks[t].availableAt == from
    && w.tasks[t].started < w.tasks[t].maxAttempts && w.tasks[t].holder.None?
  }

  /** No step of the history is granted the task. */
  predicate Unclaimed(db: Db, history: seq<Timed>, t: Work.TaskKey)
    decreases |history|
  {
    history == []
    || (!Theorems.Grants(db, history[0], t)
        && Unclaimed(Apply(db, history[0].command, history[0].now).db, history[1..], t))
  }

  /** As long as nobody is granted the task, a proper claim of it is granted if and
      only if it comes at this time or later. */
  ghost predicate ClaimableFrom(db: Db, t: Work.TaskKey, from: int) {
    forall history: seq<Timed>, claim: Work.WorkCommand, now: int
      | Unclaimed(db, history, t) && Proper(Run(db, history), t, claim) ::
      Granted(Apply(Run(db, history), Task(t.run, claim), now)) <==> now >= from
  }

  lemma WaitsUnlessGranted(w: Work.Work, k: RunKey, standing: Work.Standing, c: Work.WorkCommand, now: int,
      t: Work.TaskKey, from: int)
    requires Waits(w, t, from) && Work.Decide(w, k, standing, c, now).Write? && !c.Recover?
    requires !(k == t.run && c.Claim? && c.task == t.id && Work.Decide(w, k, standing, c, now).reply.Granted?)
    ensures Waits(Work.Decide(w, k, standing, c, now).work, t, from)
  {}

  lemma {:induction false} RecoveryPasses(w: Work.Work, k: RunKey, found: seq<Id>, delay: int, now: int,
      t: Work.TaskKey, from: int)
    requires Waits(w, t, from) && Work.RecoverAll(w, k, found, delay, now).Some?
    ensures Waits(Work.RecoverAll(w, k, found, delay, now).value.0, t, from)
    decreases |found|
  {
    if found == [] {
    } else {
      assert Work.TaskKey(k, found[0]) != t;
      RecoveryPasses(Work.RecoverRow(w, k, found[0], delay, now), k, found[1..], delay, now, t, from);
    }
  }

  lemma GrantsIs(db: Db, k: RunKey, c: Work.WorkCommand, now: int, t: Work.TaskKey)
    requires k == t.run && c.Claim? && c.task == t.id && k in db.gate.runs && k in db.log.next && Scoped(k)
    requires var v := Work.Decide(db.work, k, StandingOf(db.gate, k), c, now); v.Write? && v.reply.Granted?
    ensures Theorems.Grants(db, Timed(Task(k, c), now), t)
  {
    hide Log.AppendAll;
  }

  lemma WaitsStays(db: Db, step: Timed, t: Work.TaskKey, from: int)
    requires DbInv(db) && Waits(db.work, t, from) && !Theorems.Grants(db, step, t)
    ensures Waits(Apply(db, step.command, step.now).db.work, t, from)
  {
    hide Waits, Gate.Decide, Work.Decide, Log.AppendAll, Log.Outbox, StandingOf, Theorems.Grants;
    match step.command
    case Lifecycle(_, _, _, _) =>
    case Relay(_) =>
    case Task(k, work) =>
      var standing := StandingOf(db.gate, k);
      if Scoped(k) && Work.Decide(db.work, k, standing, work, step.now).Write? {
        if work.Recover? {
          Fences.RecoverIs(db.work, k, standing, work, step.now);
          RecoveryPasses(db.work, k, work.found, work.delay, step.now, t, from);
        } else {
          TaskRunKnown(db, t, from);
          if k == t.run && work.Claim? && work.task == t.id
             && Work.Decide(db.work, k, standing, work, step.now).reply.Granted? {
            GrantsIs(db, k, work, step.now, t);
          } else {
            WaitsUnlessGranted(db.work, k, standing, work, step.now, t, from);
          }
        }
      }
  }

  lemma TaskRunKnown(db: Db, t: Work.TaskKey, from: int)
    requires DbInv(db) && Waits(db.work, t, from)
    ensures t.run in db.gate.runs && t.run in db.log.next
  {}

  lemma {:induction false} WaitsOn(db: Db, history: seq<Timed>, t: Work.TaskKey, from: int)
    requires DbInv(db) && Waits(db.work, t, from) && Unclaimed(db, history, t)
    ensures DbInv(Run(db, history)) && Waits(Run(db, history).work, t, from)
    decreases |history|
  {
    hide Apply, DbInv, Waits, Theorems.Grants, Later;
    if history == [] {
    } else {
      ApplyKeeps(db, history[0].command, history[0].now);
      WaitsStays(db, history[0], t, from);
      WaitsOn(Apply(db, history[0].command, history[0].now).db, history[1..], t, from);
    }
  }

  lemma WaitingClaim(db: Db, t: Work.TaskKey, from: int, claim: Work.WorkCommand, now: int)
    requires DbInv(db) && Waits(db.work, t, from) && Proper(db, t, claim)
    ensures Granted(Apply(db, Task(t.run, claim), now)) <==> now >= from
  {
    hide Log.AppendAll, Work.Decide, Work.WellFormed;
    Fences.ClaimGrantedIff(db.work, t.run, StandingOf(db.gate, t.run), claim, now);
    if Work.Decide(db.work, t.run, StandingOf(db.gate, t.run), claim, now).Write? {
      ClaimOwns(db.work, t.run, StandingOf(db.gate, t.run), claim, now);
    }
  }

  lemma ClaimOwns(w: Work.Work, k: RunKey, standing: Work.Standing, c: Work.WorkCommand, now: int)
    requires c.Claim? && Work.Decide(w, k, standing, c, now).Write?
    ensures Work.Decide(w, k, standing, c, now).run == k
  {}

  lemma WaitingIsClaimable(db: Db, t: Work.TaskKey, from: int)
    requires DbInv(db) && Waits(db.work, t, from)
    ensures ClaimableFrom(db, t, from)
  {
    hide Apply, Run, DbInv, Waits, Granted, Proper, Unclaimed;
    forall history: seq<Timed>, claim: Work.WorkCommand, now: int
      | Unclaimed(db, history, t) && Proper(Run(db, history), t, claim)
      ensures Granted(Apply(Run(db, history), Task(t.run, claim), now)) <==> now >= from
    {
      WaitsOn(db, history, t, from);
      WaitingClaim(Run(db, history), t, from, claim, now);
    }
  }

  // ------------------------------------------------------------ completion

  /** A completion of the task that the authority accepted. */
  predicate Completes(db: Db, t: Work.TaskKey, c: Work.WorkCommand, at: int) {
    && c.Complete? && c.lease.task == t.id
    && Apply(db, Task(t.run, c), at).reply == Worked(Work.WorkReply.Accepted)
  }

  predicate Ended(w: Work.Work, a: Work.AttemptKey, status: Work.AttemptStatus, output: Id, failure: Id, at: int) {
    && a in w.attempts && w.attempts[a].status == status && w.attempts[a].completedAt == Some(at)
    && w.attempts[a].output == output && w.attempts[a].failure == failure
  }

  /** What a completion leaves of its task and attempt. */
  predicate Concluded(w: Work.Work, u: Work.Work, t: Work.TaskKey, c: Work.WorkCommand, at: int)
    requires c.Complete?
  {
    && t in w.tasks && t in u.tasks
    && Ended(u, Work.AttemptKey(t.run, c.lease.attempt), if c.succeeded then Work.Succeeded else Work.Failed, c.output,
             c.failure, at)
    && if c.succeeded then Closed(u, t) && u.tasks[t].retries == w.tasks[t].retries
       else if w.tasks[t].started < w.tasks[t].maxAttempts
       then Waits(u, t, at + Work.WholeSeconds(c.delay)) && u.tasks[t].retries == w.tasks[t].retries + 1
       else Closed(u, t)
  }

  lemma CompletionConcludes(w: Work.Work, k: RunKey, standing: Work.Standing, c: Work.WorkCommand, at: int)
    requires c.Complete? && Work.Decide(w, k, standing, c, at).Write?
    ensures Concluded(w, Work.Decide(w, k, standing, c, at).work, Work.TaskKey(k, c.lease.task), c, at)
  {}

  lemma CompletionRows(db: Db, t: Work.TaskKey, c: Work.WorkCommand, at: int)
    requires DbInv(db) && Completes(db, t, c, at)
    ensures Concluded(db.work, Apply(db, Task(t.run, c), at).db.work, t, c, at)
  {
    hide Log.AppendAll, Work.Decide, DbInv, Concluded;
    CompletionConcludes(db.work, t.run, StandingOf(db.gate, t.run), c, at);
  }

  lemma EndedStands(db: Db, history: seq<Timed>, a: Work.AttemptKey, status: Work.AttemptStatus, output: Id,
      failure: Id, at: int)
    requires DbInv(db) && Ended(db.work, a, status, output, failure, at) && !status.InProgress?
    ensures Ended(Run(db, history).work, a, status, output, failure, at)
  {
    hide Run, DbInv;
    HistoryKeeps(db, history);
  }

  /** After an accepted success the attempt row carries the output for good, and
      the task never runs again. */
  lemma FinishedWorkNeverRunsAgain(db: Db, t: Work.TaskKey, c: Work.WorkCommand, at: int, history: seq<Timed>)
    requires DbInv(db) && Completes(db, t, c, at) && c.succeeded
    ensures var next := Apply(db, Task(t.run, c), at).db;
            && NeverAgain(next, t)
            && Ended(Run(next, history).work, Work.AttemptKey(t.run, c.lease.attempt), Work.Succeeded, c.output, Null,
                     at)
  {
    hide Run, DbInv, Closed, NeverAgain, Ended;
    var next := Apply(db, Task(t.run, c), at).db;
    CompletionRows(db, t, c, at);
    ApplyKeeps(db, Task(t.run, c), at);
    assert c.failure == Null by { SuccessHasNoFailure(db, t, c, at); }
    hide Apply, Completes;
    ClosedIsForever(next, t);
    EndedStands(next, history, Work.AttemptKey(t.run, c.lease.attempt), Work.Succeeded, c.output, Null, at);
  }

  lemma SuccessHasNoFailure(db: Db, t: Work.TaskKey, c: Work.WorkCommand, at: int)
    requires Completes(db, t, c, at)
    ensures if c.succeeded then c.failure == Null && Filled(c.output) else c.output == Null && Filled(c.failure)
  {
    hide Log.AppendAll;
  }

  /** After an accepted failure with an attempt left, the task may be claimed again
      exactly from the retry delay on. */
  lemma FailedWorkRetriesFrom(db: Db, t: Work.TaskKey, c: Work.WorkCommand, at: int, history: seq<Timed>)
    requires DbInv(db) && Completes(db, t, c, at) && !c.succeeded
    requires t in db.work.tasks && db.work.tasks[t].started < db.work.tasks[t].maxAttempts
    ensures var next := Apply(db, Task(t.run, c), at).db;
            && ClaimableFrom(next, t, at + Work.WholeSeconds(c.delay))
            && Ended(Run(next, history).work, Work.AttemptKey(t.run, c.lease.attempt), Work.Failed, Null, c.failure, at)
  {
    hide Run, DbInv, Apply, Waits, ClaimableFrom, Ended, Closed, Work.WholeSeconds;
    var next := Apply(db, Task(t.run, c), at).db;
    CompletionRows(db, t, c, at);
    ApplyKeeps(db, Task(t.run, c), at);
    SuccessHasNoFailure(db, t, c, at);
    WaitingIsClaimable(next, t, at + Work.WholeSeconds(c.delay));
    EndedStands(next, history, Work.AttemptKey(t.run, c.lease.attempt), Work.Failed, Null, c.failure, at);
  }

  /** After the failure of its last attempt the task never runs again. */
  lemma ExhaustedWorkNeverRunsAgain(db: Db, t: Work.TaskKey, c: Work.WorkCommand, at: int)
    requires DbInv(db) && Completes(db, t, c, at) && !c.succeeded
    requires t in db.work.tasks && db.work.tasks[t].started >= db.work.tasks[t].maxAttempts
    ensures NeverAgain(Apply(db, Task(t.run, c), at).db, t)
  {
    hide DbInv, Closed, NeverAgain, Ended, Waits;
    CompletionRows(db, t, c, at);
    ApplyKeeps(db, Task(t.run, c), at);
    hide Apply, Completes;
    ClosedIsForever(Apply(db, Task(t.run, c), at).db, t);
  }

  // -------------------------------------------------------------- recovery

  /** A recovery that took the task's expired lease. */
  predicate Recovers(db: Db, t: Work.TaskKey, c: Work.WorkCommand, at: int) {
    && c.Recover? && t.id in c.found
    && var reply := Apply(db, Task(t.run, c), at).reply; reply.Worked? && reply.work.Recovered?
  }

  /** What recovery leaves of a task that lost its lease. */
  predicate Lapsed(w: Work.Work, u: Work.Work, t: Work.TaskKey, delay: int, at: int) {
    && t in w.tasks && w.tasks[t].holder.Some? && t in u.tasks
    && Ended(u, Work.AttemptKey(t.run, w.tasks[t].holder.value.attempt), Work.TimedOut, Null, Work.LEASE_EXPIRED, at)
    && u.tasks[t].retries == w.tasks[t].retries + 1
    && if w.tasks[t].started < w.tasks[t].maxAttempts then Waits(u, t, at + Work.WholeSeconds(delay)) else Closed(u, t)
  }

  /** The loop leaves every task it does not name alone. */
  lemma {:induction false} RowPassed(w: Work.Work, k: RunKey, found: seq<Id>, delay: int, now: int, id: Id)
    requires Work.RecoverAll(w, k, found, delay, now).Some? && id !in found && Work.TaskKey(k, id) in w.tasks
    ensures var u := Work.RecoverAll(w, k, found, delay, now).value.0;
            Work.TaskKey(k, id) in u.tasks && u.tasks[Work.TaskKey(k, id)] == w.tasks[Work.TaskKey(k, id)]
    decreases |found|
  {
    if found == [] {
    } else {
      RowPassed(Work.RecoverRow(w, k, found[0], delay, now), k, found[1..], delay, now, id);
    }
  }

  lemma RowLapses(w: Work.Work, k: RunKey, id: Id, delay: int, now: int)
    requires Work.Recoverable(w, k, id, now) && Work.RecoverySound(w, k, id)
    ensures Lapsed(w, Work.RecoverRow(w, k, id, delay, now), Work.TaskKey(k, id), delay, now)
  {}

  lemma LapseKept(w: Work.Work, next: Work.Work, last: Work.Work, t: Work.TaskKey, delay: int, at: int)
    requires Lapsed(w, next, t, delay, at) && WorkProofs.Later(next, last) && t in last.tasks
    requires last.tasks[t] == next.tasks[t]
    ensures Lapsed(w, last, t, delay, at)
  {}

  lemma {:induction false} RecoveryLapses(w: Work.Work, k: RunKey, found: seq<Id>, limit: int, delay: int, now: int,
      id: Id)
    requires WorkProofs.WorkInv(w) && Work.Selection(w, k, found, limit, now) && id in found
    requires Work.RecoverAll(w, k, found, delay, now).Some?
    ensures Lapsed(w, Work.RecoverAll(w, k, found, delay, now).value.0, Work.TaskKey(k, id), delay, now)
    decreases |found|
  {
    hide WorkProofs.WorkInv, Work.RecoverRow, Lapsed, WorkProofs.Later, Work.Selection, Work.Recoverable,
        Work.RecoverySound;
    var t := Work.TaskKey(k, found[0]);
    var next := Work.RecoverRow(w, k, found[0], delay, now);
    var last := Work.RecoverAll(next, k, found[1..], delay, now).value.0;
    FirstLapses(w, k, found, limit, delay, now);
    if id == found[0] {
      WorkProofs.RecoverKeeps(next, k, found[1..], delay, now);
      RowPassed(next, k, found[1..], delay, now, id);
      LapseKept(w, next, last, t, delay, now);
    } else {
      RecoveryLapses(next, k, found[1..], limit - 1, delay, now, id);
      LapseFrom(w, next, last, Work.TaskKey(k, id), delay, now);
    }
  }

  lemma FirstLapses(w: Work.Work, k: RunKey, found: seq<Id>, limit: int, delay: int, now: int)
    requires WorkProofs.WorkInv(w) && Work.Selection(w, k, found, limit, now) && found != []
    requires Work.RecoverAll(w, k, found, delay, now).Some?
    ensures Work.Recoverable(w, k, found[0], now) && Work.RecoverySound(w, k, found[0]) && found[0] !in found[1..]
    ensures var next := Work.RecoverRow(w, k, found[0], delay, now);
            && WorkProofs.WorkInv(next) && Work.Selection(next, k, found[1..], limit - 1, now)
            && Lapsed(w, next, Work.TaskKey(k, found[0]), delay, now)
            && (forall id | id in found :: Work.TaskKey(k, id) in w.tasks && Work.TaskKey(k, id) in next.tasks)
            && forall id | id in found && id != found[0] ::
                 next.tasks[Work.TaskKey(k, id)] == w.tasks[Work.TaskKey(k, id)]
  {
    hide WorkProofs.WorkInv, WorkProofs.Later, Lapsed;
    var t := Work.TaskKey(k, found[0]);
    assert Work.Recoverable(w, k, found[0], now);
    var next := Work.RecoverRow(w, k, found[0], delay, now);
    WorkProofs.RecoverEnds(w, k, found[0], delay, now);
    WorkProofs.LeaseEndKeeps(w, next, t, Work.AttemptKey(k, w.tasks[t].holder.value.attempt));
    WorkProofs.SelectionRest(w, next, k, found, limit, now);
    RowLapses(w, k, found[0], delay, now);
    forall id | id in found ensures Work.TaskKey(k, id) in w.tasks { assert Work.Recoverable(w, k, id, now); }
  }

  lemma LapseFrom(w: Work.Work, next: Work.Work, last: Work.Work, t: Work.TaskKey, delay: int, at: int)
    requires Lapsed(next, last, t, delay, at) && t in w.tasks && next.tasks[t] == w.tasks[t]
    ensures Lapsed(w, last, t, delay, at)
  {}

  lemma RecoveryRows(db: Db, t: Work.TaskKey, c: Work.WorkCommand, at: int)
    requires DbInv(db) && Recovers(db, t, c, at)
    ensures Lapsed(db.work, Apply(db, Task(t.run, c), at).db.work, t, c.delay, at)
  {
    hide Log.AppendAll, Lapsed, Work.RecoverAll, Work.Selection;
    var v := Work.Decide(db.work, t.run, StandingOf(db.gate, t.run), c, at);
    assert v.Write? && Work.Selection(db.work, t.run, c.found, c.limit, at);
    assert v.work == Work.RecoverAll(db.work, t.run, c.found, c.delay, at).value.0;
    RecoveryLapses(db.work, t.run, c.found, c.limit, c.delay, at, t.id);
  }

  /** A recovered task with an attempt left may be claimed again exactly from the
      recovery's delay on; one without never. Its attempt has timed out for good. */
  lemma RecoveredWorkRetriesOrEnds(db: Db, t: Work.TaskKey, c: Work.WorkCommand, at: int, history: seq<Timed>)
    requires DbInv(db) && Recovers(db, t, c, at)
    ensures t in db.work.tasks && db.work.tasks[t].holder.Some?
    ensures var next := Apply(db, Task(t.run, c), at).db;
            && (if db.work.tasks[t].started < db.work.tasks[t].maxAttempts
                then ClaimableFrom(next, t, at + Work.WholeSeconds(c.delay)) else NeverAgain(next, t))
            && Ended(Run(next, history).work, Work.AttemptKey(t.run, db.work.tasks[t].holder.value.attempt),
                     Work.TimedOut, Null, Work.LEASE_EXPIRED, at)
  {
    hide Run, DbInv, Apply, Waits, ClaimableFrom, NeverAgain, Ended, Closed, Work.WholeSeconds;
    var next := Apply(db, Task(t.run, c), at).db;
    RecoveryRows(db, t, c, at);
    ApplyKeeps(db, Task(t.run, c), at);
    if db.work.tasks[t].started < db.work.tasks[t].maxAttempts {
      WaitingIsClaimable(next, t, at + Work.WholeSeconds(c.delay));
    } else {
      ClosedIsForever(next, t);
    }
    EndedStands(next, history, Work.AttemptKey(t.run, db.work.tasks[t].holder.value.attempt), Work.TimedOut, Null,
                Work.LEASE_EXPIRED, at);
  }

  // ---------------------------------------------------------------- claims

  /** What a granted claim leaves: the lease its command asked for, one start more,
      and the attempt it took the task from, if any, timed out. */
  predicate Taken(w: Work.Work, u: Work.Work, t: Work.TaskKey, c: Work.WorkCommand, l: Work.Lease, at: int)
    requires c.Claim?
  {
    && t in w.tasks && t in u.tasks && Fences.InForce(u, t, l)
    && l == Work.Lease(c.task, c.attempt, w.tasks[t].started + 1, c.worker, c.token, w.tasks[t].generation + 1,
                       at + Work.WholeSeconds(c.duration), w.tasks[t].status.Leased?)
    && u.tasks[t].started == w.tasks[t].started + 1
    && u.tasks[t].retries == w.tasks[t].retries + (if w.tasks[t].status.Leased? then 1 else 0)
    && (w.tasks[t].status.Leased? && w.tasks[t].holder.Some? ==>
          Ended(u, Work.AttemptKey(t.run, w.tasks[t].holder.value.attempt), Work.TimedOut, Null, Work.LEASE_EXPIRED,
                at))
  }

  lemma GrantTakes(w: Work.Work, k: RunKey, standing: Work.Standing, c: Work.WorkCommand, at: int)
    requires Work.Decide(w, k, standing, c, at).Write? && Work.Decide(w, k, standing, c, at).reply.Granted?
    requires WorkProofs.WorkInv(w) && c.Claim?
    ensures var v := Work.Decide(w, k, standing, c, at);
            Taken(w, v.work, Work.TaskKey(k, c.task), c, v.reply.lease, at)
  {
    assert WorkProofs.TaskInv(w, Work.TaskKey(k, c.task));
    hide WorkProofs.WorkInv;
  }

  /** A granted claim holds the lease it asked for, and once that has run out
      untouched, a proper claim takes the task over exactly from then on, if an
      attempt is left. */
  lemma GrantedUntil(db: Db, grant: Timed, history: seq<Timed>, t: Work.TaskKey, claim: Work.WorkCommand, now: int)
    requires DbInv(db) && Theorems.Grants(db, grant, t)
    requires var start := Apply(db, grant.command, grant.now);
             forall i | 0 <= i < |history| :: history[i].now < start.reply.work.lease.expiresAt
                                              && !Fences.Spends(history[i].command, t, start.reply.work.lease)
    requires Proper(Run(Apply(db, grant.command, grant.now).db, history), t, claim)
    ensures grant.command.Task? && grant.command.work.Claim?
    ensures var start := Apply(db, grant.command, grant.now);
            var end := Run(start.db, history);
            && Taken(db.work, start.db.work, t, grant.command.work, start.reply.work.lease, grant.now)
            && t in end.work.tasks && t in start.db.work.tasks
            && (end.work.tasks[t].started < end.work.tasks[t].maxAttempts ==>
                  (Granted(Apply(end, Task(t.run, claim), now)) <==> now >= start.reply.work.lease.expiresAt))
  {
    hide DbInv, Run, Fences.Spends, Granted, Taken;
    var start := Apply(db, grant.command, grant.now);
    GrantIsTaken(db, grant, t);
    Fences.GrantIsInForce(db, grant, t);
    ApplyKeeps(db, grant.command, grant.now);
    HistoryKeeps(start.db, history);
    hide Apply, Theorems.Grants, Proper;
    Fences.HistoryLeaves(start.db, history, t, start.reply.work.lease);
    InForceClaim(Run(start.db, history), t, start.reply.work.lease, claim, now);
  }

  lemma GrantIsTaken(db: Db, grant: Timed, t: Work.TaskKey)
    requires DbInv(db) && Theorems.Grants(db, grant, t)
    ensures grant.command.Task? && grant.command.work.Claim?
    ensures var start := Apply(db, grant.command, grant.now);
            Taken(db.work, start.db.work, t, grant.command.work, start.reply.work.lease, grant.now)
  {
    hide Log.AppendAll, Work.Decide, Taken;
    var c := grant.command.work;
    WorkProofs.GrantRaises(db.work, t.run, StandingOf(db.gate, t.run), c, grant.now);
    GrantTakes(db.work, t.run, StandingOf(db.gate, t.run), c, grant.now);
  }

  lemma InForceClaim(db: Db, t: Work.TaskKey, l: Work.Lease, claim: Work.WorkCommand, now: int)
    requires DbInv(db) && Fences.InForce(db.work, t, l) && Proper(db, t, claim)
    ensures db.work.tasks[t].started < db.work.tasks[t].maxAttempts ==>
              (Granted(Apply(db, Task(t.run, claim), now)) <==> now >= l.expiresAt)
  {
    hide Log.AppendAll, Work.Decide, Work.WellFormed;
    Fences.ClaimGrantedIff(db.work, t.run, StandingOf(db.gate, t.run), claim, now);
    if Work.Decide(db.work, t.run, StandingOf(db.gate, t.run), claim, now).Write? {
      ClaimOwns(db.work, t.run, StandingOf(db.gate, t.run), claim, now);
    }
  }

  /** An accepted heartbeat puts the same lease in force until its extension ends. */
  lemma HeartbeatExtends(db: Db, t: Work.TaskKey, c: Work.WorkCommand, at: int, until: int)
    requires DbInv(db) && c.Heartbeat? && c.lease.task == t.id
    requires Apply(db, Task(t.run, c), at).reply == Worked(Work.Extended(until))
    ensures var u := Apply(db, Task(t.run, c), at).db.work;
            && until == at + Work.WholeSeconds(c.extension) && Fences.InForce(u, t, c.lease.(expiresAt := until))
            && Work.AttemptKey(t.run, c.lease.attempt) in u.attempts
            && u.attempts[Work.AttemptKey(t.run, c.lease.attempt)].heartbeatAt == at
  {
    hide Log.AppendAll, DbInv;
  }

  /** A claim of an expired last attempt ends the task, times the attempt out, and is
      told that no attempt is left. */
  lemma LastLeaseLapses(db: Db, t: Work.TaskKey, claim: Work.WorkCommand, at: int)
    requires DbInv(db) && Proper(db, t, claim) && t in db.work.tasks && Work.Expired(db.work.tasks[t], at)
    requires db.work.tasks[t].started >= db.work.tasks[t].maxAttempts
    ensures var next := Apply(db, Task(t.run, claim), at).db;
            && NeverAgain(next, t) && Apply(db, Task(t.run, claim), at).reply == Denied(Exhausted)
            && Ended(next.work, Work.AttemptKey(t.run, db.work.tasks[t].holder.value.attempt), Work.TimedOut, Null,
                     Work.LEASE_EXPIRED, at)
  {
    hide NeverAgain, Log.AppendAll, DbInv, Work.Decide, Ended, Closed, Work.WellFormed, Work.Expired, StandingOf;
    ApplyKeeps(db, Task(t.run, claim), at);
    LiveRunKnown(db, t.run);
    LastClaimBuries(db.work, t.run, StandingOf(db.gate, t.run), claim, at);
    ClosedIsForever(Apply(db, Task(t.run, claim), at).db, t);
  }

  lemma LiveRunKnown(db: Db, k: RunKey)
    requires DbInv(db) && StandingOf(db.gate, k).Live?
    ensures k in db.gate.runs && k in db.log.next && WorkProofs.WorkInv(db.work)
  {}

  lemma LastClaimBuries(w: Work.Work, k: RunKey, standing: Work.Standing, c: Work.WorkCommand, at: int)
    requires WorkProofs.WorkInv(w) && c.Claim? && Work.WellFormed(c) && standing.Live?
    requires Work.TaskKey(k, c.task) in w.tasks && Work.Expired(w.tasks[Work.TaskKey(k, c.task)], at)
    requires w.tasks[Work.TaskKey(k, c.task)].started >= w.tasks[Work.TaskKey(k, c.task)].maxAttempts
    ensures var t := Work.TaskKey(k, c.task);
            var v := Work.Decide(w, k, standing, c, at);
            && v.Write? && v.run == k && v.reply.BuriedNow? && Closed(v.work, t)
            && Ended(v.work, Work.AttemptKey(k, w.tasks[t].holder.value.attempt), Work.TimedOut, Null,
                     Work.LEASE_EXPIRED, at)
  {
    assert WorkProofs.TaskInv(w, Work.TaskKey(k, c.task));
    hide WorkProofs.WorkInv;
  }
}
