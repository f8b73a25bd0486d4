/** Exactly which task and effect commands a reachable database admits, written out
    on its rows: neither an attempt row nor a recovery's fenced update ever stands
    in the way. */
module AuthorityTaskAdmission {
  import opened Common
  import opened AuthorityTables
  import opened AuthorityWork
  import opened AuthorityWorkProofs
  import A = Authority
  import H = AuthorityHistory

  /** The lease is the one in force, and it is in force. */
  predicate InForce(w: Work, k: RunKey, l: Lease, now: int) {
    && Null !in {l.task, l.attempt, l.owner, l.token} && l.generation >= 1
    && TaskKey(k, l.task) in w.tasks
    && var task := w.tasks[TaskKey(k, l.task)];
       && task.status == Leased && task.generation == l.generation && task.holder.Some?
       && task.holder.value == Holder(l.owner, l.token, l.attempt, task.holder.value.expiresAt)
       && now < task.holder.value.expiresAt
  }

  /** The task was left by its last holder, whose lease ran out. */
  predicate Abandoned(task: Task, now: int) {
    task.status == Leased && task.holder.Some? && task.holder.value.expiresAt <= now
  }

  predicate AdmitsEnqueue(w: Work, k: RunKey, c: WorkCommand)
    requires c.Enqueue?
  {
    && Null !in {c.task, c.node, c.input} && 1 <= c.maxAttempts <= 32 && TaskKey(k, c.task) !in w.tasks
    && (c.effectKey != Null ==> forall t | t in w.tasks && t.run == k :: w.tasks[t].effectKey != c.effectKey)
  }

  /** The task is free: new, due again or abandoned. The claim starts an attempt under a
      new id, or buries a task that has none left. */
  predicate AdmitsClaim(w: Work, k: RunKey, c: WorkCommand, now: int)
    requires c.Claim?
  {
    && Null !in {c.task, c.worker, c.attempt, c.token} && SECOND <= c.duration <= HOUR && TaskKey(k, c.task) in w.tasks
    && var task := w.tasks[TaskKey(k, c.task)];
       && (task.status == Ready || (task.status == Retryable && task.availableAt <= now) || Abandoned(task, now))
       && (task.started < task.maxAttempts ==> AttemptKey(k, c.attempt) !in w.attempts)
  }

  predicate AdmitsComplete(w: Work, k: RunKey, c: WorkCommand, now: int)
    requires c.Complete?
  {
    && InForce(w, k, c.lease, now) && 0 <= c.delay <= DAY
    && (c.succeeded <==> c.output != Null) && (c.succeeded <==> c.failure == Null)
  }

  predicate AdmitsRecover(w: Work, k: RunKey, c: WorkCommand, now: int)
    requires c.Recover?
  {
    && 1 <= c.limit <= 500 && 0 <= c.delay <= DAY && |c.found| <= c.limit
    && (forall i | 0 <= i < |c.found| ::
          TaskKey(k, c.found[i]) in w.tasks && Abandoned(w.tasks[TaskKey(k, c.found[i])], now))
    && (forall i, j | 0 <= i < j < |c.found| :: c.found[i] != c.found[j])
  }

  predicate AdmitsReserve(w: Work, k: RunKey, c: WorkCommand, now: int)
    requires c.Reserve?
  {
    var row := TenantKey(k.tenant, c.effect);
    && InForce(w, k, c.lease, now) && Null !in {c.effect, c.request}
    && (row in w.effects ==>
          w.effects[row].run == k.run && w.effects[row].task == c.lease.task && w.effects[row].request == c.request)
  }

  predicate AdmitsCommit(w: Work, k: RunKey, c: WorkCommand)
    requires c.CommitEffect?
  {
    && Null !in {c.effect, c.result} && TenantKey(k.tenant, c.effect) in w.effects
    && w.effects[TenantKey(k.tenant, c.effect)].result in {Null, c.result}
  }

  predicate AdmitsTask(w: Work, k: RunKey, standing: Standing, c: WorkCommand, now: int) {
    match c
    case Enqueue(_, _, _, _, _) => standing == Live && AdmitsEnqueue(w, k, c)
    case Claim(_, _, _, _, _) => standing == Live && AdmitsClaim(w, k, c, now)
    case Heartbeat(l, extension) => InForce(w, k, l, now) && SECOND <= extension <= HOUR
    case Complete(_, _, _, _, _) => standing != Absent && AdmitsComplete(w, k, c, now)
    case Recover(_, _, _) => standing != Absent && AdmitsRecover(w, k, c, now)
    case Reserve(_, _, _) => standing != Absent && AdmitsReserve(w, k, c, now)
    case CommitEffect(_, _) => AdmitsCommit(w, k, c)
  }

  // ----------------------------------------------------------------- lemmas

  lemma EnqueueAdmitted(w: Work, k: RunKey, standing: Standing, c: WorkCommand, now: int)
    requires c.Enqueue?
    ensures Decide(w, k, standing, c, now).Write? <==> AdmitsTask(w, k, standing, c, now)
  {
  }

  lemma ClaimAdmitted(w: Work, k: RunKey, standing: Standing, c: WorkCommand, now: int)
    requires WorkInv(w) && c.Claim?
    ensures Decide(w, k, standing, c, now).Write? <==> AdmitsTask(w, k, standing, c, now)
  {
    if TaskKey(k, c.task) in w.tasks { assert TaskInv(w, TaskKey(k, c.task)); }
    hide WorkInv;
  }

  lemma LeaseAdmitted(w: Work, k: RunKey, l: Lease, now: int)
    requires WorkInv(w)
    ensures InForce(w, k, l, now) <==>
              ValidLease(l) && TaskKey(k, l.task) in w.tasks && Holds(w.tasks[TaskKey(k, l.task)], l, now)
    ensures InForce(w, k, l, now) ==>
              Endable(w, AttemptKey(k, l.attempt), l.generation)
              && w.attempts[AttemptKey(k, l.attempt)].worker == l.owner
              && w.attempts[AttemptKey(k, l.attempt)].task == l.task
  {
    if TaskKey(k, l.task) in w.tasks { assert TaskInv(w, TaskKey(k, l.task)); }
    hide WorkInv;
  }

  lemma FencedAdmitted(w: Work, k: RunKey, standing: Standing, c: WorkCommand, now: int)
    requires WorkInv(w) && (c.Heartbeat? || c.Complete? || c.Reserve?)
    ensures Decide(w, k, standing, c, now).Write? <==> AdmitsTask(w, k, standing, c, now)
  {
    LeaseAdmitted(w, k, c.lease, now);
    hide WorkInv, InForce, Holds, ValidLease, Endable, EndAttempt, WholeSeconds;
    assert InForce(w, k, c.lease, now) ==>
        TaskKey(k, c.lease.task) in w.tasks && Holds(w.tasks[TaskKey(k, c.lease.task)], c.lease, now);
  }

  lemma RecoverAdmitted(w: Work, k: RunKey, standing: Standing, c: WorkCommand, now: int)
    requires WorkInv(w) && c.Recover?
    ensures Decide(w, k, standing, c, now).Write? <==> AdmitsTask(w, k, standing, c, now)
  {
    if Selection(w, k, c.found, c.limit, now) { RecoveryNeverStale(w, k, c.found, c.limit, c.delay, now); }
    hide WorkInv, RecoverAll;
    assert forall i | 0 <= i < |c.found| :: Recoverable(w, k, c.found[i], now) <==>
        TaskKey(k, c.found[i]) in w.tasks && Abandoned(w.tasks[TaskKey(k, c.found[i])], now);
    hide Recoverable, Abandoned;
  }

  lemma CommitAdmitted(w: Work, k: RunKey, standing: Standing, c: WorkCommand, now: int)
    requires c.CommitEffect?
    ensures Decide(w, k, standing, c, now).Write? <==> AdmitsTask(w, k, standing, c, now)
  {
  }

  /** In every reachable database a task or effect command is carried out if and only
      if the rows admit it; otherwise it is refused. */
  lemma TaskAdmittedIff(history: seq<A.Timed>, k: RunKey, standing: Standing, c: WorkCommand, now: int)
    ensures var w := A.Run(A.EMPTY, history).work;
            Decide(w, k, standing, c, now).Write? <==> AdmitsTask(w, k, standing, c, now)
  {
    hide A.Run, Decide, AdmitsTask, WorkInv;
    H.EmptyHolds();
    H.HistoryKeeps(A.EMPTY, history);
    var w := A.Run(A.EMPTY, history).work;
    match c
    case Enqueue(_, _, _, _, _) => EnqueueAdmitted(w, k, standing, c, now);
    case Claim(_, _, _, _, _) => ClaimAdmitted(w, k, standing, c, now);
    case Heartbeat(_, _) => FencedAdmitted(w, k, standing, c, now);
    case Complete(_, _, _, _, _) => FencedAdmitted(w, k, standing, c, now);
    case Recover(_, _, _) => RecoverAdmitted(w, k, standing, c, now);
    case Reserve(_, _, _) => FencedAdmitted(w, k, standing, c, now);
    case CommitEffect(_, _) => CommitAdmitted(w, k, standing, c, now);
  }
}
