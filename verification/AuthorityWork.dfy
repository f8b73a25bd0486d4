/** The work side of the authority: tasks leased by generation, their attempts,
    and the create-once effect ledger. */
module AuthorityWork {
  import opened Common
  import opened AuthorityTables

  datatype TaskStatus = Ready | Leased | Done | Retryable | Buried

  /** `lease_owner`, `lease_token`, `lease_expires_at` and `active_attempt_id`
      are set together, exactly while the task is running. */
  datatype Holder = Holder(owner: Id, token: Id, attempt: Id, expiresAt: int)

  datatype Task = Task(
    node: Id, input: Id, effectKey: Id, maxAttempts: int,
    status: TaskStatus, started: int, retries: int, availableAt: int,
    generation: int, holder: Option<Holder>)

  datatype AttemptStatus = InProgress | Succeeded | Failed | TimedOut

  datatype Attempt = Attempt(
    task: Id, number: int, generation: int, worker: Id, status: AttemptStatus,
    startedAt: int, heartbeatAt: int, completedAt: Option<int>, output: Id, failure: Id)

  datatype Effect = Effect(run: Id, task: Id, attempt: Id, request: Id, result: Id)

  datatype TaskKey = TaskKey(run: RunKey, id: Id)
  datatype AttemptKey = AttemptKey(run: RunKey, id: Id)

  datatype Work = Work(
    tasks: map<TaskKey, Task>,
    attempts: map<AttemptKey, Attempt>,
    effects: map<TenantKey, Effect>)

  const EMPTY_WORK := Work(map[], map[], map[])

  datatype Lease = Lease(task: Id, attempt: Id, number: int, owner: Id, token: Id, generation: int, expiresAt: int,
                         recovered: bool)

  /** `attempt` and `token` of Claim are the random identifiers drawn for it;
      `found` of Recover is what its SKIP LOCKED query returned. */
  datatype WorkCommand =
    | Enqueue(task: Id, node: Id, input: Id, effectKey: Id, maxAttempts: int)
    | Claim(task: Id, worker: Id, duration: int, attempt: Id, token: Id)
    | Heartbeat(lease: Lease, extension: int)
    | Complete(lease: Lease, succeeded: bool, output: Id, failure: Id, delay: int)
    | Recover(found: seq<Id>, limit: int, delay: int)
    | Reserve(lease: Lease, effect: Id, request: Id)
    | CommitEffect(effect: Id, result: Id)

  datatype WorkReply =
    | Accepted
    | Granted(lease: Lease)
    | Extended(expiresAt: int)
    | Recovered(count: nat)
    | Reserved(first: bool)
    | BuriedNow // the claim committed a dead-letter and reports it as an error

  /** A committed transaction names the run that owns its events. */
  datatype WorkVerdict =
    | Refuse(error: Error)
    | Write(work: Work, run: RunKey, notes: seq<Note>, reply: WorkReply)

  datatype Standing = Absent | Live | Ended

  /** A driver duration, cut to whole seconds as every lease statement does. */
  function WholeSeconds(duration: int): (r: int)
    ensures duration >= 0 ==> r <= duration < r + SECOND
    ensures r % SECOND == 0
  {
    if duration >= 0 then duration / SECOND * SECOND else -((-duration) / SECOND * SECOND)
  }

  predicate ValidLease(l: Lease) {
    Filled(l.task) && Filled(l.attempt) && Filled(l.owner) && Filled(l.token) && l.generation >= 1
  }

  predicate WellFormed(c: WorkCommand) {
    match c
    case Enqueue(task, node, input, _, maxAttempts) =>
      Filled(task) && Filled(node) && Filled(input) && 1 <= maxAttempts <= 32
    case Claim(task, worker, duration, attempt, token) =>
      Filled(task) && Filled(worker) && SECOND <= duration <= HOUR && Filled(attempt) && Filled(token)
    case Heartbeat(lease, extension) => ValidLease(lease) && SECOND <= extension <= HOUR
    case Complete(lease, succeeded, output, failure, delay) =>
      && ValidLease(lease) && 0 <= delay <= DAY
      && (if succeeded then Filled(output) && !Filled(failure) else Filled(failure) && !Filled(output))
    case Recover(_, limit, delay) => 1 <= limit <= 500 && 0 <= delay <= DAY
    case Reserve(lease, effect, request) => ValidLease(lease) && Filled(effect) && Filled(request)
    case CommitEffect(effect, result) => Filled(effect) && Filled(result)
  }

  // ------------------------------------------------------- row transitions

  predicate Expired(task: Task, now: int) {
    task.status.Leased? && task.holder.Some? && task.holder.value.expiresAt <= now
  }

  /** The whole fence tuple, unexpired. */
  predicate Holds(task: Task, l: Lease, now: int) {
    && task.status.Leased? && task.generation == l.generation
    && task.holder.Some? && task.holder.value.expiresAt > now
    && task.holder.value.owner == l.owner && task.holder.value.token == l.token
    && task.holder.value.attempt == l.attempt
  }

  /** The update that ends an attempt touches a row only if it is still in progress. */
  predicate Endable(w: Work, a: AttemptKey, generation: int) {
    a in w.attempts && w.attempts[a].status.InProgress? && w.attempts[a].generation == generation
  }

  function EndAttempt(w: Work, a: AttemptKey, status: AttemptStatus, output: Id, failure: Id, now: int): Work
    requires a in w.attempts
  {
    w.(attempts := w.attempts[a :=
        w.attempts[a].(status := status, completedAt := Some(now), output := output, failure := failure)])
  }

  const LEASE_EXPIRED := Text("LEASE_EXPIRED")
  const EXHAUSTED := Text("ATTEMPTS_EXHAUSTED")

  // ---------------------------------------------------------- transactions

  function Decide(w: Work, k: RunKey, standing: Standing, c: WorkCommand, now: int): WorkVerdict {
    if !WellFormed(c) then Refuse(Invalid)
    else if c.Heartbeat? then HeartbeatTx(w, k, c, now)
    else if c.CommitEffect? then CommitEffectTx(w, k, c)
    else if standing.Absent? then Refuse(NotFound)
    else match c
      case Enqueue(_, _, _, _, _) => if standing.Ended? then Refuse(Conflict) else EnqueueTx(w, k, c, now)
      case Claim(_, _, _, _, _) => if standing.Ended? then Refuse(Conflict) else ClaimTx(w, k, c, now)
      case Complete(_, _, _, _, _) => CompleteTx(w, k, c, now)
      case Recover(_, _, _) => RecoverTx(w, k, c, now)
      case Reserve(_, _, _) => ReserveTx(w, k, c, now)
  }

  function EnqueueTx(w: Work, k: RunKey, c: WorkCommand, now: int): WorkVerdict
    requires c.Enqueue?
  {
    var key := TaskKey(k, c.task);
    if key in w.tasks || (Filled(c.effectKey) && EffectKeyUsed(w, k, c.effectKey)) then Refuse(Conflict)
    else Write(w.(tasks := w.tasks[key :=
                                   Task(c.node, c.input, c.effectKey, c.maxAttempts, Ready, 0, 0, now, 0, None)]),
               k, [TaskNote(TaskEnqueued, c.task, Null, Null, [c.input])], Accepted)
  }

  predicate EffectKeyUsed(w: Work, k: RunKey, effectKey: Id) {
    exists t :: t in w.tasks && t.run == k && w.tasks[t].effectKey == effectKey
  }

  function ClaimTx(w: Work, k: RunKey, c: WorkCommand, now: int): WorkVerdict
    requires c.Claim?
  {
    var key := TaskKey(k, c.task);
    if key !in w.tasks then Refuse(NotFound)
    else
      var task := w.tasks[key];
      match task.status
      case Buried => Refuse(Exhausted)
      case Done => Refuse(LeaseUnavailable)
      case Retryable => if task.availableAt > now then Refuse(LeaseUnavailable) else GrantTx(w, k, c, now, false, [])
      case Ready => GrantTx(w, k, c, now, false, [])
      case Leased =>
        if !Expired(task, now) then Refuse(LeaseUnavailable)
        else
          var stale := AttemptKey(k, task.holder.value.attempt);
          if !Endable(w, stale, task.generation) then Refuse(StaleLease)
          else GrantTx(EndAttempt(w, stale, TimedOut, Null, LEASE_EXPIRED, now), k, c, now, true,
                       [TaskNote(LeaseExpired, c.task, task.holder.value.attempt, LEASE_EXPIRED, [])])
  }

  /** The second half of a claim: a new attempt, or burial when none is left. */
  function GrantTx(w: Work, k: RunKey, c: WorkCommand, now: int, recovered: bool, notes: seq<Note>): WorkVerdict
    requires c.Claim? && TaskKey(k, c.task) in w.tasks
  {
    var key := TaskKey(k, c.task);
    var task := w.tasks[key];
    var attempt := AttemptKey(k, c.attempt);
    if task.started >= task.maxAttempts then
      var last := if task.holder.Some? then task.holder.value.attempt else Null;
      Write(w.(tasks := w.tasks[key := task.(status := Buried, holder := None)]),
            k, notes + [TaskNote(TaskDeadLettered, c.task, last, EXHAUSTED, [])], BuriedNow)
    else if attempt in w.attempts then Refuse(ConstraintViolation)
    else
      var number := task.started + 1;
      var generation := task.generation + 1;
      var expiresAt := now + WholeSeconds(c.duration);
      var next := task.(
        status := Leased, started := number, retries := task.retries + (if recovered then 1 else 0),
        generation := generation, holder := Some(Holder(c.worker, c.token, c.attempt, expiresAt)));
      Write(w.(tasks := w.tasks[key := next],
               attempts := w.attempts[attempt :=
                   Attempt(c.task, number, generation, c.worker, InProgress, now, now, None, Null, Null)]),
            k, notes + [TaskNote(AttemptStarted, c.task, c.attempt, Null, [])],
            Granted(Lease(c.task, c.attempt, number, c.worker, c.token, generation, expiresAt, recovered)))
  }

  function HeartbeatTx(w: Work, k: RunKey, c: WorkCommand, now: int): WorkVerdict
    requires c.Heartbeat?
  {
    var key := TaskKey(k, c.lease.task);
    var attempt := AttemptKey(k, c.lease.attempt);
    if key !in w.tasks || !Holds(w.tasks[key], c.lease, now) then Refuse(StaleLease)
    else if !(Endable(w, attempt, c.lease.generation) && w.attempts[attempt].worker == c.lease.owner)
        then Refuse(StaleLease)
    else
      var task := w.tasks[key];
      var expiresAt := now + WholeSeconds(c.extension);
      Write(w.(tasks := w.tasks[key := task.(holder := Some(task.holder.value.(expiresAt := expiresAt)))],
               attempts := w.attempts[attempt := w.attempts[attempt].(heartbeatAt := now)]),
            k, [], Extended(expiresAt))
  }

  function CompleteTx(w: Work, k: RunKey, c: WorkCommand, now: int): WorkVerdict
    requires c.Complete?
  {
    var key := TaskKey(k, c.lease.task);
    var attempt := AttemptKey(k, c.lease.attempt);
    if key !in w.tasks then Refuse(NotFound)
    else if !Holds(w.tasks[key], c.lease, now) then Refuse(StaleLease)
    else if !(Endable(w, attempt, c.lease.generation) && w.attempts[attempt].task == c.lease.task)
        then Refuse(StaleLease)
    else
      var task := w.tasks[key];
      var status := if c.succeeded then AttemptStatus.Succeeded else AttemptStatus.Failed;
      var ended := EndAttempt(w, attempt, status, c.output, c.failure, now);
      var completed :=
          TaskNote(AttemptCompleted, c.lease.task, c.lease.attempt, c.failure, if c.succeeded then [c.output] else []);
      if c.succeeded then
        Write(ended.(tasks := w.tasks[key := task.(status := Done, holder := None)]), k, [completed], Accepted)
      else if task.started < task.maxAttempts then
        Write(ended.(tasks := w.tasks[key := task.(status := Retryable, retries := task.retries + 1,
                                                   availableAt := now + WholeSeconds(c.delay), holder := None)]),
              k, [completed, TaskNote(RetryScheduled, c.lease.task, c.lease.attempt, c.failure, [])], Accepted)
      else
        Write(ended.(tasks := w.tasks[key := task.(status := Buried, holder := None)]),
              k, [completed, TaskNote(TaskDeadLettered, c.lease.task, c.lease.attempt, EXHAUSTED, [])], Accepted)
  }

  // -------------------------------------------------------------- recovery

  /** The rows of the recovery query: expired, running tasks of the run. */
  predicate Recoverable(w: Work, k: RunKey, id: Id, now: int) {
    TaskKey(k, id) in w.tasks && Expired(w.tasks[TaskKey(k, id)], now)
  }

  /** What the query may return: distinct recoverable tasks, no more than its limit. */
  predicate Selection(w: Work, k: RunKey, found: seq<Id>, limit: int, now: int) {
    && |found| <= limit
    && (forall i | 0 <= i < |found| :: Recoverable(w, k, found[i], now))
    && (forall i, j | 0 <= i < j < |found| :: found[i] != found[j])
  }

  predicate RecoverySound(w: Work, k: RunKey, id: Id)
    requires TaskKey(k, id) in w.tasks && w.tasks[TaskKey(k, id)].holder.Some?
  {
    var task := w.tasks[TaskKey(k, id)];
    var attempt := AttemptKey(k, task.holder.value.attempt);
    Endable(w, attempt, task.generation) && w.attempts[attempt].task == id
  }

  function RecoverRow(w: Work, k: RunKey, id: Id, delay: int, now: int): Work
    requires Recoverable(w, k, id, now) && RecoverySound(w, k, id)
  {
    var key := TaskKey(k, id);
    var task := w.tasks[key];
    var ended := EndAttempt(w, AttemptKey(k, task.holder.value.attempt), TimedOut, Null, LEASE_EXPIRED, now);
    ended.(tasks := w.tasks[key := task.(
      status := if task.started >= task.maxAttempts then Buried else Retryable,
      retries := task.retries + 1, availableAt := now + WholeSeconds(delay), holder := None)])
  }

  function RecoverNotes(w: Work, k: RunKey, id: Id): seq<Note>
    requires TaskKey(k, id) in w.tasks && w.tasks[TaskKey(k, id)].holder.Some?
  {
    var task := w.tasks[TaskKey(k, id)];
    var attempt := task.holder.value.attempt;
    [TaskNote(LeaseExpired, id, attempt, LEASE_EXPIRED, []),
     if task.started >= task.maxAttempts then TaskNote(TaskDeadLettered, id, attempt, EXHAUSTED, [])
     else TaskNote(RetryScheduled, id, attempt, LEASE_EXPIRED, [])]
  }

  /** The recovery loop; None when an attempt row is not the one the task names. */
  function RecoverAll(w: Work, k: RunKey, found: seq<Id>, delay: int, now: int): Option<(Work, seq<Note>)>
    decreases |found|
  {
    if found == [] then Some((w, []))
    else if !Recoverable(w, k, found[0], now) || !RecoverySound(w, k, found[0]) then None
    else
      var rest := RecoverAll(RecoverRow(w, k, found[0], delay, now), k, found[1..], delay, now);
      if rest.None? then None else Some((rest.value.0, RecoverNotes(w, k, found[0]) + rest.value.1))
  }

  function RecoverTx(w: Work, k: RunKey, c: WorkCommand, now: int): WorkVerdict
    requires c.Recover?
  {
    if !Selection(w, k, c.found, c.limit, now) then Refuse(Invalid) // no query returns it
    else match RecoverAll(w, k, c.found, c.delay, now)
      case None => Refuse(StaleLease)
      case Some(done) => Write(done.0, k, done.1, Recovered(|c.found|))
  }

  // --------------------------------------------------------------- effects

  function ReserveTx(w: Work, k: RunKey, c: WorkCommand, now: int): WorkVerdict
    requires c.Reserve?
  {
    var key := TaskKey(k, c.lease.task);
    var row := TenantKey(k.tenant, c.effect);
    if key !in w.tasks then Refuse(NotFound)
    else if !Holds(w.tasks[key], c.lease, now) then Refuse(StaleLease)
    else if row in w.effects then
      var effect := w.effects[row];
      if effect.request == c.request && effect.run == k.run && effect.task == c.lease.task
      then Write(w, k, [], Reserved(false))
      else Refuse(IdempotencyReuse)
    else
      Write(w.(effects := w.effects[row := Effect(k.run, c.lease.task, c.lease.attempt, c.request, Null)]),
            k, [TaskNote(EffectReserved, c.lease.task, c.lease.attempt, Null, [c.request])], Reserved(true))
  }

  function CommitEffectTx(w: Work, k: RunKey, c: WorkCommand): WorkVerdict
    requires c.CommitEffect?
  {
    var row := TenantKey(k.tenant, c.effect);
    if row !in w.effects then Refuse(NotFound)
    else
      var effect := w.effects[row];
      var owner := RunKey(k.tenant, effect.run);
      if Filled(effect.result) then
        if effect.result == c.result then Write(w, owner, [], Accepted) else Refuse(IdempotencyReuse)
      else
        Write(w.(effects := w.effects[row := effect.(result := c.result)]),
              owner, [TaskNote(EffectCommitted, effect.task, effect.attempt, Null, [c.result])], Accepted)
  }
}
