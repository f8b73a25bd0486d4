/** What every work transaction keeps: leases are fenced by generation, attempts
    are numbered without gap, ended attempts and committed effects are final. */
module AuthorityWorkProofs {
  import opened Common
  import opened AuthorityTables
  import opened AuthorityWork

  // ------------------------------------------------------------- invariant

  predicate Numbered(w: Work, t: TaskKey, n: int) {
    exists a :: a in w.attempts && a.run == t.run && w.attempts[a].task == t.id && w.attempts[a].number == n
  }

  /** A running task has its current attempt in progress under its current generation. */
  predicate TaskInv(w: Work, t: TaskKey)
    requires t in w.tasks
  {
    var task := w.tasks[t];
    && 0 <= task.started <= task.maxAttempts && task.generation == task.started
    && (task.status.Leased? <==> task.holder.Some?)
    && 0 <= task.retries && task.retries + (if task.status.Leased? then 1 else 0) <= task.started
    && (task.status.Leased? ==>
          && var a := AttemptKey(t.run, task.holder.value.attempt);
             a in w.attempts && w.attempts[a].task == t.id && w.attempts[a].status.InProgress?
             && w.attempts[a].generation == task.generation && w.attempts[a].worker == task.holder.value.owner)
  }

  /** An attempt in progress is the one its task names; numbers are generations. */
  predicate AttemptInv(w: Work, a: AttemptKey)
    requires a in w.attempts
  {
    var attempt := w.attempts[a];
    var t := TaskKey(a.run, attempt.task);
    && t in w.tasks && 1 <= attempt.number <= w.tasks[t].started && attempt.generation == attempt.number
    && (attempt.status.InProgress? ==>
        w.tasks[t].status.Leased? && w.tasks[t].holder.Some? && w.tasks[t].holder.value.attempt == a.id)
    && (attempt.status.InProgress? <==> attempt.completedAt.None?)
  }

  predicate NumbersDistinct(w: Work) {
    forall a, b | a in w.attempts && b in w.attempts && a.run == b.run
                  && w.attempts[a].task == w.attempts[b].task && w.attempts[a].number == w.attempts[b].number :: a == b
  }

  predicate NumbersDense(w: Work) {
    forall t, n | t in w.tasks && 1 <= n <= w.tasks[t].started :: Numbered(w, t, n)
  }

  predicate EffectInv(w: Work, e: TenantKey)
    requires e in w.effects
  {
    var effect := w.effects[e];
    TaskKey(RunKey(e.tenant, effect.run), effect.task) in w.tasks
  }

  predicate WorkInv(w: Work) {
    && (forall t | t in w.tasks :: TaskInv(w, t))
    && (forall a | a in w.attempts :: AttemptInv(w, a))
    && NumbersDistinct(w) && NumbersDense(w)
    && (forall e | e in w.effects :: EffectInv(w, e))
  }

  // ---------------------------------------------------------------- growth

  /** How a task row may move: its definition is fixed, generations and starts
      rise together, and a finished task stays finished. */
  predicate TaskLater(task: Task, next: Task) {
    && next.node == task.node && next.input == task.input && next.effectKey == task.effectKey
    && next.maxAttempts == task.maxAttempts
    && next.started >= task.started && next.generation >= task.generation && next.retries >= task.retries
    && (task.status.Done? || task.status.Buried? ==> next == task)
  }

  predicate AttemptLater(attempt: Attempt, next: Attempt) {
    && next.task == attempt.task && next.number == attempt.number && next.generation == attempt.generation
    && next.worker == attempt.worker && next.startedAt == attempt.startedAt
    && (!attempt.status.InProgress? ==> next == attempt)
  }

  predicate EffectLater(effect: Effect, next: Effect) {
    && next.(result := effect.result) == effect
    && (Filled(effect.result) ==> next == effect)
  }

  predicate Later(w: Work, u: Work) {
    && (forall t | t in w.tasks :: t in u.tasks && TaskLater(w.tasks[t], u.tasks[t]))
    && (forall a | a in w.attempts :: a in u.attempts && AttemptLater(w.attempts[a], u.attempts[a]))
    && (forall e | e in w.effects :: e in u.effects && EffectLater(w.effects[e], u.effects[e]))
  }

  lemma LaterTransitive(w: Work, u: Work, x: Work)
    requires Later(w, u) && Later(u, x)
    ensures Later(w, x)
  {
  }

  // --------------------------------------------- the two kinds of row change

  /** The change that ends a lease: the task lets go, its attempt ends. */
  predicate LeaseEnds(w: Work, u: Work, t: TaskKey, a: AttemptKey) {
    && t in w.tasks && w.tasks[t].status.Leased? && w.tasks[t].holder.Some?
    && a == AttemptKey(t.run, w.tasks[t].holder.value.attempt)
    && a in w.attempts && w.attempts[a].status.InProgress? && w.attempts[a].task == t.id
    && u.effects == w.effects
    && u.tasks.Keys == w.tasks.Keys && u.attempts.Keys == w.attempts.Keys
    && (forall o | o in w.tasks && o != t :: u.tasks[o] == w.tasks[o])
    && (forall b | b in w.attempts && b != a :: u.attempts[b] == w.attempts[b])
    && TaskLater(w.tasks[t], u.tasks[t]) && AttemptLater(w.attempts[a], u.attempts[a])
    && u.tasks[t].holder.None? && !u.tasks[t].status.Leased? && u.tasks[t].started == w.tasks[t].started
    && u.tasks[t].generation == w.tasks[t].generation && u.tasks[t].retries <= w.tasks[t].retries + 1
    && !u.attempts[a].status.InProgress? && u.attempts[a].completedAt.Some?
  }

  lemma LeaseEndTask(w: Work, u: Work, t: TaskKey, a: AttemptKey, o: TaskKey)
    requires LeaseEnds(w, u, t, a) && o in w.tasks && TaskInv(w, o) && AttemptInv(w, a)
    ensures TaskInv(u, o)
  {
  }

  lemma LeaseEndAttempt(w: Work, u: Work, t: TaskKey, a: AttemptKey, b: AttemptKey)
    requires LeaseEnds(w, u, t, a) && b in w.attempts && AttemptInv(w, b)
    ensures AttemptInv(u, b)
  {
  }

  lemma NumbersStay(w: Work, u: Work)
    requires NumbersDistinct(w) && NumbersDense(w) && Later(w, u)
    requires u.tasks.Keys == w.tasks.Keys && u.attempts.Keys == w.attempts.Keys
    requires forall t | t in w.tasks :: u.tasks[t].started == w.tasks[t].started
    ensures NumbersDistinct(u) && NumbersDense(u)
  {
    forall t, n | t in u.tasks && 1 <= n <= u.tasks[t].started ensures Numbered(u, t, n) { NumberKept(w, u, t, n); }
  }

  lemma LeaseEndKeeps(w: Work, u: Work, t: TaskKey, a: AttemptKey)
    requires WorkInv(w) && LeaseEnds(w, u, t, a)
    ensures WorkInv(u) && Later(w, u)
  {
    assert Later(w, u) by { hide TaskInv, AttemptInv, Numbered; }
    hide TaskInv, AttemptInv, NumbersDistinct, NumbersDense;
    forall o | o in u.tasks ensures TaskInv(u, o) { LeaseEndTask(w, u, t, a, o); }
    forall b | b in u.attempts ensures AttemptInv(u, b) { LeaseEndAttempt(w, u, t, a, b); }
    NumbersStay(w, u);
    EffectsStay(w, u);
  }

  lemma EffectsStay(w: Work, u: Work)
    requires (forall e | e in w.effects :: EffectInv(w, e)) && u.effects == w.effects && w.tasks.Keys <= u.tasks.Keys
    ensures forall e | e in u.effects :: EffectInv(u, e)
  {
    forall e | e in u.effects ensures EffectInv(u, e) { assert EffectInv(w, e); }
  }

  lemma NumberKept(w: Work, u: Work, t: TaskKey, n: int)
    requires Numbered(w, t, n)
    requires forall a | a in w.attempts :: a in u.attempts && AttemptLater(w.attempts[a], u.attempts[a])
    ensures Numbered(u, t, n)
  {
    var a :| a in w.attempts && a.run == t.run && w.attempts[a].task == t.id && w.attempts[a].number == n;
    assert a in u.attempts && u.attempts[a].number == n;
  }

  /** The change that starts a lease on a free task: one more attempt, one generation up. */
  predicate LeaseStarts(w: Work, u: Work, t: TaskKey, a: AttemptKey) {
    && t in w.tasks && w.tasks[t].holder.None? && !w.tasks[t].status.Done? && !w.tasks[t].status.Buried?
    && w.tasks[t].started < w.tasks[t].maxAttempts
    && a !in w.attempts && a.run == t.run
    && t in u.tasks && a in u.attempts
    && u == w.(tasks := w.tasks[t := u.tasks[t]], attempts := w.attempts[a := u.attempts[a]])
    && TaskLater(w.tasks[t], u.tasks[t]) && u.tasks[t].status.Leased? && u.tasks[t].holder.Some?
    && u.tasks[t].holder.value.attempt == a.id && u.tasks[t].started == w.tasks[t].started + 1
    && u.tasks[t].generation == w.tasks[t].generation + 1 && u.tasks[t].retries == w.tasks[t].retries
    && var attempt := u.attempts[a];
       && attempt.task == t.id && attempt.number == u.tasks[t].started && attempt.generation == u.tasks[t].generation
       && attempt.worker == u.tasks[t].holder.value.owner && attempt.status.InProgress? && attempt.completedAt.None?
  }

  lemma LeaseStartRows(w: Work, u: Work, t: TaskKey, a: AttemptKey)
    requires WorkInv(w) && LeaseStarts(w, u, t, a)
    ensures (forall o | o in u.tasks :: TaskInv(u, o)) && (forall b | b in u.attempts :: AttemptInv(u, b))
  {
    hide NumbersDistinct, NumbersDense, EffectInv;
    assert TaskInv(w, t);
    forall o | o in u.tasks ensures TaskInv(u, o) { assert TaskInv(w, o); }
    forall b | b in u.attempts ensures AttemptInv(u, b) { assert b != a ==> AttemptInv(w, b); }
  }

  lemma LeaseStartNumbers(w: Work, u: Work, t: TaskKey, a: AttemptKey)
    requires WorkInv(w) && LeaseStarts(w, u, t, a)
    ensures NumbersDistinct(u) && NumbersDense(u)
  {
    hide TaskInv, EffectInv;
    assert NumbersDistinct(u) by { assert forall b | b in w.attempts :: AttemptInv(w, b); }
    forall o, n | o in u.tasks && 1 <= n <= u.tasks[o].started ensures Numbered(u, o, n) {
      if o == t && n == u.tasks[t].started {
        assert a in u.attempts && u.attempts[a].number == n;
      } else {
        NumberKept(w, u, o, n);
      }
    }
  }

  lemma LeaseStartKeeps(w: Work, u: Work, t: TaskKey, a: AttemptKey)
    requires WorkInv(w) && LeaseStarts(w, u, t, a)
    ensures WorkInv(u) && Later(w, u)
  {
    hide TaskInv, AttemptInv, NumbersDistinct, NumbersDense, EffectInv;
    LeaseStartRows(w, u, t, a);
    LeaseStartNumbers(w, u, t, a);
    EffectsStay(w, u);
  }

  // ----------------------------------------------------------- step lemmas

  /** The task as its expired lease is taken from it, before the next one starts. */
  ghost function Freed(w: Work, t: TaskKey, now: int): Work
    requires t in w.tasks && w.tasks[t].holder.Some? && AttemptKey(t.run, w.tasks[t].holder.value.attempt) in w.attempts
  {
    var task := w.tasks[t];
    EndAttempt(w, AttemptKey(t.run, task.holder.value.attempt), TimedOut, Null, LEASE_EXPIRED, now)
      .(tasks := w.tasks[t := task.(status := Ready, holder := None, retries := task.retries + 1)])
  }

  lemma EnqueueRows(w: Work, k: RunKey, c: WorkCommand, now: int)
    requires WorkInv(w) && c.Enqueue? && WellFormed(c) && EnqueueTx(w, k, c, now).Write?
    ensures var u := EnqueueTx(w, k, c, now).work;
            && (forall t | t in u.tasks :: TaskInv(u, t)) && (forall a | a in u.attempts :: AttemptInv(u, a))
            && NumbersDense(u)
  {
    hide NumbersDistinct, EffectInv;
    var u := EnqueueTx(w, k, c, now).work;
    forall t | t in u.tasks ensures TaskInv(u, t) { assert t in w.tasks ==> TaskInv(w, t); }
    forall a | a in u.attempts ensures AttemptInv(u, a) { assert AttemptInv(w, a); }
    forall t, n | t in u.tasks && 1 <= n <= u.tasks[t].started ensures Numbered(u, t, n) { NumberKept(w, u, t, n); }
  }

  lemma EnqueueKeeps(w: Work, k: RunKey, c: WorkCommand, now: int)
    requires WorkInv(w) && c.Enqueue? && WellFormed(c) && EnqueueTx(w, k, c, now).Write?
    ensures var u := EnqueueTx(w, k, c, now).work; WorkInv(u) && Later(w, u)
  {
    var u := EnqueueTx(w, k, c, now).work;
    EnqueueRows(w, k, c, now);
    hide TaskInv, AttemptInv, NumbersDense, EffectInv;
    EffectsStay(w, u);
    assert NumbersDistinct(w) == NumbersDistinct(u);
  }

  lemma GrantKeeps(w: Work, k: RunKey, c: WorkCommand, now: int, notes: seq<Note>)
    requires WorkInv(w) && c.Claim? && TaskKey(k, c.task) in w.tasks && GrantTx(w, k, c, now, false, notes).Write?
    requires var task := w.tasks[TaskKey(k, c.task)];
             task.holder.None? && task.started < task.maxAttempts && !task.status.Done? && !task.status.Buried?
    ensures var u := GrantTx(w, k, c, now, false, notes).work; WorkInv(u) && Later(w, u)
  {
    var u := GrantTx(w, k, c, now, false, notes).work;
    assert LeaseStarts(w, u, TaskKey(k, c.task), AttemptKey(k, c.attempt)) by {
      hide TaskInv, AttemptInv, NumbersDistinct, NumbersDense, EffectInv;
    }
    hide *;
    LeaseStartKeeps(w, u, TaskKey(k, c.task), AttemptKey(k, c.attempt));
  }

  lemma ClaimKeeps(w: Work, k: RunKey, c: WorkCommand, now: int)
    requires WorkInv(w) && c.Claim? && ClaimTx(w, k, c, now).Write?
    ensures var u := ClaimTx(w, k, c, now).work; WorkInv(u) && Later(w, u)
  {
    var t := TaskKey(k, c.task);
    var task := w.tasks[t];
    assert TaskInv(w, t);
    if task.status.Leased? {
      StolenKeeps(w, k, c, now);
    } else if task.started >= task.maxAttempts {
      BuriedKeeps(w, k, c, now);
    } else {
      GrantKeeps(w, k, c, now, []);
    }
  }

  /** A free task with no attempt left is buried without touching its attempts. */
  lemma BuriedIs(w: Work, k: RunKey, c: WorkCommand, now: int)
    requires c.Claim? && ClaimTx(w, k, c, now).Write? && TaskInv(w, TaskKey(k, c.task))
    requires var task := w.tasks[TaskKey(k, c.task)]; !task.status.Leased? && task.started >= task.maxAttempts
    ensures var t := TaskKey(k, c.task);
            ClaimTx(w, k, c, now).work == w.(tasks := w.tasks[t := w.tasks[t].(status := Buried, holder := None)])
  {}

  lemma BuriedKeeps(w: Work, k: RunKey, c: WorkCommand, now: int)
    requires WorkInv(w) && c.Claim? && ClaimTx(w, k, c, now).Write?
    requires var task := w.tasks[TaskKey(k, c.task)]; !task.status.Leased? && task.started >= task.maxAttempts
    ensures var u := ClaimTx(w, k, c, now).work; WorkInv(u) && Later(w, u)
  {
    var t := TaskKey(k, c.task);
    var u := ClaimTx(w, k, c, now).work;
    hide ClaimTx, EffectInv, NumbersDistinct, NumbersDense, AttemptInv, TaskInv;
    assert TaskInv(w, t);
    BuriedIs(w, k, c, now);
    BuriedRows(w, u, t);
    NumbersStay(w, u);
    EffectsStay(w, u);
  }

  lemma BuriedRows(w: Work, u: Work, t: TaskKey)
    requires (forall o | o in w.tasks :: TaskInv(w, o)) && forall a | a in w.attempts :: AttemptInv(w, a)
    requires t in w.tasks && w.tasks[t].holder.None? && !w.tasks[t].status.Leased?
    requires u == w.(tasks := w.tasks[t := w.tasks[t].(status := Buried, holder := None)])
    ensures (forall o | o in u.tasks :: TaskInv(u, o)) && forall a | a in u.attempts :: AttemptInv(u, a)
  {
    forall o | o in u.tasks ensures TaskInv(u, o) { assert TaskInv(w, o); }
    forall a | a in u.attempts ensures AttemptInv(u, a) { assert AttemptInv(w, a); }
  }

  /** A claim that takes over an expired lease ends it and then starts its own. */
  lemma StolenKeeps(w: Work, k: RunKey, c: WorkCommand, now: int)
    requires WorkInv(w) && c.Claim? && ClaimTx(w, k, c, now).Write? && w.tasks[TaskKey(k, c.task)].status.Leased?
    ensures var u := ClaimTx(w, k, c, now).work; WorkInv(u) && Later(w, u)
  {
    var t := TaskKey(k, c.task);
    var u := ClaimTx(w, k, c, now).work;
    assert TaskInv(w, t);
    var a := AttemptKey(k, w.tasks[t].holder.value.attempt);
    if w.tasks[t].started >= w.tasks[t].maxAttempts {
      assert LeaseEnds(w, u, t, a) by { hide TaskInv, AttemptInv, NumbersDistinct, NumbersDense, EffectInv; }
      LeaseEndKeeps(w, u, t, a);
    } else {
      var f := Freed(w, t, now);
      StolenSplits(w, k, c, now);
      LeaseEndKeeps(w, f, t, a);
      LeaseStartKeeps(f, u, t, AttemptKey(k, c.attempt));
      LaterTransitive(w, f, u);
    }
  }

  lemma StolenSplits(w: Work, k: RunKey, c: WorkCommand, now: int)
    requires c.Claim? && ClaimTx(w, k, c, now).Write? && w.tasks[TaskKey(k, c.task)].status.Leased?
    requires TaskInv(w, TaskKey(k, c.task))
    requires w.tasks[TaskKey(k, c.task)].started < w.tasks[TaskKey(k, c.task)].maxAttempts
    ensures var t := TaskKey(k, c.task);
            var f := Freed(w, t, now);
            && LeaseEnds(w, f, t, AttemptKey(k, w.tasks[t].holder.value.attempt))
            && LeaseStarts(f, ClaimTx(w, k, c, now).work, t, AttemptKey(k, c.attempt))
  {
  }

  lemma HeartbeatLater(w: Work, k: RunKey, c: WorkCommand, now: int)
    requires c.Heartbeat? && HeartbeatTx(w, k, c, now).Write?
    ensures var u := HeartbeatTx(w, k, c, now).work;
            Later(w, u) && u.tasks.Keys == w.tasks.Keys && u.attempts.Keys == w.attempts.Keys && u.effects == w.effects
  {}

  lemma HeartbeatKeeps(w: Work, k: RunKey, c: WorkCommand, now: int)
    requires WorkInv(w) && c.Heartbeat? && HeartbeatTx(w, k, c, now).Write?
    ensures var u := HeartbeatTx(w, k, c, now).work; WorkInv(u) && Later(w, u)
  {
    hide HeartbeatTx, EffectInv, NumbersDistinct, NumbersDense, TaskInv, AttemptInv;
    var u := HeartbeatTx(w, k, c, now).work;
    HeartbeatLater(w, k, c, now);
    HeartbeatRows(w, k, c, now);
    NumbersStay(w, u);
    EffectsStay(w, u);
  }

  lemma HeartbeatRows(w: Work, k: RunKey, c: WorkCommand, now: int)
    requires WorkInv(w) && c.Heartbeat? && HeartbeatTx(w, k, c, now).Write?
    ensures var u := HeartbeatTx(w, k, c, now).work;
            && (forall t | t in u.tasks :: TaskInv(u, t) && u.tasks[t].started == w.tasks[t].started)
            && (forall a | a in u.attempts :: AttemptInv(u, a))
  {
    hide NumbersDistinct, NumbersDense, EffectInv;
    var u := HeartbeatTx(w, k, c, now).work;
    forall t | t in u.tasks ensures TaskInv(u, t) { assert TaskInv(w, t); }
    forall a | a in u.attempts ensures AttemptInv(u, a) { assert AttemptInv(w, a); }
  }

  lemma CompleteEnds(w: Work, k: RunKey, c: WorkCommand, now: int)
    requires c.Complete? && CompleteTx(w, k, c, now).Write?
    ensures LeaseEnds(w, CompleteTx(w, k, c, now).work, TaskKey(k, c.lease.task), AttemptKey(k, c.lease.attempt))
  {
  }

  lemma RecoverEnds(w: Work, k: RunKey, id: Id, delay: int, now: int)
    requires Recoverable(w, k, id, now) && RecoverySound(w, k, id)
    ensures LeaseEnds(w, RecoverRow(w, k, id, delay, now), TaskKey(k, id),
                      AttemptKey(k, w.tasks[TaskKey(k, id)].holder.value.attempt))
  {
  }

  lemma {:induction false} RecoverKeeps(w: Work, k: RunKey, found: seq<Id>, delay: int, now: int)
    requires WorkInv(w) && RecoverAll(w, k, found, delay, now).Some?
    ensures var u := RecoverAll(w, k, found, delay, now).value.0; WorkInv(u) && Later(w, u)
    decreases |found|
  {
    if found == [] {
    } else {
      var next := RecoverRow(w, k, found[0], delay, now);
      RecoverEnds(w, k, found[0], delay, now);
      LeaseEndKeeps(w, next, TaskKey(k, found[0]), AttemptKey(k, w.tasks[TaskKey(k, found[0])].holder.value.attempt));
      RecoverKeeps(next, k, found[1..], delay, now);
      LaterTransitive(w, next, RecoverAll(w, k, found, delay, now).value.0);
    }
  }

  lemma EffectRowKeeps(w: Work, u: Work, e: TenantKey)
    requires WorkInv(w) && e in u.effects && u == w.(effects := w.effects[e := u.effects[e]]) && EffectInv(u, e)
    requires e in w.effects ==> EffectLater(w.effects[e], u.effects[e])
    ensures WorkInv(u) && Later(w, u)
  {
    assert NumbersDistinct(u) && NumbersDense(u) by {
      hide TaskInv, AttemptInv, EffectInv;
      NumbersStay(w, u);
    }
    hide NumbersDistinct, NumbersDense;
    forall t | t in u.tasks ensures TaskInv(u, t) { assert TaskInv(w, t); }
    forall a | a in u.attempts ensures AttemptInv(u, a) { assert AttemptInv(w, a); }
    forall o | o in u.effects ensures EffectInv(u, o) { assert o != e ==> EffectInv(w, o); }
  }

  /** Every work transaction keeps the invariant and only moves rows forward. */
  lemma DecideKeeps(w: Work, k: RunKey, standing: Standing, c: WorkCommand, now: int)
    requires WorkInv(w) && Decide(w, k, standing, c, now).Write?
    ensures var u := Decide(w, k, standing, c, now).work; WorkInv(u) && Later(w, u)
  {
    hide TaskInv, AttemptInv, NumbersDistinct, NumbersDense, ClaimTx, HeartbeatTx;
    match c
    case Enqueue(_, _, _, _, _) => EnqueueKeeps(w, k, c, now);
    case Claim(_, _, _, _, _) => ClaimKeeps(w, k, c, now);
    case Heartbeat(_, _) => HeartbeatKeeps(w, k, c, now);
    case Complete(_, _, _, _, _) =>
      CompleteEnds(w, k, c, now);
      LeaseEndKeeps(w, CompleteTx(w, k, c, now).work, TaskKey(k, c.lease.task), AttemptKey(k, c.lease.attempt));
    case Recover(_, _, _) => RecoverKeeps(w, k, c.found, c.delay, now);
    case Reserve(_, _, _) =>
      var u := ReserveTx(w, k, c, now).work;
      if u != w { EffectRowKeeps(w, u, TenantKey(k.tenant, c.effect)); }
    case CommitEffect(_, _) =>
      var u := CommitEffectTx(w, k, c).work;
      if u != w { CommitEffectKeeps(w, k, c); }
  }

  lemma CommitEffectKeeps(w: Work, k: RunKey, c: WorkCommand)
    requires WorkInv(w) && c.CommitEffect? && CommitEffectTx(w, k, c).Write?
    ensures var u := CommitEffectTx(w, k, c).work; u != w ==> WorkInv(u) && Later(w, u)
  {
    var e := TenantKey(k.tenant, c.effect);
    assert EffectInv(w, e);
    hide TaskInv, AttemptInv, NumbersDistinct, NumbersDense;
    var u := CommitEffectTx(w, k, c).work;
    if u != w { EffectRowKeeps(w, u, e); }
  }

  // --------------------------------------------------------------- fencing

  predicate Presents(c: WorkCommand, l: Lease) {
    match c
    case Heartbeat(lease, _) => lease == l
    case Complete(lease, _, _, _, _) => lease == l
    case Reserve(lease, _, _) => lease == l
    case _ => false
  }

  /** A lease of an earlier generation can do nothing. */
  lemma OldLeaseRefused(w: Work, k: RunKey, standing: Standing, c: WorkCommand, l: Lease, now: int)
    requires Presents(c, l) && WellFormed(c) && !standing.Absent?
    requires TaskKey(k, l.task) in w.tasks && l.generation < w.tasks[TaskKey(k, l.task)].generation
    ensures Decide(w, k, standing, c, now) == Refuse(StaleLease)
  {
  }

  /** A granted lease carries the task's new generation, one above the old. */
  lemma GrantRaises(w: Work, k: RunKey, standing: Standing, c: WorkCommand, now: int)
    requires Decide(w, k, standing, c, now).Write? && Decide(w, k, standing, c, now).reply.Granted?
    ensures var v := Decide(w, k, standing, c, now);
            var t := TaskKey(k, c.task);
            && c.Claim? && !standing.Ended? && v.reply.lease.task == c.task
            && t in w.tasks && t in v.work.tasks
            && v.reply.lease.generation == w.tasks[t].generation + 1 == v.work.tasks[t].generation
            && Holds(v.work.tasks[t], v.reply.lease, now)
  {
  }

  /** Only a claim starts an attempt, in its own run, while that run is live. */
  lemma OnlyClaimsStart(w: Work, k: RunKey, standing: Standing, c: WorkCommand, now: int, a: AttemptKey)
    requires Decide(w, k, standing, c, now).Write?
    requires a in Decide(w, k, standing, c, now).work.attempts && a !in w.attempts
    ensures c.Claim? && standing.Live? && a.run == k
  {
    match c
    case Recover(_, _, _) => RecoverStartsNothing(w, k, c.found, c.delay, now);
    case _ =>
  }

  lemma {:induction false} RecoverStartsNothing(w: Work, k: RunKey, found: seq<Id>, delay: int, now: int)
    requires RecoverAll(w, k, found, delay, now).Some?
    ensures RecoverAll(w, k, found, delay, now).value.0.attempts.Keys == w.attempts.Keys
    decreases |found|
  {
    if found == [] {
    } else {
      RecoverStartsNothing(RecoverRow(w, k, found[0], delay, now), k, found[1..], delay, now);
    }
  }

  /** Whatever tasks the recovery query returns, the loop never meets a stale row. */
  lemma {:induction false} RecoveryNeverStale(w: Work, k: RunKey, found: seq<Id>, limit: int, delay: int, now: int)
    requires WorkInv(w) && Selection(w, k, found, limit, now)
    ensures RecoverAll(w, k, found, delay, now).Some?
    decreases |found|
  {
    if found == [] {
    } else {
      var t := TaskKey(k, found[0]);
      assert Recoverable(w, k, found[0], now) && TaskInv(w, t);
      var next := RecoverRow(w, k, found[0], delay, now);
      RecoverEnds(w, k, found[0], delay, now);
      LeaseEndKeeps(w, next, t, AttemptKey(k, w.tasks[t].holder.value.attempt));
      SelectionRest(w, next, k, found, limit, now);
      RecoveryNeverStale(next, k, found[1..], limit - 1, delay, now);
    }
  }

  lemma SelectionRest(w: Work, next: Work, k: RunKey, found: seq<Id>, limit: int, now: int)
    requires Selection(w, k, found, limit, now) && found != []
    requires next.tasks.Keys == w.tasks.Keys
    requires forall o | o in w.tasks && o != TaskKey(k, found[0]) :: next.tasks[o] == w.tasks[o]
    ensures Selection(next, k, found[1..], limit - 1, now)
  {
    forall i | 0 <= i < |found[1..]| ensures Recoverable(next, k, found[1..][i], now) {
      assert Recoverable(w, k, found[i + 1], now) && found[0] != found[i + 1];
    }
  }
}
