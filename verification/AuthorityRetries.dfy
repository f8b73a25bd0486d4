/** Retries do not change history: once a command has done its work, repeating
    it at any later time leaves every table of the authority as it is. */
module AuthorityRetries {
  import opened Common
  import opened AuthorityTables
  import opened Authority
  import opened AuthorityHistory
  import Gate = AuthorityGate
  import GateProofs = AuthorityGateProofs
  import Work = AuthorityWork
  import WorkProofs = AuthorityWorkProofs
  import Log = AuthorityLog
  import LogProofs = AuthorityLogProofs

  // ------------------------------------------------------ what is on record

  /** The tables already hold what `c` asks for, or the fence it names is gone. */
  predicate Settled(db: Db, c: Command) {
    match c
    case Lifecycle(k, gate, key, request) => LifecycleSettled(db, k, gate, key, request)
    case Task(k, work) => TaskSettled(db.work, k, work)
    case Relay(outbox) => RelaySettled(db.log, outbox)
  }

  predicate LifecycleSettled(db: Db, k: RunKey, c: Gate.GateCommand, key: Id, request: Id) {
    match OperationOf(c)
    case Some(operation) =>
      var row := IdempotencyKey(k, operation, key);
      row in db.stored && db.stored[row].request == RequestOf(c, request) && db.stored[row].plan == Gate.PlanOf(c)
    case None =>
      match c
      case RegisterNonce(nonce, _, _, _) => TenantKey(k.tenant, nonce) in db.gate.nonces
      case CreateCheckpoint(_) => k in db.gate.checkpoints
      case AppendJournal(_) => Gate.JournalKey(k, Gate.Simulation) in db.gate.journal
      case RecordLaunch(launch, _, _, _, _, _) => Gate.LaunchKey(k, launch) in db.gate.launches
      case RecordReconciliation(_, release, _, _, _, _) => Gate.ReleaseKey(k, release) in db.gate.reconciliations
      case _ => false
  }

  predicate TaskSettled(w: Work.Work, k: RunKey, c: Work.WorkCommand) {
    match c
    case Enqueue(task, _, _, _, _) => Work.TaskKey(k, task) in w.tasks
    case Complete(lease, _, _, _, _) =>
      var a := Work.AttemptKey(k, lease.attempt);
      a in w.attempts && !w.attempts[a].status.InProgress?
    case Reserve(_, effect, _) => TenantKey(k.tenant, effect) in w.effects
    case CommitEffect(effect, _) =>
      var e := TenantKey(k.tenant, effect);
      e in w.effects && Filled(w.effects[e].result)
    case _ => false // a claim, a heartbeat or a recovery may act again
  }

  predicate RelaySettled(l: Log.Log, c: Log.OutboxCommand) {
    !c.ClaimOutbox?
    && var p := c.parcel;
       p.event in l.events
       && var d := l.events[p.event].delivery;
          d.generation > p.generation || (d.generation == p.generation && !d.status.InFlight?)
  }

  /** Whether a command was carried out rather than refused. */
  predicate Succeeded(reply: Reply) {
    match reply
    case Denied(_) => false
    case Relayed(outbox) => !outbox.Refused?
    case _ => true
  }

  /** Commands whose effect is a fact on record; the others ask to act anew each time. */
  predicate Recordable(c: Command) {
    match c
    case Task(_, work) => !work.Claim? && !work.Heartbeat? && !work.Recover?
    case Relay(outbox) => !outbox.ClaimOutbox?
    case _ => true
  }

  lemma SuccessSettles(db: Db, c: Command, now: int)
    requires Recordable(c) && Succeeded(Apply(db, c, now).reply)
    ensures Settled(Apply(db, c, now).db, c)
  {
    match c
    case Lifecycle(k, gate, key, request) => LifecycleSettles(db, k, gate, key, request, now);
    case Task(k, work) => TaskSettles(db, k, work, now);
    case Relay(outbox) =>
  }

  lemma LifecycleSettles(db: Db, k: RunKey, c: Gate.GateCommand, key: Id, request: Id, now: int)
    requires Succeeded(LifecycleTx(db, k, c, key, request, now).reply)
    ensures LifecycleSettled(LifecycleTx(db, k, c, key, request, now).db, k, c, key, request)
  {
    hide Log.AppendAll;
    if OperationOf(c).Some? { hide Gate.Decide; }
  }

  lemma TaskSettles(db: Db, k: RunKey, c: Work.WorkCommand, now: int)
    requires !c.Claim? && !c.Heartbeat? && !c.Recover? && Succeeded(TaskTx(db, k, c, now).reply)
    ensures TaskSettled(TaskTx(db, k, c, now).db.work, k, c)
  {
    hide Log.AppendAll, StandingOf;
  }

  /** What is on record stays on record. */
  lemma SettledStays(db: Db, after: Db, c: Command)
    requires Settled(db, c) && Later(db, after)
    ensures Settled(after, c)
  {
  }

  // ------------------------------------------------- repeating does nothing

  lemma SettledRepeats(db: Db, c: Command, now: int)
    requires Settled(db, c) && DbInv(db)
    ensures Apply(db, c, now).db == db
  {
    match c
    case Lifecycle(k, gate, key, request) =>
      if OperationOf(gate).None? { PlainRepeats(db, k, gate, key, request, now); }
    case Task(k, work) => TaskRepeats(db, k, work, now);
    case Relay(outbox) => hide Log.ClaimTx;
  }

  lemma PlainRepeats(db: Db, k: RunKey, c: Gate.GateCommand, key: Id, request: Id, now: int)
    requires LifecycleSettled(db, k, c, key, request) && OperationOf(c).None?
    ensures PlainTx(db, k, c, now).db == db
  {
    hide Log.AppendAll;
  }

  lemma TaskRepeats(db: Db, k: RunKey, c: Work.WorkCommand, now: int)
    requires TaskSettled(db.work, k, c) && db.gate.runs.Keys == db.log.next.Keys
    ensures TaskTx(db, k, c, now).db == db
  {
    hide StandingOf;
  }

  // ------------------------------------------------------------- histories

  /** `noisy` is `base` with retries inserted: a retry repeats, with any clock
      reading, a recordable command that had already succeeded. */
  predicate WithRetries(db: Db, base: seq<Timed>, noisy: seq<Timed>, done: set<Command>)
    decreases |noisy|
  {
    if noisy == [] then base == []
    else
      var head := noisy[0];
      || (head.command in done && WithRetries(db, base, noisy[1..], done))
      || (base != [] && base[0] == head
          && var step := Apply(db, head.command, head.now);
             WithRetries(step.db, base[1..], noisy[1..],
                         if Recordable(head.command) && Succeeded(step.reply) then done + {head.command} else done))
  }

  /** Inserting any number of retries anywhere into a history leaves every table equal. */
  lemma {:induction false} RetriesChangeNothing(db: Db, base: seq<Timed>, noisy: seq<Timed>, done: set<Command>)
    requires DbInv(db) && WithRetries(db, base, noisy, done) && forall c | c in done :: Settled(db, c)
    ensures Run(db, noisy) == Run(db, base)
    decreases |noisy|
  {
    if noisy == [] {
    } else {
      var head := noisy[0];
      var step := Apply(db, head.command, head.now);
      if head.command in done && WithRetries(db, base, noisy[1..], done) {
        SettledRepeats(db, head.command, head.now);
        RetriesChangeNothing(db, base, noisy[1..], done);
      } else {
        ApplyKeeps(db, head.command, head.now);
        var grown := if Recordable(head.command) && Succeeded(step.reply) then done + {head.command} else done;
        forall c | c in grown ensures Settled(step.db, c) {
          if c in done { SettledStays(db, step.db, c); } else { SuccessSettles(db, c, head.now); }
        }
        hide Apply, Later, Settled;
        RetriesChangeNothing(step.db, base[1..], noisy[1..], grown);
      }
    }
  }

  /** A repeated key returns the stored result of its first use however long ago
      that was; with another request or plan it is refused. Nothing changes either way. */
  lemma StoredResultReturned(
    db: Db, k: RunKey, first: Gate.GateCommand, key: Id, request: Id, at: int,
    history: seq<Timed>, again: Gate.GateCommand, request': Id, now: int)
    requires DbInv(db) && Apply(db, Lifecycle(k, first, key, request), at).reply.Accepted?
    requires Gate.WellFormed(again) && OperationOf(again) == OperationOf(first) && Filled(RequestOf(again, request'))
    ensures var step := Apply(db, Lifecycle(k, first, key, request), at);
            var after := Run(step.db, history);
            Apply(after, Lifecycle(k, again, key, request'), now) ==
              if RequestOf(again, request') == RequestOf(first, request) && Gate.PlanOf(again) == Gate.PlanOf(first)
              then Outcome(after, Accepted(step.reply.result, true))
              else Outcome(after, Denied(IdempotencyReuse))
  {
    var c := Lifecycle(k, first, key, request);
    var step := Apply(db, c, at);
    ApplyKeeps(db, c, at);
    HistoryKeeps(step.db, history);
    StoredAs(db, k, first, key, request, at);
    hide DbInv, Run, Gate.Decide, Log.AppendAll, Gate.WellFormed, Gate.PlanOf;
  }

  lemma StoredAs(db: Db, k: RunKey, c: Gate.GateCommand, key: Id, request: Id, now: int)
    requires LifecycleTx(db, k, c, key, request, now).reply.Accepted?
    ensures OperationOf(c).Some? && Scoped(k) && Filled(key)
    ensures var row := IdempotencyKey(k, OperationOf(c).value, key);
            var step := LifecycleTx(db, k, c, key, request, now);
            row in step.db.stored && step.db.stored[row]
                == Stored(RequestOf(c, request), Gate.PlanOf(c), step.reply.result)
  {
    hide Gate.Decide, Log.AppendAll;
  }
}
