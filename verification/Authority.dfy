/** The whole authority: every command is one transaction over the lifecycle
    tables, the work tables, the event log and the idempotency results. */
module Authority {
  import opened Common
  import opened AuthorityTables
  import Gate = AuthorityGate
  import Work = AuthorityWork
  import Log = AuthorityLog

  /** The node path and operation name of an idempotent command. */
  datatype Operation = Create | Move | Decision(stage: Gate.Stage) | Seal | Publish

  datatype IdempotencyKey = IdempotencyKey(run: RunKey, operation: Operation, key: Id)

  datatype Result = Result(run: RunKey, revision: int, state: RunState, sequence: int, approval: Id, release: Id)

  datatype Stored = Stored(request: Id, plan: Id, result: Result)

  datatype Db = Db(gate: Gate.Gate, work: Work.Work, log: Log.Log, stored: map<IdempotencyKey, Stored>)

  const EMPTY := Db(Gate.EMPTY_GATE, Work.EMPTY_WORK, Log.EMPTY_LOG, map[])

  /** `key` and `request` bind the five idempotent lifecycle commands; the others ignore them. */
  datatype Command =
    | Lifecycle(run: RunKey, gate: Gate.GateCommand, key: Id, request: Id)
    | Task(run: RunKey, work: Work.WorkCommand)
    | Relay(outbox: Log.OutboxCommand)

  datatype Reply =
    | Denied(error: Error)
    | Accepted(result: Result, replayed: bool)
    | Recorded(sequence: int, replayed: bool)
    | Worked(work: Work.WorkReply)
    | Relayed(outbox: Log.OutboxReply)

  datatype Outcome = Outcome(db: Db, reply: Reply)

  function OperationOf(c: Gate.GateCommand): Option<Operation> {
    match c
    case CreateRun => Some(Create)
    case Transition(_, _, _, _) => Some(Move)
    case RecordApproval(_, _, _, _, binding, _, _, _, _) => Some(Decision(binding.stage))
    case CommitSeal(_, _, _, _, _, _, _) => Some(Seal)
    case CreateRelease(_, _, _, _, _, _, _, _) => Some(Publish)
    case _ => None
  }

  function RequestOf(c: Gate.GateCommand, request: Id): Id {
    if c.RecordApproval? then c.binding.request else request
  }

  function ResultOf(k: RunKey, c: Gate.GateCommand, run: Gate.Run, sequence: int): Result {
    Result(k, run.revision, run.state, sequence,
           if c.RecordApproval? then c.approval else run.approval,
           if c.RecordApproval? || c.CommitSeal? then Null else run.release)
  }

  /** Commit the lifecycle tables and append the transaction's events. */
  function CommitGate(db: Db, k: RunKey, gate: Gate.Gate, notes: seq<Note>, now: int): Db
    requires k in gate.runs
  {
    var log := if k in db.log.next then db.log else Log.Open(db.log, k);
    db.(gate := gate, log := Log.AppendAll(log, k, notes, gate.runs[k].revision, gate.runs[k].state, now))
  }

  function NextSequence(db: Db, k: RunKey): int {
    if k in db.log.next then db.log.next[k] else 1
  }

  predicate Scoped(k: RunKey) { Filled(k.tenant) && Filled(k.run) }

  function LifecycleTx(db: Db, k: RunKey, c: Gate.GateCommand, key: Id, request: Id, now: int): Outcome {
    if !Scoped(k) || !Gate.WellFormed(c) then Outcome(db, Denied(Invalid))
    else match OperationOf(c)
      case Some(operation) => IdempotentTx(db, IdempotencyKey(k, operation, key), c, RequestOf(c, request), now)
      case None => PlainTx(db, k, c, now)
  }

  /** A stored result answers a repeated key; a different binding is refused. */
  function IdempotentTx(db: Db, row: IdempotencyKey, c: Gate.GateCommand, request: Id, now: int): Outcome {
    if !Filled(row.key) || !Filled(request) then Outcome(db, Denied(Invalid))
    else if row in db.stored then
      if db.stored[row].request != request || db.stored[row].plan != Gate.PlanOf(c)
      then Outcome(db, Denied(IdempotencyReuse))
      else Outcome(db, Accepted(db.stored[row].result, true))
    else match Gate.Decide(db.gate, row.run, c, now)
      case Refuse(error) => Outcome(db, Denied(error))
      case Repeat => Outcome(db, Denied(Conflict))
      case Write(gate, notes) =>
        if row.run !in gate.runs then Outcome(db, Denied(NotFound))
        else
          var result := ResultOf(row.run, c, gate.runs[row.run], NextSequence(db, row.run));
          Outcome(CommitGate(db, row.run, gate, notes, now)
                    .(stored := db.stored[row := Stored(request, Gate.PlanOf(c), result)]),
                  Accepted(result, false))
  }

  function PlainTx(db: Db, k: RunKey, c: Gate.GateCommand, now: int): Outcome {
    match Gate.Decide(db.gate, k, c, now)
    case Refuse(error) => Outcome(db, Denied(error))
    case Repeat => Outcome(db, Recorded(0, true))
    case Write(gate, notes) =>
      if k !in gate.runs then Outcome(db, Denied(NotFound))
      else Outcome(CommitGate(db, k, gate, notes, now), Recorded(if notes == [] then 0 else NextSequence(db, k), false))
  }

  function StandingOf(gate: Gate.Gate, k: RunKey): Work.Standing {
    if k !in gate.runs then Work.Absent
    else if Terminal(gate.runs[k].state) then Work.Ended else Work.Live
  }

  function TaskTx(db: Db, k: RunKey, c: Work.WorkCommand, now: int): Outcome {
    if !Scoped(k) then Outcome(db, Denied(Invalid))
    else match Work.Decide(db.work, k, StandingOf(db.gate, k), c, now)
      case Refuse(error) => Outcome(db, Denied(error))
      case Write(work, owner, notes, reply) =>
        if owner !in db.gate.runs || owner !in db.log.next then
          if notes == [] then Outcome(db.(work := work), Worked(reply)) else Outcome(db, Denied(NotFound))
        else
          var run := db.gate.runs[owner];
          Outcome(db.(work := work, log := Log.AppendAll(db.log, owner, notes, run.revision, run.state, now)),
                  if reply.BuriedNow? then Denied(Exhausted) else Worked(reply))
  }

  function Apply(db: Db, c: Command, now: int): Outcome {
    match c
    case Lifecycle(k, gate, key, request) => LifecycleTx(db, k, gate, key, request, now)
    case Task(k, work) => TaskTx(db, k, work, now)
    case Relay(outbox) =>
      var step := Log.Outbox(db.log, outbox, now);
      Outcome(db.(log := step.log), Relayed(step.reply))
  }

  // --------------------------------------------------------------- history

  datatype Timed = Timed(command: Command, now: int)

  function Run(db: Db, history: seq<Timed>): Db
    decreases |history|
  {
    if history == [] then db
    else Run(Apply(db, history[0].command, history[0].now).db, history[1..])
  }
}
