/** The repository of the authority: each method runs one transaction over the
    tables, statement by statement in the order the SQL runs, and is proved to
    do what the transaction function of its command says. */
module AuthorityRepository {
  import opened Common
  import opened AuthorityTables
  import opened Authority
  import AuthorityHistory
  import opened Gate = AuthorityGate
  import Work = AuthorityWork
  import WorkProofs = AuthorityWorkProofs
  import Log = AuthorityLog

  lemma {:induction false} AppendAllConcat(l: Log.Log, k: RunKey, a: seq<Note>, b: seq<Note>, revision: int,
      state: RunState, now: int)
    requires k in l.next
    ensures var mid := Log.AppendAll(l, k, a, revision, state, now);
            k in mid.next && Log.AppendAll(l, k, a + b, revision, state, now)
                == Log.AppendAll(mid, k, b, revision, state, now)
    decreases |a|
  {
    if a == [] {
      assert a + b == b;
    } else {
      assert (a + b)[1..] == a[1..] + b;
      AppendAllConcat(Log.Append(l, k, a[0], revision, state, now), k, a[1..], b, revision, state, now);
    }
  }

  lemma CommandKeeps(db: Db, c: Command, now: int)
    requires AuthorityHistory.DbInv(db)
    ensures AuthorityHistory.DbInv(Apply(db, c, now).db) && db.gate.runs.Keys == db.log.next.Keys
  {
    AuthorityHistory.ApplyKeeps(db, c, now);
  }

  /** What remains of a recovery continues what is done so far. */
  ghost predicate Resumes(whole: Option<(Work.Work, seq<Note>)>, notes: seq<Note>,
      rest: Option<(Work.Work, seq<Note>)>) {
    whole == if rest.None? then None else Some((rest.value.0, notes + rest.value.1))
  }

  lemma ResumesAtStart(whole: Option<(Work.Work, seq<Note>)>)
    ensures Resumes(whole, [], whole)
  {
    if whole.Some? { assert [] + whole.value.1 == whole.value.1; }
  }

  lemma ResumesOneMore(whole: Option<(Work.Work, seq<Note>)>, notes: seq<Note>, done: seq<Note>,
      rest: Option<(Work.Work, seq<Note>)>)
    requires Resumes(whole, notes, if rest.None? then None else Some((rest.value.0, done + rest.value.1)))
    ensures Resumes(whole, notes + done, rest)
  {
    if rest.Some? { assert notes + (done + rest.value.1) == (notes + done) + rest.value.1; }
  }

  lemma ClaimableExists(l: Log.Log, now: int)
    ensures forall e | Log.Claimable(l, e, now) :: e in l.events
  {
  }

  lemma EffectsHaveRuns(db: Db)
    requires AuthorityHistory.DbInv(db)
    ensures forall e | e in db.work.effects :: RunKey(e.tenant, db.work.effects[e].run) in db.gate.runs
  {
    forall e | e in db.work.effects ensures RunKey(e.tenant, db.work.effects[e].run) in db.gate.runs {
      assert WorkProofs.EffectInv(db.work, e);
    }
  }

  /** How the statements of one transaction end: rolled back, committed with
      nothing written, or committed with these events to append. */
  datatype Progress = Stopped(error: Error) | Unchanged | Changed(notes: seq<Note>)

  /** The same for the task tables; `owner` is the run whose log gains the events. */
  datatype WorkProgress = Abandoned(error: Error) | Moved(owner: RunKey, notes: seq<Note>, reply: Work.WorkReply)

  class Repository {
    var runs: map<RunKey, Run>
    var approvals: map<TenantKey, Approval>
    var nonces: map<TenantKey, Nonce>
    var checkpoints: map<RunKey, Checkpoint>
    var journal: map<JournalKey, Entry>
    var releases: map<TenantKey, Release>
    var launches: map<LaunchKey, Launch>
    var reconciliations: map<ReleaseKey, Reconciliation>
    var tasks: map<Work.TaskKey, Work.Task>
    var attempts: map<Work.AttemptKey, Work.Attempt>
    var effects: map<TenantKey, Work.Effect>
    var next: map<RunKey, int>
    var events: map<Log.EventKey, Log.Event>
    var stored: map<IdempotencyKey, Stored>

    ghost function Tables(): Gate.Gate
      reads this
    {
      Gate.Gate(runs, approvals, nonces, checkpoints, journal, releases, launches, reconciliations)
    }

    ghost function Tasks(): Work.Work reads this { Work.Work(tasks, attempts, effects) }

    ghost function Events(): Log.Log reads this { Log.Log(next, events) }

    ghost function Snapshot(): Db reads this { Db(Tables(), Tasks(), Events(), stored) }

    ghost predicate Valid() reads this { AuthorityHistory.DbInv(Snapshot()) }

    constructor ()
      ensures Valid() && Snapshot() == EMPTY
    {
      runs, approvals, nonces, checkpoints := map[], map[], map[], map[];
      journal, releases, launches, reconciliations := map[], map[], map[], map[];
      tasks, attempts, effects := map[], map[], map[];
      next, events, stored := map[], map[], map[];
      new;
      AuthorityHistory.EmptyHolds();
    }

    // --------------------------------------------------------- shared steps

    /** UPDATE runs ... RETURNING, then INSERT INTO events. */
    method AppendEvent(k: RunKey, run: Run, note: Note, now: int) returns (sequence: int)
      requires k in next
      modifies `next, `events
      ensures Events() == Log.Append(old(Events()), k, note, run.revision, run.state, now)
      ensures sequence == old(next[k]) && k in next
    {
      sequence := next[k];
      next := next[k := sequence + 1];
      events := events[Log.EventKey(k, sequence) :=
                       Log.Event(note, run.revision, run.state, now, Log.FreshDelivery(now))];
    }

    method AppendEvents(k: RunKey, run: Run, notes: seq<Note>, now: int)
      requires k in next
      modifies `next, `events
      ensures Events() == Log.AppendAll(old(Events()), k, notes, run.revision, run.state, now)
    {
      var i := 0;
      assert notes[..0] == [];
      while i < |notes|
        invariant 0 <= i <= |notes| && k in next
        invariant Events() == Log.AppendAll(old(Events()), k, notes[..i], run.revision, run.state, now)
      {
        AppendAllConcat(old(Events()), k, notes[..i], [notes[i]], run.revision, run.state, now);
        assert notes[..i + 1] == notes[..i] + [notes[i]] && [notes[i]][1..] == [];
        var _ := AppendEvent(k, run, notes[i], now);
        i := i + 1;
      }
      assert notes[..i] == notes;
    }

    /** The stored answer for a key, if the command must not run. */
    method BeginIdempotent(row: IdempotencyKey, c: GateCommand, request: Id, ghost now: int)
        returns (answer: Option<Reply>)
      ensures answer.Some? ==> IdempotentTx(Snapshot(), row, c, request, now) == Outcome(Snapshot(), answer.value)
      ensures answer.None? ==> Filled(row.key) && Filled(request) && row !in stored
    {
      if !Filled(row.key) || !Filled(request) { return Some(Denied(Invalid)); }
      if row in stored {
        if stored[row].request != request || stored[row].plan != PlanOf(c) { return Some(Denied(IdempotencyReuse)); }
        return Some(Accepted(stored[row].result, true));
      }
      return None;
    }

    /** What the statements did to the lifecycle tables is what the verdict says. */
    ghost predicate CarriedOut(before: Gate.Gate, verdict: GateVerdict, step: Progress)
      reads this
    {
      match step
      case Stopped(error) => verdict == GateVerdict.Refuse(error) && Tables() == before
      case Unchanged => verdict == Repeat && Tables() == before
      case Changed(notes) => verdict == GateVerdict.Write(Tables(), notes)
    }

    /** The end of an idempotent transaction: append the events, store the result. */
    method Finish(row: IdempotencyKey, c: GateCommand, request: Id, step: Progress, now: int, ghost before: Db)
        returns (reply: Reply)
      requires !step.Unchanged? && Filled(row.key) && Filled(request) && row !in stored
      requires Snapshot() == before.(gate := Tables())
      requires CarriedOut(before.gate, Gate.Decide(before.gate, row.run, c, now), step)
      requires step.Changed? ==> row.run in runs && (row.run !in next ==> c.CreateRun?)
      modifies `next, `events, `stored
      ensures Outcome(Snapshot(), reply) == IdempotentTx(before, row, c, request, now)
    {
      hide Gate.Decide;
      if step.Stopped? { return Denied(step.error); }
      var k := row.run;
      if k !in next { next := next[k := 1]; }
      var sequence := next[k];
      var run := runs[k];
      AppendEvents(k, run, step.notes, now);
      var result := ResultOf(k, c, run, sequence);
      stored := stored[row := Stored(request, Gate.PlanOf(c), result)];
      reply := Accepted(result, false);
    }

    /** The end of a lifecycle transaction that keeps no idempotency result. */
    method Record(k: RunKey, c: GateCommand, step: Progress, now: int, ghost before: Db) returns (reply: Reply)
      requires Snapshot() == before.(gate := Tables())
      requires CarriedOut(before.gate, Gate.Decide(before.gate, k, c, now), step)
      requires step.Changed? ==> k in runs && k in next
      modifies `next, `events
      ensures Outcome(Snapshot(), reply) == PlainTx(before, k, c, now)
    {
      hide Gate.Decide;
      match step
      case Stopped(error) => reply := Denied(error);
      case Unchanged => reply := Recorded(0, true);
      case Changed(notes) =>
        reply := Recorded(if notes == [] then 0 else next[k], false);
        AppendEvents(k, runs[k], notes, now);
    }

    // ------------------------------------------------------------ lifecycle

    method CreateRun(k: RunKey, key: Id, request: Id, now: int) returns (reply: Reply)
      requires Valid()
      modifies `runs, `next, `events, `stored
      ensures Valid()
      ensures Outcome(Snapshot(), reply)
           == Apply(old(Snapshot()), Lifecycle(k, GateCommand.CreateRun, key, request), now)
    {
      hide AuthorityHistory.DbInv, IdempotentTx, Gate.Decide, CarriedOut, TaskTx, PlainTx, Log.Outbox;
      var c := GateCommand.CreateRun;
      CommandKeeps(Snapshot(), Lifecycle(k, c, key, request), now);
      if !Scoped(k) { return Denied(Invalid); }
      var row := IdempotencyKey(k, Create, key);
      var answer := BeginIdempotent(row, c, request, now);
      if answer.Some? { return answer.value; }
      var step := InsertRun(k, now);
      reply := Finish(row, c, request, step, now, old(Snapshot()));
    }

    method InsertRun(k: RunKey, ghost now: int) returns (step: Progress)
      modifies `runs
      ensures CarriedOut(old(Tables()), Gate.Decide(old(Tables()), k, GateCommand.CreateRun, now), step)
      ensures !step.Unchanged? && (step.Changed? ==> k in runs)
    {
      if k in runs { return Stopped(Conflict); }
      runs := runs[k := Run(Created, 1, Null, Null, Null, Null, Null)];
      step := Changed([RunNote(RunCreated, Null, Null, Null, [])]);
    }

    method TransitionRun(k: RunKey, expected: int, to: RunState, plan: Id, code: Id, key: Id, request: Id, now: int)
        returns (reply: Reply)
      requires Valid()
      modifies `runs, `next, `events, `stored
      ensures Valid()
      ensures Outcome(Snapshot(), reply)
           == Apply(old(Snapshot()), Lifecycle(k, Transition(expected, to, plan, code), key, request), now)
    {
      hide AuthorityHistory.DbInv, IdempotentTx, Gate.Decide, WellFormed, CarriedOut, TaskTx, PlainTx, Log.Outbox;
      var c := Transition(expected, to, plan, code);
      CommandKeeps(Snapshot(), Lifecycle(k, c, key, request), now);
      if !Scoped(k) || !WellFormed(c) { return Denied(Invalid); }
      var row := IdempotencyKey(k, Move, key);
      var answer := BeginIdempotent(row, c, request, now);
      if answer.Some? { return answer.value; }
      var step := MoveRun(k, c, now);
      reply := Finish(row, c, request, step, now, old(Snapshot()));
    }

    method MoveRun(k: RunKey, c: GateCommand, ghost now: int) returns (step: Progress)
      requires c.Transition? && WellFormed(c)
      modifies `runs
      ensures CarriedOut(old(Tables()), Gate.Decide(old(Tables()), k, c, now), step)
      ensures !step.Unchanged? && (step.Changed? ==> k in runs && k in old(runs))
    {
      if k !in runs { return Stopped(NotFound); }
      var run := runs[k];
      if run.revision != c.expected { return Stopped(RevisionConflict); }
      if Terminal(run.state) || !TransitionAllowed(run.state, c.to) { return Stopped(Conflict); }
      if c.to.AwaitingApproval?
          && (Filled(run.simulation) || Filled(run.production) || Filled(run.approval) || Filled(run.release)) {
        return Stopped(Conflict);
      }
      if c.to.Succeeded? && !Filled(run.release) { return Stopped(Conflict); }
      if Filled(run.plan) && run.plan != c.plan { return Stopped(Conflict); }
      if c.to.Succeeded? {
        var proof := ReleaseKey(k, run.release);
        if proof !in reconciliations || !reconciliations[proof].verified { return Stopped(Conflict); }
      }
      run := run.(state := c.to, revision := run.revision + 1);
      if Filled(c.plan) { run := run.(plan := c.plan); }
      runs := runs[k := run];
      var refs := [];
      if run.state.AwaitingApproval? { refs := [run.plan]; }
      step := Changed([RunNote(RunTransitioned, Null, run.release, c.code, refs)]);
    }

    method RegisterApprovalNonce(k: RunKey, nonce: Id, requestId: Id, binding: Binding, expiresAt: int, key: Id,
        request: Id, now: int) returns (reply: Reply)
      requires Valid()
      modifies `nonces, `next, `events
      ensures Valid()
      ensures Outcome(Snapshot(), reply)
           == Apply(old(Snapshot()), Lifecycle(k, RegisterNonce(nonce, requestId, binding, expiresAt), key, request),
                    now)
    {
      hide AuthorityHistory.DbInv, IdempotentTx, Gate.Decide, WellFormed, CarriedOut, TaskTx, PlainTx, Log.Outbox;
      var c := RegisterNonce(nonce, requestId, binding, expiresAt);
      CommandKeeps(Snapshot(), Lifecycle(k, c, key, request), now);
      if !Scoped(k) || !WellFormed(c) { return Denied(Invalid); }
      var step := InsertNonce(k, c, now);
      reply := Record(k, c, step, now, old(Snapshot()));
    }

    method InsertNonce(k: RunKey, c: GateCommand, now: int) returns (step: Progress)
      requires c.RegisterNonce? && WellFormed(c)
      modifies `nonces
      ensures CarriedOut(old(Tables()), Gate.Decide(old(Tables()), k, c, now), step)
      ensures (step.Changed? ==> k in runs && k in old(runs))
    {
      if k !in runs { return Stopped(NotFound); }
      var run := runs[k];
      if !run.state.AwaitingApproval? || run.plan != c.binding.plan { return Stopped(Conflict); }
      if c.binding.stage.Simulation? && Filled(run.simulation) { return Stopped(Conflict); }
      if c.binding.stage.Production? && (!Filled(run.simulation) || Filled(run.production)) {
        return Stopped(Conflict);
      }
      var row := TenantKey(k.tenant, c.nonce);
      var taken := exists n :: n in nonces && n.tenant == k.tenant && nonces[n].request == c.requestId;
      if c.expiresAt <= now || row in nonces || taken { return Stopped(Conflict); }
      nonces := nonces[row := Nonce(k.run, c.requestId, c.binding, c.expiresAt, Null)];
      step := Changed([]);
    }

    method RecordApproval(
      k: RunKey, approval: Id, requestId: Id, nonce: Id, record: Id, binding: Binding,
      prior: Id, approves: bool, actor: Id, expected: int, key: Id, now: int) returns (reply: Reply)
      requires Valid()
      modifies `runs, `approvals, `nonces, `next, `events, `stored
      ensures Valid()
      ensures Outcome(Snapshot(), reply)
           == Apply(old(Snapshot()),
               Lifecycle(k, GateCommand.RecordApproval(approval, requestId, nonce, record, binding, prior, approves,
                                                       actor, expected), key, binding.request), now)
    {
      hide AuthorityHistory.DbInv, IdempotentTx, Gate.Decide, WellFormed, CarriedOut, TaskTx, PlainTx, Log.Outbox;
      var c := GateCommand.RecordApproval(approval, requestId, nonce, record, binding, prior, approves, actor,
                                          expected);
      CommandKeeps(Snapshot(), Lifecycle(k, c, key, binding.request), now);
      if !Scoped(k) || !WellFormed(c) { return Denied(Invalid); }
      var row := IdempotencyKey(k, Decision(binding.stage), key);
      var answer := BeginIdempotent(row, c, binding.request, now);
      if answer.Some? { return answer.value; }
      var step := InsertApproval(k, c, now);
      reply := Finish(row, c, binding.request, step, now, old(Snapshot()));
    }

    method InsertApproval(k: RunKey, c: GateCommand, now: int) returns (step: Progress)
      requires c.RecordApproval? && WellFormed(c)
      modifies `runs, `approvals, `nonces
      ensures CarriedOut(old(Tables()), Gate.Decide(old(Tables()), k, c, now), step)
      ensures !step.Unchanged? && (step.Changed? ==> k in runs && k in old(runs))
    {
      hide Linked;
      if k !in runs { return Stopped(NotFound); }
      var run := runs[k];
      if run.revision != c.expected { return Stopped(RevisionConflict); }
      if !run.state.AwaitingApproval? || run.plan != c.binding.plan || Filled(run.approval) {
        return Stopped(Conflict);
      }
      var stage := c.binding.stage;
      var prior := TenantKey(k.tenant, c.prior);
      if stage.Simulation? {
        if Filled(run.simulation) || Filled(run.production) { return Stopped(Conflict); }
      } else {
        if run.simulation != c.prior || Filled(run.production) { return Stopped(Conflict); }
        if prior !in approvals || approvals[prior].run != k.run || !approvals[prior].binding.stage.Simulation?
           || !approvals[prior].approves || approvals[prior].record != c.binding.simulationRecord
           || approvals[prior].binding.subject == c.binding.subject {
          return Stopped(Conflict);
        }
      }
      var challenge := TenantKey(k.tenant, c.nonce);
      if challenge !in nonces || nonces[challenge].run != k.run || nonces[challenge].request != c.requestId
         || nonces[challenge].binding != c.binding || Filled(nonces[challenge].consumedBy)
         || nonces[challenge].expiresAt <= now {
        return Stopped(Conflict);
      }
      var saved := nonces;
      nonces := nonces[challenge := nonces[challenge].(consumedBy := c.approval)];
      var decision := Approval(k.run, c.binding, c.nonce, c.record, c.prior, c.approves, c.actor);
      var staged :=
          exists a :: a in approvals && a.tenant == k.tenant && approvals[a].run == k.run
                      && approvals[a].binding.stage == stage;
      if TenantKey(k.tenant, c.approval) in approvals || staged
          || (stage.Production? && !Linked(approvals[prior], decision, c.prior)) {
        nonces := saved; // the insert failed: roll back
        return Stopped(ConstraintViolation);
      }
      approvals := approvals[TenantKey(k.tenant, c.approval) := decision];
      run := run.(state := if c.approves then AwaitingApproval else Rejected, revision := run.revision + 1);
      if stage.Simulation? { run := run.(simulation := c.approval); } else { run := run.(production := c.approval); }
      runs := runs[k := run];
      step := Changed([RunNote(ApprovalRecorded, c.approval, Null, DecisionCode(stage, c.approves),
                               [c.record, c.binding.subject])]);
    }

    method CreateWorkflowCheckpoint(k: RunKey, checkpoint: Checkpoint, key: Id, request: Id, now: int)
        returns (reply: Reply)
      requires Valid()
      modifies `checkpoints, `next, `events
      ensures Valid()
      ensures Outcome(Snapshot(), reply)
           == Apply(old(Snapshot()), Lifecycle(k, CreateCheckpoint(checkpoint), key, request), now)
    {
      hide AuthorityHistory.DbInv, IdempotentTx, Gate.Decide, WellFormed, CarriedOut, TaskTx, PlainTx, Log.Outbox;
      var c := CreateCheckpoint(checkpoint);
      CommandKeeps(Snapshot(), Lifecycle(k, c, key, request), now);
      if !Scoped(k) || !WellFormed(c) { return Denied(Invalid); }
      var step := InsertCheckpoint(k, c, now);
      reply := Record(k, c, step, now, old(Snapshot()));
    }

    method InsertCheckpoint(k: RunKey, c: GateCommand, ghost now: int) returns (step: Progress)
      requires c.CreateCheckpoint? && WellFormed(c)
      modifies `checkpoints
      ensures CarriedOut(old(Tables()), Gate.Decide(old(Tables()), k, c, now), step)
      ensures (step.Changed? ==> k in runs && k in old(runs))
    {
      if k !in runs { return Stopped(NotFound); }
      var run := runs[k];
      var checkpoint := c.checkpoint;
      if run.plan != checkpoint.plan || !run.state.AwaitingApproval? { return Stopped(Conflict); }
      if checkpoint.phase.SimulationApproved? {
        var entry := JournalKey(k, Simulation);
        if entry !in journal || journal[entry].source != checkpoint.source { return Stopped(Conflict); }
      }
      if k in checkpoints {
        if checkpoints[k] != checkpoint { return Stopped(Conflict); }
        return Unchanged;
      }
      var taken :=
          exists o :: o in checkpoints && o != k && o.tenant == k.tenant && checkpoints[o].digest == checkpoint.digest;
      if taken { return Stopped(ConstraintViolation); }
      checkpoints := checkpoints[k := checkpoint];
      step := Changed([]);
    }

    method AppendSimulationApprovalJournal(k: RunKey, entry: Entry, key: Id, request: Id, now: int)
        returns (reply: Reply)
      requires Valid()
      modifies `journal, `next, `events
      ensures Valid()
      ensures Outcome(Snapshot(), reply)
           == Apply(old(Snapshot()), Lifecycle(k, AppendJournal(entry), key, request), now)
    {
      hide AuthorityHistory.DbInv, IdempotentTx, Gate.Decide, WellFormed, CarriedOut, TaskTx, PlainTx, Log.Outbox;
      var c := AppendJournal(entry);
      CommandKeeps(Snapshot(), Lifecycle(k, c, key, request), now);
      if !Scoped(k) || !WellFormed(c) { return Denied(Invalid); }
      var step := InsertJournal(k, c, now);
      reply := Record(k, c, step, now, old(Snapshot()));
    }

    method InsertJournal(k: RunKey, c: GateCommand, ghost now: int) returns (step: Progress)
      requires c.AppendJournal? && WellFormed(c)
      modifies `journal
      ensures CarriedOut(old(Tables()), Gate.Decide(old(Tables()), k, c, now), step)
      ensures (step.Changed? ==> k in runs && k in old(runs))
    {
      if k !in runs { return Stopped(NotFound); }
      var run := runs[k];
      var entry := c.entry;
      if !run.state.AwaitingApproval? || run.simulation != entry.approval { return Stopped(Conflict); }
      var decided := TenantKey(k.tenant, entry.approval);
      if decided !in approvals || approvals[decided].run != k.run || !approvals[decided].binding.stage.Simulation?
         || !EntryMatches(entry, approvals[decided]) {
        return Stopped(Conflict);
      }
      var row := JournalKey(k, Simulation);
      if row in journal {
        if journal[row] != entry { return Stopped(Conflict); }
        return Unchanged;
      }
      if !JournalInsertable(journal, k, entry) { return Stopped(ConstraintViolation); }
      journal := journal[row := entry];
      step := Changed([]);
    }

    method CommitProductionApprovalSeal(
      k: RunKey, expected: int, checkpointRevision: int, checkpointDigest: Id,
      simulation: Id, production: Id, entry: Entry, sealed: Checkpoint, key: Id, request: Id, now: int)
      returns (reply: Reply)
      requires Valid()
      modifies `runs, `checkpoints, `journal, `next, `events, `stored
      ensures Valid()
      ensures Outcome(Snapshot(), reply)
           == Apply(old(Snapshot()),
               Lifecycle(k, CommitSeal(expected, checkpointRevision, checkpointDigest, simulation, production, entry,
                                       sealed), key, request), now)
    {
      hide AuthorityHistory.DbInv, IdempotentTx, Gate.Decide, WellFormed, CarriedOut, TaskTx, PlainTx, Log.Outbox;
      var c := CommitSeal(expected, checkpointRevision, checkpointDigest, simulation, production, entry, sealed);
      CommandKeeps(Snapshot(), Lifecycle(k, c, key, request), now);
      if !Scoped(k) || !WellFormed(c) { return Denied(Invalid); }
      var row := IdempotencyKey(k, Operation.Seal, key);
      var answer := BeginIdempotent(row, c, request, now);
      if answer.Some? { return answer.value; }
      var step := SealRun(k, c, now);
      reply := Finish(row, c, request, step, now, old(Snapshot()));
    }

    method SealRun(k: RunKey, c: GateCommand, ghost now: int) returns (step: Progress)
      requires c.CommitSeal? && WellFormed(c)
      modifies `runs, `checkpoints, `journal
      ensures CarriedOut(old(Tables()), Gate.Decide(old(Tables()), k, c, now), step)
      ensures !step.Unchanged? && (step.Changed? ==> k in runs && k in old(runs))
    {
      if k !in runs { return Stopped(NotFound); }
      var run := runs[k];
      if run.revision != c.expected { return Stopped(RevisionConflict); }
      if !run.state.AwaitingApproval? || run.plan != c.sealed.plan || run.simulation != c.simulation
         || run.production != c.production || Filled(run.approval) {
        return Stopped(Conflict);
      }
      if k !in checkpoints { return Stopped(NotFound); }
      var current := checkpoints[k];
      if current.revision != c.checkpointRevision || current.digest != c.checkpointDigest {
        return Stopped(RevisionConflict);
      }
      if !SealContinues(current, c.sealed, c.entry) { return Stopped(Conflict); }
      if !SealAuthorised(Gate.Gate(runs, approvals, nonces, checkpoints, journal, releases, launches, reconciliations),
                         k, c, current) {
        return Stopped(Conflict);
      }
      var saved := journal;
      if !JournalInsertable(journal, k, c.entry) { return Stopped(ConstraintViolation); }
      journal := journal[JournalKey(k, Production) := c.entry];
      var taken :=
          exists o :: o in checkpoints && o != k && o.tenant == k.tenant && checkpoints[o].digest == c.sealed.digest;
      if taken {
        journal := saved; // the update failed: roll back
        return Stopped(ConstraintViolation);
      }
      checkpoints := checkpoints[k := c.sealed];
      runs := runs[k := run.(state := Approved, approval := c.production, revision := run.revision + 1)];
      step := Changed([RunNote(CheckpointSealed, c.production, Null, Text("PRODUCTION_SEALED"),
                               [c.sealed.digest, c.sealed.seal, c.entry.record])]);
    }

    method CreateRelease(
      k: RunKey, release: Id, approval: Id, subject: Id, kind: Id, artifact: Id,
      signer: Id, signature: Id, expected: int, key: Id, request: Id, now: int) returns (reply: Reply)
      requires Valid()
      modifies `runs, `releases, `next, `events, `stored
      ensures Valid()
      ensures Outcome(Snapshot(), reply)
           == Apply(old(Snapshot()),
               Lifecycle(k, GateCommand.CreateRelease(release, approval, subject, kind, artifact, signer, signature,
                                                      expected), key, request), now)
    {
      hide AuthorityHistory.DbInv, IdempotentTx, Gate.Decide, WellFormed, CarriedOut, TaskTx, PlainTx, Log.Outbox;
      var c := GateCommand.CreateRelease(release, approval, subject, kind, artifact, signer, signature, expected);
      CommandKeeps(Snapshot(), Lifecycle(k, c, key, request), now);
      if !Scoped(k) || !WellFormed(c) { return Denied(Invalid); }
      var row := IdempotencyKey(k, Publish, key);
      var answer := BeginIdempotent(row, c, request, now);
      if answer.Some? { return answer.value; }
      var step := InsertRelease(k, c, now);
      reply := Finish(row, c, request, step, now, old(Snapshot()));
    }

    method InsertRelease(k: RunKey, c: GateCommand, ghost now: int) returns (step: Progress)
      requires c.CreateRelease? && WellFormed(c)
      modifies `runs, `releases
      ensures CarriedOut(old(Tables()), Gate.Decide(old(Tables()), k, c, now), step)
      ensures !step.Unchanged? && (step.Changed? ==> k in runs && k in old(runs))
    {
      if k !in runs { return Stopped(NotFound); }
      var run := runs[k];
      if run.revision != c.expected { return Stopped(RevisionConflict); }
      if !run.state.Approved? || run.approval != c.approval || run.plan != c.subject || Filled(run.release) {
        return Stopped(Conflict);
      }
      var decided := TenantKey(k.tenant, c.approval);
      if decided !in approvals || approvals[decided].run != k.run || !approvals[decided].binding.stage.Production?
         || !approvals[decided].approves || approvals[decided].binding.subject != c.subject {
        return Stopped(Conflict);
      }
      var row := TenantKey(k.tenant, c.release);
      var taken :=
          exists r :: r in releases && r.tenant == k.tenant && releases[r].run == k.run && releases[r].kind == c.kind;
      if row in releases || taken { return Stopped(Conflict); }
      releases := releases[row := Release(k.run, c.approval, c.subject, c.kind, c.artifact, c.signer, c.signature)];
      runs := runs[k := run.(release := c.release, revision := run.revision + 1)];
      step := Changed([RunNote(ReleaseCreated, c.approval, c.release, Null, [c.subject, c.artifact, c.signature])]);
    }

    method RecordLaunchResult(k: RunKey, launch: Id, release: Id, requestId: Id, launched: bool, operation: Id,
        result: Id, key: Id, request: Id, now: int) returns (reply: Reply)
      requires Valid()
      modifies `launches, `next, `events
      ensures Valid()
      ensures Outcome(Snapshot(), reply)
           == Apply(old(Snapshot()),
               Lifecycle(k, RecordLaunch(launch, release, requestId, launched, operation, result), key, request), now)
    {
      hide AuthorityHistory.DbInv, IdempotentTx, Gate.Decide, WellFormed, CarriedOut, TaskTx, PlainTx, Log.Outbox;
      var c := RecordLaunch(launch, release, requestId, launched, operation, result);
      CommandKeeps(Snapshot(), Lifecycle(k, c, key, request), now);
      if !Scoped(k) || !WellFormed(c) { return Denied(Invalid); }
      var step := InsertLaunch(k, c, now);
      reply := Record(k, c, step, now, old(Snapshot()));
    }

    method InsertLaunch(k: RunKey, c: GateCommand, ghost now: int) returns (step: Progress)
      requires c.RecordLaunch? && WellFormed(c)
      modifies `launches
      ensures CarriedOut(old(Tables()), Gate.Decide(old(Tables()), k, c, now), step)
      ensures (step.Changed? ==> k in runs && k in old(runs))
    {
      if k !in runs { return Stopped(NotFound); }
      var run := runs[k];
      if run.release != c.release || !(run.state.Approved? || run.state.Running?) { return Stopped(Conflict); }
      var row := LaunchKey(k, c.launch);
      var launch := Launch(c.release, c.request, c.launched, c.operation, c.result);
      var launchedBefore := exists l :: l in launches && l.run == k && launches[l].release == c.release;
      if row in launches || launchedBefore {
        if row in launches && launches[row] == launch { return Unchanged; }
        return Stopped(IdempotencyReuse);
      }
      launches := launches[row := launch];
      step := Changed([RunNote(LaunchRecorded, run.approval, c.release, Null, [c.request, c.result])]);
    }

    method RecordReconciliation(k: RunKey, id: Id, release: Id, launch: Id, verified: bool, result: Id, evidence: Id,
        key: Id, request: Id, now: int) returns (reply: Reply)
      requires Valid()
      modifies `reconciliations, `next, `events
      ensures Valid()
      ensures Outcome(Snapshot(), reply)
           == Apply(old(Snapshot()),
               Lifecycle(k, GateCommand.RecordReconciliation(id, release, launch, verified, result, evidence), key,
                         request), now)
    {
      hide AuthorityHistory.DbInv, IdempotentTx, Gate.Decide, WellFormed, CarriedOut, TaskTx, PlainTx, Log.Outbox;
      var c := GateCommand.RecordReconciliation(id, release, launch, verified, result, evidence);
      CommandKeeps(Snapshot(), Lifecycle(k, c, key, request), now);
      if !Scoped(k) || !WellFormed(c) { return Denied(Invalid); }
      var step := InsertReconciliation(k, c, now);
      reply := Record(k, c, step, now, old(Snapshot()));
    }

    method InsertReconciliation(k: RunKey, c: GateCommand, ghost now: int) returns (step: Progress)
      requires c.RecordReconciliation? && WellFormed(c)
      modifies `reconciliations
      ensures CarriedOut(old(Tables()), Gate.Decide(old(Tables()), k, c, now), step)
      ensures (step.Changed? ==> k in runs && k in old(runs))
    {
      if k !in runs { return Stopped(NotFound); }
      var run := runs[k];
      if run.release != c.release { return Stopped(Conflict); }
      var launch := LaunchKey(k, c.launch);
      if launch !in launches || !launches[launch].launched || launches[launch].release != c.release {
        return Stopped(Conflict);
      }
      var row := ReleaseKey(k, c.release);
      var fact := Reconciliation(c.id, c.launch, c.verified, c.result, c.evidence);
      var taken := exists r :: r in reconciliations && r.run.tenant == k.tenant && reconciliations[r].id == c.id;
      if row in reconciliations || taken {
        if row in reconciliations && reconciliations[row] == fact { return Unchanged; }
        return Stopped(IdempotencyReuse);
      }
      reconciliations := reconciliations[row := fact];
      step := Changed([RunNote(ReconciliationRecorded, run.approval, c.release, Null, [c.result, c.evidence])]);
    }

    // ---------------------------------------------------------------- tasks

    ghost predicate CarriedWork(before: Work.Work, verdict: Work.WorkVerdict, step: WorkProgress)
      reads this
    {
      match step
      case Abandoned(error) => verdict == Work.Refuse(error) && Tasks() == before
      case Moved(owner, notes, reply) => verdict == Work.Write(Tasks(), owner, notes, reply)
    }

    /** Whether a run's tasks may be worked on, as its locked row tells. */
    method StandingNow(k: RunKey) returns (standing: Work.Standing)
      ensures standing == StandingOf(Tables(), k) && (standing.Absent? <==> k !in runs)
    {
      if k !in runs { return Work.Absent; }
      standing := if Terminal(runs[k].state) then Work.Ended else Work.Live;
    }

    /** The end of a task transaction: append the events to the owner's log. */
    method FinishWork(k: RunKey, c: Work.WorkCommand, step: WorkProgress, now: int, ghost before: Db)
        returns (reply: Reply)
      requires Scoped(k) && Snapshot() == before.(work := Tasks())
      requires CarriedWork(before.work, Work.Decide(before.work, k, StandingOf(before.gate, k), c, now), step)
      requires runs.Keys == next.Keys && (step.Moved? && step.notes != [] ==> step.owner in runs)
      modifies `next, `events
      ensures Outcome(Snapshot(), reply) == TaskTx(before, k, c, now)
    {
      hide Work.Decide, StandingOf;
      if step.Abandoned? { return Denied(step.error); }
      if step.owner in runs { AppendEvents(step.owner, runs[step.owner], step.notes, now); }
      reply := if step.owner in runs && step.reply.BuriedNow? then Denied(Exhausted) else Worked(step.reply);
    }

    method EnqueueTask(k: RunKey, task: Id, node: Id, input: Id, effectKey: Id, maxAttempts: int, now: int)
        returns (reply: Reply)
      requires Valid()
      modifies `tasks, `next, `events
      ensures Valid()
      ensures Outcome(Snapshot(), reply)
           == Apply(old(Snapshot()), Task(k, Work.Enqueue(task, node, input, effectKey, maxAttempts)), now)
    {
      hide AuthorityHistory.DbInv, LifecycleTx, Work.Decide, Work.WellFormed, StandingOf, CarriedWork, Log.Outbox;
      var c := Work.Enqueue(task, node, input, effectKey, maxAttempts);
      CommandKeeps(Snapshot(), Task(k, c), now);
      if !Scoped(k) { return Denied(Invalid); }
      var standing := StandingNow(k);
      var step := InsertTask(k, c, standing, now);
      reply := FinishWork(k, c, step, now, old(Snapshot()));
    }

    method InsertTask(k: RunKey, c: Work.WorkCommand, standing: Work.Standing, now: int) returns (step: WorkProgress)
      requires c.Enqueue? && (standing.Absent? <==> k !in runs)
      modifies `tasks
      ensures CarriedWork(old(Tasks()), Work.Decide(old(Tasks()), k, standing, c, now), step)
      ensures step.Moved? && step.notes != [] ==> step.owner in runs
    {
      if !Work.WellFormed(c) { return Abandoned(Invalid); }
      if standing.Absent? { return Abandoned(NotFound); }
      if standing.Ended? { return Abandoned(Conflict); }
      var row := Work.TaskKey(k, c.task);
      var taken := Filled(c.effectKey) && exists t :: t in tasks && t.run == k && tasks[t].effectKey == c.effectKey;
      if row in tasks || taken { return Abandoned(Conflict); }
      tasks := tasks[row := Work.Task(c.node, c.input, c.effectKey, c.maxAttempts, Work.Ready, 0, 0, now, 0, None)];
      step := Moved(k, [TaskNote(TaskEnqueued, c.task, Null, Null, [c.input])], Work.WorkReply.Accepted);
    }

    method ClaimTask(k: RunKey, task: Id, worker: Id, duration: int, attempt: Id, token: Id, now: int)
        returns (reply: Reply)
      requires Valid()
      modifies `tasks, `attempts, `next, `events
      ensures Valid()
      ensures Outcome(Snapshot(), reply)
           == Apply(old(Snapshot()), Task(k, Work.Claim(task, worker, duration, attempt, token)), now)
    {
      hide AuthorityHistory.DbInv, LifecycleTx, Work.Decide, Work.WellFormed, StandingOf, CarriedWork, Log.Outbox;
      var c := Work.Claim(task, worker, duration, attempt, token);
      CommandKeeps(Snapshot(), Task(k, c), now);
      if !Scoped(k) { return Denied(Invalid); }
      var standing := StandingNow(k);
      var step := LeaseTask(k, c, standing, now);
      reply := FinishWork(k, c, step, now, old(Snapshot()));
    }

    method LeaseTask(k: RunKey, c: Work.WorkCommand, standing: Work.Standing, now: int) returns (step: WorkProgress)
      requires c.Claim? && (standing.Absent? <==> k !in runs)
      modifies `tasks, `attempts
      ensures CarriedWork(old(Tasks()), Work.Decide(old(Tasks()), k, standing, c, now), step)
      ensures step.Moved? && step.notes != [] ==> step.owner in runs
    {
      if !Work.WellFormed(c) { return Abandoned(Invalid); }
      if standing.Absent? { return Abandoned(NotFound); }
      if standing.Ended? { return Abandoned(Conflict); }
      var row := Work.TaskKey(k, c.task);
      if row !in tasks { return Abandoned(NotFound); }
      var task := tasks[row];
      var recovered := false;
      var notes := [];
      var saved := attempts;
      if task.status.Leased? {
        if !Work.Expired(task, now) { return Abandoned(LeaseUnavailable); }
        var stale := Work.AttemptKey(k, task.holder.value.attempt);
        if stale !in attempts || !attempts[stale].status.InProgress? || attempts[stale].generation != task.generation {
          return Abandoned(StaleLease);
        }
        attempts := attempts[stale := attempts[stale].(
          status := Work.TimedOut, completedAt := Some(now), output := Null, failure := Work.LEASE_EXPIRED)];
        notes := [TaskNote(LeaseExpired, c.task, task.holder.value.attempt, Work.LEASE_EXPIRED, [])];
        recovered := true;
      } else if !task.status.Ready? && !task.status.Retryable? {
        return Abandoned(if task.status.Buried? then Exhausted else LeaseUnavailable);
      }
      if task.status.Retryable? && task.availableAt > now { return Abandoned(LeaseUnavailable); }
      if task.started >= task.maxAttempts {
        var last := if task.holder.Some? then task.holder.value.attempt else Null;
        tasks := tasks[row := task.(status := Work.Buried, holder := None)];
        return Moved(k, notes + [TaskNote(TaskDeadLettered, c.task, last, Work.EXHAUSTED, [])], Work.BuriedNow);
      }
      var attempt := Work.AttemptKey(k, c.attempt);
      if attempt in attempts {
        attempts := saved; // the insert failed: roll back
        return Abandoned(ConstraintViolation);
      }
      var number, generation, expiresAt := task.started + 1, task.generation + 1, now + Work.WholeSeconds(c.duration);
      tasks := tasks[row := task.(
        status := Work.Leased, started := number, retries := task.retries + (if recovered then 1 else 0),
        generation := generation, holder := Some(Work.Holder(c.worker, c.token, c.attempt, expiresAt)))];
      attempts := attempts[attempt :=
          Work.Attempt(c.task, number, generation, c.worker, Work.InProgress, now, now, None, Null, Null)];
      step := Moved(k, notes + [TaskNote(AttemptStarted, c.task, c.attempt, Null, [])],
                    Work.Granted(Work.Lease(c.task, c.attempt, number, c.worker, c.token, generation, expiresAt,
                                            recovered)));
    }

    method HeartbeatLease(k: RunKey, lease: Work.Lease, extension: int, now: int) returns (reply: Reply)
      requires Valid()
      modifies `tasks, `attempts, `next, `events
      ensures Valid()
      ensures Outcome(Snapshot(), reply) == Apply(old(Snapshot()), Task(k, Work.Heartbeat(lease, extension)), now)
    {
      hide AuthorityHistory.DbInv, LifecycleTx, Work.Decide, Work.WellFormed, StandingOf, CarriedWork, Log.Outbox;
      var c := Work.Heartbeat(lease, extension);
      CommandKeeps(Snapshot(), Task(k, c), now);
      if !Scoped(k) { return Denied(Invalid); }
      var standing := StandingNow(k);
      var step := ExtendLease(k, c, standing, now);
      reply := FinishWork(k, c, step, now, old(Snapshot()));
    }

    method ExtendLease(k: RunKey, c: Work.WorkCommand, standing: Work.Standing, now: int) returns (step: WorkProgress)
      requires c.Heartbeat? && (standing.Absent? <==> k !in runs)
      modifies `tasks, `attempts
      ensures CarriedWork(old(Tasks()), Work.Decide(old(Tasks()), k, standing, c, now), step)
      ensures step.Moved? && step.notes != [] ==> step.owner in runs
    {
      if !Work.WellFormed(c) { return Abandoned(Invalid); }
      var row := Work.TaskKey(k, c.lease.task);
      if row !in tasks || !Work.Holds(tasks[row], c.lease, now) { return Abandoned(StaleLease); }
      var saved := tasks;
      var expiresAt := now + Work.WholeSeconds(c.extension);
      tasks := tasks[row := tasks[row].(holder := Some(tasks[row].holder.value.(expiresAt := expiresAt)))];
      var attempt := Work.AttemptKey(k, c.lease.attempt);
      if attempt !in attempts || attempts[attempt].generation != c.lease.generation
          || attempts[attempt].worker != c.lease.owner
         || !attempts[attempt].status.InProgress? {
        tasks := saved; // no row was updated: roll back
        return Abandoned(StaleLease);
      }
      attempts := attempts[attempt := attempts[attempt].(heartbeatAt := now)];
      step := Moved(k, [], Work.Extended(expiresAt));
    }

    method CompleteTask(k: RunKey, lease: Work.Lease, succeeded: bool, output: Id, failure: Id, delay: int, now: int)
        returns (reply: Reply)
      requires Valid()
      modifies `tasks, `attempts, `next, `events
      ensures Valid()
      ensures Outcome(Snapshot(), reply)
           == Apply(old(Snapshot()), Task(k, Work.Complete(lease, succeeded, output, failure, delay)), now)
    {
      hide AuthorityHistory.DbInv, LifecycleTx, Work.Decide, Work.WellFormed, StandingOf, CarriedWork, Log.Outbox;
      var c := Work.Complete(lease, succeeded, output, failure, delay);
      CommandKeeps(Snapshot(), Task(k, c), now);
      if !Scoped(k) { return Denied(Invalid); }
      var standing := StandingNow(k);
      var step := EndLease(k, c, standing, now);
      reply := FinishWork(k, c, step, now, old(Snapshot()));
    }

    method EndLease(k: RunKey, c: Work.WorkCommand, standing: Work.Standing, now: int) returns (step: WorkProgress)
      requires c.Complete? && (standing.Absent? <==> k !in runs)
      modifies `tasks, `attempts
      ensures CarriedWork(old(Tasks()), Work.Decide(old(Tasks()), k, standing, c, now), step)
      ensures step.Moved? && step.notes != [] ==> step.owner in runs
    {
      if !Work.WellFormed(c) { return Abandoned(Invalid); }
      if standing.Absent? { return Abandoned(NotFound); }
      var row := Work.TaskKey(k, c.lease.task);
      if row !in tasks { return Abandoned(NotFound); }
      var task := tasks[row];
      if !Work.Holds(task, c.lease, now) { return Abandoned(StaleLease); }
      var attempt := Work.AttemptKey(k, c.lease.attempt);
      if attempt !in attempts || attempts[attempt].task != c.lease.task
          || attempts[attempt].generation != c.lease.generation
         || !attempts[attempt].status.InProgress? {
        return Abandoned(StaleLease);
      }
      attempts := attempts[attempt := attempts[attempt].(
        status := if c.succeeded then Work.AttemptStatus.Succeeded else Work.AttemptStatus.Failed,
        completedAt := Some(now), output := c.output, failure := c.failure)];
      var notes :=
          [TaskNote(AttemptCompleted, c.lease.task, c.lease.attempt, c.failure,
                    if c.succeeded then [c.output] else [])];
      if c.succeeded {
        tasks := tasks[row := task.(status := Work.Done, holder := None)];
      } else if task.started < task.maxAttempts {
        tasks := tasks[row := task.(status := Work.Retryable, retries := task.retries + 1,
                                    availableAt := now + Work.WholeSeconds(c.delay), holder := None)];
        notes := notes + [TaskNote(RetryScheduled, c.lease.task, c.lease.attempt, c.failure, [])];
      } else {
        tasks := tasks[row := task.(status := Work.Buried, holder := None)];
        notes := notes + [TaskNote(TaskDeadLettered, c.lease.task, c.lease.attempt, Work.EXHAUSTED, [])];
      }
      step := Moved(k, notes, Work.WorkReply.Accepted);
    }

    method RecoverExpiredLeases(k: RunKey, found: seq<Id>, limit: int, delay: int, now: int) returns (reply: Reply)
      requires Valid()
      requires Work.Selection(Tasks(), k, found, limit, now)
      modifies `tasks, `attempts, `next, `events
      ensures Valid()
      ensures Outcome(Snapshot(), reply) == Apply(old(Snapshot()), Task(k, Work.Recover(found, limit, delay)), now)
    {
      hide AuthorityHistory.DbInv, LifecycleTx, Work.Decide, Work.WellFormed, StandingOf, CarriedWork, Log.Outbox;
      var c := Work.Recover(found, limit, delay);
      CommandKeeps(Snapshot(), Task(k, c), now);
      if !Scoped(k) { return Denied(Invalid); }
      var standing := StandingNow(k);
      var step := RecoverLeases(k, c, standing, now);
      reply := FinishWork(k, c, step, now, old(Snapshot()));
    }

    method RecoverLeases(k: RunKey, c: Work.WorkCommand, standing: Work.Standing, now: int) returns (step: WorkProgress)
      requires c.Recover? && (standing.Absent? <==> k !in runs)
      requires Work.Selection(Tasks(), k, c.found, c.limit, now)
      modifies `tasks, `attempts
      ensures CarriedWork(old(Tasks()), Work.Decide(old(Tasks()), k, standing, c, now), step)
      ensures step.Moved? && step.notes != [] ==> step.owner in runs
    {
      if !Work.WellFormed(c) { return Abandoned(Invalid); }
      if standing.Absent? { return Abandoned(NotFound); }
      ghost var before := Tasks();
      var savedTasks, savedAttempts := tasks, attempts;
      var notes := [];
      var i := 0;
      assert c.found[i..] == c.found;
      ResumesAtStart(Work.RecoverAll(before, k, c.found, c.delay, now));
      while i < |c.found|
        invariant 0 <= i <= |c.found| && unchanged(this`effects)
        invariant Resumes(Work.RecoverAll(before, k, c.found, c.delay, now), notes,
                          Work.RecoverAll(Tasks(), k, c.found[i..], c.delay, now))
      {
        var id := c.found[i];
        assert c.found[i..][0] == id && c.found[i..][1..] == c.found[i + 1..];
        if !Work.Recoverable(Work.Work(tasks, attempts, effects), k, id, now)
           || !Work.RecoverySound(Work.Work(tasks, attempts, effects), k, id) {
          tasks, attempts := savedTasks, savedAttempts; // no row was updated: roll back
          return Abandoned(StaleLease);
        }
        ghost var done := Work.RecoverNotes(Tasks(), k, id);
        ghost var rest :=
            Work.RecoverAll(Work.RecoverRow(Tasks(), k, id, c.delay, now), k, c.found[i + 1..], c.delay, now);
        ResumesOneMore(Work.RecoverAll(before, k, c.found, c.delay, now), notes, done, rest);
        notes := RecoverLease(k, id, c.delay, now, notes);
        i := i + 1;
      }
      assert c.found[i..] == [];
      assert notes + [] == notes;
      step := Moved(k, notes, Work.Recovered(|c.found|));
    }

    method RecoverLease(k: RunKey, id: Id, delay: int, now: int, notes: seq<Note>) returns (grown: seq<Note>)
      requires Work.Recoverable(Tasks(), k, id, now) && Work.RecoverySound(Tasks(), k, id)
      modifies `tasks, `attempts
      ensures Tasks() == Work.RecoverRow(old(Tasks()), k, id, delay, now)
      ensures grown == notes + Work.RecoverNotes(old(Tasks()), k, id)
    {
      var row := Work.TaskKey(k, id);
      var item := tasks[row];
      var attempt := item.holder.value.attempt;
      attempts := attempts[Work.AttemptKey(k, attempt) := attempts[Work.AttemptKey(k, attempt)].(
        status := Work.TimedOut, completedAt := Some(now), output := Null, failure := Work.LEASE_EXPIRED)];
      var dead := item.started >= item.maxAttempts;
      tasks := tasks[row := item.(
        status := if dead then Work.Buried else Work.Retryable, retries := item.retries + 1,
        availableAt := now + Work.WholeSeconds(delay), holder := None)];
      grown := notes + [TaskNote(LeaseExpired, id, attempt, Work.LEASE_EXPIRED, []),
                        if dead then TaskNote(TaskDeadLettered, id, attempt, Work.EXHAUSTED, [])
                        else TaskNote(RetryScheduled, id, attempt, Work.LEASE_EXPIRED, [])];
    }

    method ReserveEffect(k: RunKey, lease: Work.Lease, effect: Id, request: Id, now: int) returns (reply: Reply)
      requires Valid()
      modifies `effects, `next, `events
      ensures Valid()
      ensures Outcome(Snapshot(), reply) == Apply(old(Snapshot()), Task(k, Work.Reserve(lease, effect, request)), now)
    {
      hide AuthorityHistory.DbInv, LifecycleTx, Work.Decide, Work.WellFormed, StandingOf, CarriedWork, Log.Outbox;
      var c := Work.Reserve(lease, effect, request);
      CommandKeeps(Snapshot(), Task(k, c), now);
      if !Scoped(k) { return Denied(Invalid); }
      var standing := StandingNow(k);
      var step := InsertEffect(k, c, standing, now);
      reply := FinishWork(k, c, step, now, old(Snapshot()));
    }

    method InsertEffect(k: RunKey, c: Work.WorkCommand, standing: Work.Standing, now: int) returns (step: WorkProgress)
      requires c.Reserve? && (standing.Absent? <==> k !in runs)
      modifies `effects
      ensures CarriedWork(old(Tasks()), Work.Decide(old(Tasks()), k, standing, c, now), step)
      ensures step.Moved? && step.notes != [] ==> step.owner in runs
    {
      if !Work.WellFormed(c) { return Abandoned(Invalid); }
      if standing.Absent? { return Abandoned(NotFound); }
      var row := Work.TaskKey(k, c.lease.task);
      if row !in tasks { return Abandoned(NotFound); }
      if !Work.Holds(tasks[row], c.lease, now) { return Abandoned(StaleLease); }
      var effect := TenantKey(k.tenant, c.effect);
      if effect in effects {
        if effects[effect].request != c.request || effects[effect].run != k.run
            || effects[effect].task != c.lease.task {
          return Abandoned(IdempotencyReuse);
        }
        return Moved(k, [], Work.Reserved(false));
      }
      effects := effects[effect := Work.Effect(k.run, c.lease.task, c.lease.attempt, c.request, Null)];
      step := Moved(k, [TaskNote(EffectReserved, c.lease.task, c.lease.attempt, Null, [c.request])],
                    Work.Reserved(true));
    }

    method CommitEffect(k: RunKey, effect: Id, result: Id, now: int) returns (reply: Reply)
      requires Valid()
      modifies `effects, `next, `events
      ensures Valid()
      ensures Outcome(Snapshot(), reply) == Apply(old(Snapshot()), Task(k, Work.CommitEffect(effect, result)), now)
    {
      hide AuthorityHistory.DbInv, LifecycleTx, Work.Decide, Work.WellFormed, StandingOf, CarriedWork, Log.Outbox;
      var c := Work.CommitEffect(effect, result);
      CommandKeeps(Snapshot(), Task(k, c), now);
      if !Scoped(k) { return Denied(Invalid); }
      assert forall e | e in effects :: RunKey(e.tenant, effects[e].run) in runs by { EffectsHaveRuns(Snapshot()); }
      var standing := StandingNow(k);
      var step := SettleEffect(k, c, standing, now);
      reply := FinishWork(k, c, step, now, old(Snapshot()));
    }

    method SettleEffect(k: RunKey, c: Work.WorkCommand, standing: Work.Standing, now: int) returns (step: WorkProgress)
      requires c.CommitEffect? && (standing.Absent? <==> k !in runs)
      requires forall e | e in effects :: RunKey(e.tenant, effects[e].run) in runs
      modifies `effects
      ensures CarriedWork(old(Tasks()), Work.Decide(old(Tasks()), k, standing, c, now), step)
      ensures step.Moved? && step.notes != [] ==> step.owner in runs
    {
      if !Work.WellFormed(c) { return Abandoned(Invalid); }
      var row := TenantKey(k.tenant, c.effect);
      if row !in effects { return Abandoned(NotFound); }
      var effect := effects[row];
      var owner := RunKey(k.tenant, effect.run);
      if Filled(effect.result) {
        if effect.result != c.result { return Abandoned(IdempotencyReuse); }
        return Moved(owner, [], Work.WorkReply.Accepted);
      }
      effects := effects[row := effect.(result := c.result)];
      step := Moved(owner, [TaskNote(EffectCommitted, effect.task, effect.attempt, Null, [c.result])],
                    Work.WorkReply.Accepted);
    }

    // --------------------------------------------------------------- outbox

    method ClaimOutbox(owner: Id, limit: int, duration: int, token: Id, picks: seq<Log.EventKey>, now: int)
        returns (reply: Reply)
      requires Valid()
      modifies `events
      ensures Valid()
      ensures Outcome(Snapshot(), reply)
           == Apply(old(Snapshot()), Relay(Log.ClaimOutbox(owner, limit, duration, token, picks)), now)
    {
      hide AuthorityHistory.DbInv, LifecycleTx, TaskTx, Log.Claimable, Log.Lapse, Log.Dispatch;
      var c := Log.ClaimOutbox(owner, limit, duration, token, picks);
      CommandKeeps(Snapshot(), Relay(c), now);
      if !Filled(owner) || !(1 <= limit <= 500) || !(SECOND <= duration <= HOUR) || |picks| > limit {
        return Relayed(Log.Refused(Invalid));
      }
      events := map e | e in events :: Log.Lapse(events[e], now);
      assert Events() == Log.LapseAll(old(Events()), now);
      var candidates := set e | e in picks && e in events && Log.Claimable(Log.Log(next, events), e, now);
      assert candidates == set e | e in picks && Log.Claimable(Log.Log(next, events), e, now) by {
        ClaimableExists(Events(), now);
      }
      var parcels := set e | e in candidates :: Log.Parcel(e, owner, token, events[e].delivery.generation + 1);
      events := map e | e in events :: if e in candidates then Log.Dispatch(events[e], c, now) else events[e];
      reply := Relayed(Log.Claimed(parcels));
    }

    method MarkOutboxPublished(parcel: Log.Parcel, now: int) returns (reply: Reply)
      requires Valid()
      modifies `events
      ensures Valid() && Outcome(Snapshot(), reply) == Apply(old(Snapshot()), Relay(Log.MarkPublished(parcel)), now)
    {
      hide AuthorityHistory.DbInv, LifecycleTx, TaskTx, Log.ClaimTx;
      CommandKeeps(Snapshot(), Relay(Log.MarkPublished(parcel)), now);
      if !Log.Carries(Log.Log(next, events), parcel, now) { return Relayed(Log.Refused(StaleLease)); }
      var event := events[parcel.event];
      events := events[parcel.event :=
                       event.(delivery := event.delivery.(status := Log.Published, relay := None, lastError := Null))];
      reply := Relayed(Log.Marked);
    }

    method FailOutbox(parcel: Log.Parcel, code: Id, delay: int, now: int) returns (reply: Reply)
      requires Valid()
      modifies `events
      ensures Valid()
      ensures Outcome(Snapshot(), reply) == Apply(old(Snapshot()), Relay(Log.FailOutbox(parcel, code, delay)), now)
    {
      hide AuthorityHistory.DbInv, LifecycleTx, TaskTx, Log.ClaimTx;
      CommandKeeps(Snapshot(), Relay(Log.FailOutbox(parcel, code, delay)), now);
      if !Filled(code) || !(0 <= delay <= DAY) { return Relayed(Log.Refused(Invalid)); }
      if !Log.Carries(Log.Log(next, events), parcel, now) { return Relayed(Log.Refused(StaleLease)); }
      var event := events[parcel.event];
      var spent := event.delivery.attempts >= Log.MAX_DELIVERY_ATTEMPTS;
      events := events[parcel.event := event.(delivery := event.delivery.(
        status := if spent then Log.Undeliverable else Log.Pending,
        availableAt := now + delay / SECOND * SECOND, relay := None, lastError := code))];
      reply := Relayed(Log.Returned(spent));
    }
  }
}
