/** Theorems over every history of authority commands, whatever the clock says. */
module AuthorityHistory {
  import opened Common
  import opened AuthorityTables
  import opened Authority
  import Gate = AuthorityGate
  import GateProofs = AuthorityGateProofs
  import Work = AuthorityWork
  import WorkProofs = AuthorityWorkProofs
  import Log = AuthorityLog
  import LogProofs = AuthorityLogProofs

  // ------------------------------------------------------------- invariant

  predicate DbInv(db: Db) {
    && GateProofs.GateInv(db.gate) && WorkProofs.WorkInv(db.work) && LogProofs.LogInv(db.log)
    && db.gate.runs.Keys == db.log.next.Keys
    && forall t | t in db.work.tasks :: t.run in db.gate.runs
  }

  predicate Extends<K, V(==)>(m: map<K, V>, m': map<K, V>) {
    forall x | x in m :: x in m' && m'[x] == m[x]
  }

  predicate Later(db: Db, after: Db) {
    && GateProofs.Later(db.gate, after.gate) && WorkProofs.Later(db.work, after.work)
    && LogProofs.Later(db.log, after.log) && Extends(db.stored, after.stored)
  }

  lemma LaterReflexive(db: Db)
    ensures Later(db, db)
  {
    LogProofs.EventLaterReflexive();
  }

  lemma LaterTransitive(db: Db, mid: Db, after: Db)
    requires Later(db, mid) && Later(mid, after)
    ensures Later(db, after)
  {
    hide GateProofs.Later, WorkProofs.Later, LogProofs.Later;
    GateProofs.LaterTransitive(db.gate, mid.gate, after.gate);
    WorkProofs.LaterTransitive(db.work, mid.work, after.work);
    LogProofs.LaterTransitive(db.log, mid.log, after.log);
  }

  lemma GateDecided(g: Gate.Gate, k: RunKey, c: Gate.GateCommand, now: int, h: Gate.Gate, notes: seq<Note>)
    requires GateProofs.GateInv(g) && Gate.Decide(g, k, c, now) == Gate.Write(h, notes)
    ensures GateProofs.GateInv(h) && GateProofs.Later(g, h) && h.runs.Keys == g.runs.Keys + {k}
  {
    GateProofs.DecideKeeps(g, k, c, now, h, notes);
    hide GateProofs.GateInv, Gate.Decide;
    GateProofs.StepIsLater(g, h, k);
  }

  lemma CommitGateKeeps(db: Db, k: RunKey, gate: Gate.Gate, notes: seq<Note>, now: int)
    requires DbInv(db) && GateProofs.GateInv(gate) && GateProofs.Later(db.gate, gate)
    requires gate.runs.Keys == db.gate.runs.Keys + {k}
    ensures var after := CommitGate(db, k, gate, notes, now); DbInv(after) && Later(db, after)
  {
    LaterReflexive(db);
    LogProofs.CommitKeeps(db.log, k, notes, gate.runs[k].revision, gate.runs[k].state, now);
    hide GateProofs.GateInv, WorkProofs.WorkInv, LogProofs.LogInv, GateProofs.Later, LogProofs.Later, WorkProofs.Later,
        Log.AppendAll;
  }

  lemma StoreKeeps(db: Db, row: IdempotencyKey, stored: Stored)
    requires DbInv(db) && row !in db.stored
    ensures var after := db.(stored := db.stored[row := stored]); DbInv(after) && Later(db, after)
  {
    LaterReflexive(db);
    hide GateProofs.GateInv, WorkProofs.WorkInv, LogProofs.LogInv, GateProofs.Later, LogProofs.Later, WorkProofs.Later;
  }

  lemma PlainKeeps(db: Db, k: RunKey, c: Gate.GateCommand, now: int)
    requires DbInv(db)
    ensures var after := PlainTx(db, k, c, now).db; DbInv(after) && Later(db, after)
  {
    hide Gate.Decide, Gate.PlanOf, ResultOf, NextSequence, CommitGate, GateProofs.GateInv, GateProofs.Later,
        WorkProofs.WorkInv, LogProofs.LogInv;
    LaterReflexive(db);
    var verdict := Gate.Decide(db.gate, k, c, now);
    if verdict.Write? {
      GateDecided(db.gate, k, c, now, verdict.gate, verdict.notes);
      CommitGateKeeps(db, k, verdict.gate, verdict.notes, now);
    }
    hide DbInv, Later;
  }

  lemma CommitAndStoreKeeps(db: Db, gate: Gate.Gate, notes: seq<Note>, row: IdempotencyKey, stored: Stored, now: int)
    requires DbInv(db) && row !in db.stored && row.run in gate.runs
    requires var mid := CommitGate(db, row.run, gate, notes, now); DbInv(mid) && Later(db, mid)
    ensures var mid := CommitGate(db, row.run, gate, notes, now);
            var after := mid.(stored := db.stored[row := stored]);
            DbInv(after) && Later(db, after)
  {
    var mid := CommitGate(db, row.run, gate, notes, now);
    assert mid.stored == db.stored;
    hide DbInv, Later, CommitGate;
    StoreKeeps(mid, row, stored);
    LaterTransitive(db, mid, mid.(stored := mid.stored[row := stored]));
  }

  lemma IdempotentKeeps(db: Db, row: IdempotencyKey, c: Gate.GateCommand, request: Id, now: int)
    requires DbInv(db)
    ensures var after := IdempotentTx(db, row, c, request, now).db; DbInv(after) && Later(db, after)
  {
    hide Gate.Decide, Gate.PlanOf, ResultOf, NextSequence, CommitGate, GateProofs.GateInv, GateProofs.Later,
        WorkProofs.WorkInv, LogProofs.LogInv;
    LaterReflexive(db);
    var verdict := Gate.Decide(db.gate, row.run, c, now);
    if verdict.Write? && row !in db.stored {
      GateDecided(db.gate, row.run, c, now, verdict.gate, verdict.notes);
      CommitGateKeeps(db, row.run, verdict.gate, verdict.notes, now);
      hide DbInv, Later;
      var result := ResultOf(row.run, c, verdict.gate.runs[row.run], NextSequence(db, row.run));
      CommitAndStoreKeeps(db, verdict.gate, verdict.notes, row, Stored(request, Gate.PlanOf(c), result), now);
    }
    hide DbInv, Later;
  }

  lemma TaskCommitKeeps(db: Db, work: Work.Work, owner: RunKey, notes: seq<Note>, now: int)
    requires DbInv(db) && WorkProofs.WorkInv(work) && WorkProofs.Later(db.work, work)
    requires owner in db.gate.runs && owner in db.log.next && forall t | t in work.tasks :: t.run in db.gate.runs
    ensures var run := db.gate.runs[owner];
            var after := db.(work := work, log := Log.AppendAll(db.log, owner, notes, run.revision, run.state, now));
            DbInv(after) && Later(db, after)
  {
    LaterReflexive(db);
    LogProofs.CommitKeeps(db.log, owner, notes, db.gate.runs[owner].revision, db.gate.runs[owner].state, now);
    hide GateProofs.GateInv, WorkProofs.WorkInv, LogProofs.LogInv, GateProofs.Later, LogProofs.Later, WorkProofs.Later,
        Log.AppendAll;
  }

  lemma WorkAloneKeeps(db: Db, work: Work.Work)
    requires DbInv(db) && WorkProofs.WorkInv(work) && WorkProofs.Later(db.work, work)
    requires forall t | t in work.tasks :: t.run in db.gate.runs
    ensures DbInv(db.(work := work)) && Later(db, db.(work := work))
  {
    LaterReflexive(db);
    hide GateProofs.GateInv, WorkProofs.WorkInv, LogProofs.LogInv, GateProofs.Later, LogProofs.Later, WorkProofs.Later;
  }

  lemma TaskKeeps(db: Db, k: RunKey, c: Work.WorkCommand, now: int)
    requires DbInv(db)
    ensures var after := TaskTx(db, k, c, now).db; DbInv(after) && Later(db, after)
  {
    LaterReflexive(db);
    hide DbInv, Later, Work.Decide, StandingOf, WorkProofs.WorkInv, WorkProofs.Later, Log.AppendAll;
    var verdict := Work.Decide(db.work, k, StandingOf(db.gate, k), c, now);
    if verdict.Write? {
      TaskWriteKeeps(db, k, c, now);
      if verdict.run in db.gate.runs && verdict.run in db.log.next {
        TaskCommitKeeps(db, verdict.work, verdict.run, verdict.notes, now);
      }
    }
  }

  lemma TaskWriteKeeps(db: Db, k: RunKey, c: Work.WorkCommand, now: int)
    requires DbInv(db) && Work.Decide(db.work, k, StandingOf(db.gate, k), c, now).Write?
    ensures var work := Work.Decide(db.work, k, StandingOf(db.gate, k), c, now).work;
            WorkProofs.WorkInv(work) && WorkProofs.Later(db.work, work) && DbInv(db.(work := work))
            && Later(db, db.(work := work))
            && forall t | t in work.tasks :: t.run in db.gate.runs
  {
    WorkProofs.DecideKeeps(db.work, k, StandingOf(db.gate, k), c, now);
    TaskRuns(db.work, k, db.gate, c, now);
    hide Work.Decide, StandingOf, WorkProofs.WorkInv, WorkProofs.Later;
    WorkAloneKeeps(db, Work.Decide(db.work, k, StandingOf(db.gate, k), c, now).work);
  }

  /** Work transactions add tasks only to existing runs. */
  lemma TaskRuns(w: Work.Work, k: RunKey, gate: Gate.Gate, c: Work.WorkCommand, now: int)
    requires forall t | t in w.tasks :: t.run in gate.runs
    requires Work.Decide(w, k, StandingOf(gate, k), c, now).Write?
    ensures forall t | t in Work.Decide(w, k, StandingOf(gate, k), c, now).work.tasks :: t.run in gate.runs
  {
    if c.Recover? { RecoverTasks(w, k, c.found, c.delay, now); }
  }

  lemma {:induction false} RecoverTasks(w: Work.Work, k: RunKey, found: seq<Id>, delay: int, now: int)
    requires Work.RecoverAll(w, k, found, delay, now).Some?
    ensures Work.RecoverAll(w, k, found, delay, now).value.0.tasks.Keys == w.tasks.Keys
    decreases |found|
  {
    if found == [] {
    } else {
      RecoverTasks(Work.RecoverRow(w, k, found[0], delay, now), k, found[1..], delay, now);
    }
  }

  lemma RelayKeeps(db: Db, c: Log.OutboxCommand, now: int)
    requires DbInv(db)
    ensures var after := db.(log := Log.Outbox(db.log, c, now).log); DbInv(after) && Later(db, after)
  {
    LaterReflexive(db);
    LogProofs.OutboxKeeps(db.log, c, now);
    OutboxKeepsRuns(db.log, c, now);
    hide GateProofs.GateInv, WorkProofs.WorkInv, LogProofs.LogInv, Log.Outbox, GateProofs.Later, LogProofs.Later,
        WorkProofs.Later;
  }

  /** One command keeps the invariant and only moves every table forward. */
  lemma ApplyKeeps(db: Db, c: Command, now: int)
    requires DbInv(db)
    ensures var after := Apply(db, c, now).db; DbInv(after) && Later(db, after)
  {
    LaterReflexive(db);
    hide DbInv, Later;
    match c
    case Lifecycle(k, gate, key, request) =>
      var operation := OperationOf(gate);
      if operation.Some? {
        IdempotentKeeps(db, IdempotencyKey(k, operation.value, key), gate, RequestOf(gate, request), now);
      } else {
        PlainKeeps(db, k, gate, now);
      }
      hide IdempotentTx, PlainTx, OperationOf;
    case Task(k, work) => TaskKeeps(db, k, work, now); hide TaskTx;
    case Relay(outbox) => RelayKeeps(db, outbox, now); hide Log.Outbox;
  }

  lemma OutboxKeepsRuns(l: Log.Log, c: Log.OutboxCommand, now: int)
    ensures Log.Outbox(l, c, now).log.next == l.next
  {
  }

  /** Every history keeps the invariant and only moves every table forward:
      decisions, releases, launches, ended attempts, committed effects, stored
      results and published events are final. */
  lemma {:induction false} HistoryKeeps(db: Db, history: seq<Timed>)
    requires DbInv(db)
    ensures DbInv(Run(db, history)) && Later(db, Run(db, history))
    decreases |history|
  {
    if history == [] {
      LaterReflexive(db);
    } else {
      var next := Apply(db, history[0].command, history[0].now).db;
      ApplyKeeps(db, history[0].command, history[0].now);
      hide DbInv, Later, Apply;
      HistoryKeeps(next, history[1..]);
      LaterTransitive(db, next, Run(db, history));
    }
  }

  lemma {:induction false} RunExtends(db: Db, history: seq<Timed>, next: Timed)
    ensures Run(db, history + [next]) == Apply(Run(db, history), next.command, next.now).db
    decreases |history|
  {
    if history == [] {
      assert [next][1..] == [];
    } else {
      assert (history + [next])[1..] == history[1..] + [next];
      RunExtends(Apply(db, history[0].command, history[0].now).db, history[1..], next);
    }
  }

  lemma {:induction false} RunJoins(db: Db, first: seq<Timed>, second: seq<Timed>)
    ensures Run(db, first + second) == Run(Run(db, first), second)
    decreases |first|
  {
    hide Apply;
    if first == [] {
      assert [] + second == second;
    } else {
      assert (first + second)[1..] == first[1..] + second;
      RunJoins(Apply(db, first[0].command, first[0].now).db, first[1..], second);
    }
  }

  lemma EmptyHolds()
    ensures DbInv(EMPTY)
  {
  }
}
