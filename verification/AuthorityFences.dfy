/** Who wins: of commands that race for one revision or one task, over every
    interleaving with every other command. */
module AuthorityFences {
  import opened Common
  import opened AuthorityTables
  import opened Authority
  import opened AuthorityHistory
  import Gate = AuthorityGate
  import GateProofs = AuthorityGateProofs
  import Work = AuthorityWork
  import WorkProofs = AuthorityWorkProofs
  import Log = AuthorityLog
  import Theorems = AuthorityTheorems

  // ---------------------------------------------------- one revision, one winner

  /** The revision a lifecycle command was decided against. */
  function ExpectedOf(c: Gate.GateCommand): Option<int> {
    match c
    case Transition(expected, _, _, _) => Some(expected)
    case RecordApproval(_, _, _, _, _, _, _, _, expected) => Some(expected)
    case CommitSeal(expected, _, _, _, _, _, _) => Some(expected)
    case CreateRelease(_, _, _, _, _, _, _, expected) => Some(expected)
    case _ => None
  }

  lemma FencedMoves(g: Gate.Gate, k: RunKey, c: Gate.GateCommand, now: int, h: Gate.Gate, notes: seq<Note>)
    requires ExpectedOf(c).Some? && Gate.Decide(g, k, c, now) == Gate.Write(h, notes)
    ensures k in g.runs && k in h.runs
    ensures g.runs[k].revision == ExpectedOf(c).value && h.runs[k].revision == ExpectedOf(c).value + 1
  {}

  lemma WinnerMoves(db: Db, k: RunKey, c: Gate.GateCommand, key: Id, request: Id, now: int)
    requires ExpectedOf(c).Some? && Apply(db, Lifecycle(k, c, key, request), now).reply.Accepted?
    requires !Apply(db, Lifecycle(k, c, key, request), now).reply.replayed
    ensures var g := Apply(db, Lifecycle(k, c, key, request), now).db.gate;
            k in g.runs && g.runs[k].revision == ExpectedOf(c).value + 1
  {
    hide Gate.Decide, Gate.WellFormed, Log.AppendAll, ExpectedOf;
    var verdict := Gate.Decide(db.gate, k, c, now);
    if verdict.Write? {
      FencedMoves(db.gate, k, c, now, verdict.gate, verdict.notes);
    }
  }

  lemma LateRefused(db: Db, k: RunKey, c: Gate.GateCommand, key: Id, request: Id, now: int)
    requires ExpectedOf(c).Some? && k in db.gate.runs && db.gate.runs[k].revision != ExpectedOf(c).value
    ensures var step := Apply(db, Lifecycle(k, c, key, request), now);
            step.db == db && (step.reply.Denied? || (step.reply.Accepted? && step.reply.replayed))
  {
    hide Gate.Decide, Gate.WellFormed, Log.AppendAll;
    var verdict := Gate.Decide(db.gate, k, c, now);
    if verdict.Write? {
      FencedMoves(db.gate, k, c, now, verdict.gate, verdict.notes);
      assert false;
    }
  }

  /** Of any two lifecycle commands decided against the same revision of a run,
      only one is ever carried out, whatever happens between them: the second is
      refused or is answered from an earlier result, and changes nothing. */
  lemma OneWinnerPerRevision(
    db: Db, k: RunKey, first: Gate.GateCommand, key: Id, request: Id, at: int, history: seq<Timed>,
    second: Gate.GateCommand, key': Id, request': Id, now: int)
    requires DbInv(db) && ExpectedOf(first).Some? && ExpectedOf(second) == ExpectedOf(first)
    requires var reply := Apply(db, Lifecycle(k, first, key, request), at).reply; reply.Accepted? && !reply.replayed
    ensures var after := Run(Apply(db, Lifecycle(k, first, key, request), at).db, history);
            var step := Apply(after, Lifecycle(k, second, key', request'), now);
            step.db == after && (step.reply.Denied? || (step.reply.Accepted? && step.reply.replayed))
  {
    hide Apply, Run, ExpectedOf, DbInv;
    var start := Apply(db, Lifecycle(k, first, key, request), at).db;
    WinnerMoves(db, k, first, key, request, at);
    ApplyKeeps(db, Lifecycle(k, first, key, request), at);
    HistoryKeeps(start, history);
    LateRefused(Run(start, history), k, second, key', request', now);
  }

  // ------------------------------------------------------- one task, one holder

  /** A claim is granted exactly to a live run's task that still has an attempt
      left and is free or expired: the attempt row never stands in the way. */
  lemma ClaimGrantedIff(w: Work.Work, k: RunKey, standing: Work.Standing, c: Work.WorkCommand, now: int)
    requires WorkProofs.WorkInv(w) && c.Claim? && Work.WellFormed(c)
    ensures var t := Work.TaskKey(k, c.task);
            var v := Work.Decide(w, k, standing, c, now);
            v.Write? && v.reply.Granted? <==>
              && standing.Live? && t in w.tasks && Work.AttemptKey(k, c.attempt) !in w.attempts
              && w.tasks[t].started < w.tasks[t].maxAttempts
              && (w.tasks[t].status.Ready? || (w.tasks[t].status.Retryable? && w.tasks[t].availableAt <= now)
                  || (w.tasks[t].status.Leased? && w.tasks[t].holder.value.expiresAt <= now))
  {
    var t := Work.TaskKey(k, c.task);
    if t in w.tasks {
      assert WorkProofs.TaskInv(w, t);
    }
  }

  /** A heartbeat succeeds exactly for the whole lease now in force, while it is. */
  lemma HeartbeatIff(w: Work.Work, k: RunKey, standing: Work.Standing, c: Work.WorkCommand, now: int)
    requires WorkProofs.WorkInv(w) && c.Heartbeat? && Work.WellFormed(c)
    ensures Work.Decide(w, k, standing, c, now).Write? <==>
              Work.TaskKey(k, c.lease.task) in w.tasks
              && Work.Holds(w.tasks[Work.TaskKey(k, c.lease.task)], c.lease, now)
  {
    var t := Work.TaskKey(k, c.lease.task);
    if t in w.tasks {
      assert WorkProofs.TaskInv(w, t);
    }
  }

  /** The lease in force on a task. */
  predicate InForce(w: Work.Work, t: Work.TaskKey, l: Work.Lease) {
    && t in w.tasks && t.id == l.task && w.tasks[t].status.Leased? && w.tasks[t].generation == l.generation
    && w.tasks[t].holder == Some(Work.Holder(l.owner, l.token, l.attempt, l.expiresAt))
  }

  /** Whether a command gives up or renews a lease on task `t`: only its holder knows the token. */
  predicate Spends(c: Command, t: Work.TaskKey, l: Work.Lease) {
    && c.Task? && c.run == t.run && (c.work.Heartbeat? || c.work.Complete?)
    && c.work.lease.task == t.id && c.work.lease.token == l.token && c.work.lease.attempt == l.attempt
  }

  lemma OthersLeave(w: Work.Work, k: RunKey, standing: Work.Standing, c: Work.WorkCommand, now: int, t: Work.TaskKey,
      l: Work.Lease)
    requires InForce(w, t, l) && now < l.expiresAt && Work.Decide(w, k, standing, c, now).Write?
    requires !c.Recover? && !Spends(Task(k, c), t, l)
    ensures InForce(Work.Decide(w, k, standing, c, now).work, t, l)
  {}

  lemma {:induction false} RecoveryLeaves(w: Work.Work, k: RunKey, found: seq<Id>, delay: int, now: int,
      t: Work.TaskKey, l: Work.Lease)
    requires InForce(w, t, l) && now < l.expiresAt && Work.RecoverAll(w, k, found, delay, now).Some?
    ensures InForce(Work.RecoverAll(w, k, found, delay, now).value.0, t, l)
    decreases |found|
  {
    if found == [] {
    } else {
      assert Work.TaskKey(k, found[0]) != t;
      RecoveryLeaves(Work.RecoverRow(w, k, found[0], delay, now), k, found[1..], delay, now, t, l);
    }
  }

  lemma StepLeaves(db: Db, c: Command, now: int, t: Work.TaskKey, l: Work.Lease)
    requires InForce(db.work, t, l) && now < l.expiresAt && !Spends(c, t, l)
    ensures InForce(Apply(db, c, now).db.work, t, l)
  {
    hide Gate.Decide, Log.AppendAll, Log.Outbox, InForce, Work.Decide, Spends;
    match c
    case Lifecycle(_, _, _, _) =>
    case Relay(_) =>
    case Task(k, work) =>
      var standing := StandingOf(db.gate, k);
      if Work.Decide(db.work, k, standing, work, now).Write? {
        if work.Recover? {
          RecoverIs(db.work, k, standing, work, now);
          RecoveryLeaves(db.work, k, work.found, work.delay, now, t, l);
        } else {
          OthersLeave(db.work, k, standing, work, now, t, l);
        }
      }
  }

  lemma RecoverIs(w: Work.Work, k: RunKey, standing: Work.Standing, c: Work.WorkCommand, now: int)
    requires c.Recover? && Work.Decide(w, k, standing, c, now).Write?
    ensures Work.RecoverAll(w, k, c.found, c.delay, now).Some?
    ensures Work.Decide(w, k, standing, c, now).work == Work.RecoverAll(w, k, c.found, c.delay, now).value.0
  {}

  lemma {:induction false} HistoryLeaves(db: Db, history: seq<Timed>, t: Work.TaskKey, l: Work.Lease)
    requires InForce(db.work, t, l)
    requires forall i | 0 <= i < |history| :: history[i].now < l.expiresAt && !Spends(history[i].command, t, l)
    ensures InForce(Run(db, history).work, t, l)
    decreases |history|
  {
    hide Apply, InForce, Spends;
    if history == [] {
    } else {
      StepLeaves(db, history[0].command, history[0].now, t, l);
      HistoryLeaves(Apply(db, history[0].command, history[0].now).db, history[1..], t, l);
    }
  }

  lemma GrantInForce(w: Work.Work, k: RunKey, standing: Work.Standing, c: Work.WorkCommand, now: int)
    requires Work.Decide(w, k, standing, c, now).Write? && Work.Decide(w, k, standing, c, now).reply.Granted?
    ensures var v := Work.Decide(w, k, standing, c, now);
            InForce(v.work, Work.TaskKey(k, v.reply.lease.task), v.reply.lease)
  {}

  lemma GrantIsInForce(db: Db, step: Timed, t: Work.TaskKey)
    requires Theorems.Grants(db, step, t)
    ensures InForce(Apply(db, step.command, step.now).db.work, t, Apply(db, step.command, step.now).reply.work.lease)
  {
    hide Log.AppendAll, Work.Decide, InForce;
    GrantInForce(db.work, t.run, StandingOf(db.gate, t.run), step.command.work, step.now);
  }

  /** A granted lease excludes everyone else until it expires: as long as its
      holder neither renews nor completes it, whatever all others do, its fence
      still holds and every other claim of the task is refused without effect. */
  lemma LeaseExcludesOthers(
    db: Db, grant: Timed, history: seq<Timed>, t: Work.TaskKey, claim: Work.WorkCommand, now: int)
    requires Theorems.Grants(db, grant, t)
    requires var l := Apply(db, grant.command, grant.now).reply.work.lease;
             && now < l.expiresAt
             && forall i | 0 <= i < |history| :: history[i].now < l.expiresAt && !Spends(history[i].command, t, l)
    requires claim.Claim? && claim.task == t.id
    ensures var start := Apply(db, grant.command, grant.now);
            var end := Run(start.db, history);
            var step := Apply(end, Task(t.run, claim), now);
            && t in end.work.tasks && Work.Holds(end.work.tasks[t], start.reply.work.lease, now)
            && step.db == end && step.reply.Denied?
  {
    var start := Apply(db, grant.command, grant.now);
    var l := start.reply.work.lease;
    GrantIsInForce(db, grant, t);
    hide Theorems.Grants, Apply, Run, Spends;
    HistoryLeaves(start.db, history, t, l);
    ClaimRefused(Run(start.db, history), t, l, claim, now);
  }

  lemma ClaimRefused(db: Db, t: Work.TaskKey, l: Work.Lease, claim: Work.WorkCommand, now: int)
    requires InForce(db.work, t, l) && now < l.expiresAt && claim.Claim? && claim.task == t.id
    ensures Apply(db, Task(t.run, claim), now).db == db && Apply(db, Task(t.run, claim), now).reply.Denied?
  {}
}
