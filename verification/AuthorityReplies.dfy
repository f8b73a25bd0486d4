/** What callers are told: each reply of the authority, from the rows before and
    after its command. */
module AuthorityReplies {
  import opened Common
  import opened AuthorityTables
  import opened Authority
  import A = Authority
  import opened AuthorityHistory
  import Gate = AuthorityGate
  import Work = AuthorityWork
  import Log = AuthorityLog
  import LogProofs = AuthorityLogProofs
  import Deliveries = AuthorityDeliveries

  // --------------------------------------------------------------- lifecycle

  /** The result names the run's row as it now is, the first event of the command, and
      the approval and the release that the command is about. */
  predicate Tells(db: Db, after: Db, k: RunKey, c: Gate.GateCommand, result: A.Result) {
    var e := Log.EventKey(k, result.sequence);
    && k in after.gate.runs && result.run == k
    && result.revision == after.gate.runs[k].revision && result.state == after.gate.runs[k].state
    && e in after.log.events && e !in db.log.events
    && (forall other | other in after.log.events && other !in db.log.events :: other.sequence >= e.sequence)
    && after.log.events[e].revision == result.revision && after.log.events[e].state == result.state
    && match c
       case RecordApproval(approval, _, _, _, _, _, _, _, _) => result.approval == approval && result.release == Null
       case CommitSeal(_, _, _, _, production, _, _) => result.approval == production && result.release == Null
       case CreateRelease(release, approval, _, _, _, _, _, _) =>
         result.approval == approval && result.release == release
       case CreateRun => result.approval == Null && result.release == Null
       case _ =>
         && k in db.gate.runs
         && result.approval == db.gate.runs[k].approval && result.release == db.gate.runs[k].release
  }

  /** The row that a reporting command leaves, and that it has something to report. */
  lemma GateReports(g: Gate.Gate, k: RunKey, c: Gate.GateCommand, now: int, h: Gate.Gate, notes: seq<Note>)
    requires Gate.Decide(g, k, c, now) == Gate.Write(h, notes) && OperationOf(c).Some?
    ensures k in h.runs && notes != []
    ensures c.CommitSeal? ==> h.runs[k].approval == c.production
    ensures c.CreateRelease? ==> h.runs[k].approval == c.approval && h.runs[k].release == c.release
    ensures c.CreateRun? ==> h.runs[k].approval == Null && h.runs[k].release == Null
    ensures c.Transition? ==>
              k in g.runs && h.runs[k].approval == g.runs[k].approval && h.runs[k].release == g.runs[k].release
  {
    hide Gate.WellFormed, Gate.PriorApproves, Gate.NonceOpen, Gate.ApprovalInsertable, Gate.SealAuthorised,
        Gate.SealContinues, Gate.JournalInsertable, Gate.DigestTaken, Gate.KindReleased, Gate.ApprovalOf,
        Gate.VerifiedRelease, TransitionAllowed;
  }

  /** Appending numbers the events of a run from its next sequence on. */
  lemma {:induction false} AppendStarts(l: Log.Log, k: RunKey, notes: seq<Note>, revision: int, state: RunState,
      now: int)
    requires k in l.next
    requires forall e | e in l.events && e.run == k :: e.sequence < l.next[k]
    ensures var m := Log.AppendAll(l, k, notes, revision, state, now);
            && (forall e | e in l.events :: e in m.events)
            && (forall e | e in m.events && e !in l.events :: e.run == k && e.sequence >= l.next[k])
            && (notes != [] ==>
                  Log.EventKey(k, l.next[k]) in m.events && Log.EventKey(k, l.next[k]) !in l.events
                  && m.events[Log.EventKey(k, l.next[k])].revision == revision
                  && m.events[Log.EventKey(k, l.next[k])].state == state)
    decreases |notes|
  {
    if notes == [] {
    } else {
      var next := Log.Append(l, k, notes[0], revision, state, now);
      AppendStarts(next, k, notes[1..], revision, state, now);
      AppendKeepsEvents(next, k, notes[1..], revision, state, now, Log.EventKey(k, l.next[k]));
    }
  }

  lemma {:induction false} AppendKeepsEvents(l: Log.Log, k: RunKey, notes: seq<Note>, revision: int, state: RunState,
      now: int, e: Log.EventKey)
    requires k in l.next && e in l.events && (e.run == k ==> e.sequence < l.next[k])
    ensures e in Log.AppendAll(l, k, notes, revision, state, now).events
    ensures Log.AppendAll(l, k, notes, revision, state, now).events[e] == l.events[e]
    decreases |notes|
  {
    if notes == [] {
    } else {
      AppendKeepsEvents(Log.Append(l, k, notes[0], revision, state, now), k, notes[1..], revision, state, now, e);
    }
  }

  /** A lifecycle command that is accepted anew is answered with what it did. */
  lemma AcceptedTells(db: Db, k: RunKey, c: Gate.GateCommand, key: Id, request: Id, now: int)
    requires DbInv(db) && Apply(db, Lifecycle(k, c, key, request), now).reply.Accepted?
    requires !Apply(db, Lifecycle(k, c, key, request), now).reply.replayed
    ensures var step := Apply(db, Lifecycle(k, c, key, request), now);
            Tells(db, step.db, k, c, step.reply.result)
  {
    var v := Gate.Decide(db.gate, k, c, now);
    hide Gate.Decide, Gate.WellFormed, Log.AppendAll, DbInv, Gate.PlanOf;
    assert v.Write? && OperationOf(c).Some?;
    GateReports(db.gate, k, c, now, v.gate, v.notes);
    var base := if k in db.log.next then db.log else Log.Open(db.log, k);
    EventsBefore(db, k);
    AppendStarts(base, k, v.notes, v.gate.runs[k].revision, v.gate.runs[k].state, now);
  }

  lemma EventsBefore(db: Db, k: RunKey)
    requires DbInv(db)
    ensures k in db.log.next ==> forall e | e in db.log.events && e.run == k :: e.sequence < db.log.next[k]
    ensures k !in db.log.next ==> forall e | e in db.log.events :: e.run != k
  {
    assert LogProofs.LogInv(db.log);
  }

  // -------------------------------------------------------- tasks and effects

  /** A recovery reports how many tasks it took, and a reservation whether it is the
      first of its effect. */
  lemma WorkTells(db: Db, k: RunKey, c: Work.WorkCommand, now: int)
    ensures var step := Apply(db, Task(k, c), now);
            && (c.Recover? && step.reply.Worked? ==> step.reply.work == Work.Recovered(|c.found|))
            && (c.Reserve? && step.reply.Worked? ==>
                  && TenantKey(k.tenant, c.effect) in step.db.work.effects
                  && step.reply.work == Work.Reserved(TenantKey(k.tenant, c.effect) !in db.work.effects))
  {
    hide Log.AppendAll, Work.RecoverAll, Work.Holds, Work.WellFormed, Work.Selection;
  }

  // ------------------------------------------------------------------ outbox

  /** The delivery is the one in force, and it is in force. */
  predicate InForce(l: Log.Log, p: Log.Parcel, now: int) {
    && p.event in l.events && l.events[p.event].delivery.relay.Some?
    && now < l.events[p.event].delivery.relay.value.expiresAt
    && Deliveries.Held(l, p, l.events[p.event].delivery.relay.value.expiresAt)
  }

  /** An outbox command is carried out if and only if it is well formed and, for a
      report, presents the whole delivery in force; a refused one changes nothing. */
  lemma OutboxAdmittedIff(l: Log.Log, c: Log.OutboxCommand, now: int)
    ensures !Log.Outbox(l, c, now).reply.Refused? <==>
              match c
              case ClaimOutbox(_, _, _, _, _) => Deliveries.ValidClaim(c)
              case MarkPublished(p) => InForce(l, p, now)
              case FailOutbox(p, code, delay) => code != Null && 0 <= delay <= DAY && InForce(l, p, now)
    ensures Log.Outbox(l, c, now).reply.Refused? ==> Log.Outbox(l, c, now).log == l
  {
  }
}
