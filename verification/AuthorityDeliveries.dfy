/** What each outbox command means for the next delivery of an event: who holds it
    until when, from when on it may be handed out again, and when it never is. */
module AuthorityDeliveries {
  import opened Common
  import opened AuthorityTables
  import opened Authority
  import opened AuthorityHistory
  import Gate = AuthorityGate
  import Work = AuthorityWork
  import Log = AuthorityLog
  import LogProofs = AuthorityLogProofs
  import Testimony = AuthorityTestimony

  /** A driver duration cut to whole seconds. */
  function Cut(duration: int): (r: int)
    ensures r <= duration < r + SECOND && r % SECOND == 0
  {
    duration / SECOND * SECOND
  }

  predicate ValidClaim(c: Log.OutboxCommand) {
    && c.ClaimOutbox? && Filled(c.owner) && 1 <= c.limit <= 500 && SECOND <= c.duration <= HOUR && |c.picks| <= c.limit
  }

  // ------------------------------------------------------------- conditions

  /** The event is out with this delivery until then. */
  predicate Held(l: Log.Log, p: Log.Parcel, until: int) {
    && p.event in l.events
    && var d := l.events[p.event].delivery;
       d.status.InFlight? && d.generation == p.generation && d.relay == Some(Log.Relay(p.owner, p.token, until))
  }

  /** The event is the first unpublished of its run, has a delivery left, and is free
      from this time on. */
  predicate Due(l: Log.Log, e: Log.EventKey, from: int) {
    && e in l.events && Log.PriorsPublished(l, e)
    && var d := l.events[e].delivery;
       && d.attempts < Log.MAX_DELIVERY_ATTEMPTS
       && ((d.status.Pending? && d.availableAt == from)
           || (d.status.InFlight? && d.relay.Some? && d.relay.value.expiresAt == from && d.availableAt <= from))
  }

  /** The event is published or given up. */
  predicate Closed(l: Log.Log, e: Log.EventKey) {
    e in l.events && (l.events[e].delivery.status.Published? || l.events[e].delivery.status.Undeliverable?)
  }

  /** The step hands the event to a relay. */
  predicate HandsOut(db: Db, step: Timed, e: Log.EventKey) {
    && step.command.Relay?
    && var reply := Apply(db, step.command, step.now).reply;
       && reply.Relayed? && reply.outbox.Claimed?
       && exists p :: p in reply.outbox.parcels && p.event == e
  }

  /** The step reports on a delivery of the event. */
  predicate Reports(step: Timed, e: Log.EventKey) {
    && step.command.Relay?
    && match step.command.outbox
       case MarkPublished(parcel) => parcel.event == e
       case FailOutbox(parcel, _, _) => parcel.event == e
       case ClaimOutbox(_, _, _, _, _) => false
  }

  /** No step of the history hands out the event or reports on it. */
  predicate Undisturbed(db: Db, history: seq<Timed>, e: Log.EventKey)
    decreases |history|
  {
    history == []
    || (&& !HandsOut(db, history[0], e) && !Reports(history[0], e)
        && Undisturbed(Apply(db, history[0].command, history[0].now).db, history[1..], e))
  }

  // --------------------------------------------------------------- handing out

  lemma LapsedIs(l: Log.Log, e: Log.EventKey, now: int)
    ensures Log.Claimable(Log.LapseAll(l, now), e, now) <==> Log.Claimable(l, e, now)
    ensures Log.Claimable(l, e, now) ==> Log.LapseAll(l, now).events[e] == l.events[e]
  {
    if Log.Claimable(l, e, now) { assert Log.PriorsPublished(Log.LapseAll(l, now), e); }
    if Log.Claimable(Log.LapseAll(l, now), e, now) {
      forall prior | prior in l.events && prior.run == e.run && prior.sequence < e.sequence
        ensures l.events[prior].delivery.status.Published?
      {
        assert prior in Log.LapseAll(l, now).events;
      }
    }
  }

  /** A claim hands out exactly the picked events that are due, each to its owner
      with a new generation, until the claim's duration is over. */
  lemma ClaimDelivers(l: Log.Log, c: Log.OutboxCommand, now: int, e: Log.EventKey)
    requires ValidClaim(c)
    ensures var step := Log.Outbox(l, c, now);
            && step.reply.Claimed?
            && ((exists p :: p in step.reply.parcels && p.event == e) <==> e in c.picks && Log.Claimable(l, e, now))
            && (e in c.picks && Log.Claimable(l, e, now) ==>
                  var d := l.events[e].delivery;
                  var p := Log.Parcel(e, c.owner, c.token, d.generation + 1);
                  && p in step.reply.parcels && Held(step.log, p, now + Cut(c.duration))
                  && step.log.events[e].delivery.attempts == d.attempts + 1)
  {
    var step := Log.Outbox(l, c, now);
    LapsedIs(l, e, now);
    var lapsed := Log.LapseAll(l, now);
    if e in c.picks && Log.Claimable(l, e, now) {
      assert e in (set x | x in c.picks && Log.Claimable(lapsed, x, now));
      hide Log.Claimable, Log.LapseAll;
      assert Log.Parcel(e, c.owner, c.token, l.events[e].delivery.generation + 1) in step.reply.parcels;
    } else {
      hide Log.Claimable, Log.LapseAll, Log.Dispatch;
    }
  }

  /** Being due is being claimable from then on. */
  lemma DueIff(l: Log.Log, e: Log.EventKey, from: int, now: int)
    requires Due(l, e, from)
    ensures Log.Claimable(l, e, now) <==> now >= from
  {}

  /** A delivery may report exactly until it runs out. */
  lemma HeldCarries(l: Log.Log, p: Log.Parcel, until: int, now: int)
    requires Held(l, p, until)
    ensures Log.Carries(l, p, now) <==> now < until
  {}

  // ---------------------------------------------------------- other commands

  /** Events on record stay as they are, and new ones follow them. */
  predicate Follows(l: Log.Log, m: Log.Log) {
    && (forall e | e in l.events :: e in m.events && m.events[e] == l.events[e])
    && forall e | e in m.events && e !in l.events :: e.sequence >= if e.run in l.next then l.next[e.run] else 1
  }

  lemma QuietLifecycle(db: Db, k: RunKey, c: Gate.GateCommand, key: Id, request: Id, now: int)
    requires LogProofs.LogInv(db.log)
    ensures Follows(db.log, LifecycleTx(db, k, c, key, request, now).db.log)
  {
    hide Gate.Decide, Log.AppendAll, LogProofs.LogInv, Gate.WellFormed, ResultOf, NextSequence;
    var v := Gate.Decide(db.gate, k, c, now);
    if v.Write? && k in v.gate.runs {
      var run := v.gate.runs[k];
      if k in db.log.next {
        QuietAppend(db.log, db.log, k, v.notes, run.revision, run.state, now);
      } else {
        LogProofs.OpenKeeps(db.log, k);
        QuietAppend(db.log, Log.Open(db.log, k), k, v.notes, run.revision, run.state, now);
      }
    }
    hide Follows;
  }

  lemma QuietTask(db: Db, k: RunKey, c: Work.WorkCommand, now: int)
    requires LogProofs.LogInv(db.log)
    ensures Follows(db.log, TaskTx(db, k, c, now).db.log)
  {
    hide Work.Decide, Log.AppendAll, LogProofs.LogInv, StandingOf;
    var v := Work.Decide(db.work, k, StandingOf(db.gate, k), c, now);
    if v.Write? && v.run in db.gate.runs && v.run in db.log.next {
      var run := db.gate.runs[v.run];
      QuietAppend(db.log, db.log, v.run, v.notes, run.revision, run.state, now);
    }
  }

  /** Only outbox commands touch an event once it is written. */
  lemma QuietLog(db: Db, c: Command, now: int)
    requires DbInv(db) && !c.Relay?
    ensures Follows(db.log, Apply(db, c, now).db.log)
  {
    hide LifecycleTx, TaskTx, Follows;
    match c
    case Lifecycle(k, gate, key, request) => QuietLifecycle(db, k, gate, key, request, now);
    case Task(k, work) => QuietTask(db, k, work, now);
  }

  lemma {:induction false} QuietAppend(l: Log.Log, base: Log.Log, k: RunKey, notes: seq<Note>, revision: int,
      state: RunState, now: int)
    requires LogProofs.LogInv(base) && k in base.next && l.events == base.events
    requires base.next[k] >= (if k in l.next then l.next[k] else 1)
    ensures Follows(l, Log.AppendAll(base, k, notes, revision, state, now))
  {
    Testimony.AppendedIs(base, k, notes, revision, state, now);
    AppendedAfter(base, k, notes, revision, state, now);
    hide LogProofs.LogInv, Log.AppendAll, Testimony.Written;
  }

  lemma {:induction false} AppendedAfter(l: Log.Log, k: RunKey, notes: seq<Note>, revision: int, state: RunState,
      now: int)
    requires k in l.next
    ensures var m := Log.AppendAll(l, k, notes, revision, state, now);
            k in m.next && forall e | e in m.events && e !in l.events :: e.run == k && e.sequence >= l.next[k]
    decreases |notes|
  {
    if notes == [] {
    } else {
      AppendedAfter(Log.Append(l, k, notes[0], revision, state, now), k, notes[1..], revision, state, now);
    }
  }

  lemma HeldInQuiet(l: Log.Log, m: Log.Log, p: Log.Parcel, until: int)
    requires Held(l, p, until) && Follows(l, m)
    ensures Held(m, p, until)
  {}

  lemma DueInQuiet(l: Log.Log, m: Log.Log, e: Log.EventKey, from: int)
    requires Due(l, e, from) && LogProofs.LogInv(l) && Follows(l, m)
    ensures Due(m, e, from)
  {
    forall prior | prior in m.events && prior.run == e.run && prior.sequence < e.sequence
      ensures m.events[prior].delivery.status.Published?
    {
      assert prior in l.events;
    }
  }

  // ---------------------------------------------------------- outbox commands

  lemma HeldInOutbox(l: Log.Log, c: Log.OutboxCommand, now: int, p: Log.Parcel, until: int)
    requires Held(l, p, until) && now < until && !Reports(Timed(Relay(c), now), p.event)
    ensures Held(Log.Outbox(l, c, now).log, p, until)
  {
    if c.ClaimOutbox? { LapsedIs(l, p.event, now); }
  }

  lemma DueInOutbox(l: Log.Log, c: Log.OutboxCommand, now: int, e: Log.EventKey, from: int)
    requires LogProofs.LogInv(l) && Due(l, e, from) && !Reports(Timed(Relay(c), now), e)
    requires var reply := Log.Outbox(l, c, now).reply; reply.Claimed? ==> forall p | p in reply.parcels :: p.event != e
    ensures Due(Log.Outbox(l, c, now).log, e, from)
  {
    var m := Log.Outbox(l, c, now).log;
    LogProofs.OutboxKeeps(l, c, now);
    forall prior | prior in m.events && prior.run == e.run && prior.sequence < e.sequence
      ensures m.events[prior].delivery.status.Published?
    {
      assert prior in l.events by { SameEvents(l, c, now); }
    }
    hide LogProofs.LogInv, LogProofs.Later;
    if c.ClaimOutbox? { DueInClaim(l, c, now, e, from); }
  }

  lemma SameEvents(l: Log.Log, c: Log.OutboxCommand, now: int)
    ensures Log.Outbox(l, c, now).log.events.Keys == l.events.Keys
  {}

  lemma DueInClaim(l: Log.Log, c: Log.OutboxCommand, now: int, e: Log.EventKey, from: int)
    requires Due(l, e, from) && c.ClaimOutbox?
    requires var reply := Log.Outbox(l, c, now).reply; reply.Claimed? ==> forall p | p in reply.parcels :: p.event != e
    ensures var m := Log.Outbox(l, c, now).log; e in m.events && m.events[e] == l.events[e]
  {
    if ValidClaim(c) {
      ClaimDelivers(l, c, now, e);
      LapsedIs(l, e, now);
    }
  }

  // --------------------------------------------------------------- histories

  lemma HeldStays(db: Db, step: Timed, p: Log.Parcel, until: int)
    requires DbInv(db) && Held(db.log, p, until) && step.now < until && !Reports(step, p.event)
    ensures Held(Apply(db, step.command, step.now).db.log, p, until) && !HandsOut(db, step, p.event)
  {
    hide DbInv, Held, LifecycleTx, TaskTx, Log.Outbox, Follows;
    if step.command.Relay? {
      HeldInOutbox(db.log, step.command.outbox, step.now, p, until);
      if HandsOut(db, step, p.event) { HeldNotHanded(db.log, step.command.outbox, step.now, p, until); }
    } else {
      QuietLog(db, step.command, step.now);
      HeldInQuiet(db.log, Apply(db, step.command, step.now).db.log, p, until);
    }
  }

  lemma HeldNotHanded(l: Log.Log, c: Log.OutboxCommand, now: int, p: Log.Parcel, until: int)
    requires Held(l, p, until) && now < until && Log.Outbox(l, c, now).reply.Claimed?
    ensures forall q | q in Log.Outbox(l, c, now).reply.parcels :: q.event != p.event
  {
    assert ValidClaim(c);
    ClaimDelivers(l, c, now, p.event);
  }

  /** While a delivery lasts and its relay has not reported, whatever everyone else
      does, its fence holds and no claim hands the event out again. */
  lemma {:induction false} DeliveryExcludesOthers(db: Db, history: seq<Timed>, p: Log.Parcel, until: int, next: Timed)
    requires DbInv(db) && Held(db.log, p, until)
    requires forall i | 0 <= i < |history| :: history[i].now < until && !Reports(history[i], p.event)
    requires next.now < until && !Reports(next, p.event)
    ensures Log.Carries(Run(db, history).log, p, next.now) && !HandsOut(Run(db, history), next, p.event)
    decreases |history|
  {
    hide DbInv, Held, Apply, Reports, HandsOut, Log.Carries, Later;
    if history == [] {
      HeldStays(db, next, p, until);
      HeldCarries(db.log, p, until, next.now);
    } else {
      HeldStays(db, history[0], p, until);
      ApplyKeeps(db, history[0].command, history[0].now);
      DeliveryExcludesOthers(Apply(db, history[0].command, history[0].now).db, history[1..], p, until, next);
    }
  }

  lemma DueStays(db: Db, step: Timed, e: Log.EventKey, from: int)
    requires DbInv(db) && Due(db.log, e, from) && !HandsOut(db, step, e) && !Reports(step, e)
    ensures Due(Apply(db, step.command, step.now).db.log, e, from)
  {
    hide Due, LifecycleTx, TaskTx, Log.Outbox, LogProofs.LogInv, Reports, Follows;
    if step.command.Relay? {
      DueInOutbox(db.log, step.command.outbox, step.now, e, from);
    } else {
      QuietLog(db, step.command, step.now);
      DueInQuiet(db.log, Apply(db, step.command, step.now).db.log, e, from);
    }
  }

  lemma {:induction false} DueOn(db: Db, history: seq<Timed>, e: Log.EventKey, from: int)
    requires DbInv(db) && Due(db.log, e, from) && Undisturbed(db, history, e)
    ensures Due(Run(db, history).log, e, from)
    decreases |history|
  {
    hide DbInv, Due, Apply, Reports, HandsOut, Later;
    if history == [] {
    } else {
      DueStays(db, history[0], e, from);
      ApplyKeeps(db, history[0].command, history[0].now);
      DueOn(Apply(db, history[0].command, history[0].now).db, history[1..], e, from);
    }
  }

  /** Until the event is handed out or reported on again, a valid claim that picks it
      hands it out if and only if it comes at this time or later. */
  ghost predicate ClaimableFrom(db: Db, e: Log.EventKey, from: int) {
    forall history: seq<Timed>, c: Log.OutboxCommand, now: int
      | Undisturbed(db, history, e) && ValidClaim(c) && e in c.picks ::
      HandsOut(Run(db, history), Timed(Relay(c), now), e) <==> now >= from
  }

  /** From here on no claim ever hands out the event. */
  ghost predicate NeverAgain(db: Db, e: Log.EventKey) {
    forall history: seq<Timed>, next: Timed :: !HandsOut(Run(db, history), next, e)
  }

  lemma ClaimHandsOutIff(db: Db, c: Log.OutboxCommand, now: int, e: Log.EventKey)
    requires ValidClaim(c)
    ensures HandsOut(db, Timed(Relay(c), now), e) <==> e in c.picks && Log.Claimable(db.log, e, now)
  {
    ClaimDelivers(db.log, c, now, e);
    hide Log.Outbox, Log.Claimable;
  }

  lemma DueIsClaimable(db: Db, e: Log.EventKey, from: int)
    requires DbInv(db) && Due(db.log, e, from)
    ensures ClaimableFrom(db, e, from)
  {
    hide DbInv, Due, Run, Undisturbed, HandsOut, Log.Claimable;
    forall history: seq<Timed>, c: Log.OutboxCommand, now: int
      | Undisturbed(db, history, e) && ValidClaim(c) && e in c.picks
      ensures HandsOut(Run(db, history), Timed(Relay(c), now), e) <==> now >= from
    {
      DueOn(db, history, e, from);
      DueIff(Run(db, history).log, e, from, now);
      ClaimHandsOutIff(Run(db, history), c, now, e);
    }
  }

  lemma ClosedIsForever(db: Db, e: Log.EventKey)
    requires DbInv(db) && Closed(db.log, e)
    ensures NeverAgain(db, e)
  {
    hide DbInv, Run, HandsOut;
    forall history: seq<Timed>, next: Timed ensures !HandsOut(Run(db, history), next, e) {
      HistoryKeeps(db, history);
      ClosedNotHanded(Run(db, history), next, e);
    }
  }

  lemma ClosedNotHanded(db: Db, next: Timed, e: Log.EventKey)
    requires Closed(db.log, e)
    ensures !HandsOut(db, next, e)
  {
    if next.command.Relay? && ValidClaim(next.command.outbox) {
      ClaimHandsOutIff(db, next.command.outbox, next.now, e);
    }
  }

  // ----------------------------------------------------------------- theorems

  predicate Replies(db: Db, c: Log.OutboxCommand, at: int, reply: Log.OutboxReply) {
    Apply(db, Relay(c), at).reply == Relayed(reply)
  }

  /** What a handed out delivery means: nobody else gets the event until it runs out,
      and from then on, if it is not the last one, the next claim does. */
  lemma HandedOutUntil(db: Db, c: Log.OutboxCommand, at: int, e: Log.EventKey)
    requires DbInv(db) && ValidClaim(c) && HandsOut(db, Timed(Relay(c), at), e)
    ensures var next := Apply(db, Relay(c), at).db;
            && e in next.log.events && e in db.log.events
            && var p := Log.Parcel(e, c.owner, c.token, next.log.events[e].delivery.generation);
               && Held(next.log, p, at + Cut(c.duration))
               && next.log.events[e].delivery.attempts == db.log.events[e].delivery.attempts + 1
               && (next.log.events[e].delivery.attempts < Log.MAX_DELIVERY_ATTEMPTS ==>
                     ClaimableFrom(next, e, at + Cut(c.duration)))
  {
    hide DbInv, HandsOut, ClaimableFrom;
    ClaimHandsOutIff(db, c, at, e);
    ClaimDelivers(db.log, c, at, e);
    var next := Apply(db, Relay(c), at).db;
    ApplyKeeps(db, Relay(c), at);
    if next.log.events[e].delivery.attempts < Log.MAX_DELIVERY_ATTEMPTS {
      assert Due(next.log, e, at + Cut(c.duration)) by { HandedIsDue(db.log, c, at, e); }
      DueIsClaimable(next, e, at + Cut(c.duration));
    }
  }

  lemma HandedIsDue(l: Log.Log, c: Log.OutboxCommand, at: int, e: Log.EventKey)
    requires ValidClaim(c) && e in c.picks && Log.Claimable(l, e, at)
    requires e in Log.Outbox(l, c, at).log.events
    requires Log.Outbox(l, c, at).log.events[e].delivery.attempts < Log.MAX_DELIVERY_ATTEMPTS
    ensures Due(Log.Outbox(l, c, at).log, e, at + Cut(c.duration))
  {
    ClaimDelivers(l, c, at, e);
    LapsedIs(l, e, at);
    var m := Log.Outbox(l, c, at).log;
    forall prior | prior in m.events && prior.run == e.run && prior.sequence < e.sequence
      ensures m.events[prior].delivery.status.Published?
    {
      assert l.events[prior].delivery.status.Published?;
    }
  }

  /** A failed delivery is kept with its code; the event may be handed out again
      exactly from the delay on, or never if this was the last delivery. */
  lemma FailedReturnsOrEnds(db: Db, p: Log.Parcel, code: Id, delay: int, at: int, spent: bool)
    requires DbInv(db) && Replies(db, Log.FailOutbox(p, code, delay), at, Log.Returned(spent))
    ensures var next := Apply(db, Relay(Log.FailOutbox(p, code, delay)), at).db;
            && p.event in next.log.events && next.log.events[p.event].delivery.lastError == code
            && (spent <==> next.log.events[p.event].delivery.attempts >= Log.MAX_DELIVERY_ATTEMPTS)
            && if spent then NeverAgain(next, p.event) else ClaimableFrom(next, p.event, at + Cut(delay))
  {
    hide ClaimableFrom, NeverAgain, Log.Outbox, DbInv, Due;
    var c := Log.FailOutbox(p, code, delay);
    var next := Apply(db, Relay(c), at).db;
    ApplyKeeps(db, Relay(c), at);
    FailedIs(db, p, code, delay, at, spent);
    if spent {
      ClosedIsForever(next, p.event);
    } else {
      DueIsClaimable(next, p.event, at + Cut(delay));
    }
  }

  lemma FailedIs(db: Db, p: Log.Parcel, code: Id, delay: int, at: int, spent: bool)
    requires DbInv(db) && Log.Outbox(db.log, Log.FailOutbox(p, code, delay), at).reply == Log.Returned(spent)
    ensures var m := Log.Outbox(db.log, Log.FailOutbox(p, code, delay), at).log;
            && p.event in m.events && m.events[p.event].delivery.lastError == code
            && (spent <==> m.events[p.event].delivery.attempts >= Log.MAX_DELIVERY_ATTEMPTS)
            && if spent then Closed(m, p.event) else Due(m, p.event, at + Cut(delay))
  {
    var m := Log.Outbox(db.log, Log.FailOutbox(p, code, delay), at).log;
    assert Log.PriorsPublished(m, p.event) by { CarriedPriors(db.log, m, p, at); }
    hide DbInv;
  }

  lemma CarriedPriors(l: Log.Log, m: Log.Log, p: Log.Parcel, now: int)
    requires LogProofs.LogInv(l) && Log.Carries(l, p, now) && m.events.Keys == l.events.Keys
    requires forall e | e in l.events && e != p.event :: m.events[e] == l.events[e]
    ensures Log.PriorsPublished(m, p.event)
  {
    assert !LogProofs.Untouched(l.events[p.event].delivery);
  }

  /** A marked event is published and never handed out again. */
  lemma MarkedNeverAgain(db: Db, p: Log.Parcel, at: int)
    requires DbInv(db) && Replies(db, Log.MarkPublished(p), at, Log.Marked)
    ensures var next := Apply(db, Relay(Log.MarkPublished(p)), at).db;
            && p.event in next.log.events && next.log.events[p.event].delivery.status.Published?
            && next.log.events[p.event].delivery.lastError == Null && NeverAgain(next, p.event)
  {
    hide NeverAgain, DbInv;
    ApplyKeeps(db, Relay(Log.MarkPublished(p)), at);
    ClosedIsForever(Apply(db, Relay(Log.MarkPublished(p)), at).db, p.event);
  }

  /** The first claim after the last delivery of an event ran out gives it up, under
      the code of its last failure if there is one. */
  lemma LastDeliveryLapses(db: Db, c: Log.OutboxCommand, at: int, p: Log.Parcel, until: int)
    requires DbInv(db) && Held(db.log, p, until) && ValidClaim(c) && until <= at
    requires db.log.events[p.event].delivery.attempts >= Log.MAX_DELIVERY_ATTEMPTS
    ensures var next := Apply(db, Relay(c), at).db;
            var last := db.log.events[p.event].delivery.lastError;
            && p.event in next.log.events && NeverAgain(next, p.event)
            && next.log.events[p.event].delivery.status.Undeliverable?
            && next.log.events[p.event].delivery.lastError
               == if Filled(last) then last else Text("DELIVERY_LEASE_EXPIRED")
  {
    hide NeverAgain, DbInv, Log.Outbox;
    ApplyKeeps(db, Relay(c), at);
    LapsesIn(db.log, c, at, p, until);
    hide Held;
    ClosedIsForever(Apply(db, Relay(c), at).db, p.event);
  }

  lemma LapsesIn(l: Log.Log, c: Log.OutboxCommand, at: int, p: Log.Parcel, until: int)
    requires Held(l, p, until) && ValidClaim(c) && until <= at
    requires l.events[p.event].delivery.attempts >= Log.MAX_DELIVERY_ATTEMPTS
    ensures var m := Log.Outbox(l, c, at).log;
            var last := l.events[p.event].delivery.lastError;
            && p.event in m.events && m.events[p.event].delivery.status.Undeliverable?
            && m.events[p.event].delivery.lastError == if Filled(last) then last else Text("DELIVERY_LEASE_EXPIRED")
  {
    LapsedIs(l, p.event, at);
    hide Log.Dispatch, Log.PriorsPublished;
  }
}
