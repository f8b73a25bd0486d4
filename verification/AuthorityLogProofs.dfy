/** Per run the log is gapless and is published strictly in order. */
module AuthorityLogProofs {
  import opened Common
  import opened AuthorityTables
  import opened AuthorityLog

  predicate Gapless(l: Log) {
    && (forall k | k in l.next :: l.next[k] >= 1)
    && (forall e | e in l.events :: e.run in l.next && 1 <= e.sequence < l.next[e.run])
    && (forall k, s | k in l.next && 1 <= s < l.next[k] :: EventKey(k, s) in l.events)
  }

  predicate Untouched(d: Delivery) {
    d.status.Pending? && d.attempts == 0 && d.generation == 0 && d.relay.None? && d.lastError == Null
  }

  predicate DeliveryInv(d: Delivery) {
    && 0 <= d.attempts <= MAX_DELIVERY_ATTEMPTS && d.generation == d.attempts
    && (d.status.InFlight? <==> d.relay.Some?)
    && (d.attempts == 0 ==> Untouched(d))
  }

  /** An event that a relay has touched has every earlier event of its run published. */
  predicate Ordered(l: Log) {
    forall e, f | e in l.events && f in l.events && e.run == f.run && e.sequence < f.sequence
                  && !Untouched(l.events[f].delivery) :: l.events[e].delivery.status.Published?
  }

  predicate LogInv(l: Log) {
    Gapless(l) && Ordered(l) && forall e | e in l.events :: DeliveryInv(l.events[e].delivery)
  }

  // ---------------------------------------------------------------- growth

  predicate DeliveryLater(d: Delivery, next: Delivery) {
    && next.attempts >= d.attempts && next.generation >= d.generation
    && (d.status.Published? || d.status.Undeliverable? ==> next == d)
    && (next.generation == d.generation && !d.status.InFlight? ==> !next.status.InFlight?)
  }

  predicate EventLater(event: Event, next: Event) {
    next.(delivery := event.delivery) == event && DeliveryLater(event.delivery, next.delivery)
  }

  predicate Later(l: Log, m: Log) {
    && (forall k | k in l.next :: k in m.next && m.next[k] >= l.next[k])
    && (forall e | e in l.events :: e in m.events && EventLater(l.events[e], m.events[e]))
  }

  lemma LaterTransitive(l: Log, m: Log, n: Log)
    requires Later(l, m) && Later(m, n)
    ensures Later(l, n)
  {
  }

  // ------------------------------------------------------------- appending

  lemma AppendOrdered(l: Log, k: RunKey, note: Note, revision: int, state: RunState, now: int)
    requires Ordered(l) && Gapless(l) && k in l.next
    ensures Ordered(Append(l, k, note, revision, state, now))
  {
  }

  lemma AppendKeeps(l: Log, k: RunKey, note: Note, revision: int, state: RunState, now: int)
    requires LogInv(l) && k in l.next
    ensures var m := Append(l, k, note, revision, state, now);
            LogInv(m) && Later(l, m) && m.next.Keys == l.next.Keys && EventKey(k, l.next[k]) !in l.events
  {
    AppendOrdered(l, k, note, revision, state, now);
    hide Ordered;
  }

  lemma {:induction false} AppendAllKeeps(l: Log, k: RunKey, notes: seq<Note>, revision: int, state: RunState, now: int)
    requires LogInv(l) && k in l.next
    ensures var m := AppendAll(l, k, notes, revision, state, now);
            LogInv(m) && Later(l, m)
    decreases |notes|
  {
    if notes == [] {
      EventLaterReflexive();
    } else {
      AppendKeeps(l, k, notes[0], revision, state, now);
      hide LogInv, Later;
      var next := Append(l, k, notes[0], revision, state, now);
      AppendAllKeeps(next, k, notes[1..], revision, state, now);
      LaterTransitive(l, next, AppendAll(l, k, notes, revision, state, now));
    }
  }

  lemma {:induction false} AppendAllCounts(l: Log, k: RunKey, notes: seq<Note>, revision: int, state: RunState,
      now: int)
    requires k in l.next
    ensures AppendAll(l, k, notes, revision, state, now).next == l.next[k := l.next[k] + |notes|]
    decreases |notes|
  {
    if notes == [] {
    } else {
      AppendAllCounts(Append(l, k, notes[0], revision, state, now), k, notes[1..], revision, state, now);
    }
  }

  lemma OpenKeeps(l: Log, k: RunKey)
    requires LogInv(l) && k !in l.next
    ensures LogInv(Open(l, k)) && Later(l, Open(l, k))
  {
  }

  /** What one transaction does to the log: open it if need be, then append. */
  lemma CommitKeeps(l: Log, k: RunKey, notes: seq<Note>, revision: int, state: RunState, now: int)
    requires LogInv(l)
    ensures var base := if k in l.next then l else Open(l, k);
            var m := AppendAll(base, k, notes, revision, state, now);
            LogInv(m) && Later(l, m) && m.next.Keys == l.next.Keys + {k}
  {
    var base := if k in l.next then l else Open(l, k);
    if k in l.next { LaterReflexive(l); } else { OpenKeeps(l, k); }
    AppendAllCounts(base, k, notes, revision, state, now);
    hide LogInv, Later;
    AppendAllKeeps(base, k, notes, revision, state, now);
    LaterTransitive(l, base, AppendAll(base, k, notes, revision, state, now));
  }

  lemma LaterReflexive(l: Log)
    ensures Later(l, l)
  {
    EventLaterReflexive();
  }

  // -------------------------------------------------------------- delivery

  lemma LapseOne(event: Event, now: int)
    requires DeliveryInv(event.delivery)
    ensures var next := Lapse(event, now);
            && EventLater(event, next) && DeliveryInv(next.delivery)
            && (Untouched(event.delivery) <==> Untouched(next.delivery))
  {
  }

  lemma LapseKeeps(l: Log, now: int)
    requires LogInv(l)
    ensures var m := LapseAll(l, now); LogInv(m) && Later(l, m) && m.events.Keys == l.events.Keys && m.next == l.next
  {
    var m := LapseAll(l, now);
    forall e | e in l.events ensures m.events[e] == Lapse(l.events[e], now) { LapseOne(l.events[e], now); }
    hide Lapse;
    forall e | e in l.events { LapseOne(l.events[e], now); }
  }

  lemma DispatchOne(event: Event, c: OutboxCommand, now: int, claimedAt: int)
    requires DeliveryInv(event.delivery) && c.ClaimOutbox? && Awaiting(event.delivery, claimedAt)
    ensures var next := Dispatch(event, c, now); EventLater(event, next) && DeliveryInv(next.delivery)
  {
  }

  lemma DispatchOrdered(l: Log, chosen: set<EventKey>, c: OutboxCommand, now: int)
    requires Ordered(l) && c.ClaimOutbox? && forall e | e in chosen :: Claimable(l, e, now)
    ensures Ordered(DispatchAll(l, chosen, c, now))
  {
    var m := DispatchAll(l, chosen, c, now);
    forall e, f | e in m.events && f in m.events && e.run == f.run && e.sequence < f.sequence
        && !Untouched(m.events[f].delivery)
      ensures m.events[e].delivery.status.Published?
    {
      if f in chosen { assert PriorsPublished(l, f); } else { assert !Untouched(l.events[f].delivery); }
      assert e in chosen ==> Awaiting(l.events[e].delivery, now);
    }
  }

  lemma DispatchKeeps(l: Log, chosen: set<EventKey>, c: OutboxCommand, now: int)
    requires LogInv(l) && c.ClaimOutbox? && forall e | e in chosen :: Claimable(l, e, now)
    ensures var m := DispatchAll(l, chosen, c, now); LogInv(m) && Later(l, m)
  {
    DispatchOrdered(l, chosen, c, now);
    hide Ordered, Dispatch, DeliveryInv, EventLater, PriorsPublished;
    forall e | e in chosen { DispatchOne(l.events[e], c, now, now); }
    assert forall event: Event :: EventLater(event, event) by { EventLaterReflexive(); }
  }

  lemma EventLaterReflexive()
    ensures forall event: Event :: EventLater(event, event)
  {
  }

  lemma ClaimKeeps(l: Log, c: OutboxCommand, now: int)
    requires LogInv(l) && c.ClaimOutbox?
    ensures var m := ClaimTx(l, c, now).log; LogInv(m) && Later(l, m)
  {
    LapseKeeps(l, now);
    var lapsed := LapseAll(l, now);
    var chosen := set e | e in c.picks && Claimable(lapsed, e, now);
    DispatchKeeps(lapsed, chosen, c, now);
    hide LogInv, LapseAll, DispatchAll, Claimable;
    assert Later(l, l) by { EventLaterReflexive(); }
    LaterTransitive(l, lapsed, DispatchAll(lapsed, chosen, c, now));
  }

  lemma DeliveredKeeps(l: Log, e: EventKey, d: Delivery)
    requires LogInv(l) && e in l.events && l.events[e].delivery.status.InFlight?
    requires DeliveryInv(d) && DeliveryLater(l.events[e].delivery, d) && d.attempts == l.events[e].delivery.attempts
    ensures var m := Delivered(l, e, d); LogInv(m) && Later(l, m)
  {
  }

  lemma MarkKeeps(l: Log, p: Parcel, now: int)
    requires LogInv(l) && Carries(l, p, now)
    ensures var m := MarkTx(l, p, now).log; LogInv(m) && Later(l, m)
  {
    hide Ordered, Gapless;
    DeliveredKeeps(l, p.event, l.events[p.event].delivery.(status := Published, relay := None, lastError := Null));
  }

  lemma FailKeeps(l: Log, p: Parcel, code: Id, delay: int, now: int)
    requires LogInv(l) && Carries(l, p, now) && Filled(code) && 0 <= delay <= DAY
    ensures var m := FailTx(l, p, code, delay, now).log; LogInv(m) && Later(l, m)
  {
    hide Ordered, Gapless;
    var d := l.events[p.event].delivery;
    DeliveredKeeps(l, p.event, d.(status := if d.attempts >= MAX_DELIVERY_ATTEMPTS then Undeliverable else Pending,
                                  availableAt := now + delay / SECOND * SECOND, relay := None, lastError := code));
  }

  /** Every outbox statement keeps the log in order and only moves deliveries forward. */
  lemma OutboxKeeps(l: Log, c: OutboxCommand, now: int)
    requires LogInv(l)
    ensures var m := Outbox(l, c, now).log; LogInv(m) && Later(l, m)
  {
    assert Later(l, l) by { EventLaterReflexive(); }
    hide LogInv, Later, ClaimTx;
    match c
    case ClaimOutbox(_, _, _, _, _) => ClaimKeeps(l, c, now);
    case MarkPublished(p) => if Carries(l, p, now) { MarkKeeps(l, p, now); }
    case FailOutbox(p, code, delay) =>
      if Carries(l, p, now) && Filled(code) && 0 <= delay <= DAY { FailKeeps(l, p, code, delay, now); }
  }

  // -------------------------------------------------------- publication order

  predicate PublishedAt(l: Log, k: RunKey, s: int) {
    EventKey(k, s) in l.events && l.events[EventKey(k, s)].delivery.status.Published?
  }

  /** How many events of a run are published, counted from the first. */
  function Frontier(l: Log, k: RunKey, s: nat := 0): (p: nat)
    requires k in l.next && s < l.next[k]
    ensures s <= p < l.next[k] && !(p + 1 < l.next[k] && PublishedAt(l, k, p + 1))
    ensures forall q | s < q <= p :: PublishedAt(l, k, q)
    decreases l.next[k] - s
  {
    if s + 1 < l.next[k] && PublishedAt(l, k, s + 1) then Frontier(l, k, s + 1) else s
  }

  /** The log of a run is a published prefix, at most one event a relay has
      touched, and untouched pending events behind it. */
  lemma FrontierSplits(l: Log, k: RunKey, s: int)
    requires LogInv(l) && k in l.next && 1 <= s < l.next[k]
    ensures EventKey(k, s) in l.events
    ensures PublishedAt(l, k, s) <==> s <= Frontier(l, k)
    ensures s > Frontier(l, k) + 1 ==> Untouched(l.events[EventKey(k, s)].delivery)
  {
    var p := Frontier(l, k);
    if s > p + 1 {
      assert EventKey(k, p + 1) in l.events && EventKey(k, s) in l.events;
    }
  }

  lemma FrontierUnique(l: Log, k: RunKey, p: nat)
    requires LogInv(l) && k in l.next && p < l.next[k]
    requires forall q | 1 <= q <= p :: PublishedAt(l, k, q)
    requires p + 1 < l.next[k] ==> !PublishedAt(l, k, p + 1)
    ensures Frontier(l, k) == p
  {
    var f := Frontier(l, k);
    assert p + 1 <= f ==> PublishedAt(l, k, p + 1);
    assert f + 1 <= p ==> PublishedAt(l, k, f + 1);
  }

  /** A successful mark publishes exactly the next event of its run. */
  lemma MarkAdvances(l: Log, p: Parcel, now: int)
    requires LogInv(l) && Carries(l, p, now)
    ensures var k := p.event.run;
            var m := MarkTx(l, p, now).log;
            && k in l.next && k in m.next
            && p.event.sequence == Frontier(l, k) + 1 == Frontier(m, k)
  {
    var k, s := p.event.run, p.event.sequence;
    FrontierSplits(l, k, s);
    MarkKeeps(l, p, now);
    var m := MarkTx(l, p, now).log;
    FrontierUnique(m, k, s);
  }

  /** Anything that publishes nothing in a run leaves its frontier where it was. */
  lemma FrontierStays(l: Log, m: Log, k: RunKey)
    requires LogInv(l) && LogInv(m) && Later(l, m) && k in l.next
    requires forall s :: PublishedAt(m, k, s) ==> PublishedAt(l, k, s)
    ensures k in m.next && Frontier(m, k) == Frontier(l, k)
  {
    var p := Frontier(l, k);
    assert forall q | 1 <= q <= p :: PublishedAt(l, k, q) ==> PublishedAt(m, k, q);
    assert PublishedAt(m, k, p + 1) ==> PublishedAt(l, k, p + 1);
    FrontierUnique(m, k, p);
  }

  /** Appending publishes nothing. */
  lemma {:induction false} AppendPublishesNothing(l: Log, k: RunKey, notes: seq<Note>, revision: int, state: RunState,
      now: int, o: RunKey, s: int)
    requires LogInv(l) && k in l.next && PublishedAt(AppendAll(l, k, notes, revision, state, now), o, s)
    ensures PublishedAt(l, o, s)
    decreases |notes|
  {
    if notes == [] {
    } else {
      var next := Append(l, k, notes[0], revision, state, now);
      AppendKeeps(l, k, notes[0], revision, state, now);
      AppendPublishesNothing(next, k, notes[1..], revision, state, now, o, s);
    }
  }

  /** Only a successful mark publishes, and it publishes its own event. */
  lemma OnlyMarksPublish(l: Log, c: OutboxCommand, now: int, k: RunKey, s: int)
    requires PublishedAt(Outbox(l, c, now).log, k, s) && !PublishedAt(l, k, s)
    ensures c.MarkPublished? && Carries(l, c.parcel, now) && c.parcel.event == EventKey(k, s)
  {
  }

  /** An undeliverable event stops its run for good: nothing behind it is ever published. */
  lemma UndeliverableBlocks(l: Log, m: Log, e: EventKey, f: EventKey)
    requires LogInv(l) && LogInv(m) && Later(l, m)
    requires e in l.events && l.events[e].delivery.status.Undeliverable?
    requires f in m.events && f.run == e.run && e.sequence < f.sequence
    ensures Untouched(m.events[f].delivery)
  {
  }

  /** A parcel of an earlier generation can neither publish nor fail its event. */
  lemma OldParcelRefused(l: Log, p: Parcel, c: OutboxCommand, now: int)
    requires p.event in l.events && p.generation < l.events[p.event].delivery.generation
    requires c == MarkPublished(p) || (c.FailOutbox? && c.parcel == p && Filled(c.code) && 0 <= c.delay <= DAY)
    ensures Outbox(l, c, now) == OutboxStep(l, Refused(StaleLease))
  {
  }

  /** Each claimed parcel carries the event's new generation and may act until it expires. */
  lemma ClaimHandsOut(l: Log, c: OutboxCommand, now: int, p: Parcel)
    requires LogInv(l) && c.ClaimOutbox? && ClaimTx(l, c, now).reply.Claimed? && p in ClaimTx(l, c, now).reply.parcels
    ensures var m := ClaimTx(l, c, now).log;
            && p.event in l.events && p.generation == l.events[p.event].delivery.generation + 1
            && Carries(m, p, now) && p.event in c.picks && PriorsPublished(m, p.event)
  {
    LapseKeeps(l, now);
    LapseOne(l.events[p.event], now);
  }
}
