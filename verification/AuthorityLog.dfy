/** The event log of the authority and its ordered outbox. */
module AuthorityLog {
  import opened Common
  import opened AuthorityTables

  datatype DeliveryStatus = Pending | InFlight | Published | Undeliverable

  /** `delivery_owner`, `delivery_token` and `delivery_expires_at` are set together. */
  datatype Relay = Relay(owner: Id, token: Id, expiresAt: int)

  datatype Delivery = Delivery(
    status: DeliveryStatus, attempts: int, availableAt: int,
    relay: Option<Relay>, generation: int, lastError: Id)

  /** The projection columns are immutable; only `delivery` moves. */
  datatype Event = Event(note: Note, revision: int, state: RunState, occurredAt: int, delivery: Delivery)

  datatype EventKey = EventKey(run: RunKey, sequence: int)

  /** `next` is the runs table's `next_event_sequence` column. */
  datatype Log = Log(next: map<RunKey, int>, events: map<EventKey, Event>)

  const EMPTY_LOG := Log(map[], map[])

  /** The column default of `max_delivery_attempts`; no statement changes it. */
  const MAX_DELIVERY_ATTEMPTS := 10

  datatype Parcel = Parcel(event: EventKey, owner: Id, token: Id, generation: int)

  /** `token` is the random token of one claim and `picks` what its SKIP LOCKED,
      LIMITed query chose. */
  datatype OutboxCommand =
    | ClaimOutbox(owner: Id, limit: int, duration: int, token: Id, picks: seq<EventKey>)
    | MarkPublished(parcel: Parcel)
    | FailOutbox(parcel: Parcel, code: Id, delay: int)

  datatype OutboxReply =
    | Refused(error: Error)
    | Claimed(parcels: set<Parcel>)
    | Marked
    | Returned(undeliverable: bool)

  datatype OutboxStep = OutboxStep(log: Log, reply: OutboxReply)

  // ------------------------------------------------------------- appending

  function Open(l: Log, k: RunKey): Log { l.(next := l.next[k := 1]) }

  function FreshDelivery(now: int): Delivery { Delivery(Pending, 0, now, None, 0, Null) }

  function Append(l: Log, k: RunKey, note: Note, revision: int, state: RunState, now: int): Log
    requires k in l.next
  {
    var sequence := l.next[k];
    Log(l.next[k := sequence + 1],
        l.events[EventKey(k, sequence) := Event(note, revision, state, now, FreshDelivery(now))])
  }

  function AppendAll(l: Log, k: RunKey, notes: seq<Note>, revision: int, state: RunState, now: int): (m: Log)
    requires k in l.next
    decreases |notes|
  {
    if notes == [] then l
    else AppendAll(Append(l, k, notes[0], revision, state, now), k, notes[1..], revision, state, now)
  }

  // -------------------------------------------------------------- delivery

  /** The first statement of a claim: a last attempt whose lease ran out is given up. */
  function Lapse(event: Event, now: int): Event {
    var d := event.delivery;
    if d.status.InFlight? && d.relay.Some? && d.relay.value.expiresAt <= now && d.attempts >= MAX_DELIVERY_ATTEMPTS
    then event.(delivery := d.(status := Undeliverable, relay := None,
                               lastError := if Filled(d.lastError) then d.lastError
                                   else Text("DELIVERY_LEASE_EXPIRED")))
    else event
  }

  function LapseAll(l: Log, now: int): Log {
    l.(events := map e | e in l.events :: Lapse(l.events[e], now))
  }

  predicate PriorsPublished(l: Log, e: EventKey) {
    forall prior | prior in l.events && prior.run == e.run && prior.sequence < e.sequence ::
        l.events[prior].delivery.status.Published?
  }

  predicate Awaiting(d: Delivery, now: int) {
    && (d.status.Pending? || (d.status.InFlight? && d.relay.Some? && d.relay.value.expiresAt <= now))
    && d.availableAt <= now && d.attempts < MAX_DELIVERY_ATTEMPTS
  }

  /** Only the first unpublished event of a run may be claimed. */
  predicate Claimable(l: Log, e: EventKey, now: int) {
    e in l.events && Awaiting(l.events[e].delivery, now) && PriorsPublished(l, e)
  }

  function Dispatch(event: Event, c: OutboxCommand, now: int): Event
    requires c.ClaimOutbox?
  {
    var d := event.delivery;
    event.(delivery := d.(
      status := InFlight, attempts := d.attempts + 1, generation := d.generation + 1,
      relay := Some(Relay(c.owner, c.token, now + c.duration / SECOND * SECOND))))
  }

  function DispatchAll(l: Log, chosen: set<EventKey>, c: OutboxCommand, now: int): Log
    requires c.ClaimOutbox?
  {
    l.(events := map e | e in l.events :: if e in chosen then Dispatch(l.events[e], c, now) else l.events[e])
  }

  function ClaimTx(l: Log, c: OutboxCommand, now: int): OutboxStep
    requires c.ClaimOutbox?
  {
    if !Filled(c.owner) || !(1 <= c.limit <= 500) || !(SECOND <= c.duration <= HOUR) || |c.picks| > c.limit
    then OutboxStep(l, Refused(Invalid))
    else
      var lapsed := LapseAll(l, now);
      var chosen := set e | e in c.picks && Claimable(lapsed, e, now);
      OutboxStep(DispatchAll(lapsed, chosen, c, now),
                 Claimed(set e | e in chosen :: Parcel(e, c.owner, c.token, lapsed.events[e].delivery.generation + 1)))
  }

  /** The owner, token, generation and expiry fence of one delivery. */
  predicate Carries(l: Log, p: Parcel, now: int) {
    && p.event in l.events
    && var d := l.events[p.event].delivery;
       && d.status.InFlight? && d.generation == p.generation
       && d.relay.Some? && d.relay.value.owner == p.owner && d.relay.value.token == p.token
       && d.relay.value.expiresAt > now
  }

  function Delivered(l: Log, e: EventKey, d: Delivery): Log
    requires e in l.events
  {
    l.(events := l.events[e := l.events[e].(delivery := d)])
  }

  function MarkTx(l: Log, p: Parcel, now: int): OutboxStep {
    if !Carries(l, p, now) then OutboxStep(l, Refused(StaleLease))
    else OutboxStep(Delivered(l, p.event,
        l.events[p.event].delivery.(status := Published, relay := None, lastError := Null)), Marked)
  }

  function FailTx(l: Log, p: Parcel, code: Id, delay: int, now: int): OutboxStep {
    if !Filled(code) || !(0 <= delay <= DAY) then OutboxStep(l, Refused(Invalid))
    else if !Carries(l, p, now) then OutboxStep(l, Refused(StaleLease))
    else
      var d := l.events[p.event].delivery;
      var spent := d.attempts >= MAX_DELIVERY_ATTEMPTS;
      OutboxStep(
        Delivered(l, p.event, d.(status := if spent then Undeliverable else Pending,
                                 availableAt := now + delay / SECOND * SECOND, relay := None, lastError := code)),
        Returned(spent))
  }

  function Outbox(l: Log, c: OutboxCommand, now: int): OutboxStep {
    match c
    case ClaimOutbox(_, _, _, _, _) => ClaimTx(l, c, now)
    case MarkPublished(parcel) => MarkTx(l, parcel, now)
    case FailOutbox(parcel, code, delay) => FailTx(l, parcel, code, delay, now)
  }
}
