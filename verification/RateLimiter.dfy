/** The sliding-window rate limiter of the stage executor. Calls are served one
    after the other under a clock that never runs backwards. */
module RateLimiter {
  import opened Common

  const MINUTE := 60.0
  const DAY := 86400.0
  const TABLE_SIZE := 4096

  datatype Limits = Limits(perClient: int, overall: int, billable: int)

  datatype Call = Call(now: real, client: Id, billable: bool)

  datatype Verdict = Admitted | BillableCap | LimitedOverall | LimitedClient

  datatype Limiter = Limiter(perClient: map<Id, seq<real>>, overall: seq<real>, billable: seq<real>)

  const FRESH := Limiter(map[], [], [])

  /** Drop stamps from the front while they are older than the cutoff. */
  function Prune(stamps: seq<real>, cutoff: real): seq<real> {
    if stamps != [] && stamps[0] < cutoff then Prune(stamps[1..], cutoff) else stamps
  }

  lemma {:induction false} PruneKeepsEnd(stamps: seq<real>, cutoff: real)
    ensures var kept := Prune(stamps, cutoff);
            && |kept| <= |stamps| && kept == stamps[|stamps| - |kept|..]
            && (kept == [] || kept[0] >= cutoff)
            && forall i | 0 <= i < |stamps| - |kept| :: stamps[i] < cutoff
    decreases |stamps|
  {
    if stamps != [] && stamps[0] < cutoff { PruneKeepsEnd(stamps[1..], cutoff); }
  }

  function StampsOf(l: Limiter, client: Id): seq<real> { if client in l.perClient then l.perClient[client] else [] }

  function Idle(table: map<Id, seq<real>>): set<Id> { set c | c in table && table[c] == [] }

  /** Empty lists go once the table is too long. */
  function Evict(table: map<Id, seq<real>>): map<Id, seq<real>> {
    if |table| > TABLE_SIZE then table - Idle(table) else table
  }

  function Check(limits: Limits, l: Limiter, call: Call): (Limiter, Verdict) {
    var billable := if call.billable then Prune(l.billable, call.now - DAY) else l.billable;
    if call.billable && |billable| >= limits.billable then (l.(billable := billable), BillableCap)
    else
      var overall := Prune(l.overall, call.now - MINUTE);
      if |overall| >= limits.overall then (l.(billable := billable, overall := overall), LimitedOverall)
      else
        var stamps := Prune(StampsOf(l, call.client), call.now - MINUTE);
        if |stamps| >= limits.perClient
            then (Limiter(l.perClient[call.client := stamps], overall, billable), LimitedClient)
        else
          (Limiter(Evict(l.perClient[call.client := stamps + [call.now]]), overall + [call.now],
                   if call.billable then billable + [call.now] else billable),
           Admitted)
  }

  datatype Served = Served(limiter: Limiter, admitted: seq<Call>)

  /** The limiter after a sequence of calls, and the calls it let through. */
  function Serve(limits: Limits, calls: seq<Call>): Served {
    if calls == [] then Served(FRESH, [])
    else
      var before := Serve(limits, calls[..|calls| - 1]);
      var last := calls[|calls| - 1];
      var (limiter, verdict) := Check(limits, before.limiter, last);
      Served(limiter, if verdict.Admitted? then before.admitted + [last] else before.admitted)
  }

  predicate ClockForward(calls: seq<Call>) { forall i, j | 0 <= i <= j < |calls| :: calls[i].now <= calls[j].now }

  // ----------------------------------------------------------- the measure

  datatype Measure = Overall | OfClient(client: Id) | OfBill

  predicate Measured(m: Measure, call: Call) {
    match m case Overall => true case OfClient(client) => call.client == client case OfBill => call.billable
  }

  /** The times of the admitted calls that a measure looks at. */
  function Times(admitted: seq<Call>, m: Measure): seq<real> {
    if admitted == [] then []
    else
      var last := admitted[|admitted| - 1];
      Times(admitted[..|admitted| - 1], m) + (if Measured(m, last) then [last.now] else [])
  }

  function Window(m: Measure): real { if m.OfBill? then DAY else MINUTE }

  function Limit(limits: Limits, m: Measure): nat {
    var limit :=
        match m case Overall => limits.overall case OfClient(_) => limits.perClient case OfBill => limits.billable;
    if limit < 0 then 0 else limit
  }

  function Stamps(l: Limiter, m: Measure): seq<real> {
    match m case Overall => l.overall case OfClient(client) => StampsOf(l, client) case OfBill => l.billable
  }

  /** How many times lie in the closed interval. */
  function Count(times: seq<real>, from: real, to: real): nat {
    if times == [] then 0
    else Count(times[..|times| - 1], from, to) + (if from <= times[|times| - 1] <= to then 1 else 0)
  }

  // -------------------------------------------------------------- invariant

  predicate Sorted(times: seq<real>) { forall i, j | 0 <= i <= j < |times| :: times[i] <= times[j] }

  /** More than `limit` stamps always span more than the window. */
  predicate Sparse(times: seq<real>, limit: nat, window: real) {
    forall i, j | 0 <= i && i + limit <= j < |times| :: times[j] - times[i] > window
  }

  /** The kept stamps are the end of the history; what was dropped is out of every later window. */
  predicate Tracks(kept: seq<real>, times: seq<real>, last: real, limit: nat, window: real) {
    && Sorted(times) && (forall i | 0 <= i < |times| :: times[i] <= last)
    && |kept| <= |times| && kept == times[|times| - |kept|..]
    && (forall i | 0 <= i < |times| - |kept| :: times[i] < last - window)
    && Sparse(times, limit, window)
  }

  lemma TracksLater(kept: seq<real>, times: seq<real>, last: real, now: real, limit: nat, window: real)
    requires Tracks(kept, times, last, limit, window) && last <= now
    ensures Tracks(kept, times, now, limit, window)
    ensures Tracks(Prune(kept, now - window), times, now, limit, window)
  {
    PruneKeepsEnd(kept, now - window);
    var pruned := Prune(kept, now - window);
    var gone := |times| - |kept|;
    forall i | 0 <= i < |times| - |pruned| ensures times[i] < now - window {
      if i >= gone { assert times[i] == kept[i - gone]; }
    }
  }

  lemma TracksAdmit(kept: seq<real>, times: seq<real>, now: real, limit: nat, window: real)
    requires Tracks(kept, times, now, limit, window) && |kept| < limit && window >= 0.0
    ensures Tracks(kept + [now], times + [now], now, limit, window)
  {
    var next := times + [now];
    forall i, j | 0 <= i && i + limit <= j < |next| ensures next[j] - next[i] > window {
      if j == |times| { assert i < |times| - |kept|; }
    }
  }

  lemma TimesAdd(admitted: seq<Call>, call: Call, m: Measure)
    ensures Times(admitted + [call], m) == Times(admitted, m) + (if Measured(m, call) then [call.now] else [])
  {
    assert (admitted + [call])[..|admitted + [call]| - 1] == admitted;
  }

  /** Eviction removes only lists that say nothing. */
  lemma EvictKeepsStamps(l: Limiter, table: map<Id, seq<real>>, client: Id)
    requires l.perClient == Evict(table)
    ensures StampsOf(l, client) == if client in table then table[client] else []
  {
  }

  /** What a check does to the stamps of one measure. */
  lemma CheckStamps(limits: Limits, l: Limiter, call: Call, m: Measure)
    ensures var (next, verdict) := Check(limits, l, call);
            var kept, pruned := Stamps(l, m), Prune(Stamps(l, m), call.now - Window(m));
            if verdict.Admitted? && Measured(m, call)
                then |pruned| < Limit(limits, m) && Stamps(next, m) == pruned + [call.now]
            else Stamps(next, m) == kept || Stamps(next, m) == pruned
  {
    hide Prune, Evict;
    var (next, verdict) := Check(limits, l, call);
    if verdict.Admitted? && m.OfClient? {
      var stamps := Prune(StampsOf(l, call.client), call.now - MINUTE) + [call.now];
      EvictKeepsStamps(next, l.perClient[call.client := stamps], m.client);
    }
  }

  lemma CheckKeeps(limits: Limits, l: Limiter, admitted: seq<Call>, last: real, call: Call, m: Measure)
    requires Tracks(Stamps(l, m), Times(admitted, m), last, Limit(limits, m), Window(m)) && last <= call.now
    ensures var (next, verdict) := Check(limits, l, call);
            Tracks(Stamps(next, m), Times(if verdict.Admitted? then admitted + [call] else admitted, m), call.now,
                   Limit(limits, m), Window(m))
  {
    hide Tracks, Prune, Check, Stamps, Limit, Times;
    var kept := Stamps(l, m);
    CheckStamps(limits, l, call, m);
    TracksLater(kept, Times(admitted, m), last, call.now, Limit(limits, m), Window(m));
    TimesAdd(admitted, call, m);
    if Check(limits, l, call).1.Admitted? && Measured(m, call) {
      TracksAdmit(Prune(kept, call.now - Window(m)), Times(admitted, m), call.now, Limit(limits, m), Window(m));
    } else {
      assert Times(admitted, m) + [] == Times(admitted, m);
    }
  }

  lemma {:induction false} ServeKeeps(limits: Limits, calls: seq<Call>, now: real, m: Measure)
    requires ClockForward(calls) && forall c | c in calls :: c.now <= now
    ensures var s := Serve(limits, calls);
            Tracks(Stamps(s.limiter, m), Times(s.admitted, m), now, Limit(limits, m), Window(m))
    decreases |calls|
  {
    if calls == [] {
    } else {
      var init, last := calls[..|calls| - 1], calls[|calls| - 1];
      assert last in calls;
      forall c | c in init ensures c.now <= last.now { var i :| 0 <= i < |init| && init[i] == c; assert calls[i] == c; }
      ServeKeeps(limits, init, last.now, m);
      var before := Serve(limits, init);
      hide Tracks, Check;
      CheckKeeps(limits, before.limiter, before.admitted, last.now, last, m);
      var s := Serve(limits, calls);
      TracksLater(Stamps(s.limiter, m), Times(s.admitted, m), last.now, now, Limit(limits, m), Window(m));
    }
  }

  // --------------------------------------------------------------- theorems

  /** In a sorted, sparse list no interval as long as the window holds more than the limit. */
  lemma {:induction false} CountBounded(times: seq<real>, from: real, to: real, limit: nat)
    requires Sorted(times) && Sparse(times, limit, to - from)
    ensures Count(times, from, to) <= limit
    decreases |times|
  {
    if times == [] {
    } else if from <= times[|times| - 1] <= to {
      var last := |times| - 1;
      RunBefore(times, from, to);
      assert forall i | 0 <= i && i + limit <= last :: times[last] - times[i] > to - from;
      if last - limit >= 0 { assert times[last - limit] < from; }
    } else {
      CountBounded(times[..|times| - 1], from, to, limit);
    }
  }

  /** If the last time is in the interval, so are the last counted ones before it. */
  lemma {:induction false} RunBefore(times: seq<real>, from: real, to: real)
    requires Sorted(times) && times != [] && from <= times[|times| - 1] <= to
    ensures Count(times, from, to) <= |times|
    ensures forall i | |times| - Count(times, from, to) <= i < |times| :: from <= times[i] <= to
    decreases |times|
  {
    var init := times[..|times| - 1];
    if init == [] {
    } else if from <= init[|init| - 1] {
      RunBefore(init, from, to);
      assert forall i | 0 <= i < |init| :: init[i] == times[i];
    } else {
      NoneBefore(init, from, to);
    }
  }

  lemma {:induction false} NoneBefore(times: seq<real>, from: real, to: real)
    requires Sorted(times) && (times != [] ==> times[|times| - 1] < from)
    ensures Count(times, from, to) == 0
    decreases |times|
  {
    if times == [] {
    } else {
      NoneBefore(times[..|times| - 1], from, to);
    }
  }

  lemma CallsHaveLast(calls: seq<Call>) returns (now: real)
    requires ClockForward(calls)
    ensures forall c | c in calls :: c.now <= now
  {
    now := if calls == [] then 0.0 else calls[|calls| - 1].now;
  }

  /** Every closed minute holds at most the overall limit of admitted calls and at
      most the client limit for each client; every closed day at most the billable
      cap. Refusals and evictions never loosen a bound. */
  lemma WindowBound(limits: Limits, calls: seq<Call>, m: Measure, from: real)
    requires ClockForward(calls)
    ensures Count(Times(Serve(limits, calls).admitted, m), from, from + Window(m)) <= Limit(limits, m)
  {
    var now := CallsHaveLast(calls);
    ServeKeeps(limits, calls, now, m);
    CountBounded(Times(Serve(limits, calls).admitted, m), from, from + Window(m), Limit(limits, m));
  }

  /** How many admitted calls of a measure lie in the window that ends now. */
  function Recent(admitted: seq<Call>, m: Measure, now: real): nat { Count(Times(admitted, m), now - Window(m), now) }

  lemma {:induction false} AllCounted(times: seq<real>, from: real, to: real)
    requires forall i | 0 <= i < |times| :: from <= times[i] <= to
    ensures Count(times, from, to) == |times|
    decreases |times|
  {
    if times == [] {
    } else {
      AllCounted(times[..|times| - 1], from, to);
    }
  }

  lemma {:induction false} CountSplit(times: seq<real>, k: nat, from: real, to: real)
    requires k <= |times|
    ensures Count(times, from, to) == Count(times[..k], from, to) + Count(times[k..], from, to)
    decreases |times|
  {
    if k == |times| {
      assert times[..k] == times && times[k..] == [];
    } else {
      var init := times[..|times| - 1];
      CountSplit(init, k, from, to);
      assert init[..k] == times[..k] && times[k..][..|times| - k - 1] == init[k..];
    }
  }

  lemma {:induction false} NoneCounted(times: seq<real>, from: real, to: real)
    requires forall i | 0 <= i < |times| :: times[i] < from
    ensures Count(times, from, to) == 0
    decreases |times|
  {
    if times == [] {
    } else {
      NoneCounted(times[..|times| - 1], from, to);
    }
  }

  /** What is left after pruning is exactly what lies in the window. */
  lemma PrunedIsRecent(kept: seq<real>, times: seq<real>, now: real, limit: nat, window: real)
    requires Tracks(kept, times, now, limit, window)
    ensures |Prune(kept, now - window)| == Count(times, now - window, now)
  {
    TracksLater(kept, times, now, now, limit, window);
    PruneKeepsEnd(kept, now - window);
    var pruned := Prune(kept, now - window);
    hide Prune, Sparse;
    var gone := |times| - |pruned|;
    forall i | gone <= i < |times| ensures now - window <= times[i] <= now {
      assert pruned[0] == times[gone] <= times[i];
    }
    hide Tracks;
    RecentIsEnd(times, gone, now - window, now);
  }

  lemma RecentIsEnd(times: seq<real>, gone: nat, from: real, to: real)
    requires gone <= |times| && (forall i | 0 <= i < gone :: times[i] < from)
    requires forall i | gone <= i < |times| :: from <= times[i] <= to
    ensures Count(times, from, to) == |times| - gone
  {
    CountSplit(times, gone, from, to);
    NoneCounted(times[..gone], from, to);
    AllCounted(times[gone..], from, to);
  }

  /** The limiter decides as if it counted its whole history: the billable cap
      first, then the overall limit, then the client's. */
  function Expected(limits: Limits, admitted: seq<Call>, call: Call): Verdict {
    if call.billable && Recent(admitted, OfBill, call.now) >= limits.billable then BillableCap
    else if Recent(admitted, Overall, call.now) >= limits.overall then LimitedOverall
    else if Recent(admitted, OfClient(call.client), call.now) >= limits.perClient then LimitedClient
    else Admitted
  }

  lemma PruneCounts(limits: Limits, calls: seq<Call>, call: Call, m: Measure)
    requires ClockForward(calls) && forall c | c in calls :: c.now <= call.now
    ensures var s := Serve(limits, calls);
            |Prune(Stamps(s.limiter, m), call.now - Window(m))| == Recent(s.admitted, m, call.now)
  {
    hide Tracks, Prune, Count, Serve, Stamps, Times, Limit, ClockForward;
    var s := Serve(limits, calls);
    ServeKeeps(limits, calls, call.now, m);
    PrunedIsRecent(Stamps(s.limiter, m), Times(s.admitted, m), call.now, Limit(limits, m), Window(m));
  }

  lemma DecidesByHistory(limits: Limits, calls: seq<Call>, call: Call)
    requires ClockForward(calls) && forall c | c in calls :: c.now <= call.now
    ensures Check(limits, Serve(limits, calls).limiter, call).1 == Expected(limits, Serve(limits, calls).admitted, call)
  {
    var s := Serve(limits, calls);
    hide Tracks, Prune, Count, Serve, Times, Recent, ClockForward;
    PruneCounts(limits, calls, call, OfBill);
    PruneCounts(limits, calls, call, Overall);
    PruneCounts(limits, calls, call, OfClient(call.client));
    assert Stamps(s.limiter, OfBill) == s.limiter.billable && Stamps(s.limiter, Overall) == s.limiter.overall;
    assert Stamps(s.limiter, OfClient(call.client)) == StampsOf(s.limiter, call.client);
  }

  // ------------------------------------------------------------ the object

  lemma SetTwice(table: map<Id, seq<real>>, client: Id, first: seq<real>, second: seq<real>)
    ensures table[client := first][client := second] == table[client := second]
  {
  }

  class Guard {
    const limits: Limits
    var perClient: map<Id, seq<real>>
    var overall: seq<real>
    var billable: seq<real>

    ghost function State(): Limiter reads this { Limiter(perClient, overall, billable) }

    constructor (limits: Limits)
      ensures State() == FRESH && this.limits == limits
    {
      this.limits := limits;
      perClient, overall, billable := map[], [], [];
    }

    static method PruneStamps(stamps: seq<real>, now: real, window: real) returns (kept: seq<real>)
      ensures kept == Prune(stamps, now - window)
    {
      kept := stamps;
      var cutoff := now - window;
      while kept != [] && kept[0] < cutoff
        invariant Prune(kept, cutoff) == Prune(stamps, cutoff)
        decreases |kept|
      {
        kept := kept[1..];
      }
    }

    method CheckCall(call: Call) returns (verdict: Verdict)
      modifies this
      ensures (State(), verdict) == Check(limits, old(State()), call)
    {
      hide Prune, Idle;
      if call.billable {
        billable := PruneStamps(billable, call.now, DAY);
        if |billable| >= limits.billable { return BillableCap; }
      }
      overall := PruneStamps(overall, call.now, MINUTE);
      if |overall| >= limits.overall { return LimitedOverall; }
      var stamps := if call.client in perClient then perClient[call.client] else [];
      stamps := PruneStamps(stamps, call.now, MINUTE);
      perClient := perClient[call.client := stamps];
      if |stamps| >= limits.perClient { return LimitedClient; }
      perClient := perClient[call.client := stamps + [call.now]];
      assert perClient == old(perClient)[call.client := stamps + [call.now]] by {
        SetTwice(old(perClient), call.client, stamps, stamps + [call.now]);
      }
      overall := overall + [call.now];
      if call.billable { billable := billable + [call.now]; }
      if |perClient| > TABLE_SIZE { perClient := perClient - Idle(perClient); }
      verdict := Admitted;
    }
  }
}
