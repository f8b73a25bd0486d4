/** Resumable streaming: a client that pages through a run's events from the last
    identifier it received (Last-Event-ID, section 9.2.4 of the WHATWG HTML
    Standard) while the control plane keeps changing. */
module ControlPlaneStream {
  import opened Common
  import opened ControlPlane
  import opened ControlPlaneValidity
  import opened ControlPlaneGate
  import opened ControlPlaneHistory

  /** The first event with the cursor's identifier. */
  function Position(log: seq<Event>, cursor: Id): (i: Option<nat>)
    ensures i.Some? ==>
            i.value < |log| && log[i.value].id == cursor && forall j | 0 <= j < i.value :: log[j].id != cursor
    ensures i.None? ==> forall j | 0 <= j < |log| :: log[j].id != cursor
  {
    if log == [] then None
    else if log[0].id == cursor then Some(0)
    else match Position(log[1..], cursor)
      case None => None
      case Some(i) => Some(i + 1)
  }

  datatype Page = Page(events: seq<Event>, truncated: bool)

  function Cut(rest: seq<Event>, limit: int): Page {
    if 0 < limit < |rest| then Page(rest[..limit], true) else Page(rest, false)
  }

  function EventsAfter(s: Snapshot, run: Id, cursor: Id, limit: int): Result<Page, Fault> {
    var all := LogOf(s.events, run);
    if !Filled(run) || FindRun(s.runs, run).None? then Err(NotFound)
    else if !Filled(cursor) then Ok(Cut(all, limit))
    else match Position(all, cursor)
      case None => Err(UnknownCursor)
      case Some(i) => Ok(Cut(all[i + 1..], limit))
  }

  function LastId(got: seq<Event>): Id { if got == [] then Null else got[|got| - 1].id }

  /** Rounds of mutations, each followed by one page; what the client holds in the end. */
  function Follow(hash: Hash, store: Durable, run: Id, limit: int, got: seq<Event>,
      rounds: seq<seq<Timed>>): Result<seq<Event>, Fault>
    decreases |rounds|
  {
    if rounds == [] then Ok(got)
    else
      var next := After(hash, store, rounds[0]);
      match EventsAfter(next.memory, run, LastId(got), limit)
      case Err(fault) => Err(fault)
      case Ok(page) => Follow(hash, next, run, limit, got + page.events, rounds[1..])
  }

  function Final(hash: Hash, store: Durable, rounds: seq<seq<Timed>>): Durable
    decreases |rounds|
  {
    if rounds == [] then store else Final(hash, After(hash, store, rounds[0]), rounds[1..])
  }

  // ------------------------------------------------------------------ lemmas

  predicate IdsDistinct(log: seq<Event>) {
    forall i, j | 0 <= i < j < |log| :: log[i].id != log[j].id
  }

  lemma {:induction false} LogIdsDistinct(events: seq<Event>, run: Id)
    requires forall i, j | 0 <= i < j < |events| :: events[i].id != events[j].id
    ensures IdsDistinct(LogOf(events, run))
    decreases |events|
  {
    if events == [] {
    } else {
      var init, e := events[..|events| - 1], events[|events| - 1];
      LogIdsDistinct(init, run);
      LogOfMembers(init, run);
      forall i | 0 <= i < |LogOf(init, run)| ensures LogOf(init, run)[i].id != e.id {
        assert LogOf(init, run)[i] in init;
      }
    }
  }

  lemma LogGrows(s: Snapshot, t: Snapshot, run: Id)
    requires s.events <= t.events
    ensures LogOf(s.events, run) <= LogOf(t.events, run)
  {
    LogOfConcat(s.events, t.events[|s.events|..], run);
    assert s.events + t.events[|s.events|..] == t.events;
  }

  lemma KnownLater(s: Snapshot, t: Snapshot, run: Id)
    requires Later(s, t) && KnownRun(s.runs, run)
    ensures KnownRun(t.runs, run)
  {
    var r :| r in s.runs && r.id == run;
    var i :| 0 <= i < |s.runs| && s.runs[i] == r;
    assert RunLater(s.runs[i], t.runs[i]) && t.runs[i] in t.runs;
  }

  /** One page continues the log exactly where the client stopped. */
  lemma PageContinues(s: Snapshot, run: Id, got: seq<Event>, limit: int)
    requires Filled(run) && KnownRun(s.runs, run) && IdsDistinct(LogOf(s.events, run)) && got <= LogOf(s.events, run)
    requires forall e | e in got :: Filled(e.id)
    ensures var page := EventsAfter(s, run, LastId(got), limit);
            && page.Ok? && got + page.value.events <= LogOf(s.events, run)
            && (!page.value.truncated ==> got + page.value.events == LogOf(s.events, run))
            && (page.value.truncated ==> |page.value.events| == limit > 0)
  {
    hide LogOf;
    var all := LogOf(s.events, run);
    if got == [] {
      assert all[..|all|] == all;
    } else {
      assert got[|got| - 1] in got;
      var n := |got| - 1;
      assert all[n].id == LastId(got);
      var i := Position(all, LastId(got));
      assert i == Some(n);
      assert got + all[n + 1..] == all;
    }
  }

  lemma LogFacts(hash: Hash, s: Snapshot, run: Id)
    requires Sound(hash, s)
    ensures IdsDistinct(LogOf(s.events, run)) && forall e | e in LogOf(s.events, run) :: Filled(e.id)
  {
    LogIdsDistinct(s.events, run);
    LogOfMembers(s.events, run);
    assert forall e | e in s.events :: ValidEvent(e);
  }

  /** However the rounds of mutations and pages interleave, no page fails and no
      cursor becomes unknown; what the client holds is always a prefix of the
      run's log: nothing skipped, repeated or reordered. */
  lemma {:induction false} StreamIsPrefix(hash: Hash, store: Durable, run: Id, limit: int, got: seq<Event>,
      rounds: seq<seq<Timed>>)
    requires StoreSound(hash, store) && Filled(run) && KnownRun(store.memory.runs, run)
    requires got <= LogOf(store.memory.events, run)
    ensures var held := Follow(hash, store, run, limit, got, rounds);
            held.Ok? && got <= held.value <= LogOf(Final(hash, store, rounds).memory.events, run)
    decreases |rounds|
  {
    hide After, Sound, RunLater, LogOf, KnownRun, IdsDistinct, EventsAfter;
    if rounds == [] {
    } else {
      var next := After(hash, store, rounds[0]);
      HistoryKeeps(hash, store, rounds[0]);
      LogGrows(store.memory, next.memory, run);
      KnownLater(store.memory, next.memory, run);
      LogFacts(hash, next.memory, run);
      forall e | e in got ensures Filled(e.id) { assert e in LogOf(next.memory.events, run); }
      PageContinues(next.memory, run, got, limit);
      StreamIsPrefix(hash, next, run, limit, got + EventsAfter(next.memory, run, LastId(got), limit).value.events,
                     rounds[1..]);
    }
  }

  /** Once a page is not truncated, the client holds the whole log. */
  lemma UntruncatedIsComplete(hash: Hash, store: Durable, run: Id, limit: int, got: seq<Event>, round: seq<Timed>)
    requires StoreSound(hash, store) && Filled(run) && KnownRun(store.memory.runs, run)
    requires got <= LogOf(store.memory.events, run)
    ensures var s := After(hash, store, round).memory;
            var page := EventsAfter(s, run, LastId(got), limit);
            && page.Ok? && (page.value.truncated ==> |page.value.events| == limit > 0)
            && (!page.value.truncated ==> got + page.value.events == LogOf(s.events, run))
  {
    var next := After(hash, store, round);
    HistoryKeeps(hash, store, round);
    LogGrows(store.memory, next.memory, run);
    KnownLater(store.memory, next.memory, run);
    LogFacts(hash, next.memory, run);
    hide After, Sound, Later, LogOf, KnownRun, IdsDistinct;
    forall e | e in got ensures Filled(e.id) { assert e in LogOf(next.memory.events, run); }
    PageContinues(next.memory, run, got, limit);
  }
}
