/** The store itself: validators that loop with running maps, and operations that
    change a working copy step by step and then commit it. Each is proved to do
    what the functions of the model say. */
module ControlPlaneStore {
  import opened Common
  import opened ControlPlane
  import opened ControlPlaneValidity
  import opened ControlPlaneGate
  import opened ControlPlaneHistory
  import Stream = ControlPlaneStream

  // ------------------------------------------------------------- scanning

  /** The least advanced state in one pass, as the code keeps it. */
  method DeriveRunState(sources: Three<Source>) returns (state: State)
    ensures state == Derive(sources)
  {
    var failed, cancelled, least := false, false, Completed;
    var found := false;
    for i := 0 to |SOURCES|
      invariant failed <==> exists j :: 0 <= j < i && sources.At(SOURCES[j]).state.Failed?
      invariant cancelled <==> exists j :: 0 <= j < i && sources.At(SOURCES[j]).state.Cancelled?
      invariant InProgress(least) && (!failed && !cancelled ==> (found <==> i > 0))
      invariant !failed && !cancelled && i == 1 ==> least == sources.jde.state
      invariant !failed && !cancelled && i == 2 ==> InProgress(sources.jde.state) && InProgress(sources.dynamics.state)
      invariant !failed && !cancelled && i == 2 ==> least == LeastAdvanced(sources.jde.state, sources.dynamics.state)
      invariant !failed && !cancelled && i == 3 ==> least == Derive(sources)
    {
      assert SOURCES[0] == Jde && SOURCES[1] == Dynamics && SOURCES[2] == Ebs;
      var src := sources.At(SOURCES[i]);
      if src.state.Failed? { failed := true; }
      else if src.state.Cancelled? { cancelled := true; }
      else if !found || Rank(src.state) < Rank(least) { found, least := true, src.state; }
    }
    assert failed <==> sources.jde.state.Failed? || sources.dynamics.state.Failed? || sources.ebs.state.Failed? by {
      assert sources.At(SOURCES[0]) == sources.jde && sources.At(SOURCES[1]) == sources.dynamics
          && sources.At(SOURCES[2]) == sources.ebs;
    }
    assert cancelled <==>
        sources.jde.state.Cancelled? || sources.dynamics.state.Cancelled? || sources.ebs.state.Cancelled? by {
      assert sources.At(SOURCES[0]) == sources.jde && sources.At(SOURCES[1]) == sources.dynamics
          && sources.At(SOURCES[2]) == sources.ebs;
    }
    state := if failed then Failed else if cancelled then Cancelled else least;
  }

  method CountEvents(events: seq<Event>, run: Id) returns (count: nat)
    ensures count == |LogOf(events, run)|
  {
    count := 0;
    for i := 0 to |events|
      invariant count == |LogOf(events[..i], run)|
    {
      assert events[..i + 1] == events[..i] + [events[i]];
      LogOfAppend(events[..i], events[i], run);
      if events[i].run == run { count := count + 1; }
    }
    assert events[..|events|] == events;
  }

  method EventsOf(events: seq<Event>, run: Id) returns (all: seq<Event>)
    ensures all == LogOf(events, run)
  {
    all := [];
    for i := 0 to |events|
      invariant all == LogOf(events[..i], run)
    {
      assert events[..i + 1] == events[..i] + [events[i]];
      LogOfAppend(events[..i], events[i], run);
      if events[i].run == run { all := all + [events[i]]; }
    }
    assert events[..|events|] == events;
  }

  method InUse(s: Snapshot, id: Id) returns (used: bool)
    ensures used <==> IdInUse(s, id)
  {
    for i := 0 to |s.runs|
      invariant forall j | 0 <= j < i :: s.runs[j].id != id
    {
      if s.runs[i].id == id { return true; }
    }
    for i := 0 to |s.approvals|
      invariant forall j | 0 <= j < i :: s.approvals[j].id != id
    {
      if s.approvals[i].id == id { return true; }
    }
    for i := 0 to |s.events|
      invariant forall j | 0 <= j < i :: s.events[j].id != id
    {
      if s.events[i].id == id { return true; }
    }
    return false;
  }

  // ------------------------------------------------------------ validation

  function Seen(runs: map<Id, nat>, id: Id): nat { if id in runs then runs[id] else 0 }

  method ValidateRuns(hash: Hash, runs: seq<Run>) returns (ok: bool)
    ensures ok <==> RunsDistinct(runs) && RunsValid(hash, runs)
  {
    var seen: set<Id> := {};
    for i := 0 to |runs|
      invariant seen == set j | 0 <= j < i :: runs[j].id
      invariant forall j, k | 0 <= j < k < i :: runs[j].id != runs[k].id
      invariant forall j | 0 <= j < i :: ValidRun(hash, runs[j])
    {
      if runs[i].id in seen {
        var j :| 0 <= j < i && runs[j].id == runs[i].id;
        return false;
      }
      if !ValidRun(hash, runs[i]) {
        assert runs[i] in runs;
        return false;
      }
      seen := seen + {runs[i].id};
    }
    ok := true;
  }

  /** What the pass over the log remembers of the events it has `done`. */
  ghost predicate Counted(done: seq<Event>, perRun: map<Id, nat>) {
    && (forall id :: Seen(perRun, id) == |LogOf(done, id)| <= MAX_EVENTS_PER_RUN)
    && (forall id :: LogOf(done, id) != [] ==> LogOf(done, id)[0].kind.MigrationCreated?)
  }

  predicate Read(s: Snapshot, done: seq<Event>, seen: set<Id>) {
    && seen == (set e | e in done :: e.id) && EventsInOrder(done)
    && forall e | e in done :: ValidEvent(e) && e.sequence < s.nextSequence && KnownRun(s.runs, e.run)
  }

  ghost predicate Scanned(s: Snapshot, done: seq<Event>, seen: set<Id>, perRun: map<Id, nat>) {
    Counted(done, perRun) && Read(s, done, seen)
  }

  /** What the pass asks of its next event. */
  ghost predicate Passes(s: Snapshot, i: nat, seen: set<Id>, perRun: map<Id, nat>)
    requires i < |s.events|
  {
    var e := s.events[i];
    && e.id !in seen && (i > 0 ==> e.sequence > s.events[i - 1].sequence && Upto(s.events[i - 1].stamp, e.stamp))
    && ValidEvent(e) && e.sequence < s.nextSequence && KnownRun(s.runs, e.run)
    && (Seen(perRun, e.run) == 0 ==> e.kind.MigrationCreated?) && Seen(perRun, e.run) < MAX_EVENTS_PER_RUN
  }

  lemma OrderNext(events: seq<Event>, e: Event)
    requires EventsInOrder(events) && forall j | 0 <= j < |events| :: events[j].id != e.id
    requires events != [] ==> e.sequence > events[|events| - 1].sequence && Upto(events[|events| - 1].stamp, e.stamp)
    ensures EventsInOrder(events + [e])
  {
    var last := |events| - 1;
    forall j | 0 <= j < |events| ensures events[j].sequence < e.sequence && Upto(events[j].stamp, e.stamp) {
      assert j == last || events[j].sequence < events[last].sequence;
    }
  }

  lemma CountNext(done: seq<Event>, e: Event, perRun: map<Id, nat>)
    requires Counted(done, perRun) && Seen(perRun, e.run) < MAX_EVENTS_PER_RUN
    requires (Seen(perRun, e.run) == 0 ==> e.kind.MigrationCreated?)
    ensures Counted(done + [e], perRun[e.run := Seen(perRun, e.run) + 1])
  {
    forall id ensures LogOf(done + [e], id) == LogOf(done, id) + (if e.run == id then [e] else []) {
      LogOfAppend(done, e, id);
    }
    hide LogOf;
  }

  lemma ReadNext(s: Snapshot, done: seq<Event>, e: Event, seen: set<Id>)
    requires Read(s, done, seen) && e.id !in seen && ValidEvent(e) && e.sequence < s.nextSequence
    requires KnownRun(s.runs, e.run)
    requires done != [] ==> e.sequence > done[|done| - 1].sequence && Upto(done[|done| - 1].stamp, e.stamp)
    ensures Read(s, done + [e], seen + {e.id})
  {
    hide ValidEvent, KnownRun;
    forall j | 0 <= j < |done| ensures done[j].id != e.id { assert done[j] in done; }
    OrderNext(done, e);
    hide EventsInOrder;
    assert forall f :: f in done + [e] <==> f in done || f == e;
  }

  lemma ScanKeeps(s: Snapshot, i: nat, seen: set<Id>, perRun: map<Id, nat>)
    requires i < |s.events| && Scanned(s, s.events[..i], seen, perRun) && Passes(s, i, seen, perRun)
    ensures Scanned(s, s.events[..i + 1], seen + {s.events[i].id},
                    perRun[s.events[i].run := Seen(perRun, s.events[i].run) + 1])
  {
    assert s.events[..i + 1] == s.events[..i] + [s.events[i]];
    hide Counted, Read;
    CountNext(s.events[..i], s.events[i], perRun);
    ReadNext(s, s.events[..i], s.events[i], seen);
  }

  /** An event that does not pass is one the check refuses. */
  lemma ScanRefuses(s: Snapshot, i: nat, seen: set<Id>, perRun: map<Id, nat>)
    requires i < |s.events| && Scanned(s, s.events[..i], seen, perRun) && ValidEvents(s)
    ensures Passes(s, i, seen, perRun)
  {
    hide EventsInOrder, ValidEvent, ValidEvents, KnownRun, LogOf;
    var e := s.events[i];
    EventSound(s, i);
    InOrderAt(s.events, i);
    LogWithin(s, i);
    LogOfAppend(s.events[..i], e, e.run);
    assert s.events[..i + 1] == s.events[..i] + [e];
  }

  lemma EventSound(s: Snapshot, i: nat)
    requires ValidEvents(s) && i < |s.events|
    ensures var e := s.events[i];
            ValidEvent(e) && e.sequence < s.nextSequence && KnownRun(s.runs, e.run) && EventsInOrder(s.events)
  {
    hide EventsInOrder, ValidEvent, KnownRun, LogOf;
    assert s.events[i] in s.events;
  }

  lemma InOrderAt(events: seq<Event>, i: nat)
    requires EventsInOrder(events) && i < |events|
    ensures events[i].id !in set e | e in events[..i] :: e.id
    ensures i > 0 ==> events[i].sequence > events[i - 1].sequence && Upto(events[i - 1].stamp, events[i].stamp)
  {
  }

  lemma LogWithin(s: Snapshot, i: nat)
    requires ValidEvents(s) && i < |s.events|
    ensures var log := LogOf(s.events[..i + 1], s.events[i].run);
            |log| <= MAX_EVENTS_PER_RUN && (log != [] ==> log[0].kind.MigrationCreated?)
  {
    var e := s.events[i];
    hide EventsInOrder, ValidEvent;
    assert e in s.events && KnownRun(s.runs, e.run);
    var r :| r in s.runs && r.id == e.run;
    assert ValidLog(LogOf(s.events, r.id));
    LogOfConcat(s.events[..i + 1], s.events[i + 1..], e.run);
    assert s.events[..i + 1] + s.events[i + 1..] == s.events;
    hide LogOf;
  }

  method ValidateEvents(s: Snapshot) returns (ok: bool)
    ensures ok <==> ValidEvents(s)
  {
    var seen: set<Id> := {};
    var perRun: map<Id, nat> := map[];
    var i := 0;
    while i < |s.events|
      invariant 0 <= i <= |s.events| && Scanned(s, s.events[..i], seen, perRun)
    {
      var e := s.events[i];
      var known := exists r :: r in s.runs && r.id == e.run;
      ghost var passes := Passes(s, i, seen, perRun);
      assert !passes ==> !ValidEvents(s) by { if ValidEvents(s) { ScanRefuses(s, i, seen, perRun); } }
      if e.id in seen || (i > 0 && e.sequence <= s.events[i - 1].sequence) || e.sequence >= s.nextSequence || !known
          || !ValidEvent(e)
         || (i > 0 && !Upto(s.events[i - 1].stamp, e.stamp)) || (Seen(perRun, e.run) == 0 && !e.kind.MigrationCreated?)
         || Seen(perRun, e.run) + 1 > MAX_EVENTS_PER_RUN {
        return false;
      }
      ScanKeeps(s, i, seen, perRun);
      seen := seen + {e.id};
      perRun := perRun[e.run := Seen(perRun, e.run) + 1];
      i := i + 1;
    }
    assert s.events[..i] == s.events;
    hide EventsInOrder, ValidEvent, KnownRun, LogOf;
    for j := 0 to |s.runs|
      invariant forall k | 0 <= k < j :: Seen(perRun, s.runs[k].id) > 0
    {
      if Seen(perRun, s.runs[j].id) == 0 {
        assert s.runs[j] in s.runs;
        return false;
      }
    }
    ok := true;
  }

  lemma MatchIsOwn(a: Approval, runs: seq<Run>, r: Run)
    requires RunsDistinct(runs) && r in runs && a.run == r.id && exists t :: t in runs && ApprovalMatches(a, t)
    ensures ApprovalMatches(a, r)
  {
    var t :| t in runs && ApprovalMatches(a, t);
    assert t == r;
  }

  predicate NoRepeat(approvals: seq<Approval>) {
    forall i, j | 0 <= i < j < |approvals| :: approvals[i].id != approvals[j].id && approvals[i].run != approvals[j].run
  }

  predicate AllMatch(approvals: seq<Approval>, runs: seq<Run>) {
    forall a | a in approvals :: exists r :: r in runs && ApprovalMatches(a, r)
  }

  /** What the pass over the approvals remembers of those it has `done`. */
  ghost predicate Indexed(done: seq<Approval>, seen: set<Id>, byRun: map<Id, Approval>) {
    && (forall j | 0 <= j < |done| :: done[j].id in seen && done[j].run in byRun && byRun[done[j].run] == done[j])
    && (forall id | id in seen :: exists j :: 0 <= j < |done| && done[j].id == id)
    && (forall id | id in byRun :: byRun[id] in done && byRun[id].run == id)
  }

  lemma IndexNext(done: seq<Approval>, a: Approval, seen: set<Id>, byRun: map<Id, Approval>)
    requires Indexed(done, seen, byRun) && a.id !in seen && a.run !in byRun
    ensures Indexed(done + [a], seen + {a.id}, byRun[a.run := a])
  {
    forall id | id in seen + {a.id} ensures exists j :: 0 <= j < |done + [a]| && (done + [a])[j].id == id {
      if id == a.id {
        assert (done + [a])[|done|].id == id;
      } else {
        var j :| 0 <= j < |done| && done[j].id == id;
        assert (done + [a])[j].id == id;
      }
    }
  }

  lemma NoRepeatNext(done: seq<Approval>, a: Approval, seen: set<Id>, byRun: map<Id, Approval>)
    requires Indexed(done, seen, byRun) && NoRepeat(done) && a.id !in seen && a.run !in byRun
    ensures NoRepeat(done + [a])
  {}

  lemma AllMatchNext(done: seq<Approval>, a: Approval, runs: seq<Run>)
    requires AllMatch(done, runs) && exists r :: r in runs && ApprovalMatches(a, r)
    ensures AllMatch(done + [a], runs)
  {
    hide ApprovalMatches;
  }

  /** An approval whose id or run was seen, or that matches no run, is refused. */
  lemma IndexRefuses(approvals: seq<Approval>, i: nat, seen: set<Id>, byRun: map<Id, Approval>, runs: seq<Run>)
    requires i < |approvals| && Indexed(approvals[..i], seen, byRun) && NoRepeat(approvals) && AllMatch(approvals, runs)
    ensures approvals[i].id !in seen && approvals[i].run !in byRun
            && exists r :: r in runs && ApprovalMatches(approvals[i], r)
  {
    hide ApprovalMatches;
    assert approvals[i] in approvals;
  }

  /** The first pass over the approvals. */
  method IndexApprovals(approvals: seq<Approval>, runs: seq<Run>) returns (ok: bool, byRun: map<Id, Approval>)
    ensures ok <==> NoRepeat(approvals) && AllMatch(approvals, runs)
    ensures ok ==> forall a | a in approvals :: a.run in byRun && byRun[a.run] == a
    ensures ok ==> forall id | id in byRun :: byRun[id] in approvals && byRun[id].run == id
  {
    hide ApprovalMatches, NoRepeat, AllMatch;
    var seen: set<Id> := {};
    byRun := map[];
    NothingIndexed(runs);
    for i := 0 to |approvals|
      invariant Indexed(approvals[..i], seen, byRun) && NoRepeat(approvals[..i]) && AllMatch(approvals[..i], runs)
    {
      var a := approvals[i];
      assert approvals[..i + 1] == approvals[..i] + [a];
      var matched := exists r :: r in runs && ApprovalMatches(a, r);
      if a.id in seen || a.run in byRun || !matched {
        assert !(NoRepeat(approvals) && AllMatch(approvals, runs)) by {
          if NoRepeat(approvals) && AllMatch(approvals, runs) { IndexRefuses(approvals, i, seen, byRun, runs); }
        }
        return false, map[];
      }
      IndexNext(approvals[..i], a, seen, byRun);
      NoRepeatNext(approvals[..i], a, seen, byRun);
      AllMatchNext(approvals[..i], a, runs);
      seen := seen + {a.id};
      byRun := byRun[a.run := a];
    }
    assert approvals[..|approvals|] == approvals;
    ok := true;
  }

  lemma NothingIndexed(runs: seq<Run>)
    ensures Indexed([], {}, map[]) && NoRepeat([]) && AllMatch([], runs)
  {}

  /** The approvals check with its two running tables. */
  method ValidateApprovals(approvals: seq<Approval>, runs: seq<Run>) returns (ok: bool)
    requires RunsDistinct(runs)
    ensures ok <==> ValidApprovals(approvals, runs)
  {
    var indexed, byRun := IndexApprovals(approvals, runs);
    if !indexed { return false; }
    for i := 0 to |runs|
      invariant forall j | 0 <= j < i && Filled(runs[j].approval) :: exists a ::
                a in approvals && ApprovalMatches(a, runs[j])
    {
      var r := runs[i];
      if Filled(r.approval) {
        assert r in runs;
        if r.id !in byRun || byRun[r.id].id != r.approval {
          return false;
        }
        MatchIsOwn(byRun[r.id], runs, r);
      }
    }
    ok := true;
  }

  method ValidateSnapshot(hash: Hash, s: Snapshot) returns (ok: bool)
    requires 0 <= s.nextSequence < UINT64
    ensures ok <==> ValidSnapshot(hash, s)
  {
    if |s.runs| > MAX_RUNS { return false; }
    ok := ValidateRuns(hash, s.runs);
    if ok { ok := ValidateApprovals(s.approvals, s.runs); }
    if ok { ok := ValidateEvents(s); }
  }

  method Find(runs: seq<Run>, id: Id) returns (i: Option<nat>)
    ensures i == FindRun(runs, id)
  {
    for j := 0 to |runs|
      invariant forall k | 0 <= k < j :: runs[k].id != id
    {
      if runs[j].id == id {
        FindFirst(runs, id, j);
        return Some(j);
      }
    }
    i := None;
  }

  lemma {:induction false} FindFirst(runs: seq<Run>, id: Id, j: nat)
    requires j < |runs| && runs[j].id == id && forall k | 0 <= k < j :: runs[k].id != id
    ensures FindRun(runs, id) == Some(j)
    decreases |runs|
  {
    if j == 0 {
    } else {
      FindFirst(runs[1..], id, j - 1);
    }
  }

  // ----------------------------------------------------------- operations

  class Store {
    const hash: Hash
    var snap: Snapshot
    var file: Snapshot

    ghost function State(): Durable reads this { Durable(snap, file) }

    ghost predicate Valid() reads this { StoreSound(hash, State()) }

    constructor (hash: Hash)
      ensures Valid() && State() == Durable(EMPTY, EMPTY) && this.hash == hash
    {
      this.hash := hash;
      snap, file := EMPTY, EMPTY;
      new;
      EmptySound(hash);
    }

    /** Records one event in global order on the working copy. */
    method AppendEvent(s: Snapshot, run: Run, draft: Draft, stamp: Time, id: Id) returns (next: Result<Snapshot, Fault>)
      ensures next == ControlPlane.AppendEvent(s, run.id, run.state, draft, stamp, id)
    {
      if SourceScoped(draft.kind) != draft.source.Some? { return Err(Internal); }
      var count := CountEvents(s.events, run.id);
      if count >= MAX_EVENTS_PER_RUN { return Err(EventLimit); }
      var used := InUse(s, id);
      if !Filled(id) || used { return Err(Internal); }
      var e := Event(s.nextSequence, id, run.id, draft.source, draft.kind, stamp, draft.refs, run.state);
      next := Ok(s.(events := s.events + [e], nextSequence := (s.nextSequence + 1) % UINT64));
    }

    method AppendEvents(s: Snapshot, run: Run, drafts: seq<Draft>, stamp: Time, ids: seq<Id>)
        returns (next: Result<Snapshot, Fault>)
      ensures next == ControlPlane.AppendEvents(s, run.id, run.state, drafts, stamp, ids)
    {
      var working, i := s, 0;
      ghost var whole := ControlPlane.AppendEvents(s, run.id, run.state, drafts, stamp, ids);
      assert drafts[0..] == drafts && ids[0..] == ids;
      while i < |drafts|
        invariant 0 <= i <= |drafts|
        invariant whole
             == ControlPlane.AppendEvents(working, run.id, run.state, drafts[i..], stamp,
                                          if i <= |ids| then ids[i..] else [])
      {
        var id := if i < |ids| then ids[i] else Null;
        var step := AppendEvent(working, run, drafts[i], stamp, id);
        assert drafts[i..][0] == drafts[i] && drafts[i..][1..] == drafts[i + 1..];
        assert i < |ids| ==> ids[i..][0] == ids[i] && ids[i..][1..] == ids[i + 1..];
        if step.Err? { return step; }
        working := step.value;
        i := i + 1;
      }
      assert drafts[i..] == [];
      next := Ok(working);
    }

    /** Validates and durably writes a working copy, and only then shows it. */
    method Commit(next: Snapshot, persist: Persist) returns (reply: Reply)
      requires 0 <= next.nextSequence < UINT64
      modifies this
      ensures (State(), reply) == ControlPlane.Commit(hash, old(State()), next, persist)
    {
      var ok := ValidateSnapshot(hash, next);
      if !ok { return Refused(Internal); }
      if persist.NotWritten? { return Refused(Internal); }
      file := next;
      snap := next;
      reply := if persist.Written? then Done else Refused(Internal);
    }

    ghost predicate Carried(before: Durable, c: Command, draw: Draw, persist: Persist, reply: Reply)
      reads this
    {
      (State(), reply) == Apply(hash, before, c, draw, persist)
    }

    method CreateRun(name: Id, requester: Id, draw: Draw, persist: Persist) returns (reply: Reply)
      requires Valid()
      modifies this
      ensures Valid() && Carried(old(State()), Command.CreateRun(name, requester), draw, persist, reply)
    {
      var c := Command.CreateRun(name, requester);
      ApplyKeeps(hash, State(), c, draw, persist);
      assert 0 <= snap.nextSequence < UINT64;
      hide StoreSound, Later, ControlPlane.Commit, BuildCreate;
      if !Filled(name) { return Refused(InvalidRequest); }
      var built := OpenRun(c, draw);
      if built.Err? { return Refused(built.error); }
      reply := Commit(built.value, persist);
    }

    method OpenRun(c: Command, draw: Draw) returns (built: Result<Snapshot, Fault>)
      requires c.CreateRun? && 0 <= snap.nextSequence < UINT64
      ensures built == BuildCreate(snap, c, draw)
      ensures built.Ok? ==> 0 <= built.value.nextSequence < UINT64
    {
      for i := 0 to |snap.runs|
        invariant forall j | 0 <= j < i :: snap.runs[j].name != c.name || Terminal(snap.runs[j].state)
      {
        if snap.runs[i].name == c.name && !Terminal(snap.runs[i].state) { return Err(PortfolioExists); }
      }
      assert !NameTaken(snap.runs, c.name);
      if |snap.runs| >= MAX_RUNS { return Err(Capacity); }
      var used := InUse(snap, draw.row);
      if !Filled(draw.row) || used { return Err(Internal); }
      hide NameTaken, IdInUse, ControlPlane.AppendEvents, Stamp;
      var next := snap;
      var stamp := Stamp(next, draw.now);
      var run := FreshRun(c, draw.row, stamp);
      next := next.(runs := next.runs + [run]);
      var drafts := [Draft(None, MigrationCreated, [])];
      built := AppendEvents(next, run, drafts, stamp, draw.events);
      if built.Ok? { CursorInRange(next, run.id, run.state, drafts, stamp, draw.events, built.value); }
    }

    /** Refusals that come before the run is changed; otherwise where it is. */
    method Locate(c: Command) returns (at: Result<nat, Fault>)
      requires !c.CreateRun?
      ensures at == if Malformed(c).Some? then Err(Malformed(c).value)
                    else if FindRun(snap.runs, c.run).None? then Err(NotFound) else Ok(FindRun(snap.runs, c.run).value)
    {
      var refusal := Malformed(c);
      if refusal.Some? { return Err(refusal.value); }
      var i := Find(snap.runs, c.run);
      at := if i.None? then Err(NotFound) else Ok(i.value);
    }

    /** Puts the changed run into a working copy, reports its events and commits. */
    method Finish(c: Command, i: nat, change: Result<Change, Fault>, draw: Draw, persist: Persist)
        returns (reply: Reply)
      requires !c.CreateRun? && Malformed(c).None? && FindRun(snap.runs, c.run) == Some(i)
      requires 0 <= snap.nextSequence < UINT64
      requires change == ChangeOf(hash, snap, i, c, draw)
      modifies this
      ensures Carried(old(State()), c, draw, persist, reply)
    {
      hide ChangeOf, ControlPlane.Commit, ControlPlane.AppendEvents, Malformed, FindRun, Stamp;
      if change.Err? { return Refused(change.error); }
      var next := snap;
      next := next.(runs := next.runs[i := change.value.run]);
      next := next.(approvals := next.approvals
                    + (if change.value.decision.Some? then [change.value.decision.value] else []));
      var stamp := Stamp(snap, draw.now);
      var built := AppendEvents(next, change.value.run, change.value.drafts, stamp, draw.events);
      if built.Err? { return Refused(built.error); }
      CursorInRange(next, change.value.run.id, change.value.run.state, change.value.drafts, stamp, draw.events,
                    built.value);
      reply := Commit(built.value, persist);
    }

    method AdvanceSource(run: Id, source: SourceId, to: State, update: Update, draw: Draw, persist: Persist)
        returns (reply: Reply)
      requires Valid()
      modifies this
      ensures Valid() && Carried(old(State()), Command.AdvanceSource(run, source, to, update), draw, persist, reply)
    {
      var c := Command.AdvanceSource(run, source, to, update);
      ApplyKeeps(hash, State(), c, draw, persist);
      assert 0 <= snap.nextSequence < UINT64;
      hide StoreSound, Later, ControlPlane.Commit, ChangeOf, Publish, Malformed, FindRun;
      var at := Locate(c);
      if at.Err? { return Refused(at.error); }
      var change := MoveSource(at.value, c, draw);
      reply := Finish(c, at.value, change, draw, persist);
    }

    method MoveSource(i: nat, c: Command, draw: Draw) returns (change: Result<Change, Fault>)
      requires i < |snap.runs| && c.AdvanceSource? && Malformed(c).None?
      ensures change == ChangeOf(hash, snap, i, c, draw)
    {
      var run := snap.runs[i];
      if Terminal(run.state) { return Err(RunTerminal); }
      var step := StepTo(c.to).value;
      var src := run.sources.At(c.source);
      if src.state != step.from { return Err(InvalidTransition); }
      if !CountersForward(src, c.update) { return Err(InvalidRequest); }
      src := src.(recordsRead := Moved(src.recordsRead, c.update.recordsRead));
      src := src.(recordsWritten := Moved(src.recordsWritten, c.update.recordsWritten));
      src := src.(recordsRejected := Moved(src.recordsRejected, c.update.recordsRejected));
      if step.evidence == Some(SourceManifest) { src := src.(manifest := c.update.digest); }
      src := src.(state := c.to);
      run := run.(sources := run.sources.Put(c.source, src));
      var before := run.state;
      var state := DeriveRunState(run.sources);
      run := run.(state := state, updatedAt := Stamp(snap, draw.now));
      var drafts := [Draft(Some(c.source), step.kind, References(step, c.update))];
      assert drafts + [] == drafts;
      if !before.Completed? && run.state.Completed? { drafts := drafts + [Draft(None, MigrationCompleted, [])]; }
      change := Ok(Change(run, drafts, None));
    }

    method AttachSourcePlan(run: Id, source: SourceId, artifact: Id, digest: Id, draw: Draw, persist: Persist)
        returns (reply: Reply)
      requires Valid()
      modifies this
      ensures Valid()
      ensures Carried(old(State()), Command.AttachSourcePlan(run, source, artifact, digest), draw, persist, reply)
    {
      var c := Command.AttachSourcePlan(run, source, artifact, digest);
      ApplyKeeps(hash, State(), c, draw, persist);
      assert 0 <= snap.nextSequence < UINT64;
      hide StoreSound, Later, ControlPlane.Commit, ChangeOf, Publish, Malformed, FindRun;
      var at := Locate(c);
      if at.Err? { return Refused(at.error); }
      var change := BindPlan(at.value, c, draw);
      reply := Finish(c, at.value, change, draw, persist);
    }

    method BindPlan(i: nat, c: Command, draw: Draw) returns (change: Result<Change, Fault>)
      requires i < |snap.runs| && c.AttachSourcePlan? && Malformed(c).None?
      ensures change == ChangeOf(hash, snap, i, c, draw)
    {
      var run := snap.runs[i];
      if Terminal(run.state) { return Err(RunTerminal); }
      var src := run.sources.At(c.source);
      if !src.state.Planning? { return Err(InvalidTransition); }
      if Filled(src.plan) { return Err(InvalidTransition); }
      src := src.(plan := c.digest);
      src := src.(artifact := c.artifact);
      run := run.(sources := run.sources.Put(c.source, src));
      run := run.(updatedAt := Stamp(snap, draw.now));
      change := Ok(Change(run, [], None));
    }

    method EnterAwaitingApproval(run: Id, draw: Draw, persist: Persist) returns (reply: Reply)
      requires Valid()
      modifies this
      ensures Valid() && Carried(old(State()), Command.EnterAwaitingApproval(run), draw, persist, reply)
    {
      var c := Command.EnterAwaitingApproval(run);
      ApplyKeeps(hash, State(), c, draw, persist);
      assert 0 <= snap.nextSequence < UINT64;
      hide StoreSound, Later, ControlPlane.Commit, ChangeOf, Publish, Malformed, FindRun;
      var at := Locate(c);
      if at.Err? { return Refused(at.error); }
      var change := OpenGate(at.value, c, draw);
      reply := Finish(c, at.value, change, draw, persist);
    }

    method OpenGate(i: nat, c: Command, draw: Draw) returns (change: Result<Change, Fault>)
      requires i < |snap.runs| && c.EnterAwaitingApproval? && Malformed(c).None?
      ensures change == ChangeOf(hash, snap, i, c, draw)
    {
      var run := snap.runs[i];
      if Terminal(run.state) { return Err(RunTerminal); }
      assert SOURCES == [Jde, Dynamics, Ebs];
      for j := 0 to |SOURCES|
        invariant forall k | 0 <= k < j :: Planned(run.sources.At(SOURCES[k]))
      {
        if !Planned(run.sources.At(SOURCES[j])) { return Err(InvalidTransition); }
      }
      assert Planned(run.sources.At(SOURCES[0])) && Planned(run.sources.At(SOURCES[1]))
          && Planned(run.sources.At(SOURCES[2]));
      run := run.(sources := AllIn(run.sources, AwaitingApproval));
      var state := DeriveRunState(run.sources);
      run := run.(state := state);
      run := run.(portfolio := PortfolioDigest(hash, run));
      if !Filled(run.portfolio) { return Err(Internal); }
      run := run.(updatedAt := Stamp(snap, draw.now));
      var drafts := [];
      for j := 0 to |SOURCES|
        invariant |drafts| == j && forall k | 0 <= k < j :: drafts[k] == PlanReadyDraft(run, SOURCES[k])
      {
        drafts := drafts + [PlanReadyDraft(run, SOURCES[j])];
      }
      drafts := drafts + [Draft(None, PortfolioAwaiting, [])];
      assert drafts == [PlanReadyDraft(run, Jde), PlanReadyDraft(run, Dynamics), PlanReadyDraft(run, Ebs),
                        Draft(None, PortfolioAwaiting, [])];
      change := Ok(Change(run, drafts, None));
    }

    method FailSource(run: Id, source: SourceId, code: Id, draw: Draw, persist: Persist) returns (reply: Reply)
      requires Valid()
      modifies this
      ensures Valid() && Carried(old(State()), Command.FailSource(run, source, code), draw, persist, reply)
    {
      var c := Command.FailSource(run, source, code);
      ApplyKeeps(hash, State(), c, draw, persist);
      assert 0 <= snap.nextSequence < UINT64;
      hide StoreSound, Later, ControlPlane.Commit, ChangeOf, Publish, Malformed, FindRun;
      var at := Locate(c);
      if at.Err? { return Refused(at.error); }
      var change := BreakSource(at.value, c, draw);
      reply := Finish(c, at.value, change, draw, persist);
    }

    method BreakSource(i: nat, c: Command, draw: Draw) returns (change: Result<Change, Fault>)
      requires i < |snap.runs| && c.FailSource? && Malformed(c).None?
      ensures change == ChangeOf(hash, snap, i, c, draw)
    {
      var run := snap.runs[i];
      if Terminal(run.state) { return Err(RunTerminal); }
      var src := run.sources.At(c.source);
      if Terminal(src.state) { return Err(InvalidTransition); }
      src := src.(state := Failed);
      src := src.(failure := c.code);
      run := run.(sources := run.sources.Put(c.source, src));
      var state := DeriveRunState(run.sources);
      run := run.(state := state, failure := c.code);
      run := run.(updatedAt := Stamp(snap, draw.now));
      change := Ok(Change(run, [Draft(Some(c.source), SourceFailed, []), Draft(None, MigrationFailed, [])], None));
    }

    method Decide(run: Id, digest: Id, approve: bool, actor: Id, reason: Id, draw: Draw, persist: Persist)
        returns (reply: Reply)
      requires Valid()
      modifies this
      ensures Valid()
      ensures Carried(old(State()), Command.Decide(run, digest, approve, actor, reason), draw, persist, reply)
    {
      var c := Command.Decide(run, digest, approve, actor, reason);
      ApplyKeeps(hash, State(), c, draw, persist);
      assert 0 <= snap.nextSequence < UINT64;
      hide StoreSound, Later, ControlPlane.Commit, ChangeOf, Publish, Malformed, FindRun;
      var at := Locate(c);
      if at.Err? { return Refused(at.error); }
      var change := RecordDecision(at.value, c, draw);
      reply := Finish(c, at.value, change, draw, persist);
    }

    method RecordDecision(i: nat, c: Command, draw: Draw) returns (change: Result<Change, Fault>)
      requires i < |snap.runs| && c.Decide? && Malformed(c).None?
      ensures change == ChangeOf(hash, snap, i, c, draw)
    {
      var run := snap.runs[i];
      if Filled(run.approval) { return Err(AlreadyDecided); }
      if !run.state.AwaitingApproval? || !Filled(run.portfolio) { return Err(NotAwaitingApproval); }
      if c.digest != run.portfolio { return Err(StaleDigest); }
      var used := InUse(snap, draw.row);
      if !Filled(draw.row) || used { return Err(Internal); }
      var stamp := Stamp(snap, draw.now);
      var resulting := Approved;
      if !c.approve { resulting := Cancelled; }
      run := run.(sources := AllIn(run.sources, resulting));
      var state := DeriveRunState(run.sources);
      run := run.(state := state, updatedAt := stamp, approval := draw.row);
      var decision := Approval(draw.row, run.id, run.portfolio, c.approve, resulting, c.actor, stamp, c.reason);
      var drafts := if c.approve then [Draft(None, PortfolioApproved, [])]
                    else [Draft(None, PortfolioRejected, []), Draft(None, MigrationCancelled, [])];
      change := Ok(Change(run, drafts, Some(decision)));
    }

    /** Up to `limit` stored events of a run, in stored order, strictly after the cursor. */
    method EventsAfter(run: Id, cursor: Id, limit: int) returns (page: Result<Stream.Page, Fault>)
      ensures page == Stream.EventsAfter(snap, run, cursor, limit)
    {
      if !Filled(run) { return Err(NotFound); }
      var at := Find(snap.runs, run);
      if at.None? { return Err(NotFound); }
      var all := EventsOf(snap.events, run);
      if Filled(cursor) {
        var i := 0;
        while i < |all| && all[i].id != cursor
          invariant 0 <= i <= |all| && forall j | 0 <= j < i :: all[j].id != cursor
        {
          i := i + 1;
        }
        if i == |all| { return Err(UnknownCursor); }
        all := all[i + 1..];
      }
      if limit > 0 && |all| > limit { return Ok(Stream.Page(all[..limit], true)); }
      page := Ok(Stream.Page(all, false));
    }
  }

  lemma {:induction false} CursorInRange(s: Snapshot, run: Id, state: State, drafts: seq<Draft>, stamp: Time,
      ids: seq<Id>, next: Snapshot)
    requires 0 <= s.nextSequence < UINT64 && ControlPlane.AppendEvents(s, run, state, drafts, stamp, ids) == Ok(next)
    ensures 0 <= next.nextSequence < UINT64
    decreases |drafts|
  {
    if drafts == [] {
    } else {
      var mid := ControlPlane.AppendEvent(s, run, state, drafts[0], stamp, if ids == [] then Null else ids[0]).value;
      CursorInRange(mid, run, state, drafts[1..], stamp, if ids == [] then [] else ids[1..], next);
    }
  }
}
