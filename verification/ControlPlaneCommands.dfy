/** What each command that is built does, field by field, and where the decisions
    on record come from. */
module ControlPlaneCommands {
  import opened Common
  import opened ControlPlane
  import opened ControlPlaneValidity
  import opened ControlPlaneGate
  import opened ControlPlaneHistory
  import opened ControlPlaneTheorems

  /** The run a command names changes, the others and the decisions before stay, and
      every new event is about that run and carries its new state and the stamp. */
  predicate OneRunChanges(s: Snapshot, next: Snapshot, i: nat, stamp: Time) {
    && i < |s.runs| == |next.runs| && next.runs == s.runs[i := next.runs[i]]
    && s.approvals <= next.approvals && s.events <= next.events
    && forall j | |s.events| <= j < |next.events| ::
         next.events[j].run == next.runs[i].id && next.events[j].state == next.runs[i].state
         && next.events[j].stamp == stamp
  }

  /** The news of a command: the events it added, without their places in the log. */
  predicate Adds(s: Snapshot, next: Snapshot, drafts: seq<Draft>) {
    && |next.events| == |s.events| + |drafts|
    && forall j | 0 <= j < |drafts| ::
         var e := next.events[|s.events| + j];
         e.source == drafts[j].source && e.kind == drafts[j].kind && e.refs == drafts[j].refs
  }

  lemma Published(hash: Hash, s: Snapshot, c: Command, draw: Draw, next: Snapshot) returns (i: nat, change: Change)
    requires Build(hash, s, c, draw) == Ok(next) && !c.CreateRun?
    ensures FindRun(s.runs, c.run) == Some(i) && i < |s.runs| && s.runs[i].id == c.run
    ensures Malformed(c).None? && ChangeOf(hash, s, i, c, draw) == Ok(change) && i < |next.runs|
    ensures next.runs == s.runs[i := change.run]
    ensures next.approvals == s.approvals + (if change.decision.Some? then [change.decision.value] else [])
    ensures change.run.id == c.run ==> OneRunChanges(s, next, i, Stamp(s, draw.now))
    ensures Adds(s, next, change.drafts)
  {
    hide ChangeOf, AppendEvents, Malformed, Stamp, OneRunChanges, Adds;
    i := FindRun(s.runs, c.run).value;
    change := ChangeOf(hash, s, i, c, draw).value;
    var base := s.(runs := s.runs[i := change.run],
                   approvals := s.approvals + (if change.decision.Some? then [change.decision.value] else []));
    Appended(s, base, i, change, Stamp(s, draw.now), draw.events, next);
  }

  lemma Appended(s: Snapshot, base: Snapshot, i: nat, change: Change, stamp: Time, ids: seq<Id>, next: Snapshot)
    requires i < |s.runs| && base.events == s.events && base.runs == s.runs[i := change.run]
    requires s.approvals <= base.approvals
    requires AppendEvents(base, change.run.id, change.run.state, change.drafts, stamp, ids) == Ok(next)
    ensures next.runs == base.runs && next.approvals == base.approvals
    ensures OneRunChanges(s, next, i, stamp) && Adds(s, next, change.drafts)
  {
    AppendAllShape(base, change.run.id, change.run.state, change.drafts, stamp, ids, next);
    hide AppendEvents;
  }

  // ---------------------------------------------------------------- the stamp

  /** The last event on record, and none is later. */
  predicate Latest(events: seq<Event>, e: Event) {
    e in events && forall other | other in events :: Upto(other.stamp, e.stamp)
  }

  /** The stamp of a command is the clock reading, printed, if it is later than every
      event on record, and otherwise a millisecond after the last of them. */
  lemma StampMeans(hash: Hash, history: seq<Timed>, now: int)
    ensures var s := Reached(hash, history);
            if forall e | e in s.events :: e.stamp.Instant? && e.stamp.nanos < now then Stamp(s, now) == Printed(now)
            else exists e :: Latest(s.events, e) && e.stamp.Instant? && e.stamp.nanos >= now
                             && Stamp(s, now) == Printed(e.stamp.nanos + 1_000_000)
  {
    var s := Reached(hash, history);
    ReachedSound(hash, history);
    hide Reached, Printed, Sound;
    Ordered(hash, s);
    hide EventsInOrder, Latest;
    if s.events != [] {
      var last := s.events[|s.events| - 1];
      LastIsLatest(s.events);
      hide Moment;
      if now <= last.stamp.nanos {
        assert Stamp(s, now) == Printed(last.stamp.nanos + 1_000_000) by { Bumped(s, now); }
        assert last in s.events && Latest(s.events, last) && last.stamp.nanos >= now;
      } else {
        assert Stamp(s, now) == Printed(now) by { OnTime(s, now); }
        AllBefore(s.events, last, now);
      }
    }
  }

  lemma Bumped(s: Snapshot, now: int)
    requires s.events != [] && s.events[|s.events| - 1].stamp.Instant? && now <= s.events[|s.events| - 1].stamp.nanos
    ensures Stamp(s, now) == Printed(s.events[|s.events| - 1].stamp.nanos + 1_000_000)
  {
  }

  lemma OnTime(s: Snapshot, now: int)
    requires s.events != [] && s.events[|s.events| - 1].stamp.Instant? && s.events[|s.events| - 1].stamp.nanos < now
    ensures Stamp(s, now) == Printed(now)
  {
  }

  lemma AllBefore(events: seq<Event>, last: Event, now: int)
    requires Latest(events, last) && last.stamp.Instant? && last.stamp.nanos < now
    ensures forall e | e in events :: e.stamp.Instant? && e.stamp.nanos < now
  {
  }

  lemma LastIsLatest(events: seq<Event>)
    requires EventsInOrder(events) && events != [] && forall e | e in events :: e.stamp.Instant?
    ensures Latest(events, events[|events| - 1]) && events[|events| - 1].stamp.Instant?
  {
    var n := |events| - 1;
    forall e | e in events ensures Upto(e.stamp, events[n].stamp) {
      var j :| 0 <= j < |events| && events[j] == e;
      if j < n { assert events[j].sequence < events[n].sequence; }
    }
  }

  lemma Ordered(hash: Hash, s: Snapshot)
    requires Sound(hash, s)
    ensures EventsInOrder(s.events) && forall e | e in s.events :: e.stamp.Instant?
  {
    hide FourDigitYear, ValidRun, ValidApprovals, RunSound, NamesDistinct, RunsValid, EventsInOrder, LogOf;
    forall e | e in s.events ensures e.stamp.Instant? {
      assert ValidEvent(e);
    }
  }

  // ------------------------------------------------------- the six commands

  /** A run opens under its drawn id with three sources at the start. */
  lemma CreateEffect(hash: Hash, s: Snapshot, c: Command, draw: Draw, next: Snapshot)
    requires c.CreateRun? && Build(hash, s, c, draw) == Ok(next)
    ensures |next.runs| == |s.runs| + 1 && next.runs[..|s.runs|] == s.runs && next.approvals == s.approvals
    ensures var run := next.runs[|s.runs|];
            && run.id == draw.row && run.name == c.name && run.requester == c.requester && run.state == Created
            && run.createdAt == run.updatedAt == Stamp(s, draw.now)
            && run.portfolio == run.failure == run.approval == Null
            && forall id: SourceId :: run.sources.At(id) == Source(Created, 0, 0, 0, Null, Null, Null, Null)
    ensures Filled(c.name) && Filled(draw.row) && forall r | r in s.runs :: r.name == c.name ==> Terminal(r.state)
    ensures s.events <= next.events && Adds(s, next, [Draft(None, MigrationCreated, [])])
    ensures var e := next.events[|s.events|];
            e.run == draw.row && e.state == Created && e.stamp == Stamp(s, draw.now)
  {
    hide AppendEvents;
    var run := FreshRun(c, draw.row, Stamp(s, draw.now));
    AppendAllShape(s.(runs := s.runs + [run]), run.id, run.state, [Draft(None, MigrationCreated, [])], run.createdAt,
                   draw.events, next);
    assert Reports(next.events[|s.events|], run.id, run.state, Draft(None, MigrationCreated, []), run.createdAt);
  }

  /** What the command sent, or the old value where it sent nothing. */
  function Sent(was: int, sent: Option<int>): int { match sent case Some(value) => value case None => was }

  /** A source takes its next step: its counters become what was sent, the manifest
      digest is kept when the inventory ends, everything else stays; the step is
      reported with the evidence the command cites. */
  lemma AdvanceEffect(hash: Hash, s: Snapshot, c: Command, draw: Draw, next: Snapshot)
    requires c.AdvanceSource? && Build(hash, s, c, draw) == Ok(next)
    ensures exists i: nat :: OneRunChanges(s, next, i, Stamp(s, draw.now)) && Advanced(s, c, next, i)
  {
    var i, change := Published(hash, s, c, draw, next);
    hide Build, AppendEvents;
    assert OneRunChanges(s, next, i, Stamp(s, draw.now)) by { hide Adds; }
    hide OneRunChanges;
    AdvancedBy(hash, s, c, draw, next, i, change);
  }

  /** The state before each state a command may name, by the frozen sequence. */
  function Preceding(to: State): State {
    match to
    case Inventorying => Created case Redacting => Inventorying case Planning => Redacting case Executing => Approved
    case Verifying => Executing case Completed => Verifying case _ => to
  }

  predicate Advanced(s: Snapshot, c: Command, next: Snapshot, i: nat)
    requires c.AdvanceSource?
  {
    && i < |s.runs| && i < |next.runs| && s.runs[i].id == c.run && !Terminal(s.runs[i].state)
    && next.approvals == s.approvals && |next.events| > |s.events|
    && var run, after, u := s.runs[i], next.runs[i], c.update;
       var src := run.sources.At(c.source);
       && src.state == Preceding(c.to) != c.to
       && (forall id: SourceId | id != c.source :: after.sources.At(id) == run.sources.At(id))
       && after.sources.At(c.source) == Source(
            c.to, Sent(src.recordsRead, u.recordsRead), Sent(src.recordsWritten, u.recordsWritten),
            Sent(src.recordsRejected, u.recordsRejected), src.plan, src.failure,
            if c.to.Redacting? then u.digest else src.manifest, src.artifact)
       && after == run.(sources := after.sources, state := Derive(after.sources), updatedAt := after.updatedAt)
       && Cites(next.events[|s.events|], c.source, c.to, u)
       && (|next.events| == |s.events| + 2 <==> after.state.Completed?)
  }

  /** The evidence that a step must cite, and the evidence it may cite besides. */
  function FirstProof(to: State): Option<EvidenceKind> {
    match to
    case Redacting => Some(SourceManifest) case Planning => Some(RedactionReport)
    case Verifying => Some(DataflowJob) case Completed => Some(ReconciliationReport) case _ => None
  }

  function SecondProof(to: State): Option<EvidenceKind> {
    match to case Verifying => Some(BigQueryTable) case Completed => Some(AuditLog) case _ => None
  }

  /** The event cites the artifacts and digests that were sent, as the step asks. */
  predicate Cites(e: Event, source: SourceId, to: State, u: Update) {
    && e.source == Some(source)
    && if FirstProof(to).None? then e.refs == []
       else
         var first := Evidence(u.artifact, FirstProof(to).value, u.digest);
         && Filled(u.artifact) && Filled(u.digest) && (Filled(u.secondaryArtifact) <==> Filled(u.secondaryDigest))
         && if Filled(u.secondaryArtifact)
            then SecondProof(to).Some?
                 && e.refs == [first, Evidence(u.secondaryArtifact, SecondProof(to).value, u.secondaryDigest)]
            else e.refs == [first]
  }

  lemma AdvancedBy(hash: Hash, s: Snapshot, c: Command, draw: Draw, next: Snapshot, i: nat, change: Change)
    requires c.AdvanceSource? && Malformed(c).None? && i < |s.runs| && s.runs[i].id == c.run
    requires ChangeOf(hash, s, i, c, draw) == Ok(change) && next.runs == s.runs[i := change.run]
    requires next.approvals == s.approvals + (if change.decision.Some? then [change.decision.value] else [])
    requires Adds(s, next, change.drafts)
    ensures Advanced(s, c, next, i)
  {
    var e := next.events[|s.events| + 0];
    assert e.refs == change.drafts[0].refs && e.source == change.drafts[0].source;
    StepCites(e, c);
    hide Derive, Adds, EvidenceFits, References, Cites, CountersForward;
  }

  lemma StepCites(e: Event, c: Command)
    requires c.AdvanceSource? && StepTo(c.to).Some? && EvidenceFits(StepTo(c.to).value, c.update)
    ensures e.source == Some(c.source) && e.refs == References(StepTo(c.to).value, c.update) ==>
              Cites(e, c.source, c.to, c.update)
  {
  }

  /** A plan is bound to a planning source that has none; nothing is reported. */
  lemma AttachEffect(hash: Hash, s: Snapshot, c: Command, draw: Draw, next: Snapshot)
    requires c.AttachSourcePlan? && Build(hash, s, c, draw) == Ok(next)
    ensures exists i: nat ::
              OneRunChanges(s, next, i, Stamp(s, draw.now)) && Attached(s, c, next, i, Stamp(s, draw.now))
  {
    var i, change := Published(hash, s, c, draw, next);
    hide Build, AppendEvents;
    assert OneRunChanges(s, next, i, Stamp(s, draw.now)) by { hide Adds; }
    assert Attached(s, c, next, i, Stamp(s, draw.now)) by { hide OneRunChanges; assert next.events == s.events; }
  }

  predicate Attached(s: Snapshot, c: Command, next: Snapshot, i: nat, stamp: Time)
    requires c.AttachSourcePlan?
  {
    && i < |s.runs| && i < |next.runs| && s.runs[i].id == c.run && !Terminal(s.runs[i].state)
    && next.approvals == s.approvals && next.events == s.events
    && var run, after := s.runs[i], next.runs[i];
       var src := run.sources.At(c.source);
       && src.state.Planning? && !Filled(src.plan) && Filled(c.artifact) && Filled(c.digest)
       && (forall id: SourceId | id != c.source :: after.sources.At(id) == run.sources.At(id))
       && after.sources.At(c.source).plan == c.digest && after.sources.At(c.source).artifact == c.artifact
       && after.sources.At(c.source).(plan := src.plan, artifact := src.artifact) == src
       && after == run.(sources := after.sources, updatedAt := stamp)
  }

  /** All three sources move into this state and keep everything else. */
  predicate AllMove(before: Three<Source>, after: Three<Source>, to: State) {
    forall id: SourceId :: after.At(id) == before.At(id).(state := to)
  }

  /** The gate opens on the digest of the three plans it reports. */
  lemma EnterEffect(hash: Hash, s: Snapshot, c: Command, draw: Draw, next: Snapshot)
    requires c.EnterAwaitingApproval? && Build(hash, s, c, draw) == Ok(next)
    ensures exists i: nat :: OneRunChanges(s, next, i, Stamp(s, draw.now)) && Opened(hash, s, c, next, i)
  {
    var i, change := Published(hash, s, c, draw, next);
    hide Build, AppendEvents;
    assert OneRunChanges(s, next, i, Stamp(s, draw.now)) by { hide Adds; }
    assert Opened(hash, s, c, next, i) by {
      hide OneRunChanges;
      assert next.events[|s.events| + 0].refs == change.drafts[0].refs;
      assert next.events[|s.events| + 1].refs == change.drafts[1].refs;
      assert next.events[|s.events| + 2].refs == change.drafts[2].refs;
    }
  }

  predicate Opened(hash: Hash, s: Snapshot, c: Command, next: Snapshot, i: nat)
    requires c.EnterAwaitingApproval?
  {
    && i < |s.runs| && i < |next.runs| && s.runs[i].id == c.run && next.approvals == s.approvals
    && |next.events| == |s.events| + 4
    && var run, after := s.runs[i], next.runs[i];
       && (forall id: SourceId :: run.sources.At(id).state.Planning? && Filled(run.sources.At(id).plan))
       && AllMove(run.sources, after.sources, AwaitingApproval) && after.portfolio == PortfolioDigest(hash, run)
       && after == run.(sources := after.sources, portfolio := after.portfolio, state := AwaitingApproval,
                        updatedAt := after.updatedAt)
       && forall j | 0 <= j < 3 ::
            var src := run.sources.At(SOURCES[j]);
            next.events[|s.events| + j].refs == [Evidence(src.artifact, TransformPlan, src.plan)]
  }

  /** One source and the run fail with the code that was sent. */
  lemma FailEffect(hash: Hash, s: Snapshot, c: Command, draw: Draw, next: Snapshot)
    requires c.FailSource? && Build(hash, s, c, draw) == Ok(next)
    ensures exists i: nat :: OneRunChanges(s, next, i, Stamp(s, draw.now)) && Broken(s, c, next, i)
  {
    var i, change := Published(hash, s, c, draw, next);
    hide Build, AppendEvents;
    assert OneRunChanges(s, next, i, Stamp(s, draw.now)) by { hide Adds; }
    assert Broken(s, c, next, i) by { hide OneRunChanges; }
  }

  predicate Broken(s: Snapshot, c: Command, next: Snapshot, i: nat)
    requires c.FailSource?
  {
    && i < |s.runs| && i < |next.runs| && s.runs[i].id == c.run && !Terminal(s.runs[i].state) && Filled(c.code)
    && next.approvals == s.approvals && |next.events| == |s.events| + 2
    && var run, after := s.runs[i], next.runs[i];
       && !Terminal(run.sources.At(c.source).state)
       && (forall id: SourceId | id != c.source :: after.sources.At(id) == run.sources.At(id))
       && after.sources.At(c.source) == run.sources.At(c.source).(state := Failed, failure := c.code)
       && after == run.(sources := after.sources, state := Failed, failure := c.code, updatedAt := after.updatedAt)
       && next.events[|s.events|].source == Some(c.source)
  }

  // --------------------------------------------------------------- decisions

  /** A decision takes effect only on an undecided, waiting run and on the digest it
      presents; its sources are approved if it approves and cancelled if not, and
      the record is what the approver sent. */
  lemma DecideEffect(hash: Hash, s: Snapshot, c: Command, draw: Draw, next: Snapshot)
    requires c.Decide? && Build(hash, s, c, draw) == Ok(next)
    ensures exists i: nat :: OneRunChanges(s, next, i, Stamp(s, draw.now)) && Decided(s, c, draw, next, i)
  {
    var i, change := Published(hash, s, c, draw, next);
    hide Build, AppendEvents;
    assert OneRunChanges(s, next, i, Stamp(s, draw.now)) by { hide Adds; }
    assert Decided(s, c, draw, next, i) by { hide OneRunChanges; }
  }

  predicate Decided(s: Snapshot, c: Command, draw: Draw, next: Snapshot, i: nat)
    requires c.Decide?
  {
    && i < |s.runs| && i < |next.runs| && s.runs[i].id == c.run && FindRun(s.runs, c.run) == Some(i)
    && var run, after := s.runs[i], next.runs[i];
       var verdict := if c.approve then Approved else Cancelled;
       && !Filled(run.approval) && run.state.AwaitingApproval? && c.digest == run.portfolio && Filled(c.digest)
       && AllMove(run.sources, after.sources, verdict) && after.state == verdict && after.approval == draw.row
       && after == run.(sources := after.sources, state := after.state, approval := draw.row,
                        updatedAt := after.updatedAt)
       && next.approvals == s.approvals + [Approval(draw.row, c.run, c.digest, c.approve, verdict, c.actor,
                                                    Stamp(s, draw.now), c.reason)]
  }

  /** In every reachable snapshot a decision is built only if it presents the digest
      of the three plans as they are. */
  lemma DecisionPresentsPlans(hash: Hash, history: seq<Timed>, c: Command, draw: Draw, next: Snapshot)
    requires c.Decide? && Build(hash, Reached(hash, history), c, draw) == Ok(next)
    ensures exists i: nat :: i < |Reached(hash, history).runs| && Reached(hash, history).runs[i].id == c.run
                             && c.digest == PortfolioDigest(hash, Reached(hash, history).runs[i])
  {
    hide Reached, Build;
    var s := Reached(hash, history);
    DecideEffect(hash, s, c, draw, next);
    var i: nat :| OneRunChanges(s, next, i, Stamp(s, draw.now)) && Decided(s, c, draw, next, i);
    ReachedSound(hash, history);
    RunFacts(hash, s, s.runs[i], Jde);
  }

  /** A well-formed decision on an undecided, waiting run with any other digest is
      refused as stale and changes nothing. */
  lemma StaleDecisionRefused(hash: Hash, history: seq<Timed>, i: nat, c: Command, draw: Draw, persist: Persist)
    requires c.Decide? && Malformed(c).None? && i < |Reached(hash, history).runs|
    requires var run := Reached(hash, history).runs[i];
             && run.id == c.run && !Filled(run.approval) && run.state.AwaitingApproval?
             && c.digest != PortfolioDigest(hash, run)
    ensures var store := After(hash, FRESH, history);
            Apply(hash, store, c, draw, persist) == (store, Refused(StaleDigest))
  {
    hide After, ValidEvents, ValidApprovals, Malformed;
    var s := Reached(hash, history);
    ReachedSound(hash, history);
    RunFacts(hash, s, s.runs[i], Jde);
    FoundAt(hash, s, i);
    hide Sound, Shape, SourceShape, DecisionsAgree;
  }

  lemma FoundAt(hash: Hash, s: Snapshot, i: nat)
    requires Sound(hash, s) && i < |s.runs|
    ensures FindRun(s.runs, s.runs[i].id) == Some(i)
  {
    hide ValidRun, ValidEvents, ValidApprovals, RunSound, NamesDistinct, RunsValid;
    assert RunsDistinct(s.runs);
    hide Sound;
    var found := FindRun(s.runs, s.runs[i].id);
    assert KnownRun(s.runs, s.runs[i].id);
    assert found.Some? && s.runs[found.value].id == s.runs[i].id;
  }

  // -------------------------------------------------------------- provenance

  lemma {:induction false} AfterExtends(hash: Hash, store: Durable, history: seq<Timed>, last: Timed)
    ensures After(hash, store, history + [last])
         == Apply(hash, After(hash, store, history), last.command, last.draw, last.persist).0
    decreases |history|
  {
    hide Apply;
    if history == [] {
      assert [last][1..] == [];
    } else {
      assert (history + [last])[1..] == history[1..] + [last];
      var next := Apply(hash, store, history[0].command, history[0].draw, history[0].persist).0;
      AfterExtends(hash, next, history[1..], last);
    }
  }

  /** At this place of the history an approver sent exactly this decision, about the
      plans as they then were. */
  predicate Gave(hash: Hash, history: seq<Timed>, j: nat, a: Approval)
    requires j < |history|
  {
    var c, draw, s := history[j].command, history[j].draw, Reached(hash, history[..j]);
    && c == Decide(a.run, a.plan, a.approves, a.actor, a.reason) && draw.row == a.id
    && a.decidedAt == Stamp(s, draw.now)
    && exists r :: r in s.runs && r.id == a.run && a.plan == PortfolioDigest(hash, r)
  }

  lemma GaveLonger(hash: Hash, history: seq<Timed>, more: seq<Timed>, j: nat, a: Approval)
    requires j < |history| && Gave(hash, history, j, a)
    ensures Gave(hash, history + more, j, a)
  {
    assert (history + more)[..j] == history[..j];
  }

  lemma StepGives(hash: Hash, history: seq<Timed>, last: Timed, a: Approval)
    requires a in Reached(hash, history + [last]).approvals && a !in Reached(hash, history).approvals
    ensures var s := Reached(hash, history);
            && last.command == Decide(a.run, a.plan, a.approves, a.actor, a.reason) && last.draw.row == a.id
            && a.decidedAt == Stamp(s, last.draw.now)
            && exists r :: r in s.runs && r.id == a.run && a.plan == PortfolioDigest(hash, r)
  {
    var s, next := Reached(hash, history), Reached(hash, history + [last]);
    AfterExtends(hash, FRESH, history, last);
    var built := Build(hash, s, last.command, last.draw);
    assert built == Ok(next) by { hide Build, ValidSnapshot; }
    ReachedSound(hash, history);
    hide Reached, Build, After, Sound;
    if last.command.Decide? {
      DecideEffect(hash, s, last.command, last.draw, next);
      var i: nat :| OneRunChanges(s, next, i, Stamp(s, last.draw.now)) && Decided(s, last.command, last.draw, next, i);
      RunFacts(hash, s, s.runs[i], Jde);
      assert s.runs[i] in s.runs;
    } else {
      NoDecision(hash, s, last.command, last.draw, next);
    }
  }

  lemma NoDecision(hash: Hash, s: Snapshot, c: Command, draw: Draw, next: Snapshot)
    requires !c.Decide? && Build(hash, s, c, draw) == Ok(next)
    ensures next.approvals == s.approvals
  {
    if c.CreateRun? {
      CreateEffect(hash, s, c, draw, next);
    } else {
      var i, change := Published(hash, s, c, draw, next);
      hide Build, AppendEvents;
    }
  }

  /** Every decision on record was given: an approver sent it, with that digest,
      verdict and reason, when the digest was that of the run's three plans. */
  lemma {:induction false} EveryDecisionWasGiven(hash: Hash, history: seq<Timed>, a: Approval)
    requires a in Reached(hash, history).approvals
    ensures exists j: nat :: j < |history| && Gave(hash, history, j, a)
    decreases |history|
  {
    hide Gave;
    if history == [] {
    } else {
      var init, last := history[..|history| - 1], history[|history| - 1];
      assert history == init + [last];
      hide Reached;
      if a in Reached(hash, init).approvals {
        EveryDecisionWasGiven(hash, init, a);
        var j: nat :| j < |init| && Gave(hash, init, j, a);
        GaveLonger(hash, init, [last], j, a);
      } else {
        StepGives(hash, init, last, a);
        assert Gave(hash, history, |history| - 1, a) by { LastGave(hash, history, a); }
      }
    }
  }

  lemma LastGave(hash: Hash, history: seq<Timed>, a: Approval)
    requires history != []
    requires var last, s := history[|history| - 1], Reached(hash, history[..|history| - 1]);
             && last.command == Decide(a.run, a.plan, a.approves, a.actor, a.reason) && last.draw.row == a.id
             && a.decidedAt == Stamp(s, last.draw.now)
             && exists r :: r in s.runs && r.id == a.run && a.plan == PortfolioDigest(hash, r)
    ensures Gave(hash, history, |history| - 1, a)
  {}
}
