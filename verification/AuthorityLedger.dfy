/** The event log accounts for the tables: every revision, attempt, reserved and
    committed effect of a run has its event, and the last event tells the run's
    current revision and state. */
module AuthorityLedger {
  import opened Common
  import opened AuthorityTables
  import opened Authority
  import opened AuthorityHistory
  import Gate = AuthorityGate
  import Work = AuthorityWork
  import WorkProofs = AuthorityWorkProofs
  import Log = AuthorityLog
  import LogProofs = AuthorityLogProofs

  datatype Measure = Revisions | Starts | Reservations | Commitments

  predicate Counts(m: Measure, kind: EventKind) {
    match m
    case Revisions => kind.RunCreated? || kind.RunTransitioned? || kind.ApprovalRecorded? || kind.CheckpointSealed?
        || kind.ReleaseCreated?
    case Starts => kind.AttemptStarted?
    case Reservations => kind.EffectReserved?
    case Commitments => kind.EffectCommitted?
  }

  /** How many of the events 1..n-1 of a run count towards `m`. */
  function Tally(l: Log.Log, k: RunKey, m: Measure, n: int): nat
    decreases n
  {
    if n <= 1 then 0
    else
      var e := Log.EventKey(k, n - 1);
      Tally(l, k, m, n - 1) + (if e in l.events && Counts(m, l.events[e].note.kind) then 1 else 0)
  }

  function NotesTally(notes: seq<Note>, m: Measure): nat {
    if notes == [] then 0 else (if Counts(m, notes[0].kind) then 1 else 0) + NotesTally(notes[1..], m)
  }

  function AttemptsOf(w: Work.Work, k: RunKey): set<Work.AttemptKey> { set a | a in w.attempts && a.run == k }

  function EffectsOf(w: Work.Work, k: RunKey): set<TenantKey> {
    set e | e in w.effects && RunKey(e.tenant, w.effects[e].run) == k
  }

  function CommittedOf(w: Work.Work, k: RunKey): set<TenantKey> {
    set e | e in w.effects && RunKey(e.tenant, w.effects[e].run) == k && Filled(w.effects[e].result)
  }

  function WorkLevel(w: Work.Work, k: RunKey, m: Measure): nat {
    match m
    case Revisions => 0
    case Starts => |AttemptsOf(w, k)|
    case Reservations => |EffectsOf(w, k)|
    case Commitments => |CommittedOf(w, k)|
  }

  /** What the tables say a measure of a run is. */
  function Level(db: Db, k: RunKey, m: Measure): int
    requires k in db.gate.runs
  {
    if m.Revisions? then db.gate.runs[k].revision else WorkLevel(db.work, k, m)
  }

  predicate Accounted(db: Db, k: RunKey)
    requires k in db.gate.runs && k in db.log.next
  {
    forall m: Measure :: Tally(db.log, k, m, db.log.next[k]) == Level(db, k, m)
  }

  predicate ToldLast(db: Db, k: RunKey)
    requires k in db.gate.runs && k in db.log.next
  {
    var last := Log.EventKey(k, db.log.next[k] - 1);
    last in db.log.events && db.log.events[last].revision == db.gate.runs[k].revision
    && db.log.events[last].state == db.gate.runs[k].state
  }

  predicate LedgerInv(db: Db) {
    && DbInv(db)
    && (forall k | k in db.gate.runs :: k in db.log.next && Accounted(db, k) && ToldLast(db, k))
  }

  // ------------------------------------------------------------- log lemmas

  lemma {:induction false} TallyFrame(l: Log.Log, l': Log.Log, k: RunKey, m: Measure, n: int)
    requires forall s | 1 <= s < n :: Log.EventKey(k, s) in l.events && Log.EventKey(k, s) in l'.events
                                      && l'.events[Log.EventKey(k, s)].note == l.events[Log.EventKey(k, s)].note
    ensures Tally(l', k, m, n) == Tally(l, k, m, n)
    decreases n
  {
    if n <= 1 {
    } else {
      TallyFrame(l, l', k, m, n - 1);
    }
  }

  /** Events once written keep their tally. */
  lemma LaterTally(l: Log.Log, l': Log.Log, k: RunKey, m: Measure)
    requires LogProofs.LogInv(l) && LogProofs.Later(l, l') && k in l.next
    ensures Tally(l', k, m, l.next[k]) == Tally(l, k, m, l.next[k])
  {
    TallyFrame(l, l', k, m, l.next[k]);
  }

  lemma AppendOneTally(l: Log.Log, k: RunKey, note: Note, revision: int, state: RunState, now: int, m: Measure)
    requires LogProofs.LogInv(l) && k in l.next
    ensures var l' := Log.Append(l, k, note, revision, state, now);
            Tally(l', k, m, l'.next[k]) == Tally(l, k, m, l.next[k]) + (if Counts(m, note.kind) then 1 else 0)
  {
    LogProofs.AppendKeeps(l, k, note, revision, state, now);
    hide LogProofs.DeliveryInv, LogProofs.EventLater, LogProofs.Ordered;
    assert l.next[k] >= 1;
    hide Counts;
    LaterTally(l, Log.Append(l, k, note, revision, state, now), k, m);
    hide LogProofs.LogInv, LogProofs.Later;
  }

  lemma {:induction false} AppendTally(l: Log.Log, k: RunKey, notes: seq<Note>, revision: int, state: RunState,
      now: int, m: Measure)
    requires LogProofs.LogInv(l) && k in l.next
    ensures var l' := Log.AppendAll(l, k, notes, revision, state, now);
            && k in l'.next && Tally(l', k, m, l'.next[k]) == Tally(l, k, m, l.next[k]) + NotesTally(notes, m)
    decreases |notes|
  {
    if notes == [] {
    } else {
      LogProofs.AppendKeeps(l, k, notes[0], revision, state, now);
      hide LogProofs.LogInv, LogProofs.Later, Counts, Tally;
      AppendOneTally(l, k, notes[0], revision, state, now, m);
      AppendTally(Log.Append(l, k, notes[0], revision, state, now), k, notes[1..], revision, state, now, m);
    }
  }

  lemma {:induction false} AppendTells(l: Log.Log, k: RunKey, notes: seq<Note>, revision: int, state: RunState,
      now: int)
    requires LogProofs.LogInv(l) && k in l.next && notes != []
    ensures var l' := Log.AppendAll(l, k, notes, revision, state, now);
            && k in l'.next
            && var last := Log.EventKey(k, l'.next[k] - 1);
               last in l'.events && l'.events[last].revision == revision && l'.events[last].state == state
    decreases |notes|
  {
    var next := Log.Append(l, k, notes[0], revision, state, now);
    LogProofs.AppendKeeps(l, k, notes[0], revision, state, now);
    if |notes| == 1 {
      assert notes[1..] == [];
    } else {
      AppendTells(next, k, notes[1..], revision, state, now);
    }
  }

  lemma {:induction false} AppendElsewhere(l: Log.Log, k: RunKey, notes: seq<Note>, revision: int, state: RunState,
      now: int, o: RunKey)
    requires k in l.next && o != k
    ensures var l' := Log.AppendAll(l, k, notes, revision, state, now);
            && (o in l'.next <==> o in l.next) && (o in l.next ==> l'.next[o] == l.next[o])
            && (forall s :: Log.EventKey(o, s) in l'.events <==> Log.EventKey(o, s) in l.events)
            && (forall s | Log.EventKey(o, s) in l.events ::
                l'.events[Log.EventKey(o, s)] == l.events[Log.EventKey(o, s)])
    decreases |notes|
  {
    if notes == [] {
    } else {
      AppendElsewhere(Log.Append(l, k, notes[0], revision, state, now), k, notes[1..], revision, state, now, o);
    }
  }

  // -------------------------------------------------- what a verdict writes

  /** Only run `k` changes, by as many revisions as there are counting events. */
  ghost predicate GateWrite(g: Gate.Gate, k: RunKey, h: Gate.Gate, notes: seq<Note>) {
    && k in h.runs && h.runs.Keys == g.runs.Keys + {k}
    && (forall o | o in g.runs && o != k :: h.runs[o] == g.runs[o])
    && h.runs[k].revision == (if k in g.runs then g.runs[k].revision else 0) + NotesTally(notes, Revisions)
    && (forall m: Measure | !m.Revisions? :: NotesTally(notes, m) == 0)
    && (notes == [] ==> k in g.runs && h.runs[k] == g.runs[k])
  }

  /** A lifecycle transaction writes one counting event exactly when it raises the revision. */
  lemma GateWrites(g: Gate.Gate, k: RunKey, c: Gate.GateCommand, now: int, h: Gate.Gate, notes: seq<Note>)
    requires Gate.Decide(g, k, c, now) == Gate.Write(h, notes)
    ensures GateWrite(g, k, h, notes)
  {
    if c.Transition? || c.RecordApproval? || c.CommitSeal? || c.CreateRelease? {
      MoveWrites(g, k, c, now, h, notes);
    } else {
      OtherGateWrites(g, k, c, now, h, notes);
    }
    hide Gate.Decide, NotesTally;
  }

  lemma MoveWrites(g: Gate.Gate, k: RunKey, c: Gate.GateCommand, now: int, h: Gate.Gate, notes: seq<Note>)
    requires Gate.Decide(g, k, c, now) == Gate.Write(h, notes)
    requires c.Transition? || c.RecordApproval? || c.CommitSeal? || c.CreateRelease?
    ensures GateWrite(g, k, h, notes)
  {}

  lemma OtherGateWrites(g: Gate.Gate, k: RunKey, c: Gate.GateCommand, now: int, h: Gate.Gate, notes: seq<Note>)
    requires Gate.Decide(g, k, c, now) == Gate.Write(h, notes)
    requires !c.Transition? && !c.RecordApproval? && !c.CommitSeal? && !c.CreateRelease?
    ensures GateWrite(g, k, h, notes)
  {}

  lemma {:induction false} RecoverWrites(w: Work.Work, k: RunKey, found: seq<Id>, delay: int, now: int)
    requires Work.RecoverAll(w, k, found, delay, now).Some?
    ensures var done := Work.RecoverAll(w, k, found, delay, now).value;
            && done.0.attempts.Keys == w.attempts.Keys && done.0.effects == w.effects
            && forall m: Measure :: NotesTally(done.1, m) == 0
    decreases |found|
  {
    if found == [] {
    } else {
      var next := Work.RecoverRow(w, k, found[0], delay, now);
      RecoverWrites(next, k, found[1..], delay, now);
      var rest := Work.RecoverAll(next, k, found[1..], delay, now).value.1;
      forall m: Measure ensures NotesTally(Work.RecoverNotes(w, k, found[0]) + rest, m) == 0 {
        TallyConcat(Work.RecoverNotes(w, k, found[0]), rest, m);
      }
    }
  }

  lemma {:induction false} TallyConcat(a: seq<Note>, b: seq<Note>, m: Measure)
    ensures NotesTally(a + b, m) == NotesTally(a, m) + NotesTally(b, m)
  {
    if a == [] {
      assert a + b == b;
    } else {
      assert (a + b)[1..] == a[1..] + b;
      TallyConcat(a[1..], b, m);
    }
  }

  /** The rows a work transaction adds, run by run. */
  ghost predicate WorkMoves(w: Work.Work, u: Work.Work, owner: RunKey, notes: seq<Note>) {
    forall o: RunKey, m: Measure :: !m.Revisions? ==>
        WorkLevel(u, o, m) == WorkLevel(w, o, m) + (if o == owner then NotesTally(notes, m) else 0)
  }

  lemma SameRowsMove(w: Work.Work, u: Work.Work, owner: RunKey, notes: seq<Note>)
    requires u.attempts.Keys == w.attempts.Keys && u.effects == w.effects
    requires forall m: Measure :: !m.Revisions? ==> NotesTally(notes, m) == 0
    ensures WorkMoves(w, u, owner, notes)
  {
    forall o
      ensures AttemptsOf(u, o) == AttemptsOf(w, o) && EffectsOf(u, o) == EffectsOf(w, o)
      ensures CommittedOf(u, o) == CommittedOf(w, o)
    {}
  }

  lemma OneStartMoves(w: Work.Work, u: Work.Work, a: Work.AttemptKey, notes: seq<Note>)
    requires a !in w.attempts && u.attempts.Keys == w.attempts.Keys + {a} && u.effects == w.effects
    requires forall m: Measure :: !m.Revisions? ==> NotesTally(notes, m) == if m.Starts? then 1 else 0
    ensures WorkMoves(w, u, a.run, notes)
  {
    hide NotesTally;
    forall o: RunKey, m: Measure | !m.Revisions?
      ensures WorkLevel(u, o, m) == WorkLevel(w, o, m) + (if o == a.run then NotesTally(notes, m) else 0)
    {
      OneStartSets(w, u, a, o);
    }
  }

  lemma OneStartSets(w: Work.Work, u: Work.Work, a: Work.AttemptKey, o: RunKey)
    requires a !in w.attempts && u.attempts.Keys == w.attempts.Keys + {a} && u.effects == w.effects
    ensures |AttemptsOf(u, o)| == |AttemptsOf(w, o)| + (if o == a.run then 1 else 0)
    ensures EffectsOf(u, o) == EffectsOf(w, o) && CommittedOf(u, o) == CommittedOf(w, o)
  {
    assert AttemptsOf(u, o) == AttemptsOf(w, o) + (if o == a.run then {a} else {});
    assert a !in AttemptsOf(w, o);
  }

  lemma OneEffectMoves(w: Work.Work, u: Work.Work, e: TenantKey, notes: seq<Note>)
    requires e in u.effects && u == w.(effects := w.effects[e := u.effects[e]])
    requires e in w.effects ==>
             u.effects[e].run == w.effects[e].run && !Filled(w.effects[e].result) && Filled(u.effects[e].result)
    requires e !in w.effects ==> !Filled(u.effects[e].result)
    requires forall m: Measure :: !m.Revisions? ==>
               NotesTally(notes, m) == if (if e in w.effects then m.Commitments? else m.Reservations?) then 1 else 0
    ensures WorkMoves(w, u, RunKey(e.tenant, u.effects[e].run), notes)
  {
    var owner := RunKey(e.tenant, u.effects[e].run);
    forall o: RunKey, m: Measure | !m.Revisions?
      ensures WorkLevel(u, o, m) == WorkLevel(w, o, m) + (if o == owner then NotesTally(notes, m) else 0)
    {
      assert AttemptsOf(u, o) == AttemptsOf(w, o);
      OneEffectCounts(w, u, e, o);
    }
  }

  /** `e` is the one effect row that is new or differs. */
  predicate OneEffect(w: Work.Work, u: Work.Work, e: TenantKey) {
    && e in u.effects && u.effects.Keys == w.effects.Keys + {e}
    && (forall x | x in w.effects && x != e :: u.effects[x] == w.effects[x])
    && if e in w.effects
       then u.effects[e].run == w.effects[e].run && !Filled(w.effects[e].result) && Filled(u.effects[e].result)
       else !Filled(u.effects[e].result)
  }

  lemma OneEffectCounts(w: Work.Work, u: Work.Work, e: TenantKey, o: RunKey)
    requires OneEffect(w, u, e)
    ensures var own := o == RunKey(e.tenant, u.effects[e].run);
            && |EffectsOf(u, o)| == |EffectsOf(w, o)| + (if own && e !in w.effects then 1 else 0)
            && |CommittedOf(u, o)| == |CommittedOf(w, o)| + (if own && e in w.effects then 1 else 0)
  {
    var own := o == RunKey(e.tenant, u.effects[e].run);
    EffectSets(w, u, e, o);
    hide OneEffect;
    if own && e !in w.effects { assert e !in EffectsOf(w, o); }
    if own && e in w.effects { assert e !in CommittedOf(w, o); }
  }

  lemma EffectSets(w: Work.Work, u: Work.Work, e: TenantKey, o: RunKey)
    requires OneEffect(w, u, e)
    ensures var own := o == RunKey(e.tenant, u.effects[e].run);
            && EffectsOf(u, o) == EffectsOf(w, o) + (if own && e !in w.effects then {e} else {})
            && CommittedOf(u, o) == CommittedOf(w, o) + (if own && e in w.effects then {e} else {})
            && (own && e !in w.effects ==> e !in EffectsOf(w, o))
            && (own && e in w.effects ==> e !in CommittedOf(w, o))
  {
  }

  lemma WorkWrites(w: Work.Work, k: RunKey, standing: Work.Standing, c: Work.WorkCommand, now: int)
    requires Work.Decide(w, k, standing, c, now).Write?
    ensures var v := Work.Decide(w, k, standing, c, now);
            WorkMoves(w, v.work, v.run, v.notes) && NotesTally(v.notes, Revisions) == 0
  {
    var v := Work.Decide(w, k, standing, c, now);
    if c.Recover? {
      RecoverWrites(w, k, c.found, c.delay, now);
      hide WorkMoves;
      SameRowsMove(w, v.work, v.run, v.notes);
    } else if c.Claim? {
      hide WorkMoves;
      ClaimWrites(w, k, c, now);
    } else {
      OtherWrites(w, k, standing, c, now);
    }
  }

  lemma OtherWrites(w: Work.Work, k: RunKey, standing: Work.Standing, c: Work.WorkCommand, now: int)
    requires Work.Decide(w, k, standing, c, now).Write? && !c.Recover? && !c.Claim?
    ensures var v := Work.Decide(w, k, standing, c, now);
            WorkMoves(w, v.work, v.run, v.notes) && NotesTally(v.notes, Revisions) == 0
  {
    hide WorkMoves, Work.Holds, NotesTally, Work.ClaimTx, Work.RecoverTx, AttemptsOf, EffectsOf, CommittedOf, WorkLevel;
    var v := Work.Decide(w, k, standing, c, now);
    assert |v.notes| <= 2;
    forall m: Measure ensures NotesTally(v.notes, m) ==
      (if |v.notes| > 0 && Counts(m, v.notes[0].kind) then 1 else 0)
          + (if |v.notes| > 1 && Counts(m, v.notes[1].kind) then 1 else 0)
    {
      SmallTally(v.notes, m);
    }
    if (c.Reserve? || c.CommitEffect?) && v.notes != [] {
      OneEffectMoves(w, v.work, TenantKey(k.tenant, c.effect), v.notes);
    } else {
      SameRowsMove(w, v.work, v.run, v.notes);
    }
  }

  lemma SmallTally(notes: seq<Note>, m: Measure)
    requires |notes| <= 2
    ensures NotesTally(notes, m)
         == (if |notes| > 0 && Counts(m, notes[0].kind) then 1 else 0)
             + (if |notes| > 1 && Counts(m, notes[1].kind) then 1 else 0)
  {
    if |notes| == 1 { assert notes[1..] == []; }
    if |notes| == 2 { assert notes[1..][1..] == [] && notes[1..][0] == notes[1]; }
  }

  lemma ClaimWrites(w: Work.Work, k: RunKey, c: Work.WorkCommand, now: int)
    requires c.Claim? && Work.ClaimTx(w, k, c, now).Write?
    ensures var v := Work.ClaimTx(w, k, c, now);
            WorkMoves(w, v.work, v.run, v.notes) && NotesTally(v.notes, Revisions) == 0
  {
    var v := Work.ClaimTx(w, k, c, now);
    hide WorkMoves, NotesTally, Work.Endable;
    assert |v.notes| <= 2;
    forall m: Measure ensures NotesTally(v.notes, m) ==
      (if |v.notes| > 0 && Counts(m, v.notes[0].kind) then 1 else 0)
          + (if |v.notes| > 1 && Counts(m, v.notes[1].kind) then 1 else 0)
    {
      SmallTally(v.notes, m);
    }
    if v.reply.Granted? {
      OneStartMoves(w, v.work, Work.AttemptKey(k, c.attempt), v.notes);
    } else {
      SameRowsMove(w, v.work, v.run, v.notes);
    }
  }

  // -------------------------------------------------------------- the steps

  /** The commit of one transaction's events keeps every run accounted for. */
  lemma CommitAccounts(db: Db, after: Db, k: RunKey, notes: seq<Note>, now: int)
    requires LedgerInv(db) && DbInv(after) && k in after.gate.runs
    requires after.gate.runs.Keys == db.gate.runs.Keys + {k}
    requires forall o | o in db.gate.runs && o != k :: after.gate.runs[o] == db.gate.runs[o]
    requires after.gate.runs[k].revision
         == (if k in db.gate.runs then db.gate.runs[k].revision else 0) + NotesTally(notes, Revisions)
    requires WorkMoves(db.work, after.work, k, notes)
    requires notes == [] ==> k in db.gate.runs && after.gate.runs[k] == db.gate.runs[k]
    requires k !in db.gate.runs ==> forall m: Measure | !m.Revisions? :: WorkLevel(db.work, k, m) == 0
    requires var base := if k in db.log.next then db.log else Log.Open(db.log, k);
             after.log == Log.AppendAll(base, k, notes, after.gate.runs[k].revision, after.gate.runs[k].state, now)
    ensures LedgerInv(after)
  {
    var base := if k in db.log.next then db.log else Log.Open(db.log, k);
    if k !in db.log.next { LogProofs.OpenKeeps(db.log, k); }
    var run := after.gate.runs[k];
    forall o | o in after.gate.runs ensures o in after.log.next && Accounted(after, o) && ToldLast(after, o) {
      if o == k {
        CommitOwn(db, after, k, notes, now, base);
      } else {
        AppendElsewhere(base, k, notes, run.revision, run.state, now, o);
        assert Accounted(db, o) && ToldLast(db, o);
        CommitOther(db, after, k, notes, o);
      }
    }
  }

  lemma CommitOther(db: Db, after: Db, k: RunKey, notes: seq<Note>, o: RunKey)
    requires o in db.gate.runs && o in db.log.next && Accounted(db, o) && ToldLast(db, o)
    requires forall s | 1 <= s < db.log.next[o] :: Log.EventKey(o, s) in db.log.events
    requires o != k && o in after.gate.runs && after.gate.runs[o] == db.gate.runs[o]
    requires WorkMoves(db.work, after.work, k, notes)
    requires o in after.log.next && after.log.next[o] == db.log.next[o]
    requires forall s | Log.EventKey(o, s) in db.log.events ::
               Log.EventKey(o, s) in after.log.events
               && after.log.events[Log.EventKey(o, s)] == db.log.events[Log.EventKey(o, s)]
    ensures Accounted(after, o) && ToldLast(after, o)
  {
    hide WorkLevel, Counts;
    forall m: Measure ensures Tally(after.log, o, m, after.log.next[o]) == Level(after, o, m) {
      TallyFrame(db.log, after.log, o, m, db.log.next[o]);
    }
  }

  lemma CommitOwn(db: Db, after: Db, k: RunKey, notes: seq<Note>, now: int, base: Log.Log)
    requires k in db.gate.runs <==> k in db.log.next
    requires k in db.gate.runs ==> Accounted(db, k) && ToldLast(db, k)
    requires k in after.gate.runs && LogProofs.LogInv(base) && k in base.next
    requires base == if k in db.log.next then db.log else Log.Open(db.log, k)
    requires after.gate.runs[k].revision
         == (if k in db.gate.runs then db.gate.runs[k].revision else 0) + NotesTally(notes, Revisions)
    requires WorkMoves(db.work, after.work, k, notes)
    requires notes == [] ==> k in db.gate.runs && after.gate.runs[k] == db.gate.runs[k]
    requires k !in db.gate.runs ==> forall m: Measure | !m.Revisions? :: WorkLevel(db.work, k, m) == 0
    requires after.log == Log.AppendAll(base, k, notes, after.gate.runs[k].revision, after.gate.runs[k].state, now)
    ensures k in after.log.next && Accounted(after, k) && ToldLast(after, k)
  {
    var run := after.gate.runs[k];
    hide LogProofs.LogInv, WorkLevel, Counts;
    forall m: Measure ensures k in after.log.next && Tally(after.log, k, m, after.log.next[k]) == Level(after, k, m) {
      AppendTally(base, k, notes, run.revision, run.state, now, m);
      hide Log.AppendAll, ToldLast;
      if k !in db.gate.runs { assert Tally(base, k, m, base.next[k]) == 0; }
    }
    if notes != [] { AppendTells(base, k, notes, run.revision, run.state, now); }
  }

  lemma OutboxAccounts(db: Db, c: Log.OutboxCommand, now: int)
    requires LedgerInv(db) && DbInv(db.(log := Log.Outbox(db.log, c, now).log))
    ensures LedgerInv(db.(log := Log.Outbox(db.log, c, now).log))
  {
    var after := db.(log := Log.Outbox(db.log, c, now).log);
    OutboxKeepsRuns(db.log, c, now);
    LogProofs.OutboxKeeps(db.log, c, now);
    hide Log.Outbox;
    forall k | k in after.gate.runs ensures k in after.log.next && Accounted(after, k) && ToldLast(after, k) {
      assert Accounted(db, k) && ToldLast(db, k);
      hide LedgerInv, DbInv;
      OutboxRun(db, after, k);
    }
  }

  lemma OutboxRun(db: Db, after: Db, k: RunKey)
    requires k in db.gate.runs && k in db.log.next && Accounted(db, k) && ToldLast(db, k)
    requires after == db.(log := after.log)
    requires LogProofs.LogInv(db.log) && LogProofs.Later(db.log, after.log) && after.log.next == db.log.next
    ensures Accounted(after, k) && ToldLast(after, k)
  {
    assert ToldLast(after, k);
    hide ToldLast;
    forall m: Measure ensures Tally(after.log, k, m, after.log.next[k]) == Level(after, k, m) {
      LaterTally(db.log, after.log, k, m);
    }
  }

  lemma NoRunNoRows(db: Db, k: RunKey)
    requires DbInv(db) && k !in db.gate.runs
    ensures forall m: Measure | !m.Revisions? :: WorkLevel(db.work, k, m) == 0
  {
    forall a | a in db.work.attempts ensures a.run != k { assert WorkProofs.AttemptInv(db.work, a); }
    forall e | e in db.work.effects ensures RunKey(e.tenant, db.work.effects[e].run) != k {
      assert WorkProofs.EffectInv(db.work, e);
    }
    assert AttemptsOf(db.work, k) == {} && EffectsOf(db.work, k) == {} && CommittedOf(db.work, k) == {};
  }

  lemma GateCommitAccounts(db: Db, k: RunKey, c: Gate.GateCommand, now: int, gate: Gate.Gate, notes: seq<Note>,
      after: Db)
    requires LedgerInv(db) && Gate.Decide(db.gate, k, c, now) == Gate.Write(gate, notes) && k in gate.runs
    requires after == CommitGate(db, k, gate, notes, now).(stored := after.stored) && DbInv(after)
    ensures LedgerInv(after)
  {
    GateWrites(db.gate, k, c, now, gate, notes);
    if k !in db.gate.runs { NoRunNoRows(db, k); }
    hide Gate.Decide;
    assert WorkMoves(db.work, after.work, k, notes);
    hide LedgerInv, DbInv, WorkMoves, WorkLevel;
    CommitAccounts(db, after, k, notes, now);
  }

  lemma LifecycleAccounts(db: Db, k: RunKey, c: Gate.GateCommand, key: Id, request: Id, now: int)
    requires LedgerInv(db) && DbInv(LifecycleTx(db, k, c, key, request, now).db)
    ensures LedgerInv(LifecycleTx(db, k, c, key, request, now).db)
  {
    hide LedgerInv, DbInv, Gate.Decide;
    var verdict := Gate.Decide(db.gate, k, c, now);
    var after := LifecycleTx(db, k, c, key, request, now).db;
    if verdict.Write? && k in verdict.gate.runs && after != db {
      assert after == CommitGate(db, k, verdict.gate, verdict.notes, now).(stored := after.stored);
      hide LifecycleTx;
      GateCommitAccounts(db, k, c, now, verdict.gate, verdict.notes, after);
    }
  }

  lemma TaskAccounts(db: Db, k: RunKey, c: Work.WorkCommand, now: int)
    requires LedgerInv(db) && DbInv(TaskTx(db, k, c, now).db)
    ensures LedgerInv(TaskTx(db, k, c, now).db)
  {
    assert db.gate.runs.Keys == db.log.next.Keys;
    hide LedgerInv, DbInv, Work.Decide, StandingOf, WorkMoves, WorkLevel, Log.AppendAll;
    var verdict := Work.Decide(db.work, k, StandingOf(db.gate, k), c, now);
    var after := TaskTx(db, k, c, now).db;
    if after != db {
      WorkWrites(db.work, k, StandingOf(db.gate, k), c, now);
      if verdict.run in db.gate.runs {
        assert verdict.run in db.log.next;
        hide TaskTx;
        TaskCommitAccounts(db, after, verdict.run, verdict.notes, now);
      } else {
        hide TaskTx;
        QuietAccounts(db, verdict.work, verdict.run);
      }
    }
  }

  lemma TaskCommitAccounts(db: Db, after: Db, owner: RunKey, notes: seq<Note>, now: int)
    requires LedgerInv(db) && owner in db.gate.runs && owner in db.log.next
    requires var run := db.gate.runs[owner];
             after == db
             || after == db.(work := after.work,
                             log := Log.AppendAll(db.log, owner, notes, run.revision, run.state, now))
    requires WorkMoves(db.work, after.work, owner, notes) && NotesTally(notes, Revisions) == 0 && DbInv(after)
    ensures LedgerInv(after)
  {
    hide LedgerInv, DbInv, WorkMoves, WorkLevel;
    if after != db { CommitAccounts(db, after, owner, notes, now); }
  }

  lemma QuietAccounts(db: Db, work: Work.Work, owner: RunKey)
    requires LedgerInv(db) && WorkMoves(db.work, work, owner, []) && DbInv(db.(work := work))
    ensures LedgerInv(db.(work := work))
  {
    var after := db.(work := work);
    forall k | k in after.gate.runs ensures k in after.log.next && Accounted(after, k) && ToldLast(after, k) {
      assert Accounted(db, k) && ToldLast(db, k);
    }
  }

  lemma ApplyAccounts(db: Db, c: Command, now: int)
    requires LedgerInv(db)
    ensures LedgerInv(Apply(db, c, now).db)
  {
    ApplyKeeps(db, c, now);
    hide DbInv, Later, LifecycleTx, TaskTx, Log.Outbox;
    match c
    case Lifecycle(k, gate, key, request) => LifecycleAccounts(db, k, gate, key, request, now);
    case Task(k, work) => TaskAccounts(db, k, work, now);
    case Relay(outbox) => OutboxAccounts(db, outbox, now);
  }

  /** In every reachable state, the number of lifecycle events of a run is its
      revision, its `attempt.started` events are as many as its attempts, and its
      `effect.reserved` and `effect.committed` events as many as its effects and
      committed effects; its last event carries its current revision and state. */
  lemma {:induction false} LogAccountsForTables(db: Db, history: seq<Timed>)
    requires LedgerInv(db)
    ensures LedgerInv(Run(db, history))
    decreases |history|
  {
    if history == [] {
    } else {
      ApplyAccounts(db, history[0].command, history[0].now);
      hide LedgerInv, Apply;
      LogAccountsForTables(Apply(db, history[0].command, history[0].now).db, history[1..]);
    }
  }

  lemma EmptyAccounted()
    ensures LedgerInv(EMPTY)
  {
    EmptyHolds();
  }

  /** In every reachable database a run's revision, attempts, reserved and committed
      effects are as many as its events of those kinds, and its last event tells
      its revision and state. */
  lemma ReachableAccounted(history: seq<Timed>, k: RunKey, m: Measure)
    requires k in Run(EMPTY, history).gate.runs
    ensures var db := Run(EMPTY, history);
            && k in db.log.next && Level(db, k, m) == Tally(db.log, k, m, db.log.next[k])
            && ToldLast(db, k)
  {
    EmptyAccounted();
    LogAccountsForTables(EMPTY, history);
    hide Run, Level, Tally, ToldLast;
  }
}
