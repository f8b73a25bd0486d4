/** Which approved runs can still succeed: the exact condition, from every
    reachable database, for some continuation to reach success. */
module AuthorityOutlook {
  import opened Common
  import opened AuthorityTables
  import opened Authority
  import opened AuthorityHistory
  import Gate = AuthorityGate
  import GateProofs = AuthorityGateProofs
  import Work = AuthorityWork
  import Log = AuthorityLog

  // ------------------------------------------------------------- condition

  predicate LaunchFailed(g: Gate.Gate, k: RunKey, release: Id) {
    exists l :: l in g.launches && l.run == k && g.launches[l].release == release && !g.launches[l].launched
  }

  predicate ReconciliationFailed(g: Gate.Gate, k: RunKey, release: Id) {
    var row := Gate.ReleaseKey(k, release);
    row in g.reconciliations && !g.reconciliations[row].verified
  }

  /** The production decision was made about the plan itself. */
  predicate PlanDecided(g: Gate.Gate, k: RunKey)
    requires k in g.runs
  {
    var row := TenantKey(k.tenant, g.runs[k].approval);
    row in g.approvals && g.approvals[row].binding.subject == g.runs[k].plan
  }

  /** A run has succeeded, or is live and its release has failed neither at launch
      nor at reconciliation, or can still be released: it never left `approved`,
      and its production approval names the plan. */
  predicate Hopeful(g: Gate.Gate, k: RunKey)
    requires k in g.runs
  {
    var run := g.runs[k];
    || run.state.Succeeded?
    || (&& !Terminal(run.state)
        && if Filled(run.release) then !LaunchFailed(g, k, run.release) && !ReconciliationFailed(g, k, run.release)
           else run.state.Approved? && PlanDecided(g, k))
  }

  predicate SucceededIn(db: Db, k: RunKey) { k in db.gate.runs && db.gate.runs[k].state.Succeeded? }

  ghost predicate CanSucceed(db: Db, k: RunKey) { exists more :: SucceededIn(Run(db, more), k) }

  // -------------------------------------------------------- more invariants

  /** A release is launched at most once. */
  predicate OneLaunch(g: Gate.Gate) {
    forall l, m | l in g.launches && m in g.launches && l.run == m.run
                  && g.launches[l].release == g.launches[m].release :: l == m
  }

  predicate LaunchesNamed(g: Gate.Gate) { forall l | l in g.launches :: Filled(l.id) }

  predicate RunsScoped(g: Gate.Gate) { forall k | k in g.runs :: Scoped(k) }

  predicate Orderly(db: Db) {
    DbInv(db) && OneLaunch(db.gate) && LaunchesNamed(db.gate) && RunsScoped(db.gate)
  }

  lemma LaunchesFixed(g: Gate.Gate, k: RunKey, c: Gate.GateCommand, now: int, h: Gate.Gate, notes: seq<Note>)
    requires Gate.Decide(g, k, c, now) == Gate.Write(h, notes) && !c.RecordLaunch?
    ensures h.launches == g.launches
  {}

  lemma LaunchAdded(g: Gate.Gate, k: RunKey, c: Gate.GateCommand, now: int, h: Gate.Gate, notes: seq<Note>)
    requires Gate.Decide(g, k, c, now) == Gate.Write(h, notes) && c.RecordLaunch?
    ensures Filled(c.launch) && !Gate.ReleaseLaunched(g, k, c.release)
    ensures h.launches == g.launches[Gate.LaunchKey(k, c.launch) :=
                            Gate.Launch(c.release, c.request, c.launched, c.operation, c.result)]
  {}

  lemma DecideOrderly(g: Gate.Gate, k: RunKey, c: Gate.GateCommand, now: int, h: Gate.Gate, notes: seq<Note>)
    requires Gate.Decide(g, k, c, now) == Gate.Write(h, notes) && OneLaunch(g) && LaunchesNamed(g)
    ensures OneLaunch(h) && LaunchesNamed(h)
  {
    hide Gate.Decide;
    if c.RecordLaunch? {
      LaunchAdded(g, k, c, now, h, notes);
    } else {
      LaunchesFixed(g, k, c, now, h, notes);
    }
  }

  /** A command leaves the lifecycle tables alone, or writes what its verdict says. */
  lemma GateAfter(db: Db, c: Command, now: int)
    requires DbInv(db)
    ensures var g, h := db.gate, Apply(db, c, now).db.gate;
            || h == g
            || (&& c.Lifecycle? && Scoped(c.run) && Gate.Decide(g, c.run, c.gate, now).Write?
                && h == Gate.Decide(g, c.run, c.gate, now).gate && h.runs.Keys == g.runs.Keys + {c.run})
  {
    hide Gate.WellFormed, Work.Decide, Log.AppendAll, Log.Outbox, GateProofs.Later;
    if c.Lifecycle? {
      var v := Gate.Decide(db.gate, c.run, c.gate, now);
      if v.Write? { GateDecided(db.gate, c.run, c.gate, now, v.gate, v.notes); }
    }
    hide Gate.Decide, GateProofs.GateInv;
  }

  lemma ApplyOrderly(db: Db, c: Command, now: int)
    requires Orderly(db)
    ensures Orderly(Apply(db, c, now).db)
  {
    hide Apply, Gate.Decide, DbInv, OneLaunch, LaunchesNamed;
    ApplyKeeps(db, c, now);
    GateAfter(db, c, now);
    var h := Apply(db, c, now).db.gate;
    if h != db.gate {
      DecideOrderly(db.gate, c.run, c.gate, now, h, Gate.Decide(db.gate, c.run, c.gate, now).notes);
    }
  }

  lemma {:induction false} HistoryOrderly(db: Db, history: seq<Timed>)
    requires Orderly(db)
    ensures Orderly(Run(db, history))
    decreases |history|
  {
    hide Apply, Orderly;
    if history == [] {
    } else {
      ApplyOrderly(db, history[0].command, history[0].now);
      HistoryOrderly(Apply(db, history[0].command, history[0].now).db, history[1..]);
    }
  }

  lemma OrderlyIsSound(db: Db)
    requires Orderly(db)
    ensures DbInv(db)
  {}

  lemma EmptyOrderly()
    ensures Orderly(EMPTY)
  {
    EmptyHolds();
  }

  // ------------------------------------------------ without hope, no success

  lemma ReleasedOnlyApproved(g: Gate.Gate, o: RunKey, c: Gate.GateCommand, now: int, h: Gate.Gate, notes: seq<Note>,
                             k: RunKey)
    requires Gate.Decide(g, o, c, now) == Gate.Write(h, notes) && k in g.runs && k in h.runs
    requires !Filled(g.runs[k].release) && Filled(h.runs[k].release)
    ensures g.runs[k].state.Approved?
  {}

  lemma ProvenLaunch(g: Gate.Gate, k: RunKey, release: Id)
    requires OneLaunch(g) && GateProofs.Proven(g, k, release)
    ensures !LaunchFailed(g, k, release) && !ReconciliationFailed(g, k, release)
  {}

  /** A hopeless run stays hopeless, and without a release if it has none. */
  lemma DoomStays(g: Gate.Gate, o: RunKey, c: Gate.GateCommand, now: int, h: Gate.Gate, notes: seq<Note>, k: RunKey)
    requires Gate.Decide(g, o, c, now) == Gate.Write(h, notes) && GateProofs.GateInv(g)
    requires k in g.runs && Filled(g.runs[k].approval) && !Hopeful(g, k)
    requires OneLaunch(h) || !Filled(g.runs[k].release)
    ensures k in h.runs && Filled(h.runs[k].approval) && !Hopeful(h, k)
    ensures !Filled(g.runs[k].release) ==> !Filled(h.runs[k].release)
  {
    GateProofs.DecideKeeps(g, o, c, now, h, notes);
    GateProofs.StepIsLater(g, h, o);
    hide Gate.Decide, GateProofs.NonceInv, GateProofs.ApprovalInv, GateProofs.FactsInv, GateProofs.Sealed,
        GateProofs.SomeRejection, OneLaunch, GateProofs.Frozen;
    assert GateProofs.RunInv(g, k) && GateProofs.RunInv(h, k);
    var run, next := g.runs[k], h.runs[k];
    DoomMoves(g, h, o, k);
    if !Filled(run.release) && Filled(next.release) { ReleasedOnlyApproved(g, o, c, now, h, notes, k); }
    if next.state.Succeeded? && Filled(run.release) { ProvenLaunch(h, k, next.release); }
    hide GateProofs.RunInv, GateProofs.Proven, GateProofs.Step, GateProofs.Later;
  }

  /** What one step can do to a run with an approval. */
  lemma DoomMoves(g: Gate.Gate, h: Gate.Gate, o: RunKey, k: RunKey)
    requires GateProofs.Step(g, h, o) && k in g.runs && GateProofs.RunInv(g, k) && Filled(g.runs[k].approval)
    ensures k in h.runs && h.runs[k].approval == g.runs[k].approval && h.runs[k].plan == g.runs[k].plan
    ensures Filled(g.runs[k].release) ==> h.runs[k].release == g.runs[k].release
    ensures LaunchFailed(g, k, g.runs[k].release) ==> LaunchFailed(h, k, g.runs[k].release)
    ensures ReconciliationFailed(g, k, g.runs[k].release) ==> ReconciliationFailed(h, k, g.runs[k].release)
    ensures PlanDecided(h, k) ==> PlanDecided(g, k)
    ensures Terminal(g.runs[k].state) ==> h.runs[k] == g.runs[k]
    ensures h.runs[k].state.Approved? ==> g.runs[k].state.Approved?
  {
    if LaunchFailed(g, k, g.runs[k].release) {
      var l :| l in g.launches && l.run == k && g.launches[l].release == g.runs[k].release && !g.launches[l].launched;
      assert l in h.launches && h.launches[l] == g.launches[l];
    }
    assert GateProofs.Sealed(g, k);
  }

  lemma {:induction false} DoomedNeverSucceeds(db: Db, history: seq<Timed>, k: RunKey)
    requires DbInv(db) && k in db.gate.runs && Filled(db.gate.runs[k].approval) && !Hopeful(db.gate, k)
    requires Orderly(db) || !Filled(db.gate.runs[k].release)
    ensures k in Run(db, history).gate.runs && !SucceededIn(Run(db, history), k)
    decreases |history|
  {
    if history == [] {
    } else {
      var c, now := history[0].command, history[0].now;
      var next := Apply(db, c, now).db;
      ApplyKeeps(db, c, now);
      if Orderly(db) { ApplyOrderly(db, c, now); }
      GateAfter(db, c, now);
      hide Apply, Hopeful, Gate.Decide, DbInv;
      if next.gate != db.gate {
        DoomStays(db.gate, c.run, c.gate, now, next.gate, Gate.Decide(db.gate, c.run, c.gate, now).notes, k);
      }
      hide Orderly;
      DoomedNeverSucceeds(next, history[1..], k);
    }
  }

  // ------------------------------------------------- with hope, a way there

  lemma {:induction false} LengthBound(ids: set<Id>) returns (n: nat)
    ensures forall id | id in ids && id.Text? :: |id.text| < n
    decreases |ids|
  {
    if ids == {} {
      n := 0;
    } else {
      var id :| id in ids;
      var m := LengthBound(ids - {id});
      n := if id.Text? && |id.text| >= m then |id.text| + 1 else m;
    }
  }

  /** Identifiers never run out. */
  lemma Unused(ids: set<Id>) returns (id: Id)
    ensures Filled(id) && id !in ids
  {
    var n := LengthBound(ids);
    id := Text(seq(n, _ => 'x'));
  }

  lemma Ahead(db: Db, c: Command, k: RunKey)
    requires CanSucceed(Apply(db, c, 0).db, k)
    ensures CanSucceed(db, k)
  {
    hide Apply, SucceededIn;
    var more :| SucceededIn(Run(Apply(db, c, 0).db, more), k);
    var all := [Timed(c, 0)] + more;
    assert all[1..] == more;
    assert Run(db, all) == Run(Apply(db, c, 0).db, more);
  }

  lemma Arrived(db: Db, k: RunKey)
    requires SucceededIn(db, k)
    ensures CanSucceed(db, k)
  {
    assert Run(db, []) == db;
  }

  predicate Allowed(g: Gate.Gate, k: RunKey, c: Gate.GateCommand, h: Gate.Gate) {
    && Gate.WellFormed(c) && Gate.Decide(g, k, c, 0).Write? && Gate.Decide(g, k, c, 0).gate == h && k in h.runs
    && (c.RecordApproval? ==> Filled(c.binding.request))
  }

  /** A command the tables allow can be carried out under an unused key. */
  lemma Carried(db: Db, k: RunKey, c: Gate.GateCommand, h: Gate.Gate)
    returns (step: Command)
    requires Orderly(db) && (k in db.gate.runs || Scoped(k)) && Allowed(db.gate, k, c, h)
    ensures Apply(db, step, 0).db.gate == h && Orderly(Apply(db, step, 0).db)
  {
    var key := Unused(set row | row in db.stored :: row.key);
    step := Lifecycle(k, c, key, key);
    ApplyOrderly(db, step, 0);
    hide Orderly, OneLaunch, LaunchesNamed, DbInv;
    if k in db.gate.runs { ScopedRun(db, k); }
    AppliedGate(db, k, c, key, h);
  }

  lemma ScopedRun(db: Db, k: RunKey)
    requires Orderly(db) && k in db.gate.runs
    ensures Scoped(k)
  {}

  lemma AppliedGate(db: Db, k: RunKey, c: Gate.GateCommand, key: Id, h: Gate.Gate)
    requires Scoped(k) && Allowed(db.gate, k, c, h) && Filled(key) && forall row | row in db.stored :: row.key != key
    ensures Apply(db, Lifecycle(k, c, key, key), 0).db.gate == h
  {
    hide Gate.Decide, Gate.WellFormed, Log.AppendAll;
  }

  function Moved(g: Gate.Gate, k: RunKey, state: RunState): Gate.Gate
    requires k in g.runs
  {
    g.(runs := g.runs[k := g.runs[k].(state := state, revision := g.runs[k].revision + 1)])
  }

  lemma MayMove(g: Gate.Gate, k: RunKey, to: RunState)
    requires k in g.runs && g.runs[k].revision >= 1 && Filled(g.runs[k].plan)
    requires !Terminal(g.runs[k].state) && TransitionAllowed(g.runs[k].state, to) && !to.AwaitingApproval?
    requires to.Succeeded? ==> Filled(g.runs[k].release) && Gate.VerifiedRelease(g, k, g.runs[k].release)
    ensures Allowed(g, k, Gate.Transition(g.runs[k].revision, to, g.runs[k].plan, Null), Moved(g, k, to))
  {}

  predicate Going(g: Gate.Gate, k: RunKey) {
    k in g.runs && Filled(g.runs[k].release) && (g.runs[k].state.Approved? || g.runs[k].state.Running?)
  }

  lemma RunFacts(db: Db, k: RunKey)
    requires Orderly(db) && k in db.gate.runs && Filled(db.gate.runs[k].approval)
    ensures db.gate.runs[k].revision >= 1 && Filled(db.gate.runs[k].plan) && GateProofs.Sealed(db.gate, k)
    ensures !db.gate.runs[k].state.AwaitingApproval? && !db.gate.runs[k].state.Created?
  {
    assert GateProofs.RunInv(db.gate, k);
  }

  lemma ReleasedFacts(db: Db, k: RunKey)
    requires Orderly(db) && k in db.gate.runs && Filled(db.gate.runs[k].release)
    ensures Filled(db.gate.runs[k].approval)
  {
    assert GateProofs.RunInv(db.gate, k);
  }

  lemma VerifiedCanSucceed(db: Db, k: RunKey)
    requires Orderly(db) && Going(db.gate, k) && Gate.VerifiedRelease(db.gate, k, db.gate.runs[k].release)
    ensures CanSucceed(db, k)
  {
    hide Orderly, Allowed, Apply, Run, CanSucceed;
    ReleasedFacts(db, k);
    RunFacts(db, k);
    var run := db.gate.runs[k];
    MayMove(db.gate, k, Succeeded);
    var step := Carried(db, k, Gate.Transition(run.revision, Succeeded, run.plan, Null), Moved(db.gate, k, Succeeded));
    Arrived(Apply(db, step, 0).db, k);
    Ahead(db, step, k);
  }

  function WithReconciliation(g: Gate.Gate, k: RunKey, release: Id, launch: Id, id: Id): Gate.Gate {
    g.(reconciliations := g.reconciliations[Gate.ReleaseKey(k, release) :=
                                            Gate.Reconciliation(id, launch, true, id, id)])
  }

  lemma MayReconcile(g: Gate.Gate, k: RunKey, release: Id, launch: Id, id: Id)
    requires k in g.runs && g.runs[k].release == release && Filled(release) && Filled(launch) && Filled(id)
    requires Gate.LaunchKey(k, launch) in g.launches && g.launches[Gate.LaunchKey(k, launch)].launched
    requires g.launches[Gate.LaunchKey(k, launch)].release == release
    requires Gate.ReleaseKey(k, release) !in g.reconciliations
    requires forall r | r in g.reconciliations :: g.reconciliations[r].id != id
    ensures Allowed(g, k, Gate.RecordReconciliation(id, release, launch, true, id, id),
                    WithReconciliation(g, k, release, launch, id))
  {}

  lemma LaunchNamed(db: Db, l: Gate.LaunchKey)
    requires Orderly(db) && l in db.gate.launches
    ensures Filled(l.id) && l == Gate.LaunchKey(l.run, l.id)
  {}

  lemma FreshReconciliation(g: Gate.Gate) returns (id: Id)
    ensures Filled(id) && forall r | r in g.reconciliations :: g.reconciliations[r].id != id
  {
    id := Unused(set r | r in g.reconciliations :: g.reconciliations[r].id);
  }

  lemma UnreconciledCanSucceed(db: Db, k: RunKey, l: Gate.LaunchKey)
    requires Orderly(db) && Going(db.gate, k) && Gate.ReleaseKey(k, db.gate.runs[k].release) !in db.gate.reconciliations
    requires l in db.gate.launches && l.run == k && db.gate.launches[l].launched
    requires db.gate.launches[l].release == db.gate.runs[k].release
    ensures CanSucceed(db, k)
  {
    hide Orderly, Allowed, Apply, Run, CanSucceed;
    LaunchNamed(db, l);
    var g, release := db.gate, db.gate.runs[k].release;
    var id := FreshReconciliation(g);
    MayReconcile(g, k, release, l.id, id);
    var h := WithReconciliation(g, k, release, l.id, id);
    var step := Carried(db, k, Gate.RecordReconciliation(id, release, l.id, true, id, id), h);
    VerifiedCanSucceed(Apply(db, step, 0).db, k);
    Ahead(db, step, k);
  }

  lemma LaunchedCanSucceed(db: Db, k: RunKey, l: Gate.LaunchKey)
    requires Orderly(db) && Going(db.gate, k) && !ReconciliationFailed(db.gate, k, db.gate.runs[k].release)
    requires l in db.gate.launches && l.run == k && db.gate.launches[l].launched
    requires db.gate.launches[l].release == db.gate.runs[k].release
    ensures CanSucceed(db, k)
  {
    hide Orderly, CanSucceed;
    if Gate.ReleaseKey(k, db.gate.runs[k].release) in db.gate.reconciliations {
      VerifiedCanSucceed(db, k);
    } else {
      UnreconciledCanSucceed(db, k, l);
    }
  }

  function WithLaunch(g: Gate.Gate, k: RunKey, release: Id, id: Id): Gate.Gate {
    g.(launches := g.launches[Gate.LaunchKey(k, id) := Gate.Launch(release, id, true, id, id)])
  }

  lemma MayLaunch(g: Gate.Gate, k: RunKey, id: Id)
    requires Going(g, k) && Filled(id) && Gate.LaunchKey(k, id) !in g.launches
    requires !Gate.ReleaseLaunched(g, k, g.runs[k].release)
    ensures Allowed(g, k, Gate.RecordLaunch(id, g.runs[k].release, id, true, id, id),
                    WithLaunch(g, k, g.runs[k].release, id))
  {}

  lemma ReleasedCanSucceed(db: Db, k: RunKey)
    requires Orderly(db) && Going(db.gate, k)
    requires !LaunchFailed(db.gate, k, db.gate.runs[k].release)
    requires !ReconciliationFailed(db.gate, k, db.gate.runs[k].release)
    ensures CanSucceed(db, k)
  {
    hide Orderly, Allowed, Apply, Run, CanSucceed;
    var g, release := db.gate, db.gate.runs[k].release;
    if Gate.ReleaseLaunched(g, k, release) {
      var l :| l in g.launches && l.run == k && g.launches[l].release == release;
      LaunchedCanSucceed(db, k, l);
    } else {
      var id := Unused(set l | l in g.launches :: l.id);
      MayLaunch(g, k, id);
      var step := Carried(db, k, Gate.RecordLaunch(id, release, id, true, id, id), WithLaunch(g, k, release, id));
      LaunchedCanSucceed(Apply(db, step, 0).db, k, Gate.LaunchKey(k, id));
      Ahead(db, step, k);
    }
  }

  lemma PausedCanSucceed(db: Db, k: RunKey)
    requires Orderly(db) && k in db.gate.runs && db.gate.runs[k].state.AwaitingInput? && Filled(db.gate.runs[k].release)
    requires !LaunchFailed(db.gate, k, db.gate.runs[k].release)
    requires !ReconciliationFailed(db.gate, k, db.gate.runs[k].release)
    ensures CanSucceed(db, k)
  {
    hide Orderly, Allowed, Apply, Run, CanSucceed;
    ReleasedFacts(db, k);
    RunFacts(db, k);
    var run := db.gate.runs[k];
    MayMove(db.gate, k, Running);
    var step := Carried(db, k, Gate.Transition(run.revision, Running, run.plan, Null), Moved(db.gate, k, Running));
    ReleasedCanSucceed(Apply(db, step, 0).db, k);
    Ahead(db, step, k);
  }

  function WithRelease(g: Gate.Gate, k: RunKey, id: Id): Gate.Gate
    requires k in g.runs
  {
    var run := g.runs[k];
    g.(runs := g.runs[k := run.(release := id, revision := run.revision + 1)],
       releases := g.releases[TenantKey(k.tenant, id) := Gate.Release(k.run, run.approval, run.plan, id, id, id, id)])
  }

  lemma MayRelease(g: Gate.Gate, k: RunKey, id: Id)
    requires k in g.runs && g.runs[k].state.Approved? && !Filled(g.runs[k].release) && PlanDecided(g, k)
    requires GateProofs.Sealed(g, k) && g.runs[k].revision >= 1 && Filled(g.runs[k].plan) && Filled(id)
    requires forall r | r in g.releases :: r.id != id && g.releases[r].kind != id
    ensures var run := g.runs[k];
            Allowed(g, k, Gate.CreateRelease(id, run.approval, run.plan, id, id, id, id, run.revision),
                    WithRelease(g, k, id))
  {}

  lemma UnreleasedCanSucceed(db: Db, k: RunKey)
    requires Orderly(db) && k in db.gate.runs && db.gate.runs[k].state.Approved? && !Filled(db.gate.runs[k].release)
    requires Filled(db.gate.runs[k].approval) && PlanDecided(db.gate, k)
    ensures CanSucceed(db, k)
  {
    hide Orderly, Allowed, Apply, Run, CanSucceed;
    RunFacts(db, k);
    var g, run := db.gate, db.gate.runs[k];
    var id := Unused((set r | r in g.releases :: r.id) + (set r | r in g.releases :: g.releases[r].kind)
                     + (set l | l in g.launches :: g.launches[l].release)
                         + (set r | r in g.reconciliations :: r.release));
    MayRelease(g, k, id);
    var h := WithRelease(g, k, id);
    var step := Carried(db, k, Gate.CreateRelease(id, run.approval, run.plan, id, id, id, id, run.revision), h);
    NothingYet(g, h, k, id);
    ReleasedCanSucceed(Apply(db, step, 0).db, k);
    Ahead(db, step, k);
  }

  lemma NothingYet(g: Gate.Gate, h: Gate.Gate, k: RunKey, id: Id)
    requires h.launches == g.launches && h.reconciliations == g.reconciliations
    requires id !in (set l | l in g.launches :: g.launches[l].release)
    requires id !in (set r | r in g.reconciliations :: r.release)
    ensures !LaunchFailed(h, k, id) && !ReconciliationFailed(h, k, id)
  {
    assert forall r | r in g.reconciliations :: r.release in (set r | r in g.reconciliations :: r.release);
  }

  lemma HopefulCanSucceed(db: Db, k: RunKey)
    requires Orderly(db) && k in db.gate.runs && Filled(db.gate.runs[k].approval) && Hopeful(db.gate, k)
    ensures CanSucceed(db, k)
  {
    hide Orderly, CanSucceed, LaunchFailed, ReconciliationFailed, PlanDecided;
    RunFacts(db, k);
    var run := db.gate.runs[k];
    if run.state.Succeeded? {
      Arrived(db, k);
    } else if !Filled(run.release) {
      UnreleasedCanSucceed(db, k);
    } else if run.state.AwaitingInput? {
      PausedCanSucceed(db, k);
    } else {
      ReleasedCanSucceed(db, k);
    }
  }

  // ---------------------------------------------------------------- theorem

  /** From any reachable database, a run with an approval has a continuation to
      success if and only if it is hopeful. */
  lemma SuccessPossibleIff(history: seq<Timed>, k: RunKey)
    requires k in Run(EMPTY, history).gate.runs && Filled(Run(EMPTY, history).gate.runs[k].approval)
    ensures CanSucceed(Run(EMPTY, history), k) <==> Hopeful(Run(EMPTY, history).gate, k)
  {
    hide Run, Orderly, Hopeful, SucceededIn;
    EmptyOrderly();
    HistoryOrderly(EMPTY, history);
    var db := Run(EMPTY, history);
    assert DbInv(db) by { OrderlyIsSound(db); }
    hide DbInv;
    if Hopeful(db.gate, k) {
      HopefulCanSucceed(db, k);
    } else {
      forall more ensures !SucceededIn(Run(db, more), k) { DoomedNeverSucceeds(db, more, k); }
    }
  }
}
