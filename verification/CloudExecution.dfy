/** The trusted cloud execution of a portfolio, one port call at a time. A script
    supplies what the provider does at each call: the tables it shows, whether
    the call answers, and what it answers; a script that ends cuts the execution. */
module CloudExecution {
  import opened Common
  import opened CloudReconcile

  /** One source's bundle: its destination, job name, digest, lineage and size. */
  datatype Spec = Spec(table: Id, job: Id, bundle: Id, lineage: Lineage, count: nat)

  /** A call that fails may do so before or after it took effect. */
  datatype Answer = Normal | FailsBefore | FailsAfter

  datatype Moment = Moment(tables: map<Id, seq<Row>>, answer: Answer, text: Id)

  /** `jobs` lists, by name, every job ever launched. */
  datatype World = World(jobs: map<Id, seq<Id>>, script: seq<Moment>)

  datatype Code =
    | Cut | Storage | StorageBinding | ExistingLineage | OrphanLineage | JobId | Launching
    | JobFailed | Reconciliation | Verification | AuditFailed | AuditBinding

  const DONE := Text("JOB_STATE_DONE")

  /** The rows of this run and source in the table: the query asks for no others. */
  function RowsShown(m: Moment, spec: Spec): seq<Row> { if spec.table in m.tables then m.tables[spec.table] else [] }

  function JobsNamed(w: World, name: Id): seq<Id> { if name in w.jobs then w.jobs[name] else [] }

  function Launched(w: World, name: Id, id: Id): World { w.(jobs := w.jobs[name := JobsNamed(w, name) + [id]]) }

  function Step(w: World): World
    requires w.script != []
  {
    w.(script := w.script[1..])
  }

  // ---------------------------------------------------------------- phases

  /** Upload every content-addressed input before starting compute. */
  function Upload(w: World, specs: seq<Spec>): (World, Option<Code>)
    decreases |specs|
  {
    if specs == [] then (w, None)
    else if w.script == [] then (w, Some(Cut))
    else
      var m := w.script[0];
      if !m.answer.Normal? then (Step(w), Some(Storage))
      else if m.text != specs[0].bundle then (Step(w), Some(StorageBinding))
      else Upload(Step(w), specs[1..])
  }

  function Launch(w: World, spec: Spec): (World, Result<Id, Code>) {
    if w.script == [] then (w, Err(Cut))
    else
      var m := w.script[0];
      if m.answer.FailsBefore? then (Step(w), Err(Launching))
      else if m.answer.FailsAfter? then (Launched(Step(w), spec.job, m.text), Err(Launching))
      else (Launched(Step(w), spec.job, m.text), if Filled(m.text) then Ok(m.text) else Err(JobId))
  }

  /** Observe the table, look for a job of this name, launch only if there is none. */
  function ResolveOne(w: World, spec: Spec): (World, Result<Id, Code>) {
    if w.script == [] then (w, Err(Cut))
    else if !w.script[0].answer.Normal? then (Step(w), Err(Launching))
    else
      var before := Observe(RowsShown(w.script[0], spec));
      var found := Step(w);
      if found.script == [] then (found, Err(Cut))
      else if !found.script[0].answer.Normal? || |JobsNamed(found, spec.job)| > 1 then (Step(found), Err(Launching))
      else
        var ready := Step(found);
        if before != EMPTY_OBSERVATION && !Reconciles(before, spec.lineage, spec.count)
            then (ready, Err(ExistingLineage))
        else if JobsNamed(ready, spec.job) == [] then
          if before != EMPTY_OBSERVATION then (ready, Err(OrphanLineage)) else Launch(ready, spec)
        else
          var id := JobsNamed(ready, spec.job)[0];
          (ready, if Filled(id) then Ok(id) else Err(JobId))
  }

  function ResolveAll(w: World, specs: seq<Spec>): (World, Result<seq<Id>, Code>)
    decreases |specs|
  {
    if specs == [] then (w, Ok([]))
    else
      var (mid, first) := ResolveOne(w, specs[0]);
      if first.Err? then (mid, Err(first.error))
      else
        var (end, rest) := ResolveAll(mid, specs[1..]);
        (end, if rest.Err? then rest else Ok([first.value] + rest.value))
  }

  /** Wait for the job, then read the table and reconcile it; the rows read are the proof. */
  function VerifyOne(w: World, spec: Spec): (World, Result<seq<Row>, Code>) {
    if w.script == [] then (w, Err(Cut))
    else if !w.script[0].answer.Normal? then (Step(w), Err(Verification))
    else if w.script[0].text != DONE then (Step(w), Err(JobFailed))
    else
      var waited := Step(w);
      if waited.script == [] then (waited, Err(Cut))
      else if !waited.script[0].answer.Normal? then (Step(waited), Err(Verification))
      else
        var rows := RowsShown(waited.script[0], spec);
        (Step(waited), if Reconciles(Observe(rows), spec.lineage, spec.count) then Ok(rows) else Err(Reconciliation))
  }

  function VerifyAll(w: World, specs: seq<Spec>): (World, Result<seq<seq<Row>>, Code>)
    decreases |specs|
  {
    if specs == [] then (w, Ok([]))
    else
      var (mid, first) := VerifyOne(w, specs[0]);
      if first.Err? then (mid, Err(first.error))
      else
        var (end, rest) := VerifyAll(mid, specs[1..]);
        (end, if rest.Err? then rest else Ok([first.value] + rest.value))
  }

  function Audit(w: World, digest: Id): (World, Option<Code>) {
    if w.script == [] then (w, Some(Cut))
    else if !w.script[0].answer.Normal? then (Step(w), Some(AuditFailed))
    else (Step(w), if w.script[0].text != digest then Some(AuditBinding) else None)
  }

  /** The whole execution; success carries the rows each source was verified against.
      `audit` digests the results. */
  function Execute(w: World, specs: seq<Spec>, audit: seq<Id> -> Id): (World, Result<seq<seq<Row>>, Code>) {
    var (uploaded, refused) := Upload(w, specs);
    if refused.Some? then (uploaded, Err(refused.value))
    else
      var (resolved, ids) := ResolveAll(uploaded, specs);
      if ids.Err? then (resolved, Err(ids.error))
      else
        var (verified, rows) := VerifyAll(resolved, specs);
        if rows.Err? then (verified, rows)
        else
          var (audited, unbound) := Audit(verified, audit(ids.value));
          (audited, if unbound.Some? then Err(unbound.value) else rows)
  }

  // -------------------------------------------------- at most one job a name

  predicate OneJobPerName(jobs: map<Id, seq<Id>>) { forall name | name in jobs :: |jobs[name]| <= 1 }

  lemma ResolveOneLaunchesOnce(w: World, spec: Spec)
    requires OneJobPerName(w.jobs)
    ensures OneJobPerName(ResolveOne(w, spec).0.jobs)
  {
  }

  lemma {:induction false} UploadLaunchesNothing(w: World, specs: seq<Spec>)
    ensures Upload(w, specs).0.jobs == w.jobs
    decreases |specs|
  {
    if specs == [] || w.script == [] {
    } else {
      UploadLaunchesNothing(Step(w), specs[1..]);
    }
  }

  lemma {:induction false} ResolveAllLaunchesOnce(w: World, specs: seq<Spec>)
    requires OneJobPerName(w.jobs)
    ensures OneJobPerName(ResolveAll(w, specs).0.jobs)
    decreases |specs|
  {
    if specs == [] {
    } else {
      ResolveOneLaunchesOnce(w, specs[0]);
      ResolveAllLaunchesOnce(ResolveOne(w, specs[0]).0, specs[1..]);
    }
  }

  lemma {:induction false} VerifyAllLaunchesNothing(w: World, specs: seq<Spec>)
    ensures VerifyAll(w, specs).0.jobs == w.jobs
    decreases |specs|
  {
    if specs == [] {
    } else {
      VerifyAllLaunchesNothing(VerifyOne(w, specs[0]).0, specs[1..]);
    }
  }

  lemma ExecuteLaunchesOnce(w: World, specs: seq<Spec>, audit: seq<Id> -> Id)
    requires OneJobPerName(w.jobs)
    ensures OneJobPerName(Execute(w, specs, audit).0.jobs)
  {
    UploadLaunchesNothing(w, specs);
    var uploaded := Upload(w, specs).0;
    ResolveAllLaunchesOnce(uploaded, specs);
    VerifyAllLaunchesNothing(ResolveAll(uploaded, specs).0, specs);
    hide Upload, ResolveAll, VerifyAll, OneJobPerName;
  }

  /** One execution and the script of what the provider does during it. */
  datatype Round = Round(specs: seq<Spec>, script: seq<Moment>)

  function Executions(jobs: map<Id, seq<Id>>, rounds: seq<Round>, audit: seq<Id> -> Id): map<Id, seq<Id>>
    decreases |rounds|
  {
    if rounds == [] then jobs
    else Executions(Execute(World(jobs, rounds[0].script), rounds[0].specs, audit).0.jobs, rounds[1..], audit)
  }

  /** However many executions run one after the other, each cut or failed at any
      port call, no job name is ever launched twice. */
  lemma {:induction false} AtMostOneJobPerName(jobs: map<Id, seq<Id>>, rounds: seq<Round>, audit: seq<Id> -> Id)
    requires OneJobPerName(jobs)
    ensures OneJobPerName(Executions(jobs, rounds, audit))
    decreases |rounds|
  {
    if rounds == [] {
    } else {
      ExecuteLaunchesOnce(World(jobs, rounds[0].script), rounds[0].specs, audit);
      hide Execute, OneJobPerName;
      AtMostOneJobPerName(Execute(World(jobs, rounds[0].script), rounds[0].specs, audit).0.jobs, rounds[1..], audit);
    }
  }

  // ------------------------------------------------------- what is launched

  predicate JobOf(specs: seq<Spec>, name: Id) { exists i :: 0 <= i < |specs| && specs[i].job == name }

  /** The jobs of a name are as they were, or there were none and one was added. */
  predicate LeftOrAdded(w: World, after: World, specs: seq<Spec>, name: Id) {
    || JobsNamed(after, name) == JobsNamed(w, name)
    || (JobsNamed(w, name) == [] && |JobsNamed(after, name)| == 1 && JobOf(specs, name))
  }

  lemma ResolveOneAdds(w: World, spec: Spec, name: Id)
    ensures || JobsNamed(ResolveOne(w, spec).0, name) == JobsNamed(w, name)
            || (JobsNamed(w, name) == [] && |JobsNamed(ResolveOne(w, spec).0, name)| == 1 && spec.job == name)
  {
  }

  lemma {:induction false} ResolveAllAdds(w: World, specs: seq<Spec>, name: Id)
    ensures LeftOrAdded(w, ResolveAll(w, specs).0, specs, name)
    decreases |specs|
  {
    if specs == [] {
    } else {
      ResolveOneAdds(w, specs[0], name);
      hide ResolveOne, JobsNamed;
      ResolveAllAdds(ResolveOne(w, specs[0]).0, specs[1..], name);
      if i :| 0 <= i < |specs[1..]| && specs[1..][i].job == name { assert specs[i + 1].job == name; }
      assert specs[0].job == name ==> JobOf(specs, name);
    }
  }

  /** An execution, however it ends, takes no job away and launches under a name
      only if it is one of its own and had no job. */
  lemma LaunchesOnlyMissing(w: World, specs: seq<Spec>, audit: seq<Id> -> Id, name: Id)
    ensures LeftOrAdded(w, Execute(w, specs, audit).0, specs, name)
  {
    UploadLaunchesNothing(w, specs);
    var uploaded := Upload(w, specs).0;
    ResolveAllAdds(uploaded, specs, name);
    VerifyAllLaunchesNothing(ResolveAll(uploaded, specs).0, specs);
    AuditLaunchesNothing(VerifyAll(ResolveAll(uploaded, specs).0, specs).0, audit);
    hide Upload, ResolveAll, VerifyAll, Audit;
  }

  lemma AuditLaunchesNothing(w: World, audit: seq<Id> -> Id)
    ensures forall digest :: Audit(w, digest).0.jobs == w.jobs
  {
  }

  // ------------------------------------------------------ what success means

  /** A launch whose answer is lost is made good by the next execution: it finds that
      very job and launches no other. */
  lemma LostLaunchIsFound(w: World, spec: Spec, script: seq<Moment>)
    requires |w.script| >= 3 && w.script[0].answer.Normal? && w.script[1].answer.Normal?
    requires RowsShown(w.script[0], spec) == [] && JobsNamed(w, spec.job) == []
    requires w.script[2].answer.FailsAfter? && Filled(w.script[2].text)
    requires |script| >= 2 && script[0].answer.Normal? && script[1].answer.Normal?
    requires RowsShown(script[0], spec) == [] || Proves(RowsShown(script[0], spec), spec)
    ensures var (after, outcome) := ResolveOne(w, spec);
            && outcome == Err(Launching)
            && ResolveOne(World(after.jobs, script), spec) == (World(after.jobs, script[2..]), Ok(w.script[2].text))
  {
    EmptyIff(RowsShown(w.script[0], spec));
    EmptyIff(RowsShown(script[0], spec));
    hide Observe, Reconciles;
    assert w.script[1..][1..] == w.script[2..] && w.script[2..][1..] == w.script[3..];
    assert script[1..][1..] == script[2..];
  }

  predicate Proves(rows: seq<Row>, spec: Spec) { Reconciles(Observe(rows), spec.lineage, spec.count) }

  lemma {:induction false} VerifiedAll(w: World, specs: seq<Spec>)
    requires VerifyAll(w, specs).1.Ok?
    ensures var seen := VerifyAll(w, specs).1.value;
            |seen| == |specs| && forall i | 0 <= i < |specs| :: Proves(seen[i], specs[i])
    decreases |specs|
  {
    if specs == [] {
    } else {
      var (mid, first) := VerifyOne(w, specs[0]);
      VerifiedAll(mid, specs[1..]);
      assert Proves(first.value, specs[0]);
      hide Proves, VerifyOne;
    }
  }

  /** A success means that every source has at least one record and that its table
      was seen to hold exactly one row per ordinal, all of one lineage. */
  lemma SuccessIsExact(w: World, specs: seq<Spec>, audit: seq<Id> -> Id, i: nat)
    requires Execute(w, specs, audit).1.Ok? && i < |specs|
    ensures |Execute(w, specs, audit).1.value| == |specs|
    ensures var rows := Execute(w, specs, audit).1.value[i];
            RequiredColumns(rows) ==>
              specs[i].count >= 1 && OneRowEach(rows, specs[i].count) && SingleLineage(rows, specs[i].lineage)
  {
    var resolved := ResolveAll(Upload(w, specs).0, specs).0;
    VerifiedAll(resolved, specs);
    hide Upload, ResolveAll, VerifyAll;
    var rows := Execute(w, specs, audit).1.value[i];
    assert Proves(rows, specs[i]);
    if RequiredColumns(rows) { ReconcilesIff(rows, specs[i].lineage, specs[i].count); }
  }

  // ------------------------------------------------------- retries converge

  /** The rows a job writes for its bundle. */
  function DestinationRows(spec: Spec): (rows: seq<Row>)
    ensures OneRowEach(rows, spec.count) && SingleLineage(rows, spec.lineage)
  {
    seq(spec.count, i => Row(Some(i), spec.lineage))
  }

  /** Jobs write all their rows at once, and only launched jobs write. */
  predicate Honest(m: Moment, w: World, spec: Spec) {
    RowsShown(m, spec) == [] || (JobsNamed(w, spec.job) != [] && RowsShown(m, spec) == DestinationRows(spec))
  }

  predicate CleanUpload(w: World, specs: seq<Spec>)
    decreases |specs|
  {
    specs == []
    || (w.script != [] && w.script[0].answer.Normal? && w.script[0].text == specs[0].bundle
        && CleanUpload(Step(w), specs[1..]))
  }

  predicate CleanResolve(w: World, specs: seq<Spec>)
    decreases |specs|
  {
    specs == []
    || (&& |w.script| >= 2 && w.script[0].answer.Normal? && w.script[1].answer.Normal?
        && Honest(w.script[0], w, specs[0])
        && (JobsNamed(w, specs[0].job) == [] ==>
            |w.script| >= 3 && w.script[2].answer.Normal? && Filled(w.script[2].text))
        && CleanResolve(ResolveOne(w, specs[0]).0, specs[1..]))
  }

  /** Once a wait answers DONE, the job's rows are there. */
  predicate CleanVerify(w: World, specs: seq<Spec>)
    decreases |specs|
  {
    specs == []
    || (&& |w.script| >= 2 && w.script[0].answer.Normal? && w.script[0].text == DONE && w.script[1].answer.Normal?
        && RowsShown(w.script[1], specs[0]) == DestinationRows(specs[0])
        && CleanVerify(Step(Step(w)), specs[1..]))
  }

  predicate WellNamed(w: World) {
    forall name | name in w.jobs :: |w.jobs[name]| <= 1 && forall id | id in w.jobs[name] :: Filled(id)
  }

  predicate Launchable(spec: Spec) { spec.count >= 1 && Complete(spec.lineage) }

  lemma {:induction false} CleanUploads(w: World, specs: seq<Spec>)
    requires CleanUpload(w, specs)
    ensures Upload(w, specs).1.None?
    decreases |specs|
  {
    if specs == [] {
    } else {
      CleanUploads(Step(w), specs[1..]);
    }
  }

  lemma OwnRowsReconcile(spec: Spec)
    requires Launchable(spec)
    ensures Reconciles(Observe(DestinationRows(spec)), spec.lineage, spec.count)
  {
    ReconcilesIff(DestinationRows(spec), spec.lineage, spec.count);
  }

  lemma CleanResolvesOne(w: World, spec: Spec)
    requires WellNamed(w) && Launchable(spec) && CleanResolve(w, [spec])
    ensures ResolveOne(w, spec).1.Ok? && WellNamed(ResolveOne(w, spec).0)
  {
    var rows := RowsShown(w.script[0], spec);
    EmptyIff(rows);
    OwnRowsReconcile(spec);
    hide Observe, Reconciles, DestinationRows;
    assert JobsNamed(Step(Step(w)), spec.job) == JobsNamed(w, spec.job);
  }

  lemma {:induction false} CleanResolves(w: World, specs: seq<Spec>)
    requires WellNamed(w) && CleanResolve(w, specs) && forall s | s in specs :: Launchable(s)
    ensures ResolveAll(w, specs).1.Ok?
    decreases |specs|
  {
    if specs == [] {
    } else {
      assert CleanResolve(w, [specs[0]]) by { assert [specs[0]][1..] == []; }
      CleanResolvesOne(w, specs[0]);
      hide ResolveOne, WellNamed, Honest;
      CleanResolves(ResolveOne(w, specs[0]).0, specs[1..]);
    }
  }

  lemma {:induction false} CleanVerifies(w: World, specs: seq<Spec>)
    requires CleanVerify(w, specs) && forall s | s in specs :: Launchable(s)
    ensures VerifyAll(w, specs).1.Ok?
    decreases |specs|
  {
    if specs == [] {
    } else {
      OwnRowsReconcile(specs[0]);
      hide Observe, Reconciles;
      CleanVerifies(Step(Step(w)), specs[1..]);
    }
  }

  /** Every call of this execution answers, and jobs write once, all together. */
  predicate CleanRun(w: World, specs: seq<Spec>, audit: seq<Id> -> Id) {
    var uploaded := Upload(w, specs).0;
    var (resolved, ids) := ResolveAll(uploaded, specs);
    var audited := VerifyAll(resolved, specs).0;
    && CleanUpload(w, specs) && CleanResolve(uploaded, specs) && CleanVerify(resolved, specs)
    && audited.script != [] && audited.script[0].answer.Normal?
    && (ids.Ok? ==> audited.script[0].text == audit(ids.value))
  }

  /** Retries converge: whatever earlier executions left behind, an execution whose
      calls answer and whose jobs write their rows once, all together, succeeds,
      as long as every source has a record. */
  lemma CleanExecutionSucceeds(w: World, specs: seq<Spec>, audit: seq<Id> -> Id)
    requires WellNamed(w) && (forall s | s in specs :: Launchable(s)) && CleanRun(w, specs, audit)
    ensures Execute(w, specs, audit).1.Ok?
  {
    CleanUploads(w, specs);
    UploadLaunchesNothing(w, specs);
    var uploaded := Upload(w, specs).0;
    CleanResolves(uploaded, specs);
    CleanVerifies(ResolveAll(uploaded, specs).0, specs);
    hide Upload, ResolveAll, VerifyAll, CleanUpload, CleanResolve, CleanVerify;
  }

  // -------------------------------------------------- exactly when it succeeds

  /** A table that holds one row per ordinal of a bundle that has records. */
  predicate Exact(rows: seq<Row>, spec: Spec) {
    spec.count >= 1 && OneRowEach(rows, spec.count) && SingleLineage(rows, spec.lineage)
  }

  /** Every table the provider shows has its lineage columns filled. */
  predicate ColumnsFilled(script: seq<Moment>, specs: seq<Spec>) {
    forall m, spec | m in script && spec in specs :: RequiredColumns(RowsShown(m, spec))
  }

  /** The table and the job lookup answer, and either the one job of this name is
      found beside an empty or exact table, or none is, the table is empty, and
      the launch answers with an id. */
  predicate Resolves(w: World, spec: Spec) {
    && |w.script| >= 2 && w.script[0].answer.Normal? && w.script[1].answer.Normal?
    && var rows, named := RowsShown(w.script[0], spec), JobsNamed(w, spec.job);
       if named == [] then
         rows == [] && |w.script| >= 3 && w.script[2].answer.Normal? && Filled(w.script[2].text)
       else |named| == 1 && Filled(named[0]) && (rows == [] || Exact(rows, spec))
  }

  function Resolved(w: World, spec: Spec): World
    requires Resolves(w, spec)
  {
    if JobsNamed(w, spec.job) == [] then Launched(World(w.jobs, w.script[3..]), spec.job, w.script[2].text)
    else World(w.jobs, w.script[2..])
  }

  function ResolvedId(w: World, spec: Spec): Id
    requires Resolves(w, spec)
  {
    if JobsNamed(w, spec.job) == [] then w.script[2].text else JobsNamed(w, spec.job)[0]
  }

  predicate ResolvesAll(w: World, specs: seq<Spec>)
    decreases |specs|
  {
    specs == [] || (Resolves(w, specs[0]) && ResolvesAll(Resolved(w, specs[0]), specs[1..]))
  }

  function ResolvedAll(w: World, specs: seq<Spec>): World
    requires ResolvesAll(w, specs)
    decreases |specs|
  {
    if specs == [] then w else ResolvedAll(Resolved(w, specs[0]), specs[1..])
  }

  function ResolvedIds(w: World, specs: seq<Spec>): seq<Id>
    requires ResolvesAll(w, specs)
    decreases |specs|
  {
    if specs == [] then [] else [ResolvedId(w, specs[0])] + ResolvedIds(Resolved(w, specs[0]), specs[1..])
  }

  /** From the script's position on, each source's wait is done and its table exact. */
  predicate VerifiesAll(script: seq<Moment>, specs: seq<Spec>)
    decreases |specs|
  {
    specs == []
    || (&& |script| >= 2 && script[0].answer.Normal? && script[0].text == DONE && script[1].answer.Normal?
        && Exact(RowsShown(script[1], specs[0]), specs[0])
        && VerifiesAll(script[2..], specs[1..]))
  }

  /** What the provider must do, call by call, for the execution to succeed. */
  predicate Succeeds(w: World, specs: seq<Spec>, audit: seq<Id> -> Id) {
    && CleanUpload(w, specs) && |w.script| >= |specs|
    && var uploaded := World(w.jobs, w.script[|specs|..]);
       && ResolvesAll(uploaded, specs)
       && var resolved := ResolvedAll(uploaded, specs);
          && VerifiesAll(resolved.script, specs) && |resolved.script| > 2 * |specs|
          && var last := resolved.script[2 * |specs|];
             last.answer.Normal? && last.text == audit(ResolvedIds(uploaded, specs))
  }

  lemma {:induction false} UploadIff(w: World, specs: seq<Spec>)
    ensures Upload(w, specs).1.None? <==> CleanUpload(w, specs)
    ensures CleanUpload(w, specs) ==> |specs| <= |w.script| && Upload(w, specs).0 == World(w.jobs, w.script[|specs|..])
    decreases |specs|
  {
    if specs == [] {
      assert w.script[0..] == w.script;
    } else if w.script != [] {
      UploadIff(Step(w), specs[1..]);
      if CleanUpload(w, specs) {
        assert w.script[1..][|specs| - 1..] == w.script[|specs|..];
      }
    }
  }

  lemma ExactIff(rows: seq<Row>, spec: Spec)
    requires RequiredColumns(rows)
    ensures Reconciles(Observe(rows), spec.lineage, spec.count) <==> Exact(rows, spec)
  {
    ReconcilesIff(rows, spec.lineage, spec.count);
  }

  lemma ResolveOneIff(w: World, spec: Spec)
    requires |w.script| >= 1 ==> RequiredColumns(RowsShown(w.script[0], spec))
    ensures ResolveOne(w, spec).1.Ok? <==> Resolves(w, spec)
    ensures Resolves(w, spec) ==> ResolveOne(w, spec) == (Resolved(w, spec), Ok(ResolvedId(w, spec)))
  {
    if |w.script| >= 1 {
      ExactIff(RowsShown(w.script[0], spec), spec);
      EmptyIff(RowsShown(w.script[0], spec));
    }
    hide Observe, Reconciles, Exact, RequiredColumns;
    if |w.script| >= 2 {
      assert w.script[1..][1..] == w.script[2..];
      assert JobsNamed(Step(Step(w)), spec.job) == JobsNamed(w, spec.job);
      if |w.script| >= 3 { assert w.script[2..][1..] == w.script[3..]; }
    }
  }

  lemma {:induction false} ResolveAllIff(w: World, specs: seq<Spec>)
    requires ColumnsFilled(w.script, specs)
    ensures ResolveAll(w, specs).1.Ok? <==> ResolvesAll(w, specs)
    ensures ResolvesAll(w, specs) ==> ResolveAll(w, specs) == (ResolvedAll(w, specs), Ok(ResolvedIds(w, specs)))
    ensures ResolvesAll(w, specs) ==> ColumnsFilled(ResolvedAll(w, specs).script, specs)
    decreases |specs|
  {
    if specs == [] {
    } else {
      if |w.script| >= 1 { assert w.script[0] in w.script && specs[0] in specs; }
      ResolveOneIff(w, specs[0]);
      if Resolves(w, specs[0]) {
        var mid := Resolved(w, specs[0]);
        assert forall m | m in mid.script :: m in w.script;
        hide Resolves, ResolveOne, Resolved, ResolvedId, RequiredColumns, RowsShown;
        TailFilled(mid.script, specs);
        ResolveAllIff(mid, specs[1..]);
        if ResolvesAll(w, specs) { RestFilled(w, mid, specs); }
      }
    }
  }

  lemma TailFilled(script: seq<Moment>, specs: seq<Spec>)
    requires specs != [] && ColumnsFilled(script, specs)
    ensures ColumnsFilled(script, specs[1..])
  {}

  lemma RestFilled(w: World, mid: World, specs: seq<Spec>)
    requires specs != [] && ColumnsFilled(w.script, specs) && ResolvesAll(mid, specs[1..])
    requires forall m | m in mid.script :: m in w.script
    ensures ColumnsFilled(ResolvedAll(mid, specs[1..]).script, specs)
  {
    hide RequiredColumns, RowsShown;
    ScriptShrinks(mid, specs[1..]);
  }

  lemma {:induction false} ScriptShrinks(w: World, specs: seq<Spec>)
    requires ResolvesAll(w, specs)
    ensures forall m | m in ResolvedAll(w, specs).script :: m in w.script
    decreases |specs|
  {
    if specs == [] {
    } else {
      var mid := Resolved(w, specs[0]);
      assert forall m | m in mid.script :: m in w.script;
      ScriptShrinks(mid, specs[1..]);
    }
  }

  lemma {:induction false} VerifyAllIff(w: World, specs: seq<Spec>)
    requires ColumnsFilled(w.script, specs)
    ensures VerifyAll(w, specs).1.Ok? <==> VerifiesAll(w.script, specs)
    ensures VerifiesAll(w.script, specs) ==>
              2 * |specs| <= |w.script| && VerifyAll(w, specs).0 == World(w.jobs, w.script[2 * |specs|..])
    decreases |specs|
  {
    if specs == [] {
      assert w.script[0..] == w.script;
    } else if |w.script| >= 2 {
      assert w.script[1] in w.script && specs[0] in specs;
      ExactIff(RowsShown(w.script[1], specs[0]), specs[0]);
      var rest := Step(Step(w));
      assert rest.script == w.script[2..];
      assert forall m | m in rest.script :: m in w.script;
      hide Observe, Reconciles, Exact, RequiredColumns, RowsShown;
      VerifyAllIff(rest, specs[1..]);
      if VerifiesAll(w.script, specs) {
        assert w.script[2..][2 * (|specs| - 1)..] == w.script[2 * |specs|..];
      }
    }
  }

  /** An execution succeeds if and only if every call answers, every input is
      stored under its digest, every source's job is found or launched as the
      table allows, every job is done with an exact table of at least one
      record, and the audit is stored under its digest. */
  lemma SuccessIff(w: World, specs: seq<Spec>, audit: seq<Id> -> Id)
    requires ColumnsFilled(w.script, specs)
    ensures Execute(w, specs, audit).1.Ok? <==> Succeeds(w, specs, audit)
  {
    hide Upload, ResolveAll, VerifyAll, CleanUpload, ResolvesAll, ResolvedAll, ResolvedIds, VerifiesAll;
    UploadIff(w, specs);
    if CleanUpload(w, specs) {
      var uploaded := World(w.jobs, w.script[|specs|..]);
      assert ColumnsFilled(uploaded.script, specs);
      ResolveAllIff(uploaded, specs);
      if ResolvesAll(uploaded, specs) {
        VerifyAllIff(ResolvedAll(uploaded, specs), specs);
      }
    }
  }

  // ------------------------------------------------------ the loops themselves

  /** What a caller sees of a port call. */
  datatype Call<+T> = Killed | Raised | Returned(value: T)

  class Provider {
    var jobs: map<Id, seq<Id>>
    var script: seq<Moment>

    ghost function State(): World reads this { World(jobs, script) }

    constructor (jobs: map<Id, seq<Id>>, script: seq<Moment>)
      ensures State() == World(jobs, script)
    {
      this.jobs, this.script := jobs, script;
    }

    /** A call that answers with the text of its moment. */
    method Answer() returns (call: Call<Id>)
      modifies `script
      ensures old(script) == [] ==> call == Killed && script == []
      ensures old(script) != [] ==>
                && script == old(script)[1..]
                && call == if old(script)[0].answer.Normal? then Returned(old(script)[0].text) else Raised
    {
      if script == [] { return Killed; }
      var m := script[0];
      script := script[1..];
      call := if m.answer.Normal? then Returned(m.text) else Raised;
    }

    method ObserveLineage(spec: Spec) returns (call: Call<seq<Row>>)
      modifies `script
      ensures old(script) == [] ==> call == Killed && script == []
      ensures old(script) != [] ==>
              && script == old(script)[1..]
              && call == if old(script)[0].answer.Normal? then Returned(RowsShown(old(script)[0], spec)) else Raised
    {
      if script == [] { return Killed; }
      var m := script[0];
      script := script[1..];
      call := if m.answer.Normal? then Returned(RowsShown(m, spec)) else Raised;
    }

    method FindJobByName(name: Id) returns (call: Call<Option<Id>>)
      modifies `script
      ensures old(script) == [] ==> call == Killed && script == []
      ensures old(script) != [] ==>
              && script == old(script)[1..]
              && call == if !old(script)[0].answer.Normal? || |JobsNamed(State(), name)| > 1 then Raised
                         else Returned(if JobsNamed(State(), name) == [] then None
                                       else Some(JobsNamed(State(), name)[0]))
    {
      if script == [] { return Killed; }
      var m := script[0];
      script := script[1..];
      var matches := if name in jobs then jobs[name] else [];
      if !m.answer.Normal? || |matches| > 1 { return Raised; }
      call := Returned(if matches == [] then None else Some(matches[0]));
    }

    method LaunchTemplate(spec: Spec) returns (call: Call<Id>)
      modifies this
      ensures call == (match Launch(old(State()), spec).1
                       case Ok(id) => Returned(id)
                       case Err(code) => if code.Cut? then Killed else if code.Launching? then Raised
                           else Returned(Null))
      ensures State() == Launch(old(State()), spec).0
    {
      if script == [] { return Killed; }
      var m := script[0];
      script := script[1..];
      if m.answer.FailsBefore? { return Raised; }
      jobs := jobs[spec.job := (if spec.job in jobs then jobs[spec.job] else []) + [m.text]];
      call := if m.answer.FailsAfter? then Raised else Returned(m.text);
    }

    // ----------------------------------------------------------- execution

    method UploadAll(specs: seq<Spec>) returns (refused: Option<Code>)
      modifies this
      ensures (State(), refused) == Upload(old(State()), specs)
    {
      ghost var whole := Upload(State(), specs);
      for i := 0 to |specs|
        invariant whole == Upload(State(), specs[i..])
      {
        assert specs[i..][0] == specs[i] && specs[i..][1..] == specs[i + 1..];
        var observed := Answer();
        if observed.Killed? { return Some(Cut); }
        if observed.Raised? { return Some(Storage); }
        if observed.value != specs[i].bundle { return Some(StorageBinding); }
      }
      assert specs[|specs|..] == [];
      refused := None;
    }

    method Resolve(spec: Spec) returns (id: Result<Id, Code>)
      modifies this
      ensures (State(), id) == ResolveOne(old(State()), spec)
    {
      var before := ObserveLineage(spec);
      if before.Killed? { return Err(Cut); }
      if before.Raised? { return Err(Launching); }
      var existing := FindJobByName(spec.job);
      if existing.Killed? { return Err(Cut); }
      if existing.Raised? { return Err(Launching); }
      var observed := Observe(before.value);
      if observed != EMPTY_OBSERVATION && !Reconciles(observed, spec.lineage, spec.count) {
        return Err(ExistingLineage);
      }
      var job: Id;
      if existing.value.None? {
        if observed != EMPTY_OBSERVATION { return Err(OrphanLineage); }
        var launched := LaunchTemplate(spec);
        if launched.Killed? { return Err(Cut); }
        if launched.Raised? { return Err(Launching); }
        job := launched.value;
      } else {
        job := existing.value.value;
      }
      id := if Filled(job) then Ok(job) else Err(JobId);
    }

    method Verify(spec: Spec) returns (rows: Result<seq<Row>, Code>)
      modifies this
      ensures (State(), rows) == VerifyOne(old(State()), spec)
    {
      var terminal := Answer();
      if terminal.Killed? { return Err(Cut); }
      if terminal.Raised? { return Err(Verification); }
      if terminal.value != DONE { return Err(JobFailed); }
      var observed := ObserveLineage(spec);
      if observed.Killed? { return Err(Cut); }
      if observed.Raised? { return Err(Verification); }
      rows := if Reconciles(Observe(observed.value), spec.lineage, spec.count) then Ok(observed.value)
          else Err(Reconciliation);
    }

    /** `rest` continues what is collected so far. */
    ghost predicate Continues<T(!new)>(whole: (World, Result<seq<T>, Code>), done: seq<T>,
        rest: (World, Result<seq<T>, Code>)) {
      whole == (rest.0, if rest.1.Err? then rest.1 else Ok(done + rest.1.value))
    }

    method ResolveEach(specs: seq<Spec>) returns (ids: Result<seq<Id>, Code>)
      modifies this
      ensures (State(), ids) == ResolveAll(old(State()), specs)
    {
      ghost var whole := ResolveAll(State(), specs);
      var done: seq<Id> := [];
      assert specs[0..] == specs && (whole.1.Ok? ==> [] + whole.1.value == whole.1.value);
      for i := 0 to |specs|
        invariant Continues(whole, done, ResolveAll(State(), specs[i..]))
      {
        assert specs[i..][0] == specs[i] && specs[i..][1..] == specs[i + 1..];
        ghost var before := State();
        var id := Resolve(specs[i]);
        ghost var rest := ResolveAll(State(), specs[i + 1..]);
        if id.Err? { return Err(id.error); }
        assert rest.1.Ok? ==> done + ([id.value] + rest.1.value) == (done + [id.value]) + rest.1.value;
        done := done + [id.value];
      }
      assert specs[|specs|..] == [] && done + [] == done;
      ids := Ok(done);
    }

    method VerifyEach(specs: seq<Spec>) returns (seen: Result<seq<seq<Row>>, Code>)
      modifies this
      ensures (State(), seen) == VerifyAll(old(State()), specs)
    {
      ghost var whole := VerifyAll(State(), specs);
      var done: seq<seq<Row>> := [];
      assert specs[0..] == specs && (whole.1.Ok? ==> [] + whole.1.value == whole.1.value);
      for i := 0 to |specs|
        invariant Continues(whole, done, VerifyAll(State(), specs[i..]))
      {
        assert specs[i..][0] == specs[i] && specs[i..][1..] == specs[i + 1..];
        var rows := Verify(specs[i]);
        ghost var rest := VerifyAll(State(), specs[i + 1..]);
        if rows.Err? { return Err(rows.error); }
        assert rest.1.Ok? ==> done + ([rows.value] + rest.1.value) == (done + [rows.value]) + rest.1.value;
        done := done + [rows.value];
      }
      assert specs[|specs|..] == [] && done + [] == done;
      seen := Ok(done);
    }

    method ExecutePortfolio(specs: seq<Spec>, audit: seq<Id> -> Id) returns (result: Result<seq<seq<Row>>, Code>)
      modifies this
      ensures (State(), result) == Execute(old(State()), specs, audit)
    {
      hide Upload, ResolveAll, VerifyAll;
      var refused := UploadAll(specs);
      if refused.Some? { return Err(refused.value); }
      var ids := ResolveEach(specs);
      if ids.Err? { return Err(ids.error); }
      result := VerifyEach(specs);
      if result.Err? { return; }
      var observed := Answer();
      if observed.Killed? { return Err(Cut); }
      if observed.Raised? { return Err(AuditFailed); }
      if observed.value != audit(ids.value) { return Err(AuditBinding); }
    }
  }
}
