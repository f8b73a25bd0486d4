/** What a launch says of itself: the document, the parameters and the job name of
    each bundle, told on the inputs that the bundles are built from. */
module CloudLaunch {
  import opened Common
  import opened CloudDecimal
  import opened CloudDocument
  import opened CloudTemplate
  import opened CloudBundle
  import opened CloudAgreement

  // -------------------------------------------------------------- documents

  /** A bundle's document carries the run, the portfolio, its own source's plan,
      target, fields, count and rows, the approval and the policy; its digests
      are those of its rows and of itself. */
  lemma BundleCarries(
    lib: Library, h: Hashing, prepared: Prepared, execution: Execution, permission: Permission, i: nat)
    requires i < 3 && AllAccepted(lib, h, prepared, execution, permission)
    ensures var b := BundleOf(lib, h, prepared, execution, permission, i);
            var d, plan := b.document, prepared.sources[i].plan;
            && b.source == d.source == SOURCE_ORDER[i] == plan.source
            && d.version == "1.0.0" && d.kind == "trusted-dataflow-bundle"
            && d.run == prepared.run == plan.run == execution.run
            && d.portfolio == prepared.portfolio == execution.portfolio
            && d.plan == plan.digest == PlanDigest(h, plan)
            && d.approval == permission.approval && d.policy == permission.policy
            && d.target == plan.target == execution.outcomes[i].target && d.fields == plan.fields
            && d.count == |d.rows| == |execution.outcomes[i].rows.value|
            && d.output == h.rows(d.rows) == execution.outcomes[i].output
            && b.digest == d.bundle == DocumentDigest(h, d)
  {
    hide RowsAccepted, IsDigest, IsRunId, WellDeclared, RowsOf;
    assert SourceBound(h, prepared, i);
    assert OutcomeAccepted(lib, h, prepared.sources[i].plan, SOURCE_ORDER[i], execution.outcomes[i]);
    var d := BundleOf(lib, h, prepared, execution, permission, i).document;
    assert d.(bundle := "").(bundle := "") == d.(bundle := "");
  }

  /** The launch names exactly the document it launches: its run, source, portfolio,
      plan and digest, the destination in the configured project, and the schema
      of its fields. */
  lemma LaunchNames(c: Config, b: Bundle, job: string)
    requires LaunchParameters(c, b, job).Some? && Configured(c)
    ensures var p := LaunchParameters(c, b, job).value;
            && p.run == b.document.run && p.source == b.source && p.portfolio == b.document.portfolio
            && p.plan == b.document.plan && p.bundle == b.digest && p.job == job
            && TargetTable(b.source).Some? && b.document.target == Target(c.dataset, TargetTable(b.source).value)
            && ParseTableSpec(p.table) == Some(TableSpec(c.project, c.dataset, TargetTable(b.source).value))
            && Schema(b.document.fields) == Some(p.schema)
  {
    hide Schema, IsProject, IsDataset, ParseTableSpec, TableText;
    TableParses(TableSpec(c.project, c.dataset, TargetTable(b.source).value));
  }

  /** The template goes on with a document if and only if its run, source, portfolio,
      plan and digest are those of the launch and well formed, its target is the
      table of its source that the launch names, its digests are those of its rows
      and of itself, its declarations are well formed and give the launch's schema,
      its rows are as many as it says, name the declared fields and hold valid
      cells, and the job name fits. */
  lemma TemplateAcceptsIff(lib: Library, h: Hashing, d: Document, p: Parameters)
    ensures Accepted(lib, h, d, p) <==>
              && d.version == "1.0.0" && d.kind == "trusted-dataflow-bundle"
              && d.run == p.run && d.source == p.source && d.portfolio == p.portfolio && d.plan == p.plan
              && d.bundle == p.bundle == DocumentDigest(h, d) && d.output == h.rows(d.rows)
              && IsRunId(p.run) && IsDigest(p.portfolio) && IsDigest(p.plan) && IsDigest(d.approval)
              && IsDigest(d.policy)
              && (exists spec :: ParseTableSpec(p.table) == Some(spec) && d.target == Target(spec.dataset, spec.table)
                                 && (p.source, spec.table) in TABLES)
              && WellDeclared(d.fields) && p.schema == Columns(FieldsOf(d.fields)) + LINEAGE
              && |d.rows| == d.count && ValidRows(lib, d.rows, FieldsOf(d.fields)) && IsJobName(p.job)
  {
    hide IsRunId, WellDeclared, ValidRows, IsJobName, LINEAGE, ParseTableSpec, Columns;
    assert IsDigest(h.rows(d.rows)) && IsDigest(DocumentDigest(h, d));
    hide IsDigest;
    SourceTables(p.source);
  }

  const TABLES := {("jde", "jde_f0101"), ("dynamics", "ax_custtable"), ("ebs", "ebs_hz_parties")}

  lemma SourceTables(source: string)
    ensures forall table :: TargetTable(source) == Some(table) <==> (source, table) in TABLES
  {
  }

  /** Bundles are built if and only if the approval authorises the run, the execution
      is of the same run and portfolio, the portfolio is the digest of the three
      plans in order, and each plan is that of its source, is digested as it says,
      targets its source's table and has an outcome for that target whose rows
      fit the declarations and are as many and digested as it says. */
  lemma BundlesIff(lib: Library, h: Hashing, prepared: Prepared, execution: Execution, permission: Permission)
    ensures AllAccepted(lib, h, prepared, execution, permission) <==>
              && permission.authorized && prepared.version == "1.0.0"
              && IsRunId(prepared.run) && execution.run == prepared.run && execution.portfolio == prepared.portfolio
              && |prepared.sources| == 3 == |execution.outcomes|
              && prepared.portfolio == h.portfolio(PlanDigests(prepared.sources))
              && forall i | 0 <= i < 3 ::
                   Sourced(lib, h, prepared.run, NAMES[i], prepared.sources[i], execution.outcomes[i])
  {
    hide IsRunId, WellDeclared, RowsAccepted, IsDigest, RowsOf;
    if |prepared.sources| == 3 == |execution.outcomes| {
      assert IsDigest(h.portfolio(PlanDigests(prepared.sources)));
      SourcedIff(lib, h, prepared, 0, execution.outcomes[0]);
      SourcedIff(lib, h, prepared, 1, execution.outcomes[1]);
      SourcedIff(lib, h, prepared, 2, execution.outcomes[2]);
      hide Sourced, SourceBound, OutcomeAccepted;
    }
  }

  lemma SourcedIff(lib: Library, h: Hashing, prepared: Prepared, i: nat, outcome: Outcome)
    requires i < |prepared.sources| == 3
    ensures Sourced(lib, h, prepared.run, NAMES[i], prepared.sources[i], outcome) <==>
              SourceBound(h, prepared, i)
              && OutcomeAccepted(lib, h, prepared.sources[i].plan, SOURCE_ORDER[i], outcome)
  {
    hide WellDeclared, RowsAccepted, RowsOf;
    assert IsDigest(PlanDigest(h, prepared.sources[i].plan));
    hide IsDigest;
    SourceTables(NAMES[i]);
  }

  const NAMES := ["jde", "dynamics", "ebs"]

  function PlanDigests(sources: seq<PreparedSource>): seq<string>
    requires |sources| == 3
  {
    [sources[0].plan.digest, sources[1].plan.digest, sources[2].plan.digest]
  }

  predicate Sourced(lib: Library, h: Hashing, run: string, name: string, source: PreparedSource, outcome: Outcome) {
    var plan := source.plan;
    && source.source == plan.source == outcome.source == name && plan.run == run
    && plan.digest == PlanDigest(h, plan)
    && plan.target.Target? && (name, plan.target.table) in TABLES && outcome.target == plan.target
    && WellDeclared(plan.fields) && outcome.rows.Some?
    && RowsAccepted(lib, outcome.rows.value, FieldsOf(plan.fields)) && outcome.count == |outcome.rows.value|
    && outcome.output == h.rows(RowsOf(lib, outcome.rows.value, FieldsOf(plan.fields)))
  }

  // -------------------------------------------------------------- protection

  /** No cell is launched unprotected, protection is never changed on the way, and
      a tokenized cell holds a token: `tok_` and eight or more of its characters. */
  lemma ProtectionKept(
    lib: Library, h: Hashing, prepared: Prepared, execution: Execution, permission: Permission, i: nat,
    row: nat, column: nat)
    requires i < 3 && AllAccepted(lib, h, prepared, execution, permission)
    requires row < execution.outcomes[i].count && column < |prepared.sources[i].plan.fields|
    ensures var d := BundleOf(lib, h, prepared, execution, permission, i).document;
            var f := FieldOf(prepared.sources[i].plan.fields[column]);
            && row < |d.rows| && f.name in d.rows[row]
            && var raw, cell := execution.outcomes[i].rows.value[row][f.name], d.rows[row][f.name];
               && raw.Cell? && cell.Cell? && cell.protection == raw.protection
               && cell.protection in {Sanitized, Tokenized}
               && (cell.protection == Tokenized ==>
                     f.kind == StringKind && cell.value.JsonString? && |cell.value.text| >= 12
                     && cell.value.text[..4] == "tok_")
  {
    var plan, outcome := prepared.sources[i].plan, execution.outcomes[i];
    assert OutcomeAccepted(lib, h, plan, SOURCE_ORDER[i], outcome);
    hide InputsValid, JsonValue, IsToken;
    var fields := FieldsOf(plan.fields);
    FieldsDistinct(plan.fields);
    assert RowAccepted(lib, outcome.rows.value[row], fields);
    RowBecomes(lib, outcome.rows.value[row], fields);
    CellProtected(lib, outcome.rows.value[row][fields[column].name], fields[column]);
    hide CellOf, RowOf;
    var d := BundleOf(lib, h, prepared, execution, permission, i).document;
    assert d.rows[row] == RowOf(lib, outcome.rows.value[row], fields);
  }

  lemma CellProtected(lib: Library, raw: Cell<Datum>, field: Field)
    requires CellOf(lib, raw, field).Some?
    ensures raw.Cell? && raw.protection in {Sanitized, Tokenized}
    ensures CellOf(lib, raw, field).value.Cell? && CellOf(lib, raw, field).value.protection == raw.protection
    ensures raw.protection == Tokenized ==>
              && field.kind == StringKind && CellOf(lib, raw, field).value.value.JsonString?
              && |CellOf(lib, raw, field).value.value.text| >= 12
              && CellOf(lib, raw, field).value.value.text[..4] == "tok_"
  {
    hide JsonValue;
  }

  // --------------------------------------------------------------- job names

  /** The parts of a job name. */
  function RunPart(run: string): string { Take(Lowered(Without("mig_", run)), 16) }

  function DigestPart(digest: string): string
    requires IsDigest(digest)
  {
    digest[7..19]
  }

  predicate Named(b: Bundle) { b.source in SOURCE_ORDER && IsRunId(b.document.run) && IsDigest(b.digest) }

  /** A job name is never shortened: it is the source, the start of the run id in
      lower case and the first twelve digits of the bundle's digest. */
  lemma JobNameIs(b: Bundle)
    requires Named(b)
    ensures JobName(b) == "ztm-" + b.source + "-" + RunPart(b.document.run) + "-" + DigestPart(b.digest)
  {
    var hex := Without("sha256:", b.digest);
    var short := Take(hex, 12);
    assert short == DigestPart(b.digest);
    assert |short| == 12 && short[11] != '-';
    var name := "ztm-" + b.source + "-" + RunPart(b.document.run) + "-" + short;
    assert |name| <= 63 && name[|name| - 1] == short[11];
    assert Take(name, 63) == name;
  }

  /** Two bundles share a job name if and only if they agree on the source, the start
      of the run id up to case, and the first twelve digits of the digest. */
  lemma JobNamesAgreeIff(a: Bundle, b: Bundle)
    requires Named(a) && Named(b)
    ensures JobName(a) == JobName(b) <==>
              a.source == b.source && RunPart(a.document.run) == RunPart(b.document.run)
              && DigestPart(a.digest) == DigestPart(b.digest)
  {
    JobNameIs(a);
    JobNameIs(b);
    if a.source != b.source { JobNamesDiffer(a, b); }
    hide JobName, RunPart, DigestPart, IsRunId, IsDigest, SOURCE_ORDER;
    if JobName(a) == JobName(b) {
      assert |DigestPart(a.digest)| == |DigestPart(b.digest)| by { TwelveDigits(a.digest); TwelveDigits(b.digest); }
      SamePieces("ztm-" + a.source + "-", RunPart(a.document.run), RunPart(b.document.run),
                 DigestPart(a.digest), DigestPart(b.digest));
    }
  }

  lemma TwelveDigits(digest: string)
    requires IsDigest(digest)
    ensures |DigestPart(digest)| == 12
  {
  }

  lemma SamePieces(front: string, x: string, y: string, s: string, t: string)
    requires |s| == |t| && front + x + "-" + s == front + y + "-" + t
    ensures x == y && s == t
  {
    var a, b := front + x + "-" + s, front + y + "-" + t;
    assert |x| == |y|;
    assert x == a[|front|..|front| + |x|] && y == b[|front|..|front| + |y|];
    assert s == a[|a| - |s|..] && t == b[|b| - |t|..];
  }
}
