/** Producer, orchestrator and template agree: every bundle that is built and
    launched is accepted under exactly its launch parameters, and its rows reach
    the warehouse unchanged, one per ordinal. */
module CloudAgreement {
  import opened Common
  import opened CloudDecimal
  import opened CloudDocument
  import opened CloudTemplate
  import opened CloudBundle

  /** The destination part of a runtime configuration. */
  datatype Config = Config(project: string, dataset: string)

  /** What constructing a configuration checks of it. */
  predicate Configured(c: Config) { IsProject(c.project) && IsDataset(c.dataset) }

  function Take(s: string, n: nat): string { if |s| <= n then s else s[..n] }

  function Lower(c: char): char { if 'A' <= c <= 'Z' then (c as int + 32) as char else c }

  function Lowered(s: string): string { seq(|s|, i requires 0 <= i < |s| => Lower(s[i])) }

  function Without(prefix: string, s: string): string { if prefix <= s then s[|prefix|..] else s }

  function TrimDashes(s: string): string
    decreases |s|
  {
    if s != "" && s[|s| - 1] == '-' then TrimDashes(s[..|s| - 1]) else s
  }

  function JobName(b: Bundle): string {
    var suffix := Take(Lowered(Without("mig_", b.document.run)), 16);
    TrimDashes(Take("ztm-" + b.source + "-" + suffix + "-" + Take(Without("sha256:", b.digest), 12), 63))
  }

  function LaunchParameters(c: Config, b: Bundle, job: string): Option<Parameters> {
    var table := TargetTable(b.source);
    if table.None? || b.document.target != Target(c.dataset, table.value) || Schema(b.document.fields).None? then None
    else Some(Parameters(
      b.document.run, b.source, b.document.portfolio, b.document.plan, b.digest,
      TableText(TableSpec(c.project, c.dataset, table.value)), Schema(b.document.fields).value, job))
  }

  // ---------------------------------------------------- table specifications

  lemma {:induction false} OccurrencesAdd(a: string, b: string, c: char)
    ensures Occurrences(a + b, c) == Occurrences(a, c) + Occurrences(b, c)
  {
    if a == "" {
      assert a + b == b;
    } else {
      OccurrencesAdd(a[1..], b, c);
      assert (a + b)[1..] == a[1..] + b;
    }
  }

  predicate Lacks(s: string, c: char) { forall i :: 0 <= i < |s| ==> s[i] != c }

  lemma {:induction false} NoOccurrence(s: string, c: char)
    requires Lacks(s, c)
    ensures Occurrences(s, c) == 0
  {
    if s != "" {
      NoOccurrence(s[1..], c);
    }
  }

  lemma {:induction false} FirstAfter(a: string, b: string, c: char)
    requires Lacks(a, c) && b != "" && b[0] == c
    ensures First(a + b, c) == |a|
  {
    if a == "" {
      assert a + b == b;
    } else {
      FirstAfter(a[1..], b, c);
      assert (a + b)[1..] == a[1..] + b;
    }
  }

  lemma OneOccurrence(a: string, b: string, c: char)
    requires Lacks(a, c) && b != "" && b[0] == c && Lacks(b[1..], c)
    ensures Occurrences(a + b, c) == 1
  {
    OccurrencesAdd(a, b, c);
    NoOccurrence(a, c);
    NoOccurrence(b[1..], c);
  }

  /** Text with one colon and one point after it splits at both. */
  lemma Splits(project: string, dataset: string, table: string)
    requires Lacks(project, ':') && Lacks(dataset, ':') && Lacks(table, ':')
    requires Lacks(project, '.') && Lacks(dataset, '.') && Lacks(table, '.')
    ensures var text, rest := project + ":" + dataset + "." + table, dataset + "." + table;
            && Occurrences(text, ':') == 1 && Occurrences(text, '.') == 1
            && First(text, ':') == |project| && First(rest, '.') == |dataset|
            && text[..|project|] == project && text[|project| + 1..] == rest
            && rest[..|dataset|] == dataset && rest[|dataset| + 1..] == table
  {
    hide Occurrences, First;
    var rest, point := dataset + "." + table, "." + table;
    var text, colon, front := project + ":" + dataset + "." + table, ":" + rest, project + ":" + dataset;
    assert text == project + colon == front + point && rest == dataset + point;
    assert colon[1..] == rest && point[1..] == table;
    OneOccurrence(project, colon, ':');
    OneOccurrence(front, point, '.');
    FirstAfter(project, colon, ':');
    FirstAfter(dataset, point, '.');
  }

  lemma NamesPlain(spec: TableSpec)
    requires IsProject(spec.project) && IsDataset(spec.dataset)
    ensures Lacks(spec.project, ':') && Lacks(spec.dataset, ':') && Lacks(spec.project, '.') && Lacks(spec.dataset, '.')
  {}

  /** The table that is launched parses back to its three parts. */
  lemma TableParses(spec: TableSpec)
    requires IsProject(spec.project) && IsDataset(spec.dataset)
    requires spec.table in ["jde_f0101", "ax_custtable", "ebs_hz_parties"]
    ensures ParseTableSpec(TableText(spec)) == Some(spec)
  {
    hide Occurrences, First, IsProject, IsDataset;
    NamesPlain(spec);
    Splits(spec.project, spec.dataset, spec.table);
  }

  // --------------------------------------------------------------- job names

  predicate Dashed(s: string) { forall i :: 0 <= i < |s| ==> IsDashed(s[i]) }

  /** Every job name that is derived fits the template's pattern. */
  lemma JobNameFits(b: Bundle)
    requires b.source in SOURCE_ORDER && IsRunId(b.document.run) && IsDigest(b.digest)
    ensures IsJobName(JobName(b))
  {
    var id, hex := Without("mig_", b.document.run), Without("sha256:", b.digest);
    var suffix, short := Take(Lowered(id), 16), Take(hex, 12);
    assert Dashed(suffix);
    assert Dashed(short) && |short| == 12 && short[11] != '-';
    var name := "ztm-" + b.source + "-" + suffix + "-" + short;
    assert Dashed(b.source);
    assert Dashed(name) && |name| <= 63 && name[|name| - 1] == short[11];
    assert Take(name, 63) == name;
  }

  /** The three jobs of a portfolio never share a name. */
  lemma JobNamesDiffer(a: Bundle, b: Bundle)
    requires a.source in SOURCE_ORDER && IsRunId(a.document.run) && IsDigest(a.digest)
    requires b.source in SOURCE_ORDER && IsRunId(b.document.run) && IsDigest(b.digest)
    requires a.source != b.source
    ensures JobName(a) != JobName(b)
  {
    hide JobName, IsRunId, IsDigest;
    JobNameStarts(a);
    JobNameStarts(b);
    assert SOURCE_ORDER[0][0] == 'j' && SOURCE_ORDER[1][0] == 'd' && SOURCE_ORDER[2][0] == 'e';
  }

  lemma JobNameStarts(b: Bundle)
    requires b.source in SOURCE_ORDER && IsRunId(b.document.run) && IsDigest(b.digest)
    ensures b.source != "" && |JobName(b)| > 4 && JobName(b)[4] == b.source[0]
  {
    var id, hex := Without("mig_", b.document.run), Without("sha256:", b.digest);
    var suffix, short := Take(Lowered(id), 16), Take(hex, 12);
    assert |short| == 12 && short[11] != '-';
    var name := "ztm-" + b.source + "-" + suffix + "-" + short;
    assert |name| <= 63 && name[|name| - 1] == short[11];
    assert Take(name, 63) == name;
  }

  // ------------------------------------------------------------------- cells

  /** What the producer writes in a cell, the template accepts. */
  lemma CellAgrees(lib: Library, raw: Cell<Datum>, field: Field)
    requires Lawful(lib) && CellOf(lib, raw, field).Some?
    ensures ValidCell(lib, CellOf(lib, raw, field).value, field)
  {
    hide Written, Readable;
    match raw.value
    case Whole(i) => if field.kind.DecimalKind? { WrittenIsReadable(WholeNumber(i)); }
    case Exact(n) => WrittenIsReadable(n.value);
    case Float(n) => WrittenIsReadable(n.value);
    case _ =>
  }

  lemma RowsAgree(lib: Library, rows: seq<RawRow>, fields: seq<Field>)
    requires Lawful(lib) && RowsAccepted(lib, rows, fields) && DistinctNames(fields)
    ensures ValidRows(lib, RowsOf(lib, rows, fields), fields)
  {
    hide CellOf, RowOf, ValidCell, Lawful;
    forall k | 0 <= k < |rows| ensures ValidRow(lib, RowOf(lib, rows[k], fields), fields) {
      RowBecomes(lib, rows[k], fields);
      forall i | 0 <= i < |fields| ensures ValidCell(lib, RowOf(lib, rows[k], fields)[fields[i].name], fields[i]) {
        CellAgrees(lib, rows[k][fields[i].name], fields[i]);
      }
    }
  }

  lemma FieldsDistinct(raw: seq<RawField>)
    requires WellDeclared(raw)
    ensures DistinctNames(FieldsOf(raw))
  {
    forall i, j | 0 <= i < j < |raw| ensures FieldsOf(raw)[i].name != FieldsOf(raw)[j].name {
      assert raw[i].name != raw[j].name;
    }
  }

  // ----------------------------------------------------------- main theorems

  lemma DocumentValidated(
    lib: Library, h: Hashing, prepared: Prepared, permission: Permission, plan: Plan, source: string, outcome: Outcome,
    p: Parameters)
    requires Lawful(lib) && OutcomeAccepted(lib, h, plan, source, outcome)
    requires Bound(h, DocumentOf(lib, h, prepared, permission, plan, source, outcome), p)
    ensures Validated(lib, h, DocumentOf(lib, h, prepared, permission, plan, source, outcome), p)
  {
    hide Bound, Lawful, RowsAccepted, ValidRows;
    FieldsDistinct(plan.fields);
    RowsAgree(lib, outcome.rows.value, FieldsOf(plan.fields));
  }

  /** Whatever inputs the bundles are built from: a bundle is launched exactly
      when its plan targets the configured dataset, and a launched bundle is
      accepted by the template under its own launch parameters and job name. */
  lemma LaunchedIsAccepted(
    lib: Library, h: Hashing, prepared: Prepared, execution: Execution, permission: Permission, c: Config, i: nat)
    requires i < 3 && Lawful(lib) && Configured(c) && AllAccepted(lib, h, prepared, execution, permission)
    ensures var b := BundleOf(lib, h, prepared, execution, permission, i);
            var p := LaunchParameters(c, b, JobName(b));
            && (p.Some? <==> prepared.sources[i].plan.target.dataset == c.dataset)
            && (p.Some? ==> Accepted(lib, h, b.document, p.value))
  {
    hide Lawful, RowsAccepted, RowsOf, IsDigest, IsRunId, IsProject, IsDataset, JobName, WellDeclared, Columns,
        FieldsOf, TableText, ParseTableSpec, IsJobName;
    var plan, outcome := prepared.sources[i].plan, execution.outcomes[i];
    var b := BundleOf(lib, h, prepared, execution, permission, i);
    var p := LaunchParameters(c, b, JobName(b));
    assert SourceBound(h, prepared, i);
    assert OutcomeBound(plan, SOURCE_ORDER[i], outcome);
    JobNameFits(b);
    if p.Some? {
      TableParses(TableSpec(c.project, c.dataset, TargetTable(b.source).value));
      assert DocumentDigest(h, b.document) == b.digest by {
        assert b.document.(bundle := "") == b.document.(bundle := "");
      }
      assert Bound(h, b.document, p.value);
      DocumentValidated(lib, h, prepared, permission, plan, SOURCE_ORDER[i], outcome, p.value);
    }
  }

  /** A document is accepted under one binding only: every launch parameter but
      the project and the job name is determined by the document. */
  lemma OneBinding(lib: Library, h: Hashing, d: Document, p: Parameters, q: Parameters)
    requires Accepted(lib, h, d, p) && Accepted(lib, h, d, q)
    ensures p.(table := q.table, job := q.job) == q
    ensures ParseTableSpec(p.table).value.(project := "") == ParseTableSpec(q.table).value.(project := "")
  {
    hide ParseTableSpec, ValidRows, WellDeclared, IsDigest, IsRunId, IsJobName;
  }

  /** Two different documents with one digest. */
  predicate Collide(h: Hashing, d: Document, e: Document) {
    d.(bundle := "") != e.(bundle := "") && DocumentDigest(h, d) == DocumentDigest(h, e)
  }

  /** One set of parameters admits one document: a substitute that passes is
      itself a collision of the digest. */
  lemma OneDocument(lib: Library, h: Hashing, d: Document, e: Document, p: Parameters)
    requires Accepted(lib, h, d, p) && Accepted(lib, h, e, p)
    ensures d == e || Collide(h, d, e)
  {
    hide ParseTableSpec, ValidRows, WellDeclared, IsDigest, IsRunId, IsJobName;
    if d.(bundle := "") == e.(bundle := "") {
      assert d == d.(bundle := "").(bundle := p.bundle);
      assert e == e.(bundle := "").(bundle := p.bundle);
    }
  }

  // -------------------------------------------------------- destination rows

  function LineageNames(): set<string> {
    {"_ztm_run_id", "_ztm_source_id", "_ztm_plan_digest", "_ztm_output_digest", "_ztm_bundle_digest",
     "_ztm_approval_digest", "_ztm_policy_digest", "_ztm_job_name", "_ztm_row_ordinal"}
  }

  function ColumnNames(columns: seq<Column>): set<string> { set c | c in columns :: c.name }

  lemma NamesAdd(a: seq<Column>, b: seq<Column>)
    ensures ColumnNames(a + b) == ColumnNames(a) + ColumnNames(b)
  {}

  lemma NineNames(
    a: Column, b: Column, c: Column, d: Column, e: Column, f: Column, g: Column, h: Column, i: Column)
    ensures ColumnNames([a, b, c, d, e, f, g, h, i])
         == {a.name, b.name, c.name, d.name, e.name, f.name, g.name, h.name, i.name}
  {
    var all := [a, b, c, d, e, f, g, h, i];
    assert all[0] in all && all[1] in all && all[2] in all && all[3] in all && all[4] in all
        && all[5] in all && all[6] in all && all[7] in all && all[8] in all;
  }

  lemma LineageListed()
    ensures ColumnNames(LINEAGE) == LineageNames()
  {
    hide ColumnNames;
    NineNames(
      Column("_ztm_run_id", "STRING", true), Column("_ztm_source_id", "STRING", true),
      Column("_ztm_plan_digest", "STRING", true), Column("_ztm_output_digest", "STRING", true),
      Column("_ztm_bundle_digest", "STRING", true), Column("_ztm_approval_digest", "STRING", true),
      Column("_ztm_policy_digest", "STRING", true), Column("_ztm_job_name", "STRING", true),
      Column("_ztm_row_ordinal", "INTEGER", true));
  }

  /** The schema names the declared fields and the lineage columns. */
  lemma SchemaNames(raw: seq<RawField>)
    requires WellDeclared(raw)
    ensures ColumnNames(Schema(raw).value) == Names(FieldsOf(raw)) + LineageNames()
  {
    hide LINEAGE, LineageNames, WellFormed;
    var fields := FieldsOf(raw);
    LineageListed();
    NamesAdd(Columns(fields), LINEAGE);
    assert forall i :: 0 <= i < |fields| ==> Columns(fields)[i].name == fields[i].name;
    assert ColumnNames(Columns(fields)) == Names(fields);
  }

  /** The column types of the schema, kind by kind, and of the lineage columns. */
  lemma SchemaTypes(raw: seq<RawField>, i: nat)
    requires WellDeclared(raw) && i < |raw|
    ensures Schema(raw).Some? && |Schema(raw).value| == |raw| + 9
    ensures var f, column := FieldsOf(raw)[i], Schema(raw).value[i];
            && column.name == f.name && column.required == !f.nullable
            && (f.kind == StringKind <==> column.bigquery == "STRING")
            && (f.kind == IntegerKind <==> column.bigquery == "INTEGER")
            && (f.kind == DecimalKind <==> column.bigquery == "NUMERIC")
            && (f.kind == DateKind <==> column.bigquery == "DATE")
            && (f.kind == TimestampKind <==> column.bigquery == "TIMESTAMP")
            && (f.kind == BooleanKind <==> column.bigquery == "BOOLEAN")
            && (f.kind == BytesKind <==> column.bigquery == "BYTES")
    ensures forall k | |raw| <= k < |raw| + 9 ::
              var column := Schema(raw).value[k];
              column.required && column.bigquery == if column.name == "_ztm_row_ordinal" then "INTEGER" else "STRING"
  {
    hide IsFieldName, BigQueryType;
    TypesTellKinds(FieldsOf(raw)[i].kind);
  }

  lemma TypesTellKinds(k: Kind)
    ensures k == StringKind <==> BigQueryType(k) == "STRING"
    ensures k == IntegerKind <==> BigQueryType(k) == "INTEGER"
    ensures k == DecimalKind <==> BigQueryType(k) == "NUMERIC"
    ensures k == DateKind <==> BigQueryType(k) == "DATE"
    ensures k == TimestampKind <==> BigQueryType(k) == "TIMESTAMP"
    ensures k == BooleanKind <==> BigQueryType(k) == "BOOLEAN"
    ensures k == BytesKind <==> BigQueryType(k) == "BYTES"
  {
    KindsInvert(k);
  }

  lemma LineageApart(name: string)
    requires name in LineageNames()
    ensures "_ztm_" <= name
  {}

  /** A destination row holds each declared cell's value under its own name, and
      beside them only the lineage columns: together, the columns of the schema.
      The lineage is that of the launch: its run, source, plan, bundle and job,
      the digest of the rows, the approval, the policy, and the row's position. */
  lemma DestinationExact(lib: Library, h: Hashing, d: Document, p: Parameters, ordinal: nat)
    requires Accepted(lib, h, d, p) && ordinal < |d.rows|
    ensures Flat(d.rows)
    ensures var out := DestinationRow(d, p.job, ordinal);
            && out.Keys == ColumnNames(p.schema)
            && (forall f | f in FieldsOf(d.fields) :: f.name in d.rows[ordinal] && d.rows[ordinal][f.name].Cell?
                                                      && out[f.name] == d.rows[ordinal][f.name].value)
            && out["_ztm_run_id"] == JsonString(p.run) && out["_ztm_source_id"] == JsonString(p.source)
            && out["_ztm_plan_digest"] == JsonString(p.plan) && out["_ztm_output_digest"] == JsonString(h.rows(d.rows))
            && out["_ztm_bundle_digest"] == JsonString(p.bundle)
            && out["_ztm_approval_digest"] == JsonString(d.approval)
            && out["_ztm_policy_digest"] == JsonString(d.policy) && out["_ztm_job_name"] == JsonString(p.job)
            && out["_ztm_row_ordinal"] == JsonInteger(ordinal)
  {
    hide Bound, ValidValue, IsJobName, LineageNames, LineageCells, ColumnNames, Schema, FieldsOf;
    var fields := FieldsOf(d.fields);
    forall k | 0 <= k < |d.rows| ensures FlatRow(d.rows[k]) {
      RowFlat(lib, d.rows[k], fields);
    }
    var row, out := d.rows[ordinal], DestinationRow(d, p.job, ordinal);
    SchemaNames(d.fields);
    LineageCellsAre(d, p.job, ordinal);
    AcceptedBinds(lib, h, d, p);
    RowFlat(lib, row, fields);
    LineageKeys(d, p.job, ordinal);
    assert Values(row).Keys == row.Keys == Names(fields);
    forall f | f in fields ensures f.name !in LineageNames() {
      var j :| 0 <= j < |fields| && fields[j] == f;
      assert WellFormed(d.fields[j]);
      if f.name in LineageNames() { LineageApart(f.name); }
    }
  }

  lemma LineageKeys(d: Document, job: string, ordinal: nat)
    ensures LineageCells(d, job, ordinal).Keys == LineageNames()
  {}

  /** What each lineage column holds. */
  predicate CarriesLineage(out: Destination, d: Document, job: string, ordinal: nat) {
    && LineageNames() <= out.Keys
    && out["_ztm_run_id"] == JsonString(d.run) && out["_ztm_source_id"] == JsonString(d.source)
    && out["_ztm_plan_digest"] == JsonString(d.plan) && out["_ztm_output_digest"] == JsonString(d.output)
    && out["_ztm_bundle_digest"] == JsonString(d.bundle) && out["_ztm_approval_digest"] == JsonString(d.approval)
    && out["_ztm_policy_digest"] == JsonString(d.policy) && out["_ztm_job_name"] == JsonString(job)
    && out["_ztm_row_ordinal"] == JsonInteger(ordinal)
  }

  lemma LineageCellsAre(d: Document, job: string, ordinal: nat)
    requires ordinal < |d.rows|
    ensures CarriesLineage(DestinationRow(d, job, ordinal), d, job, ordinal)
  {
    LineageKeys(d, job, ordinal);
  }

  lemma AcceptedBinds(lib: Library, h: Hashing, d: Document, p: Parameters)
    requires Accepted(lib, h, d, p)
    ensures d.run == p.run && d.source == p.source && d.plan == p.plan && d.bundle == p.bundle
    ensures d.output == h.rows(d.rows)
  {
    hide ValidRows, WellDeclared, IsJobName;
  }

  lemma RowFlat(lib: Library, row: Row, fields: seq<Field>)
    requires ValidRow(lib, row, fields)
    ensures FlatRow(row)
  {
    forall name | name in row ensures row[name].Cell? {
      assert name in Names(fields);
      var j :| 0 <= j < |fields| && fields[j].name == name;
      assert ValidCell(lib, row[fields[j].name], fields[j]);
    }
  }

  /** From the interpreter's memory to the warehouse: the value in a destination
      row is the JSON value of the datum in the same row and column. */
  lemma ArrivesUnchanged(
    lib: Library, h: Hashing, prepared: Prepared, execution: Execution, permission: Permission, c: Config,
    i: nat, ordinal: nat, column: nat)
    requires i < 3 && Lawful(lib) && Configured(c) && AllAccepted(lib, h, prepared, execution, permission)
    requires prepared.sources[i].plan.target.dataset == c.dataset
    requires ordinal < execution.outcomes[i].count && column < |prepared.sources[i].plan.fields|
    ensures var b := BundleOf(lib, h, prepared, execution, permission, i);
            var f := FieldOf(prepared.sources[i].plan.fields[column]);
            && b.document.count == |b.document.rows| == |execution.outcomes[i].rows.value|
            && f.name in execution.outcomes[i].rows.value[ordinal]
            && var raw := execution.outcomes[i].rows.value[ordinal][f.name];
               var out := DestinationRow(b.document, JobName(b), ordinal);
               && raw.Cell? && f.name in out
               && JsonValue(lib, raw.value, f.kind, f.nullable) == Some(out[f.name])
  {
    LaunchedIsAccepted(lib, h, prepared, execution, permission, c, i);
    hide Lawful, Accepted, DestinationRow, Configured, JsonValue, IsToken, JobName, LaunchParameters, InputsValid;
    var b := BundleOf(lib, h, prepared, execution, permission, i);
    var p := LaunchParameters(c, b, JobName(b)).value;
    var fields, rows := FieldsOf(prepared.sources[i].plan.fields), execution.outcomes[i].rows.value;
    assert p.job == JobName(b) by { JobOf(c, b, JobName(b)); }
    DestinationExact(lib, h, b.document, p, ordinal);
    FieldsDistinct(prepared.sources[i].plan.fields);
    assert RowAccepted(lib, rows[ordinal], fields);
    RowBecomes(lib, rows[ordinal], fields);
    assert fields[column] in fields;
    assert CellOf(lib, rows[ordinal][fields[column].name], fields[column])
        == Some(b.document.rows[ordinal][fields[column].name]);
  }

  lemma JobOf(c: Config, b: Bundle, job: string)
    requires LaunchParameters(c, b, job).Some?
    ensures LaunchParameters(c, b, job).value.job == job
  {}

  /** The datum that a JSON value of a declared type stands for. */
  function Meaning(lib: Library, json: Json, kind: Kind): Option<Datum> {
    match json
    case JsonNull => Some(Missing)
    case JsonInteger(n) => Some(Whole(n))
    case JsonBoolean(b) => Some(Flag(b))
    case JsonOther => None
    case JsonString(text) => (
      match kind
      case StringKind => Some(Words(text))
      case DecimalKind => if Read(text).Some? then Some(Exact(Read(text))) else None
      case DateKind => if lib.day.read(text).Some? then Some(Date(lib.day.read(text).value)) else None
      case TimestampKind => if lib.moment.read(text).Some? then Some(Stamp(lib.moment.read(text).value)) else None
      case BytesKind => if lib.bytes.read(text).Some? then Some(Blob(lib.bytes.read(text).value)) else None
      case _ => None)
  }

  /** The decimal that a datum of a decimal column holds. */
  function Quantity(datum: Datum): Option<Number> {
    match datum
    case Whole(i) => Some(WholeNumber(i))
    case Exact(n) => n
    case Float(n) => n
    case _ => None
  }

  /** Nothing is lost in writing a cell, except that a decimal of more than 28
      digits is rounded: it keeps its value if and only if it is precise. */
  lemma MeaningKept(lib: Library, datum: Datum, kind: Kind, nullable: bool)
    requires Lawful(lib) && JsonValue(lib, datum, kind, nullable).Some?
    ensures var json := JsonValue(lib, datum, kind, nullable).value;
            if kind.DecimalKind? && datum != Missing then
              && Quantity(datum).Some?
              && Meaning(lib, json, kind).Some? && Meaning(lib, json, kind).value.Exact?
              && Meaning(lib, json, kind).value.decimal.Some?
              && (SameNumber(Meaning(lib, json, kind).value.decimal.value, Quantity(datum).value)
                  <==> Precise(Quantity(datum).value))
            else Meaning(lib, json, kind) == Some(datum)
  {
    hide Written, Read, SameNumber, Precise;
    if kind.DecimalKind? && datum != Missing {
      ValueKeptIff(Quantity(datum).value);
    }
  }

  /** The text of an instant as the template reads it. */
  function Zulu(text: string): string { if EndsInZ(text) then text[..|text| - 1] + "+00:00" else text }

  /** What the template accepts in a cell: a decimal text exactly if the number that it
      denotes could have been written, an instant exactly if it reads as one with
      an offset, and anything else exactly if it is the JSON value of some datum. */
  lemma AcceptedIff(lib: Library, json: Json, kind: Kind, nullable: bool)
    requires Lawful(lib)
    ensures ValidValue(lib, json, kind, nullable) <==>
              if kind.DecimalKind? && json.JsonString? then
                Read(json.text).Some? && JsonValue(lib, Exact(Read(json.text)), kind, nullable).Some?
              else if kind.TimestampKind? && json.JsonString? then
                exists m: Moment :: m.offset.Some? && lib.moment.read(Zulu(json.text)) == Some(m)
              else exists datum :: JsonValue(lib, datum, kind, nullable) == Some(json)
  {
    hide Plain, Read, Normalized, InDomain, Lawful;
    if !(json.JsonString? && (kind.DecimalKind? || kind.TimestampKind?)) {
      if ValidValue(lib, json, kind, nullable) {
        WrittenBack(lib, json, kind, nullable);
      }
      if datum :| JsonValue(lib, datum, kind, nullable) == Some(json) {
        ReadBack(lib, json, kind, nullable, datum);
      }
    }
  }

  lemma WrittenBack(lib: Library, json: Json, kind: Kind, nullable: bool)
    requires ValidValue(lib, json, kind, nullable)
    requires !(json.JsonString? && (kind.DecimalKind? || kind.TimestampKind?))
    ensures Meaning(lib, json, kind).Some?
    ensures JsonValue(lib, Meaning(lib, json, kind).value, kind, nullable) == Some(json)
  {
    hide Written, Read;
  }

  lemma ReadBack(lib: Library, json: Json, kind: Kind, nullable: bool, datum: Datum)
    requires Lawful(lib) && JsonValue(lib, datum, kind, nullable) == Some(json)
    requires !(json.JsonString? && (kind.DecimalKind? || kind.TimestampKind?))
    ensures ValidValue(lib, json, kind, nullable)
  {
    hide Written, Read;
  }
}
