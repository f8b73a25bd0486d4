/** The Dataflow template: every binding of a bundle document is checked before
    any destination row is produced. `None` is a rejection. */
module CloudTemplate {
  import opened Common
  import opened CloudDecimal
  import opened CloudDocument

  datatype Parameters = Parameters(
    run: string, source: string, portfolio: string, plan: string, bundle: string,
    table: string, schema: seq<Column>, job: string)

  /** A BigQuery column. */
  datatype Column = Column(name: string, bigquery: string, required: bool)

  function BigQueryType(k: Kind): string {
    match k
    case StringKind => "STRING"
    case IntegerKind => "INTEGER"
    case DecimalKind => "NUMERIC"
    case DateKind => "DATE"
    case TimestampKind => "TIMESTAMP"
    case BooleanKind => "BOOLEAN"
    case BytesKind => "BYTES"
  }

  const LINEAGE := [
    Column("_ztm_run_id", "STRING", true), Column("_ztm_source_id", "STRING", true),
    Column("_ztm_plan_digest", "STRING", true), Column("_ztm_output_digest", "STRING", true),
    Column("_ztm_bundle_digest", "STRING", true), Column("_ztm_approval_digest", "STRING", true),
    Column("_ztm_policy_digest", "STRING", true), Column("_ztm_job_name", "STRING", true),
    Column("_ztm_row_ordinal", "INTEGER", true)]

  function ColumnOf(f: Field): Column { Column(f.name, BigQueryType(f.kind), !f.nullable) }

  function Columns(fields: seq<Field>): (columns: seq<Column>)
    ensures |columns| == |fields| && forall i :: 0 <= i < |fields| ==> columns[i] == ColumnOf(fields[i])
  {
    seq(|fields|, i requires 0 <= i < |fields| => ColumnOf(fields[i]))
  }

  function Schema(raw: seq<RawField>): Option<seq<Column>> {
    if WellDeclared(raw) then Some(Columns(FieldsOf(raw)) + LINEAGE) else None
  }

  method BigQuerySchema(raw: seq<RawField>) returns (schema: Option<seq<Column>>)
    ensures schema == Schema(raw)
  {
    hide IsFieldName, BigQueryType;
    if raw == [] { return None; }
    var columns: seq<Column> := [];
    var seen: set<string> := {};
    var i := 0;
    while i < |raw|
      invariant 0 <= i <= |raw|
      invariant forall j :: 0 <= j < i ==> WellFormed(raw[j]) && raw[j].name.value in seen
      invariant forall j, k :: 0 <= j < k < i ==> raw[j].name != raw[k].name
      invariant forall name :: name in seen ==> exists j :: 0 <= j < i && raw[j].name == Some(name)
      invariant |columns| == i && forall j :: 0 <= j < i ==> columns[j] == ColumnOf(FieldOf(raw[j]))
    {
      if !WellFormed(raw[i]) || raw[i].name.value in seen { return None; }
      seen := seen + {raw[i].name.value};
      columns := columns + [ColumnOf(FieldOf(raw[i]))];
      i := i + 1;
    }
    assert columns == Columns(FieldsOf(raw));
    return Some(columns + LINEAGE);
  }

  /** The declared type of a column, by the inverse of the type table. */
  function KindOf(bigquery: string): Option<Kind> {
    if bigquery == "STRING" then Some(StringKind)
    else if bigquery == "INTEGER" then Some(IntegerKind)
    else if bigquery == "NUMERIC" then Some(DecimalKind)
    else if bigquery == "DATE" then Some(DateKind)
    else if bigquery == "TIMESTAMP" then Some(TimestampKind)
    else if bigquery == "BOOLEAN" then Some(BooleanKind)
    else if bigquery == "BYTES" then Some(BytesKind)
    else None
  }

  // ------------------------------------------------------------------ cells

  predicate ValidMoment(lib: Library, text: string) {
    var read := lib.moment.read(if EndsInZ(text) then text[..|text| - 1] + "+00:00" else text);
    read.Some? && read.value.offset.Some?
  }

  predicate ValidValue(lib: Library, value: Json, kind: Kind, nullable: bool) {
    match value
    case JsonNull => nullable
    case JsonString(text) => (
      match kind
      case StringKind => true
      case DecimalKind => Readable(text)
      case DateKind => lib.day.read(text).Some? && lib.day.show(lib.day.read(text).value) == text
      case TimestampKind => ValidMoment(lib, text)
      case BytesKind => lib.bytes.read(text).Some? && lib.bytes.show(lib.bytes.read(text).value) == text
      case _ => false)
    case JsonInteger(n) => kind.IntegerKind? && -0x8000_0000_0000_0000 <= n <= 0x7FFF_FFFF_FFFF_FFFF
    case JsonBoolean(_) => kind.BooleanKind?
    case JsonOther => false
  }

  predicate ValidCell(lib: Library, cell: Cell<Json>, field: Field) {
    cell.Cell? && !cell.protection.Unprotected? && ValidValue(lib, cell.value, field.kind, field.nullable)
  }

  predicate ValidRow(lib: Library, row: Row, fields: seq<Field>) {
    && row.Keys == Names(fields)
    && forall i :: 0 <= i < |fields| ==> ValidCell(lib, row[fields[i].name], fields[i])
  }

  predicate ValidRows(lib: Library, rows: seq<Row>, fields: seq<Field>) {
    forall k :: 0 <= k < |rows| ==> ValidRow(lib, rows[k], fields)
  }

  lemma KindsInvert(k: Kind)
    ensures KindOf(BigQueryType(k)) == Some(k)
  {}

  /** The row loop of the template, which works from the columns of the schema. */
  method CheckRows(lib: Library, rows: seq<Row>, columns: seq<Column>, ghost fields: seq<Field>) returns (ok: bool)
    requires columns == Columns(fields)
    ensures ok == ValidRows(lib, rows, fields)
  {
    var names := set c | c in columns :: c.name;
    assert names == Names(fields) by {
      assert forall i :: 0 <= i < |fields| ==> columns[i].name == fields[i].name;
    }
    var k := 0;
    while k < |rows|
      invariant 0 <= k <= |rows|
      invariant forall j :: 0 <= j < k ==> ValidRow(lib, rows[j], fields)
    {
      if rows[k].Keys != names { return false; }
      var i := 0;
      while i < |columns|
        invariant 0 <= i <= |columns|
        invariant forall j :: 0 <= j < i ==> ValidCell(lib, rows[k][fields[j].name], fields[j])
      {
        var cell := rows[k][columns[i].name];
        KindsInvert(fields[i].kind);
        var kind := KindOf(columns[i].bigquery);
        if !cell.Cell? || cell.protection.Unprotected?
            || !ValidValue(lib, cell.value, kind.value, !columns[i].required) {
          return false;
        }
        i := i + 1;
      }
      k := k + 1;
    }
    return true;
  }

  // ------------------------------------------------------ table specification

  function Occurrences(s: string, c: char): nat {
    if s == "" then 0 else (if s[0] == c then 1 else 0) + Occurrences(s[1..], c)
  }

  /** Where `c` first occurs; the length when it does not. */
  function First(s: string, c: char): (k: nat)
    ensures k <= |s| && (k < |s| ==> s[k] == c)
  {
    if s == "" || s[0] == c then 0 else 1 + First(s[1..], c)
  }

  datatype TableSpec = TableSpec(project: string, dataset: string, table: string)

  function ParseTableSpec(text: string): Option<TableSpec> {
    if Occurrences(text, ':') != 1 || Occurrences(text, '.') != 1 then None
    else
      var colon := First(text, ':');
      if colon == |text| then None
      else
        var rest := text[colon + 1..];
        var dot := First(rest, '.');
        if dot == |rest| then None
        else
          var project, dataset, table := text[..colon], rest[..dot], rest[dot + 1..];
          if IsProject(project) && IsDataset(dataset) && table in ["jde_f0101", "ax_custtable", "ebs_hz_parties"] then
            Some(TableSpec(project, dataset, table))
          else None
  }

  function TableText(spec: TableSpec): string { spec.project + ":" + spec.dataset + "." + spec.table }

  // -------------------------------------------------------------- documents

  /** The run, digests, source and destination that the launch parameters name. */
  predicate Bound(h: Hashing, d: Document, p: Parameters) {
    && d.version == SCHEMA_VERSION && d.kind == BUNDLE_KIND
    && IsRunId(p.run) && IsDigest(p.portfolio) && IsDigest(p.plan) && IsDigest(p.bundle)
    && IsDigest(d.approval) && IsDigest(d.policy) && IsDigest(d.output)
    && TargetTable(p.source).Some?
    && ParseTableSpec(p.table).Some?
    && d.run == p.run && d.source == p.source && d.portfolio == p.portfolio && d.plan == p.plan && d.bundle == p.bundle
    && ParseTableSpec(p.table).value.table == TargetTable(p.source).value
    && d.target == Target(ParseTableSpec(p.table).value.dataset, ParseTableSpec(p.table).value.table)
    && DocumentDigest(h, d) == p.bundle
  }

  predicate Validated(lib: Library, h: Hashing, d: Document, p: Parameters) {
    && Bound(h, d, p)
    && WellDeclared(d.fields)
    && |d.rows| == d.count
    && ValidRows(lib, d.rows, FieldsOf(d.fields))
    && h.rows(d.rows) == d.output
  }

  /** Whether the template goes on to produce rows from this document. */
  predicate Accepted(lib: Library, h: Hashing, d: Document, p: Parameters) {
    Validated(lib, h, d, p) && Schema(d.fields) == Some(p.schema) && IsJobName(p.job)
  }

  method ValidateBundleDocument(lib: Library, h: Hashing, d: Document, p: Parameters) returns (ok: bool)
    ensures ok == Validated(lib, h, d, p)
  {
    if !Bound(h, d, p) { return false; }
    var schema := BigQuerySchema(d.fields);
    if schema.None? { return false; }
    var columns := schema.value[..|schema.value| - |LINEAGE|];
    assert columns == Columns(FieldsOf(d.fields));
    if |d.rows| != d.count { return false; }
    ok := CheckRows(lib, d.rows, columns, FieldsOf(d.fields));
    if h.rows(d.rows) != d.output { return false; }
  }

  // ------------------------------------------------------- destination rows

  type Destination = map<string, Json>

  function LineageCells(d: Document, job: string, ordinal: nat): Destination {
    map[
      "_ztm_run_id" := JsonString(d.run), "_ztm_source_id" := JsonString(d.source),
      "_ztm_plan_digest" := JsonString(d.plan), "_ztm_output_digest" := JsonString(d.output),
      "_ztm_bundle_digest" := JsonString(d.bundle), "_ztm_approval_digest" := JsonString(d.approval),
      "_ztm_policy_digest" := JsonString(d.policy), "_ztm_job_name" := JsonString(job),
      "_ztm_row_ordinal" := JsonInteger(ordinal)]
  }

  function Values(row: Row): Destination {
    map name | name in row && row[name].Cell? :: row[name].value
  }

  function DestinationRow(d: Document, job: string, ordinal: nat): Destination
    requires ordinal < |d.rows|
  {
    Values(d.rows[ordinal]) + LineageCells(d, job, ordinal)
  }

  predicate FlatRow(row: Row) { forall name | name in row :: row[name].Cell? }

  predicate Flat(rows: seq<Row>) { forall k :: 0 <= k < |rows| ==> FlatRow(rows[k]) }

  method FlattenRow(d: Document, job: string, k: nat) returns (r: Option<Destination>)
    requires k < |d.rows|
    ensures r == if FlatRow(d.rows[k]) then Some(DestinationRow(d, job, k)) else None
  {
    hide LineageCells, Values, FlatRow;
    var row := Values(d.rows[k]);
    SameSize(d.rows[k]);
    if |row| != |d.rows[k]| { return None; }
    return Some(row + LineageCells(d, job, k));
  }

  method DestinationRows(d: Document, job: string) returns (r: Option<seq<Destination>>)
    ensures r.Some? <==> IsJobName(job) && Flat(d.rows)
    ensures r.Some? ==> |r.value| == |d.rows|
    ensures r.Some? ==> forall k :: 0 <= k < |d.rows| ==> r.value[k] == DestinationRow(d, job, k)
  {
    hide IsJobName, DestinationRow, FlatRow;
    if !IsJobName(job) { return None; }
    var rows: seq<Destination> := [];
    var k := 0;
    while k < |d.rows|
      invariant 0 <= k == |rows| <= |d.rows|
      invariant forall j :: 0 <= j < k ==> FlatRow(d.rows[j])
      invariant forall j :: 0 <= j < k ==> rows[j] == DestinationRow(d, job, j)
    {
      var row := FlattenRow(d, job, k);
      if row.None? { return None; }
      rows := rows + [row.value];
      k := k + 1;
    }
    return Some(rows);
  }

  /** Comparing sizes finds a cell that is not one. */
  lemma SameSize(row: Row)
    ensures |Values(row)| == |row| <==> FlatRow(row)
  {
    var values := Values(row);
    assert values.Keys <= row.Keys;
    if FlatRow(row) {
      assert values.Keys == row.Keys;
    } else {
      var name :| name in row && !row[name].Cell?;
      Smaller(values.Keys, row.Keys, name);
    }
    assert |values| == |values.Keys| && |row| == |row.Keys|;
  }

  lemma Smaller(part: set<string>, whole: set<string>, extra: string)
    requires part <= whole && extra in whole && extra !in part
    ensures |part| < |whole|
  {
    assert |whole - part| == |whole| - |part|;
    assert extra in whole - part;
  }
}
