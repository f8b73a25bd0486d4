/** The producer: protected in-memory rows become approval-bound bundle
    documents. `None` is a rejection. */
module CloudBundle {
  import opened Common
  import opened CloudDecimal
  import opened CloudDocument

  /** A runtime value of the trusted interpreter. A float is given by the decimal
      that its shortest text denotes, `None` when it is not finite. */
  datatype Datum =
    | Missing
    | Words(text: string)
    | Whole(number: int)
    | Exact(decimal: Option<Number>)
    | Float(printed: Option<Number>)
    | Date(day: Day)
    | Stamp(moment: Moment)
    | Flag(flag: bool)
    | Blob(bytes: seq<int>)
    | Alien

  function DecimalText(n: Option<Number>): Option<Json> {
    if n.Some? && Written(n.value).Some? then Some(JsonString(Written(n.value).value)) else None
  }

  function WholeNumber(i: int): Number { Number(i < 0, if i < 0 then -i else i, 0) }

  /** The JSON value of a cell of the declared type. */
  function JsonValue(lib: Library, datum: Datum, kind: Kind, nullable: bool): Option<Json> {
    match datum
    case Missing => if nullable then Some(JsonNull) else None
    case Words(text) => if kind.StringKind? then Some(JsonString(text)) else None
    case Whole(i) =>
      if kind.IntegerKind? then
        if -0x8000_0000_0000_0000 <= i <= 0x7FFF_FFFF_FFFF_FFFF then Some(JsonInteger(i)) else None
      else if kind.DecimalKind? then DecimalText(Some(WholeNumber(i)))
      else None
    case Exact(n) => if kind.DecimalKind? then DecimalText(n) else None
    case Float(n) => if kind.DecimalKind? then DecimalText(n) else None
    case Date(day) => if kind.DateKind? then Some(JsonString(lib.day.show(day))) else None
    case Stamp(m) => if kind.TimestampKind? && m.offset.Some? then Some(JsonString(lib.moment.show(m))) else None
    case Flag(b) => if kind.BooleanKind? then Some(JsonBoolean(b)) else None
    case Blob(b) => if kind.BytesKind? then Some(JsonString(lib.bytes.show(b))) else None
    case Alien => None
  }

  function CellOf(lib: Library, raw: Cell<Datum>, field: Field): Option<Cell<Json>> {
    if !raw.Cell? || raw.protection.Unprotected? then None
    else
      match JsonValue(lib, raw.value, field.kind, field.nullable)
      case None => None
      case Some(value) =>
        if raw.protection.Tokenized? && !(field.kind.StringKind? && value.JsonString? && IsToken(value.text)) then None
        else Some(Cell(raw.protection, value))
  }

  type RawRow = map<string, Cell<Datum>>

  /** The row that `raw` becomes. */
  predicate Becomes(lib: Library, raw: RawRow, fields: seq<Field>, row: Row) {
    && raw.Keys == Names(fields) == row.Keys
    && forall i :: 0 <= i < |fields| ==> CellOf(lib, raw[fields[i].name], fields[i]) == Some(row[fields[i].name])
  }

  predicate RowAccepted(lib: Library, raw: RawRow, fields: seq<Field>) {
    && raw.Keys == Names(fields)
    && forall i :: 0 <= i < |fields| ==> CellOf(lib, raw[fields[i].name], fields[i]).Some?
  }

  predicate RowsAccepted(lib: Library, rows: seq<RawRow>, fields: seq<Field>) {
    forall k :: 0 <= k < |rows| ==> RowAccepted(lib, rows[k], fields)
  }

  function CellNamed(lib: Library, raw: RawRow, fields: seq<Field>, name: string): Cell<Json>
    requires RowAccepted(lib, raw, fields)
    requires name in Names(fields)
  {
    var k := Position(fields, name);
    CellOf(lib, raw[name], fields[k]).value
  }

  function Position(fields: seq<Field>, name: string): (k: nat)
    requires name in Names(fields)
    ensures k < |fields| && fields[k].name == name
  {
    if fields[0].name == name then 0
    else
      assert fields == [fields[0]] + fields[1..];
      1 + Position(fields[1..], name)
  }

  function RowOf(lib: Library, raw: RawRow, fields: seq<Field>): Row
    requires RowAccepted(lib, raw, fields)
  {
    map name | name in Names(fields) :: CellNamed(lib, raw, fields, name)
  }

  function RowsOf(lib: Library, rows: seq<RawRow>, fields: seq<Field>): (out: seq<Row>)
    requires RowsAccepted(lib, rows, fields)
    ensures |out| == |rows| && forall k :: 0 <= k < |rows| ==> out[k] == RowOf(lib, rows[k], fields)
  {
    seq(|rows|, k requires 0 <= k < |rows| => RowOf(lib, rows[k], fields))
  }

  lemma RowBecomes(lib: Library, raw: RawRow, fields: seq<Field>)
    requires RowAccepted(lib, raw, fields) && DistinctNames(fields)
    ensures Becomes(lib, raw, fields, RowOf(lib, raw, fields))
  {
    forall i | 0 <= i < |fields| ensures Position(fields, fields[i].name) == i {
      var k := Position(fields, fields[i].name);
      assert k >= i && k <= i;
    }
  }

  lemma BecomesOne(lib: Library, raw: RawRow, fields: seq<Field>, row: Row)
    requires Becomes(lib, raw, fields, row) && DistinctNames(fields)
    ensures RowAccepted(lib, raw, fields) && row == RowOf(lib, raw, fields)
  {
    RowBecomes(lib, raw, fields);
    forall name | name in Names(fields) ensures row[name] == RowOf(lib, raw, fields)[name] {
      var k := Position(fields, name);
      assert CellOf(lib, raw[fields[k].name], fields[k]) == Some(row[fields[k].name]);
    }
  }

  // ------------------------------------------------------------------- loops

  method OutputDeclarations(raw: seq<RawField>) returns (fields: Option<seq<Field>>)
    ensures fields == if WellDeclared(raw) then Some(FieldsOf(raw)) else None
  {
    if raw == [] { return None; }
    var out: seq<Field> := [];
    var seen: set<string> := {};
    var i := 0;
    while i < |raw|
      invariant 0 <= i <= |raw|
      invariant forall j :: 0 <= j < i ==> WellFormed(raw[j]) && raw[j].name.value in seen
      invariant forall j, k :: 0 <= j < k < i ==> raw[j].name != raw[k].name
      invariant forall name :: name in seen ==> exists j :: 0 <= j < i && raw[j].name == Some(name)
      invariant |out| == i && forall j :: 0 <= j < i ==> out[j] == FieldOf(raw[j])
    {
      if !WellFormed(raw[i]) || raw[i].name.value in seen { return None; }
      seen := seen + {raw[i].name.value};
      out := out + [FieldOf(raw[i])];
      i := i + 1;
    }
    assert out == FieldsOf(raw);
    return Some(out);
  }

  method CanonicalRow(lib: Library, raw: RawRow, fields: seq<Field>) returns (r: Option<Row>)
    requires DistinctNames(fields)
    ensures r == if RowAccepted(lib, raw, fields) then Some(RowOf(lib, raw, fields)) else None
  {
    var names := set f | f in fields :: f.name;
    if raw.Keys != names { return None; }
    var row: Row := map[];
    var i := 0;
    while i < |fields|
      invariant 0 <= i <= |fields|
      invariant row.Keys == Names(fields[..i])
      invariant forall j :: 0 <= j < i ==> CellOf(lib, raw[fields[j].name], fields[j]) == Some(row[fields[j].name])
    {
      var cell := CellOf(lib, raw[fields[i].name], fields[i]);
      if cell.None? { return None; }
      row := row[fields[i].name := cell.value];
      assert fields[..i + 1] == fields[..i] + [fields[i]];
      i := i + 1;
    }
    assert fields[..i] == fields;
    BecomesOne(lib, raw, fields, row);
    return Some(row);
  }

  method CanonicalRows(lib: Library, rows: seq<RawRow>, fields: seq<Field>) returns (r: Option<seq<Row>>)
    requires DistinctNames(fields)
    ensures r == if RowsAccepted(lib, rows, fields) then Some(RowsOf(lib, rows, fields)) else None
  {
    var out: seq<Row> := [];
    var k := 0;
    while k < |rows|
      invariant 0 <= k == |out| <= |rows|
      invariant forall j :: 0 <= j < k ==> RowAccepted(lib, rows[j], fields) && out[j] == RowOf(lib, rows[j], fields)
    {
      var row := CanonicalRow(lib, rows[k], fields);
      if row.None? { return None; }
      out := out + [row.value];
      k := k + 1;
    }
    assert out == RowsOf(lib, rows, fields);
    return Some(out);
  }

  // ----------------------------------------------------------------- bundles

  datatype PreparedSource = PreparedSource(source: string, plan: Plan)

  datatype Prepared = Prepared(version: string, run: string, portfolio: string, sources: seq<PreparedSource>)

  /** `rows` is `None` when it is not a tuple of mappings. */
  datatype Outcome = Outcome(source: string, target: Target, rows: Option<seq<RawRow>>, count: int, output: string)

  datatype Execution = Execution(run: string, portfolio: string, outcomes: seq<Outcome>)

  /** Whether the approval authorises this run, and the digests of the approval
      and of the policy categories. */
  datatype Permission = Permission(authorized: bool, approval: Digest, policy: Digest)

  datatype Bundle = Bundle(source: string, digest: string, document: Document)

  predicate SourceBound(h: Hashing, prepared: Prepared, i: nat)
    requires i < |prepared.sources| == 3
  {
    var s := prepared.sources[i];
    && s.source == SOURCE_ORDER[i]
    && s.plan.run == prepared.run && s.plan.source == SOURCE_ORDER[i]
    && IsDigest(s.plan.digest) && PlanDigest(h, s.plan) == s.plan.digest
  }

  predicate InputsValid(h: Hashing, prepared: Prepared, execution: Execution, permission: Permission) {
    && permission.authorized
    && execution.run == prepared.run && execution.portfolio == prepared.portfolio && |execution.outcomes| == 3
    && prepared.version == SCHEMA_VERSION
    && IsRunId(prepared.run) && IsDigest(prepared.portfolio)
    && |prepared.sources| == 3
    && (forall i :: 0 <= i < 3 ==> SourceBound(h, prepared, i))
    && h.portfolio([prepared.sources[0].plan.digest, prepared.sources[1].plan.digest, prepared.sources[2].plan.digest])
       == prepared.portfolio
  }

  predicate OutcomeBound(plan: Plan, source: string, outcome: Outcome) {
    && plan.target.Target? && Some(plan.target.table) == TargetTable(source)
    && outcome.source == source && outcome.target == plan.target
  }

  predicate OutcomeAccepted(lib: Library, h: Hashing, plan: Plan, source: string, outcome: Outcome) {
    && OutcomeBound(plan, source, outcome)
    && WellDeclared(plan.fields)
    && outcome.rows.Some? && RowsAccepted(lib, outcome.rows.value, FieldsOf(plan.fields))
    && outcome.count == |outcome.rows.value|
    && IsDigest(outcome.output)
    && h.rows(RowsOf(lib, outcome.rows.value, FieldsOf(plan.fields))) == outcome.output
  }

  /** The document of one source's accepted outcome. */
  function DocumentOf(
    lib: Library, h: Hashing, prepared: Prepared, permission: Permission, plan: Plan, source: string, outcome: Outcome
  ): Document
    requires OutcomeAccepted(lib, h, plan, source, outcome)
  {
    var body := Document(
      SCHEMA_VERSION, BUNDLE_KIND, prepared.run, source, prepared.portfolio, plan.digest,
      permission.approval, permission.policy, plan.target, plan.fields, outcome.count,
      outcome.output, RowsOf(lib, outcome.rows.value, FieldsOf(plan.fields)), "");
    body.(bundle := h.document(body))
  }

  predicate AllAccepted(lib: Library, h: Hashing, prepared: Prepared, execution: Execution, permission: Permission) {
    && InputsValid(h, prepared, execution, permission)
    && forall i :: 0 <= i < 3 ==>
         OutcomeAccepted(lib, h, prepared.sources[i].plan, SOURCE_ORDER[i], execution.outcomes[i])
  }

  function BundleOf(
    lib: Library, h: Hashing, prepared: Prepared, execution: Execution, permission: Permission, i: nat): Bundle
    requires i < 3 && AllAccepted(lib, h, prepared, execution, permission)
  {
    var document := DocumentOf(
      lib, h, prepared, permission, prepared.sources[i].plan, SOURCE_ORDER[i], execution.outcomes[i]);
    Bundle(SOURCE_ORDER[i], document.bundle, document)
  }

  method BuildOne(
    lib: Library, h: Hashing, prepared: Prepared, permission: Permission, plan: Plan, source: string, outcome: Outcome)
    returns (r: Option<Bundle>)
    ensures r.Some? <==> OutcomeAccepted(lib, h, plan, source, outcome)
    ensures r.Some? ==> var d := DocumentOf(lib, h, prepared, permission, plan, source, outcome);
                        r.value == Bundle(source, d.bundle, d)
  {
    if !OutcomeBound(plan, source, outcome) { return None; }
    var fields := OutputDeclarations(plan.fields);
    if fields.None? || outcome.rows.None? { return None; }
    var rows := CanonicalRows(lib, outcome.rows.value, fields.value);
    if rows.None? || outcome.count != |rows.value| || !IsDigest(outcome.output) { return None; }
    if h.rows(rows.value) != outcome.output { return None; }
    var d := Document(
      SCHEMA_VERSION, BUNDLE_KIND, prepared.run, source, prepared.portfolio, plan.digest,
      permission.approval, permission.policy, plan.target, plan.fields, outcome.count, outcome.output, rows.value, "");
    var digest := h.document(d);
    return Some(Bundle(source, digest, d.(bundle := digest)));
  }

  method BuildCloudBundles(
    lib: Library, h: Hashing, prepared: Prepared, execution: Execution, permission: Permission)
    returns (r: Option<seq<Bundle>>)
    ensures r.Some? <==> AllAccepted(lib, h, prepared, execution, permission)
    ensures r.Some? ==>
      && |r.value| == 3
      && forall i :: 0 <= i < 3 ==> r.value[i] == BundleOf(lib, h, prepared, execution, permission, i)
  {
    if !InputsValid(h, prepared, execution, permission) { return None; }
    var bundles: seq<Bundle> := [];
    var i := 0;
    while i < 3
      invariant 0 <= i == |bundles| <= 3
      invariant forall j :: 0 <= j < i ==>
        && OutcomeAccepted(lib, h, prepared.sources[j].plan, SOURCE_ORDER[j], execution.outcomes[j])
        && var d := DocumentOf(
             lib, h, prepared, permission, prepared.sources[j].plan, SOURCE_ORDER[j], execution.outcomes[j]);
           bundles[j] == Bundle(SOURCE_ORDER[j], d.bundle, d)
    {
      var bundle := BuildOne(
        lib, h, prepared, permission, prepared.sources[i].plan, SOURCE_ORDER[i], execution.outcomes[i]);
      if bundle.None? { return None; }
      bundles := bundles + [bundle.value];
      i := i + 1;
    }
    return Some(bundles);
  }
}
