/** The bundle document that carries one source's protected rows to the fixed
    Dataflow template, and the text forms that both sides check. */
module CloudDocument {
  import opened Common
  import opened CloudDecimal

  const SCHEMA_VERSION := "1.0.0"
  const BUNDLE_KIND := "trusted-dataflow-bundle"
  const SOURCE_ORDER := ["jde", "dynamics", "ebs"]

  function TargetTable(source: string): Option<string> {
    if source == "jde" then Some("jde_f0101")
    else if source == "dynamics" then Some("ax_custtable")
    else if source == "ebs" then Some("ebs_hz_parties")
    else None
  }

  // ------------------------------------------------------------- text forms

  predicate IsLower(c: char) { 'a' <= c <= 'z' }

  predicate IsLetter(c: char) { IsLower(c) || 'A' <= c <= 'Z' }

  predicate IsWord(c: char) { IsLetter(c) || IsDigit(c) || c == '_' }

  predicate IsDashed(c: char) { IsLower(c) || IsDigit(c) || c == '-' }

  predicate IsHex(c: char) { IsDigit(c) || 'a' <= c <= 'f' }

  predicate IsIdentifier(s: string, most: nat) {
    && 1 <= |s| <= most && !IsDigit(s[0])
    && forall i :: 0 <= i < |s| ==> IsWord(s[i])
  }

  predicate IsFieldName(s: string) { IsIdentifier(s, 128) && !("_ztm_" <= s) }

  predicate IsDataset(s: string) { IsIdentifier(s, 1024) }

  predicate IsProject(s: string) {
    && 6 <= |s| <= 30 && IsLower(s[0]) && s[|s| - 1] != '-'
    && forall i :: 0 <= i < |s| ==> IsDashed(s[i])
  }

  predicate IsRunId(s: string) {
    && 16 <= |s| <= 68 && "mig_" <= s
    && forall i :: 4 <= i < |s| ==> IsLetter(s[i]) || IsDigit(s[i])
  }

  predicate IsDigest(s: string) {
    && |s| == 71 && "sha256:" <= s
    && forall i :: 7 <= i < |s| ==> IsHex(s[i])
  }

  predicate IsJobName(s: string) {
    && 3 <= |s| <= 63 && IsLower(s[0])
    && forall i :: 0 <= i < |s| ==> IsDashed(s[i])
  }

  predicate IsToken(s: string) {
    && 12 <= |s| <= 260 && "tok_" <= s
    && forall i :: 4 <= i < |s| ==> IsWord(s[i]) || s[i] == '-'
  }

  /** What SHA-256 prints. */
  type Digest = s: string | IsDigest(s)
    witness "sha256:" + seq(64, _ => '0')

  // -------------------------------------------------------------- documents

  datatype Kind = StringKind | IntegerKind | DecimalKind | DateKind | TimestampKind | BooleanKind | BytesKind

  /** A declaration as found; `None` and `OddField` are anything ill-formed. */
  datatype RawField = RawField(name: Option<string>, kind: Option<Kind>, nullable: Option<bool>) | OddField

  datatype Field = Field(name: string, kind: Kind, nullable: bool)

  datatype Json = JsonNull | JsonString(text: string) | JsonInteger(number: int) | JsonBoolean(flag: bool) | JsonOther

  datatype Protection = Sanitized | Tokenized | Unprotected

  datatype Cell<+V> = Cell(protection: Protection, value: V) | OddCell

  type Row = map<string, Cell<Json>>

  datatype Target = Target(dataset: string, table: string) | OddTarget

  datatype Document = Document(
    version: string, kind: string, run: string, source: string, portfolio: string, plan: string,
    approval: string, policy: string, target: Target, fields: seq<RawField>, count: int,
    output: string, rows: seq<Row>, bundle: string)

  /** A plan is digested with its own digest left out. */
  datatype Plan = Plan(run: string, source: string, digest: string, target: Target, fields: seq<RawField>)

  /** The digest of the canonical JSON of each kind of value; a document is
      digested without its `bundle`. */
  datatype Hashing = Hashing(
    rows: seq<Row> -> Digest, document: Document -> Digest, plan: Plan -> Digest, portfolio: seq<string> -> Digest)

  function DocumentDigest(h: Hashing, d: Document): Digest { h.document(d.(bundle := "")) }

  function PlanDigest(h: Hashing, p: Plan): Digest { h.plan(p.(digest := "")) }

  // ----------------------------------------------------------- declarations

  predicate WellFormed(raw: RawField) {
    && raw.RawField? && raw.name.Some? && raw.kind.Some? && raw.nullable.Some?
    && IsFieldName(raw.name.value)
  }

  function FieldOf(raw: RawField): Field
    requires WellFormed(raw)
  {
    Field(raw.name.value, raw.kind.value, raw.nullable.value)
  }

  predicate WellDeclared(raw: seq<RawField>) {
    && raw != []
    && (forall i :: 0 <= i < |raw| ==> WellFormed(raw[i]))
    && (forall i, j :: 0 <= i < j < |raw| ==> raw[i].name != raw[j].name)
  }

  function FieldsOf(raw: seq<RawField>): (fields: seq<Field>)
    requires forall i :: 0 <= i < |raw| ==> WellFormed(raw[i])
    ensures |fields| == |raw| && forall i :: 0 <= i < |raw| ==> fields[i] == FieldOf(raw[i])
  {
    seq(|raw|, i requires 0 <= i < |raw| => FieldOf(raw[i]))
  }

  function Names(fields: seq<Field>): (names: set<string>)
    ensures forall i :: 0 <= i < |fields| ==> fields[i].name in names
  {
    set f | f in fields :: f.name
  }

  predicate DistinctNames(fields: seq<Field>) {
    forall i, j :: 0 <= i < j < |fields| ==> fields[i].name != fields[j].name
  }

  // ----------------------------------------------- printed library values

  datatype Day = Day(year: int, month: int, day: int)

  /** `offset` is `None` for a naive date-time. */
  datatype Moment = Moment(microseconds: int, offset: Option<int>)

  datatype Codec<!T> = Codec(show: T -> string, read: string -> Option<T>)

  /** `isoformat`/`fromisoformat` and base64 of the language's library. */
  datatype Library = Library(day: Codec<Day>, moment: Codec<Moment>, bytes: Codec<seq<int>>)

  predicate EndsInZ(s: string) { s != "" && s[|s| - 1] == 'Z' }

  /** What the library promises: printing then reading gives the value back, and
      an aware date-time is printed with its numeric offset. */
  ghost predicate Lawful(lib: Library) {
    && (forall d: Day :: lib.day.read(lib.day.show(d)) == Some(d))
    && (forall m: Moment :: lib.moment.read(lib.moment.show(m)) == Some(m))
    && (forall m: Moment :: m.offset.Some? ==> !EndsInZ(lib.moment.show(m)))
    && (forall b: seq<int> :: lib.bytes.read(lib.bytes.show(b)) == Some(b))
  }
}
