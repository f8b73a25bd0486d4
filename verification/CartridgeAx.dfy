/** The Dynamics AX fixture: records under composite identities, derived tables
    that need a base row of the same scope, and a delta under a strictly rising
    watermark. Timestamps of the one accepted format are ordered like integers. */
module CartridgeAx {
  import opened Common

  datatype Identity = Identity(company: Id, partition: Id, table: Id, recId: int)

  datatype Record = Record(identity: Identity, base: Option<Identity>, modified: int, body: Id)

  datatype TableRow =
    | BaseRow(name: Id, parent: Option<Id>)
    | DerivedRow(name: Id, parent: Option<Id>)
    | OtherRow(name: Id)

  datatype Table = Base | Derived(parent: Id)

  datatype Rejection =
    | MetadataHeader | NoTables | TableName | TableKind | BaseExtends | DerivedExtends | OrphanTable
    | UnknownTable | BaseHasParent | IdentityShape | CrossScope | WrongBase | DuplicateIdentity | OrphanDerived
    | DeltaSequence | DeltaWatermark | WatermarkOrder | WatermarkIdentity | RecordMissing | IdentityMismatch
    | WatermarkRecord | DeletePayload | DeleteMissing | DeltaOperation

  type Tables = map<Id, Table>
  type Rows = map<Identity, Record>

  // -------------------------------------------------------------- metadata

  /** `header` is whether the fixed parts (kind, identity fields, inheritance rule,
      watermark) are the accepted ones. */
  datatype Metadata = Metadata(header: bool, tables: seq<TableRow>)

  function TablesFrom(tables: Tables, rows: seq<TableRow>): Result<Tables, Rejection>
    decreases |rows|
  {
    if rows == [] then Ok(tables)
    else
      var row := rows[0];
      if !Filled(row.name) || row.name in tables then Err(TableName)
      else match row
        case OtherRow(_) => Err(TableKind)
        case BaseRow(name, parent) =>
          if parent.Some? then Err(BaseExtends) else TablesFrom(tables[name := Base], rows[1..])
        case DerivedRow(name, parent) =>
          if parent.None? || parent.value == name then Err(DerivedExtends)
          else TablesFrom(tables[name := Derived(parent.value)], rows[1..])
  }

  predicate ExtendsBase(tables: Tables, name: Id)
    requires name in tables
  {
    tables[name].Derived? ==> tables[name].parent in tables && tables[tables[name].parent].Base?
  }

  predicate AllExtendBases(tables: Tables) { forall name | name in tables :: ExtendsBase(tables, name) }

  function MetadataTables(metadata: Metadata): Result<Tables, Rejection> {
    if !metadata.header then Err(MetadataHeader)
    else if metadata.tables == [] then Err(NoTables)
    else match TablesFrom(map[], metadata.tables)
      case Err(code) => Err(code)
      case Ok(tables) => if AllExtendBases(tables) then Ok(tables) else Err(OrphanTable)
  }

  // ------------------------------------------------------------ validation

  function CheckRecord(r: Record, tables: Tables): Option<Rejection> {
    if r.identity.table !in tables then Some(UnknownTable)
    else match tables[r.identity.table]
      case Base => if r.base.Some? then Some(BaseHasParent) else None
      case Derived(parent) =>
        if r.base.None? then Some(IdentityShape)
        else if r.base.value.company != r.identity.company || r.base.value.partition != r.identity.partition
                || r.base.value.recId != r.identity.recId
        then Some(CrossScope)
        else if r.base.value.table != parent then Some(WrongBase)
        else None
  }

  function IndexFrom(index: Rows, records: seq<Record>, tables: Tables): Result<Rows, Rejection>
    decreases |records|
  {
    if records == [] then Ok(index)
    else
      var r := records[0];
      if CheckRecord(r, tables).Some? then Err(CheckRecord(r, tables).value)
      else if r.identity in index then Err(DuplicateIdentity)
      else IndexFrom(index[r.identity := r], records[1..], tables)
  }

  predicate Orphan(rows: Rows, tables: Tables, i: Identity)
    requires i in rows
  {
    i.table in tables && tables[i.table].Derived? && rows[i].base.Some? && rows[i].base.value !in rows
  }

  predicate NoOrphan(rows: Rows, tables: Tables) { forall i | i in rows :: !Orphan(rows, tables, i) }

  function Validate(records: seq<Record>, tables: Tables): Result<Rows, Rejection> {
    match IndexFrom(map[], records, tables)
    case Err(code) => Err(code)
    case Ok(index) => if NoOrphan(index, tables) then Ok(index) else Err(OrphanDerived)
  }

  // ----------------------------------------------------------------- delta

  datatype Operation = Upsert | Delete | UnknownOperation

  datatype Mark = Mark(modified: int, recId: int)

  datatype Event = Event(identity: Identity, operation: Operation, record: Option<Record>, sequence: int, mark: Mark)

  predicate Before(a: Mark, b: Mark) { a.modified < b.modified || (a.modified == b.modified && a.recId < b.recId) }

  function Step(rows: Rows, previous: Option<Mark>, e: Event, expected: int, tables: Tables): Result<Rows, Rejection> {
    if e.sequence != expected then Err(DeltaSequence)
    else if e.mark.recId < 1 then Err(DeltaWatermark)
    else if previous.Some? && !Before(previous.value, e.mark) then Err(WatermarkOrder)
    else if e.mark.recId != e.identity.recId then Err(WatermarkIdentity)
    else if e.identity.table !in tables then Err(UnknownTable)
    else if e.operation.Upsert? then
      if e.record.None? then Err(RecordMissing)
      else
        var r := e.record.value;
        if CheckRecord(r, tables).Some? then Err(CheckRecord(r, tables).value)
        else if r.identity != e.identity then Err(IdentityMismatch)
        else if r.modified != e.mark.modified then Err(WatermarkRecord)
        else Ok(rows[e.identity := r])
    else if e.operation.Delete? then
      if e.record.Some? then Err(DeletePayload)
      else if e.identity !in rows then Err(DeleteMissing)
      else Ok(rows - {e.identity})
    else Err(DeltaOperation)
  }

  function Fold(rows: Rows, previous: Option<Mark>, delta: seq<Event>, expected: int,
      tables: Tables): Result<Rows, Rejection>
    decreases |delta|
  {
    if delta == [] then Ok(rows)
    else match Step(rows, previous, delta[0], expected, tables)
      case Err(code) => Err(code)
      case Ok(next) => Fold(next, Some(delta[0].mark), delta[1..], expected + 1, tables)
  }

  /** The snapshot and the final rows are validated whole; the rows in between are not. */
  function Apply(snapshot: seq<Record>, delta: seq<Event>, tables: Tables): Result<Rows, Rejection> {
    match Validate(snapshot, tables)
    case Err(code) => Err(code)
    case Ok(index) =>
      match Fold(index, None, delta, 1, tables)
      case Err(code) => Err(code)
      case Ok(rows) => if NoOrphan(rows, tables) then Ok(rows) else Err(OrphanDerived)
  }

  /** The same on the metadata as given. */
  function ApplyPacket(snapshot: seq<Record>, delta: seq<Event>, metadata: Metadata): Result<Rows, Rejection> {
    match MetadataTables(metadata)
    case Err(code) => Err(code)
    case Ok(tables) => Apply(snapshot, delta, tables)
  }

  /** What the packet check asks of a snapshot and a delta before it counts: the
      snapshot has a row, and the delta starts after its high watermark. */
  predicate StartsAfter(snapshot: seq<Record>, delta: seq<Event>) {
    && snapshot != []
    && (delta != [] ==> forall r | r in snapshot :: Before(Mark(r.modified, r.identity.recId), delta[0].mark))
  }

  // ------------------------------------------------------ what rows satisfy

  predicate RowsSound(rows: Rows, tables: Tables) {
    forall i | i in rows :: rows[i].identity == i && CheckRecord(rows[i], tables).None?
  }

  lemma {:induction false} IndexSound(index: Rows, records: seq<Record>, tables: Tables)
    requires RowsSound(index, tables) && IndexFrom(index, records, tables).Ok?
    ensures RowsSound(IndexFrom(index, records, tables).value, tables)
    ensures |IndexFrom(index, records, tables).value| == |index| + |records|
    decreases |records|
  {
    hide CheckRecord;
    if records == [] {
    } else {
      var next := index[records[0].identity := records[0]];
      assert next.Keys == index.Keys + {records[0].identity};
      IndexSound(next, records[1..], tables);
    }
  }

  lemma {:induction false} FoldSound(rows: Rows, previous: Option<Mark>, delta: seq<Event>, expected: int,
      tables: Tables)
    requires RowsSound(rows, tables) && Fold(rows, previous, delta, expected, tables).Ok?
    ensures RowsSound(Fold(rows, previous, delta, expected, tables).value, tables)
    decreases |delta|
  {
    hide CheckRecord, Before;
    if delta == [] {
    } else {
      FoldSound(Step(rows, previous, delta[0], expected, tables).value, Some(delta[0].mark), delta[1..], expected + 1,
                tables);
    }
  }

  predicate Lists(records: seq<Record>, rows: Rows) {
    && (forall i, j | 0 <= i < j < |records| :: records[i].identity != records[j].identity)
    && (forall r | r in records :: r.identity in rows && rows[r.identity] == r)
    && (forall i | i in rows :: rows[i] in records)
  }

  lemma {:induction false} IndexOfListing(index: Rows, records: seq<Record>, rows: Rows, tables: Tables)
    requires RowsSound(rows, tables)
    requires (forall r | r in records :: r.identity in rows && rows[r.identity] == r && r.identity !in index)
    requires forall i, j | 0 <= i < j < |records| :: records[i].identity != records[j].identity
    ensures IndexFrom(index, records, tables).Ok?
    ensures forall i :: i in IndexFrom(index, records, tables).value <==>
            i in index || exists r :: r in records && r.identity == i
    ensures forall i | i in IndexFrom(index, records, tables).value ::
              IndexFrom(index, records, tables).value[i] == if i in index then index[i] else rows[i]
    decreases |records|
  {
    hide CheckRecord;
    if records == [] {
    } else {
      var r, tail := records[0], records[1..];
      assert r in records && CheckRecord(rows[r.identity], tables).None?;
      forall t | t in tail ensures t.identity in rows && rows[t.identity] == t
          && t.identity !in index[r.identity := r] {
        var j :| 0 <= j < |tail| && tail[j] == t;
        assert records[j + 1] == t;
      }
      IndexOfListing(index[r.identity := r], tail, rows, tables);
      assert forall t :: t in records <==> t == r || t in tail;
    }
  }

  /** Validating the final rows again, in whatever order they are listed, can only
      complain about an orphan: every row is already well formed and unique. */
  lemma FinalCheckIsOrphansOnly(rows: Rows, tables: Tables, records: seq<Record>)
    requires RowsSound(rows, tables) && Lists(records, rows)
    ensures Validate(records, tables) == if NoOrphan(rows, tables) then Ok(rows) else Err(OrphanDerived)
  {
    IndexOfListing(map[], records, rows, tables);
    var index := IndexFrom(map[], records, tables).value;
    assert forall i | i in rows :: rows[i] in records && rows[i].identity == i;
    assert index == rows;
  }

  /** Accepted rows are well formed and no derived row lacks its base. */
  lemma AcceptedRowsSound(snapshot: seq<Record>, delta: seq<Event>, tables: Tables)
    requires Apply(snapshot, delta, tables).Ok?
    ensures RowsSound(Apply(snapshot, delta, tables).value, tables)
    ensures NoOrphan(Apply(snapshot, delta, tables).value, tables)
  {
    IndexSound(map[], snapshot, tables);
    FoldSound(Validate(snapshot, tables).value, None, delta, 1, tables);
  }

  /** A base row of the same company, partition and record number. */
  predicate Grounds(rows: Rows, tables: Tables, i: Identity, base: Identity) {
    && base in rows && base.table in tables && tables[base.table].Base? && rows[base].base.None?
    && base.company == i.company && base.partition == i.partition && base.recId == i.recId
  }

  /** Inheritance is one level deep: under accepted metadata every accepted row of
      a derived table stands on a row of a base table, in its own scope. */
  lemma AcceptedRowsGrounded(snapshot: seq<Record>, delta: seq<Event>, metadata: Metadata, i: Identity)
    requires ApplyPacket(snapshot, delta, metadata).Ok? && i in ApplyPacket(snapshot, delta, metadata).value
    ensures MetadataTables(metadata).Ok?
    ensures var rows, tables := ApplyPacket(snapshot, delta, metadata).value, MetadataTables(metadata).value;
            && i.table in tables
            && if tables[i.table].Base? then rows[i].base.None?
               else rows[i].base.Some? && Grounds(rows, tables, i, rows[i].base.value)
  {
    var tables := MetadataTables(metadata).value;
    AcceptedRowsSound(snapshot, delta, tables);
    hide Apply, TablesFrom;
    var rows := ApplyPacket(snapshot, delta, metadata).value;
    assert rows[i].identity == i && CheckRecord(rows[i], tables).None? && !Orphan(rows, tables, i);
    if tables[i.table].Derived? {
      var base := rows[i].base.value;
      assert ExtendsBase(tables, i.table);
      assert rows[base].identity == base && CheckRecord(rows[base], tables).None?;
    }
  }

  /** A row that inherits from none, under an id the delta's checks admit. */
  predicate PlainRow(r: Record, tables: Tables) {
    CheckRecord(r, tables).None? && r.base.None? && r.identity.recId >= 1
  }

  lemma PlainSnapshot(row: Record, tables: Tables)
    requires PlainRow(row, tables)
    ensures Validate([row], tables) == Ok(map[row.identity := row])
  {
    var rows: Rows := map[row.identity := row];
    assert [row][1..] == [] && IndexFrom(map[], [row], tables) == Ok(rows);
  }

  /** Between two events a derived row may stand without its base: a derived row
      upserted just before its base is accepted, though the rows in between fail
      the check the final rows pass. */
  lemma OrphansMayPass(tables: Tables, row: Record, derived: Record, base: Record)
    requires PlainRow(row, tables) && PlainRow(base, tables) && row.identity != base.identity
    requires CheckRecord(derived, tables).None? && derived.base == Some(base.identity)
    requires row.modified < derived.modified < base.modified
    ensures var first :=
              Event(derived.identity, Upsert, Some(derived), 1, Mark(derived.modified, derived.identity.recId));
            var second := Event(base.identity, Upsert, Some(base), 2, Mark(base.modified, base.identity.recId));
            && StartsAfter([row], [first, second])
            && Apply([row], [first, second], tables).Ok? && Apply([row], [first], tables) == Err(OrphanDerived)
  {
    var first := Event(derived.identity, Upsert, Some(derived), 1, Mark(derived.modified, derived.identity.recId));
    var second := Event(base.identity, Upsert, Some(base), 2, Mark(base.modified, base.identity.recId));
    var one: Rows, two: Rows := map[row.identity := row], map[row.identity := row, derived.identity := derived];
    PlainSnapshot(row, tables);
    assert [first, second][1..] == [second] && [second][1..] == [] && [first][1..] == [];
    assert one[derived.identity := derived] == two;
    assert Step(one, None, first, 1, tables) == Ok(two);
    assert Orphan(two, tables, derived.identity);
    assert Step(two, Some(first.mark), second, 2, tables) == Ok(two[base.identity := base]);
    assert Fold(two, Some(first.mark), [second], 2, tables) == Ok(two[base.identity := base]);
    assert Fold(one, None, [first, second], 1, tables) == Ok(two[base.identity := base]);
    assert Fold(one, None, [first], 1, tables) == Ok(two);
    assert NoOrphan(two[base.identity := base], tables);
  }

  // ------------------------------------------------------- last writer wins

  function EventsOf(delta: seq<Event>, i: Identity): seq<Event> {
    if delta == [] then [] else (if delta[0].identity == i then [delta[0]] else []) + EventsOf(delta[1..], i)
  }

  function RowAt(rows: Rows, i: Identity): Option<Record> { if i in rows then Some(rows[i]) else None }

  predicate Rising(delta: seq<Event>, previous: Option<Mark>) {
    && (previous.Some? ==> forall j | 0 <= j < |delta| :: Before(previous.value, delta[j].mark))
    && (forall i, j | 0 <= i < j < |delta| :: Before(delta[i].mark, delta[j].mark))
  }

  function Leaves(e: Event): Option<Record> { if e.operation.Delete? then None else e.record }

  lemma StepAt(rows: Rows, previous: Option<Mark>, e: Event, expected: int, tables: Tables, i: Identity)
    requires Step(rows, previous, e, expected, tables).Ok?
    ensures RowAt(Step(rows, previous, e, expected, tables).value, i) == if e.identity == i then Leaves(e)
            else RowAt(rows, i)
    ensures previous.Some? ==> Before(previous.value, e.mark)
  {
    hide CheckRecord, Before;
  }

  lemma EventsStep(delta: seq<Event>, i: Identity)
    requires delta != []
    ensures var rest := EventsOf(delta[1..], i);
            && EventsOf(delta, i) == (if delta[0].identity == i then [delta[0]] + rest else rest)
            && (rest != [] ==> EventsOf(delta, i)[|EventsOf(delta, i)| - 1] == rest[|rest| - 1])
  {
    assert [] + EventsOf(delta[1..], i) == EventsOf(delta[1..], i);
  }

  /** In an accepted delta the watermarks rise strictly, and each identity's row is
      what its event of greatest watermark left, else the snapshot's. */
  lemma {:induction false} LastWriterWins(rows: Rows, previous: Option<Mark>, delta: seq<Event>, expected: int,
      tables: Tables, i: Identity)
    requires Fold(rows, previous, delta, expected, tables).Ok?
    ensures Rising(delta, previous)
    ensures var events := EventsOf(delta, i);
            RowAt(Fold(rows, previous, delta, expected, tables).value, i) ==
              if events == [] then RowAt(rows, i) else Leaves(events[|events| - 1])
    decreases |delta|
  {
    hide Step, RowAt, Leaves, Before;
    if delta == [] {
    } else {
      var e := delta[0];
      StepAt(rows, previous, e, expected, tables, i);
      LastWriterWins(Step(rows, previous, e, expected, tables).value, Some(e.mark), delta[1..], expected + 1, tables,
                     i);
      RisingCons(delta, previous);
      hide Rising;
      EventsStep(delta, i);
      hide EventsOf;
    }
  }

  lemma RisingCons(delta: seq<Event>, previous: Option<Mark>)
    requires delta != [] && Rising(delta[1..], Some(delta[0].mark))
    requires (previous.Some? ==> Before(previous.value, delta[0].mark))
    ensures Rising(delta, previous)
  {
    forall j | 1 <= j < |delta| ensures Before(delta[0].mark, delta[j].mark) { assert delta[j] == delta[1..][j - 1]; }
    forall i, j | 1 <= i < j < |delta| ensures Before(delta[i].mark, delta[j].mark) {
      assert delta[i] == delta[1..][i - 1] && delta[j] == delta[1..][j - 1];
    }
  }

  // ---------------------------------------------------------------- counts

  function Deletes(delta: seq<Event>): nat {
    if delta == [] then 0 else (if delta[0].operation.Delete? then 1 else 0) + Deletes(delta[1..])
  }

  function Upserts(delta: seq<Event>): nat {
    if delta == [] then 0 else (if delta[0].operation.Upsert? then 1 else 0) + Upserts(delta[1..])
  }

  /** Upserts of identities the snapshot does not have: what the packet reports as inserted. */
  function Inserted(snapshot: set<Identity>, delta: seq<Event>): nat {
    if delta == [] then 0
    else
      (if delta[0].operation.Upsert? && delta[0].identity !in snapshot then 1 else 0)
      + Inserted(snapshot, delta[1..])
  }

  /** Upserts that find their identity absent when they are applied. */
  function Appearing(present: set<Identity>, delta: seq<Event>): nat
    decreases |delta|
  {
    if delta == [] then 0
    else
      var e := delta[0];
      if e.operation.Upsert? then (if e.identity in present then 0 else 1)
          + Appearing(present + {e.identity}, delta[1..])
      else Appearing(present - {e.identity}, delta[1..])
  }

  lemma StepKeys(rows: Rows, previous: Option<Mark>, e: Event, expected: int, tables: Tables)
    requires Step(rows, previous, e, expected, tables).Ok?
    ensures var next := Step(rows, previous, e, expected, tables).value;
            && (e.operation.Upsert? || e.operation.Delete?)
            && next.Keys == (if e.operation.Upsert? then rows.Keys + {e.identity} else rows.Keys - {e.identity})
            && |next| == |rows| + (if e.operation.Delete? then -1 else if e.identity in rows then 0 else 1)
  {
    hide CheckRecord, Before;
    var next := Step(rows, previous, e, expected, tables).value;
    assert next.Keys == if e.operation.Upsert? then rows.Keys + {e.identity} else rows.Keys - {e.identity};
    assert |next.Keys| == |next| && |rows.Keys| == |rows|;
  }

  lemma {:induction false} FoldCounts(rows: Rows, previous: Option<Mark>, delta: seq<Event>, expected: int,
      tables: Tables)
    requires Fold(rows, previous, delta, expected, tables).Ok?
    ensures |Fold(rows, previous, delta, expected, tables).value|
         == |rows| + Appearing(rows.Keys, delta) - Deletes(delta)
    ensures Upserts(delta) + Deletes(delta) == |delta|
    decreases |delta|
  {
    hide CheckRecord, Before;
    if delta == [] {
    } else {
      var e := delta[0];
      var next := Step(rows, previous, e, expected, tables).value;
      StepKeys(rows, previous, e, expected, tables);
      hide Step;
      FoldCounts(next, Some(e.mark), delta[1..], expected + 1, tables);
    }
  }

  lemma {:induction false} InsertedBounded(snapshot: set<Identity>, delta: seq<Event>)
    ensures Inserted(snapshot, delta) <= Upserts(delta)
  {
    if delta == [] {
    } else {
      InsertedBounded(snapshot, delta[1..]);
    }
  }

  // ------------------------------------------- which upserts change the count

  /** The last event before position `k` that names the same identity. */
  function Earlier(delta: seq<Event>, k: nat): Option<Event>
    requires k < |delta|
  {
    var events := EventsOf(delta[..k], delta[k].identity);
    if events == [] then None else Some(events[|events| - 1])
  }

  /** An upsert that brings a snapshot identity back after its own delete. */
  predicate Returns(snapshot: set<Identity>, delta: seq<Event>, k: nat)
    requires k < |delta|
  {
    && delta[k].operation.Upsert? && delta[k].identity in snapshot
    && Earlier(delta, k).Some? && Earlier(delta, k).value.operation.Delete?
  }

  /** An upsert of an identity outside the snapshot that an earlier upsert already added. */
  predicate Repeats(snapshot: set<Identity>, delta: seq<Event>, k: nat)
    requires k < |delta|
  {
    && delta[k].operation.Upsert? && delta[k].identity !in snapshot
    && Earlier(delta, k).Some? && Earlier(delta, k).value.operation.Upsert?
  }

  function Returning(snapshot: set<Identity>, delta: seq<Event>): set<nat> {
    set k: nat | k < |delta| && Returns(snapshot, delta, k)
  }

  function Repeating(snapshot: set<Identity>, delta: seq<Event>): set<nat> {
    set k: nat | k < |delta| && Repeats(snapshot, delta, k)
  }

  function StepPresent(present: set<Identity>, e: Event): set<Identity> {
    if e.operation.Upsert? then present + {e.identity} else present - {e.identity}
  }

  function PresentAfter(present: set<Identity>, delta: seq<Event>): set<Identity>
    decreases |delta|
  {
    if delta == [] then present else PresentAfter(StepPresent(present, delta[0]), delta[1..])
  }

  /** An identity is present exactly as its own last event, or the start, left it. */
  lemma {:induction false} PresentIff(present: set<Identity>, delta: seq<Event>, i: Identity)
    ensures var events := EventsOf(delta, i);
            i in PresentAfter(present, delta) <==>
              if events == [] then i in present else events[|events| - 1].operation.Upsert?
    decreases |delta|
  {
    if delta == [] {
    } else {
      PresentIff(StepPresent(present, delta[0]), delta[1..], i);
      EventsStep(delta, i);
      hide EventsOf;
    }
  }

  lemma {:induction false} AppearingAppend(present: set<Identity>, delta: seq<Event>, e: Event)
    ensures Appearing(present, delta + [e]) == Appearing(present, delta)
              + (if e.operation.Upsert? && e.identity !in PresentAfter(present, delta) then 1 else 0)
    decreases |delta|
  {
    if delta == [] {
      assert [] + [e] == [e] && [e][1..] == [];
    } else {
      assert (delta + [e])[1..] == delta[1..] + [e];
      AppearingAppend(StepPresent(present, delta[0]), delta[1..], e);
    }
  }

  lemma {:induction false} InsertedAppend(snapshot: set<Identity>, delta: seq<Event>, e: Event)
    ensures Inserted(snapshot, delta + [e]) == Inserted(snapshot, delta)
              + (if e.operation.Upsert? && e.identity !in snapshot then 1 else 0)
    decreases |delta|
  {
    if delta == [] {
      assert [] + [e] == [e] && [e][1..] == [];
    } else {
      assert (delta + [e])[1..] == delta[1..] + [e];
      InsertedAppend(snapshot, delta[1..], e);
    }
  }

  lemma PositionsAppend(snapshot: set<Identity>, delta: seq<Event>, e: Event)
    ensures var all, n := delta + [e], |delta|;
            && Returning(snapshot, all) == Returning(snapshot, delta) + (if Returns(snapshot, all, n) then {n} else {})
            && Repeating(snapshot, all) == Repeating(snapshot, delta) + (if Repeats(snapshot, all, n) then {n} else {})
            && n !in Returning(snapshot, delta) && n !in Repeating(snapshot, delta)
  {
    hide EventsOf;
    var all, n := delta + [e], |delta|;
    forall k: nat | k < n ensures Earlier(all, k) == Earlier(delta, k) && all[k] == delta[k] {
      assert all[..k] == delta[..k];
    }
  }

  predicate OperationsKnown(delta: seq<Event>) {
    forall k | 0 <= k < |delta| :: delta[k].operation.Upsert? || delta[k].operation.Delete?
  }

  /** What an upsert adds to the rows, told from the delta alone. */
  lemma LastAppears(snapshot: set<Identity>, delta: seq<Event>, e: Event)
    requires OperationsKnown(delta) && e.operation.Upsert?
    ensures var all, n := delta + [e], |delta|;
            (if e.identity !in PresentAfter(snapshot, delta) then 1 else 0)
              == (if e.identity !in snapshot then 1 else 0) + (if Returns(snapshot, all, n) then 1 else 0)
                 - (if Repeats(snapshot, all, n) then 1 else 0)
  {
    PresentIff(snapshot, delta, e.identity);
    EventsWithin(delta, e.identity);
    hide EventsOf, PresentAfter;
    assert (delta + [e])[..|delta|] == delta;
  }

  lemma {:induction false} EventsWithin(delta: seq<Event>, i: Identity)
    requires OperationsKnown(delta)
    ensures OperationsKnown(EventsOf(delta, i))
  {
    if delta == [] {
    } else {
      forall k | 0 <= k < |delta[1..]| ensures delta[1..][k] == delta[k + 1] {}
      EventsWithin(delta[1..], i);
    }
  }

  /** The two kinds of upserts are the whole difference. */
  lemma {:induction false} AppearingIs(snapshot: set<Identity>, delta: seq<Event>)
    requires OperationsKnown(delta)
    ensures Appearing(snapshot, delta)
         == Inserted(snapshot, delta) + |Returning(snapshot, delta)| - |Repeating(snapshot, delta)|
    decreases |delta|
  {
    if delta == [] {
      assert Returning(snapshot, delta) == {} && Repeating(snapshot, delta) == {};
    } else {
      var init, e := delta[..|delta| - 1], delta[|delta| - 1];
      assert delta == init + [e];
      AppearingIs(snapshot, init);
      AppearingAppend(snapshot, init, e);
      InsertedAppend(snapshot, init, e);
      PositionsAppend(snapshot, init, e);
      if e.operation.Upsert? { LastAppears(snapshot, init, e); }
      hide Appearing, Inserted, Returning, Repeating, PresentAfter, Earlier;
    }
  }

  lemma {:induction false} AcceptedOperations(rows: Rows, previous: Option<Mark>, delta: seq<Event>, expected: int,
      tables: Tables)
    requires Fold(rows, previous, delta, expected, tables).Ok?
    ensures OperationsKnown(delta)
    decreases |delta|
  {
    hide CheckRecord, Before;
    if delta == [] {
    } else {
      StepKeys(rows, previous, delta[0], expected, tables);
      AcceptedOperations(Step(rows, previous, delta[0], expected, tables).value, Some(delta[0].mark), delta[1..],
                         expected + 1, tables);
      forall k | 1 <= k < |delta| ensures delta[k] == delta[1..][k - 1] {}
    }
  }

  /** Inserted, updated and deleted account for every delta row. The final count is
      the snapshot's plus inserted minus deleted, plus the upserts that bring a
      snapshot identity back after its own delete, minus the upserts that repeat
      an identity outside the snapshot; so the simple count holds exactly when the
      delta has as many of the one kind as of the other. */
  lemma CountsReconcile(snapshot: seq<Record>, delta: seq<Event>, tables: Tables)
    requires Apply(snapshot, delta, tables).Ok?
    ensures var index := Validate(snapshot, tables).value.Keys;
            var inserted, final := Inserted(index, delta), |Apply(snapshot, delta, tables).value|;
            var updated := Upserts(delta) - inserted;
            && updated >= 0 && inserted + updated + Deletes(delta) == |delta|
            && final == |snapshot| + inserted - Deletes(delta) + |Returning(index, delta)| - |Repeating(index, delta)|
            && (final == |snapshot| + inserted - Deletes(delta) <==>
                  |Returning(index, delta)| == |Repeating(index, delta)|)
  {
    IndexSound(map[], snapshot, tables);
    var index := Validate(snapshot, tables).value;
    FoldCounts(index, None, delta, 1, tables);
    AcceptedOperations(index, None, delta, 1, tables);
    hide Fold, Appearing, Inserted, Returning, Repeating, NoOrphan, IndexFrom;
    AppearingIs(index.Keys, delta);
    InsertedBounded(index.Keys, delta);
  }

  /** The simple count holds if no upsert returns and none repeats, even where
      identities are named more than once. */
  lemma SimpleCountHolds(snapshot: seq<Record>, delta: seq<Event>, tables: Tables)
    requires Apply(snapshot, delta, tables).Ok?
    requires var index := Validate(snapshot, tables).value.Keys;
             forall k: nat | k < |delta| :: !Returns(index, delta, k) && !Repeats(index, delta, k)
    ensures var index := Validate(snapshot, tables).value.Keys;
            |Apply(snapshot, delta, tables).value| == |snapshot| + Inserted(index, delta) - Deletes(delta)
  {
    var index := Validate(snapshot, tables).value.Keys;
    CountsReconcile(snapshot, delta, tables);
    assert Returning(index, delta) == {} && Repeating(index, delta) == {};
  }

  predicate NamesOnce(delta: seq<Event>) {
    forall i, j | 0 <= i < j < |delta| :: delta[i].identity != delta[j].identity
  }

  /** A delta that names no identity twice satisfies the simple count. */
  lemma {:induction false} OnceMeansInserted(snapshot: set<Identity>, present: set<Identity>, delta: seq<Event>)
    requires NamesOnce(delta) && forall e | e in delta :: e.identity in snapshot <==> e.identity in present
    ensures Appearing(present, delta) == Inserted(snapshot, delta)
    decreases |delta|
  {
    if delta == [] {
    } else {
      var e, rest := delta[0], delta[1..];
      var next := if e.operation.Upsert? then present + {e.identity} else present - {e.identity};
      forall f | f in rest ensures f.identity in snapshot <==> f.identity in next {
        var j :| 0 <= j < |rest| && rest[j] == f;
        assert delta[j + 1] == f && delta[0].identity != delta[j + 1].identity;
      }
      OnceMeansInserted(snapshot, next, rest);
    }
  }

  function DeleteAndRestore(row: Record, back: Record): seq<Event> {
    [Event(row.identity, Delete, None, 1, Mark(row.modified + 1, row.identity.recId)),
     Event(row.identity, Upsert, Some(back), 2, Mark(back.modified, row.identity.recId))]
  }

  function UpsertTwice(added: Record, again: Record, sequence: int): seq<Event> {
    [Event(added.identity, Upsert, Some(added), sequence, Mark(added.modified, added.identity.recId)),
     Event(added.identity, Upsert, Some(again), sequence + 1, Mark(again.modified, added.identity.recId))]
  }

  /** The simple count is not a law: deleting a snapshot row and upserting it again
      is accepted, keeps the count, and reports one deletion and no insertion. */
  lemma SimpleCountFails(tables: Tables, row: Record)
    requires PlainRow(row, tables)
    ensures var back := row.(modified := row.modified + 2);
            var delta := DeleteAndRestore(row, back);
            && StartsAfter([row], delta) && Apply([row], delta, tables) == Ok(map[row.identity := back])
            && Inserted({row.identity}, delta) == 0 && Deletes(delta) == 1
  {
    var back := row.(modified := row.modified + 2);
    var delta := DeleteAndRestore(row, back);
    var rows: Rows, last: Rows := map[row.identity := row], map[row.identity := back];
    PlainSnapshot(row, tables);
    assert CheckRecord(back, tables).None? && !Orphan(last, tables, row.identity);
    assert delta[1..] == [delta[1]] && [delta[1]][1..] == [];
    assert rows - {row.identity} == map[];
    assert Step(rows, None, delta[0], 1, tables) == Ok(map[]);
    assert Step(map[], Some(delta[0].mark), delta[1], 2, tables) == Ok(last);
    assert Fold(map[], Some(delta[0].mark), delta[1..], 2, tables) == Ok(last);
    RestoreCounts(row, back);
  }

  lemma RestoreCounts(row: Record, back: Record)
    ensures var delta := DeleteAndRestore(row, back); Inserted({row.identity}, delta) == 0 && Deletes(delta) == 1
  {
    var delta := DeleteAndRestore(row, back);
    assert delta[1..] == [delta[1]] && [delta[1]][1..] == [];
    assert Inserted({row.identity}, delta[1..]) == 0;
    assert Deletes(delta[1..]) == Deletes([]);
  }

  /** It fails the other way too: a new identity upserted twice is accepted, adds
      one row, and is reported as two insertions. */
  lemma SimpleCountExceeds(tables: Tables, row: Record, added: Record)
    requires PlainRow(row, tables) && PlainRow(added, tables)
    requires added.identity != row.identity && row.modified < added.modified
    ensures var again := added.(modified := added.modified + 1);
            var delta := UpsertTwice(added, again, 1);
            && StartsAfter([row], delta)
            && Apply([row], delta, tables) == Ok(map[row.identity := row, added.identity := again])
            && Inserted({row.identity}, delta) == 2 && Deletes(delta) == 0
  {
    var again := added.(modified := added.modified + 1);
    var delta := UpsertTwice(added, again, 1);
    PlainSnapshot(row, tables);
    TwiceApplies(tables, row, added, None, 1);
    TwiceCounts(row, added, again);
  }

  lemma TwiceCounts(row: Record, added: Record, again: Record)
    requires added.identity != row.identity
    ensures var delta := UpsertTwice(added, again, 1); Inserted({row.identity}, delta) == 2 && Deletes(delta) == 0
  {
    var delta := UpsertTwice(added, again, 1);
    assert delta[1..] == [delta[1]] && [delta[1]][1..] == [];
    assert Inserted({row.identity}, delta[1..]) == 1;
    assert Deletes(delta[1..]) == Deletes([]);
  }

  lemma TwiceApplies(tables: Tables, row: Record, added: Record, previous: Option<Mark>, expected: int)
    requires PlainRow(row, tables) && PlainRow(added, tables) && added.identity != row.identity
    requires previous.Some? ==> Before(previous.value, Mark(added.modified, added.identity.recId))
    ensures var again := added.(modified := added.modified + 1);
            var last: Rows := map[row.identity := row, added.identity := again];
            && Fold(map[row.identity := row], previous, UpsertTwice(added, again, expected), expected, tables)
               == Ok(last)
            && NoOrphan(last, tables)
  {
    var again := added.(modified := added.modified + 1);
    var delta := UpsertTwice(added, again, expected);
    var one: Rows, two: Rows := map[row.identity := row], map[row.identity := row, added.identity := added];
    var last: Rows := map[row.identity := row, added.identity := again];
    assert delta[1..] == [delta[1]] && [delta[1]][1..] == [];
    assert CheckRecord(again, tables).None?;
    assert one[added.identity := added] == two && two[added.identity := again] == last;
    assert Step(one, previous, delta[0], expected, tables) == Ok(two);
    assert Step(two, Some(delta[0].mark), delta[1], expected + 1, tables) == Ok(last);
    hide Step, CheckRecord;
    assert Fold(two, Some(delta[0].mark), delta[1..], expected + 1, tables) == Ok(last);
  }

  /** Delete a snapshot row, bring it back, and upsert another identity twice. */
  function Cancelling(row: Record, back: Record, added: Record, again: Record): seq<Event> {
    DeleteAndRestore(row, back) + UpsertTwice(added, again, 3)
  }

  /** The two failures can cancel: this delta is accepted and satisfies the simple
      count, although one of its upserts returns and another repeats. */
  lemma FailuresCancel(tables: Tables, row: Record, added: Record)
    requires PlainRow(row, tables) && PlainRow(added, tables)
    requires added.identity != row.identity && row.modified + 2 < added.modified
    ensures var back, again := row.(modified := row.modified + 2), added.(modified := added.modified + 1);
            var delta := Cancelling(row, back, added, again);
            && StartsAfter([row], delta) && Apply([row], delta, tables).Ok?
            && |Apply([row], delta, tables).value| == 1 + Inserted({row.identity}, delta) - Deletes(delta)
            && Returns({row.identity}, delta, 1) && Repeats({row.identity}, delta, 3)
  {
    var back, again := row.(modified := row.modified + 2), added.(modified := added.modified + 1);
    var delta := Cancelling(row, back, added, again);
    CancellingApplies(tables, row, added);
    EarlierIs(delta, 1, Some(delta[0]));
    EarlierIs(delta, 3, Some(delta[2]));
    assert Deletes(delta) == 1 by { CountSplits(delta); }
    InsertedTwice(row, back, added, again);
  }

  lemma CountSplits(delta: seq<Event>)
    requires |delta| == 4
    ensures Deletes(delta)
            == (if delta[0].operation.Delete? then 1 else 0) + (if delta[1].operation.Delete? then 1 else 0)
               + (if delta[2].operation.Delete? then 1 else 0) + (if delta[3].operation.Delete? then 1 else 0)
  {
    assert delta[1..][1..] == delta[2..] && delta[2..][1..] == delta[3..] && delta[3..][1..] == [];
    assert Deletes(delta[3..]) == if delta[3].operation.Delete? then 1 else 0;
    assert Deletes(delta[2..]) == (if delta[2].operation.Delete? then 1 else 0) + Deletes(delta[3..]);
    assert Deletes(delta[1..]) == (if delta[1].operation.Delete? then 1 else 0) + Deletes(delta[2..]);
  }

  lemma InsertedTwice(row: Record, back: Record, added: Record, again: Record)
    requires added.identity != row.identity
    ensures Inserted({row.identity}, Cancelling(row, back, added, again)) == 2
  {
    var delta := Cancelling(row, back, added, again);
    assert delta[1..][1..] == delta[2..] && delta[2..][1..] == delta[3..] && delta[3..][1..] == [];
    assert Inserted({row.identity}, delta[3..]) == 1;
    assert Inserted({row.identity}, delta[2..]) == 2;
    assert Inserted({row.identity}, delta[1..]) == 2;
  }

  lemma CancellingApplies(tables: Tables, row: Record, added: Record)
    requires PlainRow(row, tables) && PlainRow(added, tables)
    requires added.identity != row.identity && row.modified + 2 < added.modified
    ensures var back, again := row.(modified := row.modified + 2), added.(modified := added.modified + 1);
            Apply([row], Cancelling(row, back, added, again), tables)
            == Ok(map[row.identity := back, added.identity := again])
  {
    var back, again := row.(modified := row.modified + 2), added.(modified := added.modified + 1);
    var delta := Cancelling(row, back, added, again);
    var rows: Rows, restored: Rows := map[row.identity := row], map[row.identity := back];
    PlainSnapshot(row, tables);
    TwiceApplies(tables, back, added, Some(delta[1].mark), 3);
    assert delta[1..][1..] == delta[2..] == UpsertTwice(added, again, 3);
    assert rows - {row.identity} == map[];
    assert Step(rows, None, delta[0], 1, tables) == Ok(map[]);
    assert Step(map[], Some(delta[0].mark), delta[1], 2, tables) == Ok(restored);
    hide Step, IndexFrom, CheckRecord;
    assert Fold(map[], Some(delta[0].mark), delta[1..], 2, tables)
        == Fold(restored, Some(delta[1].mark), delta[2..], 3, tables);
    assert Fold(rows, None, delta, 1, tables) == Fold(map[], Some(delta[0].mark), delta[1..], 2, tables);
  }

  /** The event just before names the same identity, or none before does. */
  lemma EarlierIs(delta: seq<Event>, k: nat, event: Option<Event>)
    requires k < |delta|
    requires event.Some? ==> k > 0 && delta[k - 1] == event.value && event.value.identity == delta[k].identity
    requires event.None? ==> forall j | 0 <= j < k :: delta[j].identity != delta[k].identity
    ensures Earlier(delta, k) == event
  {
    if event.Some? {
      assert delta[..k] == delta[..k - 1] + [delta[k - 1]];
      EventsEnd(delta[..k - 1], delta[k - 1]);
    } else {
      NoEvents(delta[..k], delta[k].identity);
    }
  }

  lemma {:induction false} EventsEnd(delta: seq<Event>, e: Event)
    ensures EventsOf(delta + [e], e.identity) == EventsOf(delta, e.identity) + [e]
  {
    if delta == [] {
      assert [] + [e] == [e] && [e][1..] == [];
    } else {
      assert (delta + [e])[1..] == delta[1..] + [e];
      EventsEnd(delta[1..], e);
    }
  }

  lemma {:induction false} NoEvents(delta: seq<Event>, i: Identity)
    requires forall j | 0 <= j < |delta| :: delta[j].identity != i
    ensures EventsOf(delta, i) == []
  {
    if delta == [] {
    } else {
      forall j | 0 <= j < |delta[1..]| ensures delta[1..][j] == delta[j + 1] {}
      NoEvents(delta[1..], i);
    }
  }

  // -------------------------------------------------------------- the loops

  method ReadMetadata(metadata: Metadata) returns (result: Result<Tables, Rejection>)
    ensures result == MetadataTables(metadata)
  {
    if !metadata.header { return Err(MetadataHeader); }
    var rows := metadata.tables;
    if rows == [] { return Err(NoTables); }
    var tables: Tables := map[];
    assert rows[0..] == rows;
    for i := 0 to |rows|
      invariant TablesFrom(map[], rows) == TablesFrom(tables, rows[i..])
    {
      assert rows[i..][0] == rows[i] && rows[i..][1..] == rows[i + 1..];
      var row := rows[i];
      if !Filled(row.name) || row.name in tables { return Err(TableName); }
      match row {
        case OtherRow(_) => return Err(TableKind);
        case BaseRow(name, parent) =>
          if parent.Some? { return Err(BaseExtends); }
          tables := tables[name := Base];
        case DerivedRow(name, parent) =>
          if parent.None? || parent.value == name { return Err(DerivedExtends); }
          tables := tables[name := Derived(parent.value)];
      }
    }
    assert rows[|rows|..] == [];
    var left := tables.Keys;
    while left != {}
      invariant left <= tables.Keys && forall name | name in tables.Keys - left :: ExtendsBase(tables, name)
      decreases |left|
    {
      var name :| name in left;
      if !ExtendsBase(tables, name) { return Err(OrphanTable); }
      left := left - {name};
    }
    result := Ok(tables);
  }

  method ValidateRecords(records: seq<Record>, metadata: Metadata) returns (result: Result<Rows, Rejection>)
    ensures result ==
              match MetadataTables(metadata)
              case Err(code) => Err(code)
              case Ok(tables) => Validate(records, tables)
  {
    var tables := ReadMetadata(metadata);
    if tables.Err? { return Err(tables.error); }
    result := ValidateRows(records, tables.value);
  }

  method ValidateRows(records: seq<Record>, tables: Tables) returns (result: Result<Rows, Rejection>)
    ensures result == Validate(records, tables)
  {
    hide CheckRecord;
    var indexed: Rows := map[];
    assert records[0..] == records;
    for i := 0 to |records|
      invariant IndexFrom(map[], records, tables) == IndexFrom(indexed, records[i..], tables)
    {
      assert records[i..][0] == records[i] && records[i..][1..] == records[i + 1..];
      var refusal := CheckRecord(records[i], tables);
      if refusal.Some? { return Err(refusal.value); }
      if records[i].identity in indexed { return Err(DuplicateIdentity); }
      indexed := indexed[records[i].identity := records[i]];
    }
    assert records[|records|..] == [];
    var orphans := FindOrphan(indexed, tables);
    result := if orphans then Err(OrphanDerived) else Ok(indexed);
  }

  method FindOrphan(rows: Rows, tables: Tables) returns (found: bool)
    ensures found <==> !NoOrphan(rows, tables)
  {
    var left := rows.Keys;
    while left != {}
      invariant left <= rows.Keys && forall i | i in rows.Keys - left :: !Orphan(rows, tables, i)
      decreases |left|
    {
      var i :| i in left;
      if Orphan(rows, tables, i) { return true; }
      left := left - {i};
    }
    found := false;
  }

  method ApplyDelta(snapshot: seq<Record>, delta: seq<Event>, metadata: Metadata)
    returns (result: Result<Rows, Rejection>)
    ensures result == ApplyPacket(snapshot, delta, metadata)
  {
    hide CheckRecord, NoOrphan, Before, MetadataTables, Validate;
    var validated := ValidateRecords(snapshot, metadata);
    if validated.Err? { return validated; }
    var read := ReadMetadata(metadata);
    var tables := read.value;
    var current := validated.value;
    var previous: Option<Mark> := None;
    assert delta[0..] == delta;
    for i := 0 to |delta|
      invariant Fold(validated.value, None, delta, 1, tables) == Fold(current, previous, delta[i..], i + 1, tables)
    {
      assert delta[i..][0] == delta[i] && delta[i..][1..] == delta[i + 1..];
      var e := delta[i];
      if e.sequence != i + 1 { return Err(DeltaSequence); }
      if e.mark.recId < 1 { return Err(DeltaWatermark); }
      if previous.Some? && !Before(previous.value, e.mark) { return Err(WatermarkOrder); }
      previous := Some(e.mark);
      if e.mark.recId != e.identity.recId { return Err(WatermarkIdentity); }
      if e.identity.table !in tables { return Err(UnknownTable); }
      if e.operation.Upsert? {
        if e.record.None? { return Err(RecordMissing); }
        var r := e.record.value;
        var refusal := CheckRecord(r, tables);
        if refusal.Some? { return Err(refusal.value); }
        if r.identity != e.identity { return Err(IdentityMismatch); }
        if r.modified != e.mark.modified { return Err(WatermarkRecord); }
        current := current[e.identity := r];
      } else if e.operation.Delete? {
        if e.record.Some? { return Err(DeletePayload); }
        if e.identity !in current { return Err(DeleteMissing); }
        current := current - {e.identity};
      } else {
        return Err(DeltaOperation);
      }
    }
    assert delta[|delta|..] == [];
    var orphans := FindOrphan(current, tables);
    result := if orphans then Err(OrphanDerived) else Ok(current);
  }
}
