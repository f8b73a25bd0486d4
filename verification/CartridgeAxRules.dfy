/** The Dynamics AX compiler told table row by table row and event by event: which
    packets it accepts, and which record each identity is left with. */
module CartridgeAxRules {
  import opened Common
  import opened CartridgeAx

  // ---------------------------------------------------------------- metadata

  /** A table row on its own: a base extends nothing, a derived table another one. */
  predicate TableSound(row: TableRow) {
    && row.name != Null
    && match row
       case BaseRow(_, parent) => parent == None
       case DerivedRow(name, parent) => parent.Some? && parent.value != name
       case OtherRow(_) => false
  }

  predicate TablesSound(rows: seq<TableRow>) {
    && (forall k | 0 <= k < |rows| :: TableSound(rows[k]))
    && (forall k, l | 0 <= k < l < |rows| :: rows[k].name != rows[l].name)
  }

  predicate IsBase(rows: seq<TableRow>, name: Id) {
    exists k :: 0 <= k < |rows| && rows[k].BaseRow? && rows[k].name == name
  }

  predicate IsDerived(rows: seq<TableRow>, name: Id, parent: Id) {
    exists k :: 0 <= k < |rows| && rows[k].DerivedRow? && rows[k].name == name && rows[k].parent == Some(parent)
  }

  /** Every derived table extends a base table of the list. */
  predicate MetadataRule(metadata: Metadata) {
    && metadata.header && metadata.tables != [] && TablesSound(metadata.tables)
    && forall k | 0 <= k < |metadata.tables| && metadata.tables[k].DerivedRow? && metadata.tables[k].parent.Some? ::
         IsBase(metadata.tables, metadata.tables[k].parent.value)
  }

  /** The tables as indexed. */
  predicate Holds(tables: Tables, rows: seq<TableRow>) {
    && (forall k | 0 <= k < |rows| ::
          rows[k].name in tables
          && (rows[k].BaseRow? ==> tables[rows[k].name] == Base)
          && (rows[k].DerivedRow? ==> rows[k].parent.Some? && tables[rows[k].name] == Derived(rows[k].parent.value))
          && !rows[k].OtherRow?)
    && (forall name | name in tables :: exists k :: 0 <= k < |rows| && rows[k].name == name)
  }

  lemma HoldsMore(tables: Tables, rows: seq<TableRow>, row: TableRow, table: Table)
    requires Holds(tables, rows) && TablesSound(rows) && TableSound(row) && row.name !in tables
    requires table == if row.BaseRow? then Base else Derived(row.parent.value)
    ensures Holds(tables[row.name := table], rows + [row]) && TablesSound(rows + [row])
  {
    var all, next := rows + [row], tables[row.name := table];
    assert all[|rows|] == row;
    forall name | name in next ensures exists k :: 0 <= k < |all| && all[k].name == name {
      if name in tables {
        var k :| 0 <= k < |rows| && rows[k].name == name;
        assert all[k] == rows[k];
      } else {
        assert all[|rows|].name == name;
      }
    }
  }

  lemma Refused(tables: Tables, done: seq<TableRow>, rows: seq<TableRow>)
    requires Holds(tables, done) && rows != []
    ensures TablesSound(done + rows) ==> TableSound(rows[0]) && rows[0].name !in tables
  {
    hide TableSound;
    var all := done + rows;
    assert all[|done|] == rows[0];
    if TablesSound(all) {
      forall k | 0 <= k < |done| ensures done[k].name != rows[0].name {
        assert all[k] == done[k];
      }
    }
  }

  lemma {:induction false} TablesIndexed(tables: Tables, done: seq<TableRow>, rows: seq<TableRow>)
    requires Holds(tables, done) && TablesSound(done)
    ensures TablesFrom(tables, rows).Ok? <==> TablesSound(done + rows)
    ensures TablesFrom(tables, rows).Ok? ==> Holds(TablesFrom(tables, rows).value, done + rows)
    decreases |rows|
  {
    hide Holds, TablesSound;
    if rows == [] {
      assert done + rows == done;
    } else {
      var row := rows[0];
      assert done + rows == (done + [row]) + rows[1..];
      Refused(tables, done, rows);
      if TableSound(row) && row.name !in tables {
        var table := if row.BaseRow? then Base else Derived(row.parent.value);
        HoldsMore(tables, done, row, table);
        TablesIndexed(tables[row.name := table], done + [row], rows[1..]);
      }
    }
  }

  lemma KindsAgree(tables: Tables, rows: seq<TableRow>, name: Id)
    requires Holds(tables, rows) && TablesSound(rows)
    ensures name in tables && tables[name].Base? <==> IsBase(rows, name)
    ensures forall parent :: (name in tables && tables[name] == Derived(parent)) <==> IsDerived(rows, name, parent)
  {
    hide TableSound;
    if name in tables {
      var k :| 0 <= k < |rows| && rows[k].name == name;
      assert rows[k].BaseRow? ==> IsBase(rows, name);
      assert rows[k].DerivedRow? ==> IsDerived(rows, name, rows[k].parent.value);
    }
  }

  lemma ExtendsBases(tables: Tables, rows: seq<TableRow>)
    requires Holds(tables, rows) && TablesSound(rows)
    ensures AllExtendBases(tables) <==>
              forall k | 0 <= k < |rows| && rows[k].DerivedRow? && rows[k].parent.Some? ::
                IsBase(rows, rows[k].parent.value)
  {
    hide TableSound, TablesSound, IsBase;
    if AllExtendBases(tables) {
      forall k | 0 <= k < |rows| && rows[k].DerivedRow? && rows[k].parent.Some?
        ensures IsBase(rows, rows[k].parent.value)
      {
        assert rows[k].name in tables && ExtendsBase(tables, rows[k].name);
        KindsAgree(tables, rows, rows[k].parent.value);
      }
    }
    if forall k | 0 <= k < |rows| && rows[k].DerivedRow? && rows[k].parent.Some? :: IsBase(rows, rows[k].parent.value) {
      forall name | name in tables ensures ExtendsBase(tables, name) {
        var k :| 0 <= k < |rows| && rows[k].name == name;
        if rows[k].DerivedRow? { KindsAgree(tables, rows, rows[k].parent.value); }
      }
    }
  }

  /** Metadata is accepted if and only if its fixed parts are, its tables have
      distinct names, each is a base that extends nothing or extends another
      table, and what a table extends is a base. */
  lemma MetadataAcceptedIff(metadata: Metadata)
    ensures MetadataTables(metadata).Ok? <==> MetadataRule(metadata)
    ensures MetadataTables(metadata).Ok? ==> Holds(MetadataTables(metadata).value, metadata.tables)
  {
    hide TablesFrom, AllExtendBases, IsBase, TableSound;
    assert [] + metadata.tables == metadata.tables;
    TablesIndexed(map[], [], metadata.tables);
    if TablesFrom(map[], metadata.tables).Ok? {
      ExtendsBases(TablesFrom(map[], metadata.tables).value, metadata.tables);
    }
  }

  // ----------------------------------------------------------------- records

  /** A record of a base table has no base; one of a derived table has one in the
      table that it extends, of the same company, partition and record number. */
  predicate RecordRule(r: Record, tables: seq<TableRow>) {
    var i := r.identity;
    || (IsBase(tables, i.table) && r.base == None)
    || (r.base.Some?
        && r.base.value == Identity(i.company, i.partition, r.base.value.table, i.recId)
        && IsDerived(tables, i.table, r.base.value.table))
  }

  lemma RecordChecked(r: Record, tables: Tables, rows: seq<TableRow>)
    requires Holds(tables, rows) && TablesSound(rows)
    ensures CheckRecord(r, tables).None? <==> RecordRule(r, rows)
  {
    hide Holds, TablesSound, IsBase, IsDerived;
    KindsAgree(tables, rows, r.identity.table);
    if r.base.Some? {
      assert (r.identity.table in tables && tables[r.identity.table] == Derived(r.base.value.table))
          <==> IsDerived(rows, r.identity.table, r.base.value.table);
    }
    if r.identity.table in tables && tables[r.identity.table].Derived? {
      assert IsDerived(rows, r.identity.table, tables[r.identity.table].parent);
    }
    assert forall parent | IsDerived(rows, r.identity.table, parent) :: tables[r.identity.table] == Derived(parent);
  }

  // ------------------------------------------------------------- what is there

  /** The snapshot's record of an identity. */
  function Start(snapshot: seq<Record>, i: Identity): Option<Record> {
    if snapshot == [] then None
    else if snapshot[|snapshot| - 1].identity == i then Some(snapshot[|snapshot| - 1])
    else Start(snapshot[..|snapshot| - 1], i)
  }

  /** The last event of an identity. */
  function LastEvent(delta: seq<Event>, i: Identity): Option<Event> {
    if delta == [] then None
    else if delta[|delta| - 1].identity == i then Some(delta[|delta| - 1])
    else LastEvent(delta[..|delta| - 1], i)
  }

  function Holding(snapshot: seq<Record>, delta: seq<Event>, i: Identity): Option<Record> {
    match LastEvent(delta, i)
    case None => Start(snapshot, i)
    case Some(e) => if e.operation == Upsert then e.record else None
  }

  /** Every record that continues another finds it there. */
  ghost predicate Grounded(snapshot: seq<Record>, delta: seq<Event>) {
    forall i | Holding(snapshot, delta, i).Some? && Holding(snapshot, delta, i).value.base.Some? ::
      Holding(snapshot, delta, Holding(snapshot, delta, i).value.base.value).Some?
  }

  // ------------------------------------------------------------------- rules

  predicate RecordsRule(snapshot: seq<Record>, tables: seq<TableRow>) {
    && (forall k | 0 <= k < |snapshot| :: RecordRule(snapshot[k], tables))
    && (forall k, l | 0 <= k < l < |snapshot| :: snapshot[k].identity != snapshot[l].identity)
  }

  predicate Later(a: Mark, b: Mark) {
    a.modified < b.modified || (a.modified == b.modified && a.recId < b.recId)
  }

  /** The event at place `k`: numbered from one, under a watermark later than the one
      before and with the identity's own record number; an upsert of a record of
      that identity, modified at the watermark, or a bare delete of one that is there. */
  predicate EventRule(snapshot: seq<Record>, delta: seq<Event>, tables: seq<TableRow>, k: nat)
    requires k < |delta|
  {
    var e := delta[k];
    && e.sequence == k + 1 && e.mark.recId == e.identity.recId && e.mark.recId >= 1
    && (k > 0 ==> Later(delta[k - 1].mark, e.mark))
    && match e.operation
       case Upsert =>
         && e.record.Some? && RecordRule(e.record.value, tables)
         && e.record.value.identity == e.identity && e.record.value.modified == e.mark.modified
       case Delete =>
         && e.record == None && Holding(snapshot, delta[..k], e.identity).Some?
       case UnknownOperation => false
  }

  predicate Rules(snapshot: seq<Record>, delta: seq<Event>, tables: seq<TableRow>, n: nat)
    requires n <= |delta|
  {
    forall k | 0 <= k < n :: EventRule(snapshot, delta, tables, k)
  }

  ghost predicate Reflects(rows: Rows, snapshot: seq<Record>, delta: seq<Event>) {
    forall i :: Holding(snapshot, delta, i) == if i in rows then Some(rows[i]) else None
  }

  // ---------------------------------------------------------------- snapshot

  lemma {:induction false} IndexAppends(index: Rows, snapshot: seq<Record>, r: Record, tables: Tables)
    ensures IndexFrom(index, snapshot + [r], tables) ==
              match IndexFrom(index, snapshot, tables)
              case Err(code) => Err(code)
              case Ok(rows) => IndexFrom(rows, [r], tables)
    decreases |snapshot|
  {
    hide CheckRecord;
    if snapshot == [] {
      assert [] + [r] == [r];
    } else {
      assert (snapshot + [r])[1..] == snapshot[1..] + [r];
      if CheckRecord(snapshot[0], tables).None? && snapshot[0].identity !in index {
        IndexAppends(index[snapshot[0].identity := snapshot[0]], snapshot[1..], r, tables);
      }
    }
  }

  predicate Loaded(rows: Rows, snapshot: seq<Record>) {
    && (forall k | 0 <= k < |snapshot| :: snapshot[k].identity in rows)
    && (forall i | i in rows :: Start(snapshot, i) == Some(rows[i]))
  }

  lemma {:induction false} StartIsRecord(snapshot: seq<Record>, i: Identity)
    ensures Start(snapshot, i).Some? ==> exists k :: 0 <= k < |snapshot| && snapshot[k].identity == i
    ensures Start(snapshot, i).None? ==> forall k | 0 <= k < |snapshot| :: snapshot[k].identity != i
    decreases |snapshot|
  {
    if snapshot == [] {
    } else {
      StartIsRecord(snapshot[..|snapshot| - 1], i);
    }
  }

  lemma LoadedMore(rows: Rows, front: seq<Record>, r: Record)
    requires Loaded(rows, front) && r.identity !in rows
    ensures Loaded(rows[r.identity := r], front + [r])
  {
    var all, next := front + [r], rows[r.identity := r];
    assert all[..|front|] == front;
    forall i | i in next ensures Start(all, i) == Some(next[i]) {
    }
  }

  lemma RuleMore(rows: Rows, front: seq<Record>, last: Record, tables: seq<TableRow>)
    requires Loaded(rows, front) && RecordsRule(front, tables)
    ensures RecordsRule(front + [last], tables) <==> RecordRule(last, tables) && last.identity !in rows
  {
    hide RecordRule;
    var all := front + [last];
    assert all[|front|] == last;
    if last.identity in rows {
      StartIsRecord(front, last.identity);
      var k :| 0 <= k < |front| && front[k].identity == last.identity;
      assert all[k] == front[k];
    }
  }

  lemma RuleLess(front: seq<Record>, last: Record, tables: seq<TableRow>)
    requires RecordsRule(front + [last], tables)
    ensures RecordsRule(front, tables)
  {
    hide RecordRule;
    var all := front + [last];
    assert forall k | 0 <= k < |front| :: front[k] == all[k];
  }

  lemma IndexOne(rows: Rows, r: Record, tables: Tables)
    ensures IndexFrom(rows, [r], tables).Ok? <==> CheckRecord(r, tables).None? && r.identity !in rows
    ensures IndexFrom(rows, [r], tables).Ok? ==> IndexFrom(rows, [r], tables).value == rows[r.identity := r]
  {
    hide CheckRecord;
    assert [r][1..] == [];
  }

  lemma {:induction false} SnapshotIndexed(snapshot: seq<Record>, tables: Tables, rows: seq<TableRow>)
    requires Holds(tables, rows) && TablesSound(rows)
    ensures IndexFrom(map[], snapshot, tables).Ok? <==> RecordsRule(snapshot, rows)
    ensures IndexFrom(map[], snapshot, tables).Ok? ==> Loaded(IndexFrom(map[], snapshot, tables).value, snapshot)
    decreases |snapshot|
  {
    hide Holds, TablesSound, CheckRecord, RecordRule;
    if snapshot == [] {
    } else {
      var front, last := snapshot[..|snapshot| - 1], snapshot[|snapshot| - 1];
      assert snapshot == front + [last];
      SnapshotIndexed(front, tables, rows);
      IndexAppends(map[], front, last, tables);
      hide IndexFrom, RecordsRule, Loaded;
      if IndexFrom(map[], front, tables).Ok? {
        var index := IndexFrom(map[], front, tables).value;
        IndexOne(index, last, tables);
        RecordChecked(last, tables, rows);
        RuleMore(index, front, last, rows);
        if last.identity !in index { LoadedMore(index, front, last); }
      } else if RecordsRule(snapshot, rows) {
        RuleLess(front, last, rows);
      }
    }
  }

  lemma LoadedReflects(index: Rows, snapshot: seq<Record>)
    requires Loaded(index, snapshot)
    ensures Reflects(index, snapshot, [])
  {
    hide Start;
    forall i ensures Holding(snapshot, [], i) == if i in index then Some(index[i]) else None {
      StartIsRecord(snapshot, i);
    }
  }

  /** Only a record that continues another can be an orphan. */
  lemma OrphansAre(rows: Rows, tables: Tables, snapshot: seq<Record>, delta: seq<Event>)
    requires RowsSound(rows, tables) && Reflects(rows, snapshot, delta)
    ensures NoOrphan(rows, tables) <==> Grounded(snapshot, delta)
  {
    hide Holding;
    if NoOrphan(rows, tables) {
      forall i | Holding(snapshot, delta, i).Some? && Holding(snapshot, delta, i).value.base.Some?
        ensures Holding(snapshot, delta, Holding(snapshot, delta, i).value.base.value).Some?
      {
        assert CheckRecord(rows[i], tables).None? && !Orphan(rows, tables, i);
      }
    }
    if Grounded(snapshot, delta) {
      forall i | i in rows ensures !Orphan(rows, tables, i) {
        assert Holding(snapshot, delta, i) == Some(rows[i]);
      }
    }
  }

  lemma SnapshotValidIff(snapshot: seq<Record>, tables: Tables, rows: seq<TableRow>)
    requires Holds(tables, rows) && TablesSound(rows)
    ensures Validate(snapshot, tables).Ok? <==> RecordsRule(snapshot, rows) && Grounded(snapshot, [])
    ensures Validate(snapshot, tables).Ok? ==>
              Reflects(Validate(snapshot, tables).value, snapshot, [])
              && RowsSound(Validate(snapshot, tables).value, tables)
  {
    hide Holds, TablesSound, IndexFrom, RecordsRule, Loaded, NoOrphan, Grounded, Reflects, RowsSound;
    SnapshotIndexed(snapshot, tables, rows);
    if IndexFrom(map[], snapshot, tables).Ok? {
      var index := IndexFrom(map[], snapshot, tables).value;
      LoadedReflects(index, snapshot);
      assert RowsSound(map[], tables) by { NoRows(tables); }
      IndexSound(map[], snapshot, tables);
      OrphansAre(index, tables, snapshot, []);
    }
  }

  lemma NoRows(tables: Tables)
    ensures RowsSound(map[], tables)
  {
  }

  // ------------------------------------------------------------------- delta

  /** The watermark before the event at place `n`. */
  function MarkBefore(delta: seq<Event>, n: nat): Option<Mark>
    requires n <= |delta|
  {
    if n == 0 then None else Some(delta[n - 1].mark)
  }

  lemma {:induction false} FoldAppends(rows: Rows, previous: Option<Mark>, delta: seq<Event>, e: Event, expected: int,
      tables: Tables)
    ensures Fold(rows, previous, delta + [e], expected, tables) ==
              match Fold(rows, previous, delta, expected, tables)
              case Err(code) => Err(code)
              case Ok(next) =>
                Step(next, if delta == [] then previous else Some(delta[|delta| - 1].mark), e, expected + |delta|,
                     tables)
    decreases |delta|
  {
    hide Step;
    if delta == [] {
      assert [] + [e] == [e] && [e][1..] == [];
    } else {
      assert (delta + [e])[1..] == delta[1..] + [e];
      var first := Step(rows, previous, delta[0], expected, tables);
      if first.Ok? { FoldAppends(first.value, Some(delta[0].mark), delta[1..], e, expected + 1, tables); }
    }
  }

  lemma LastNext(delta: seq<Event>, n: nat, i: Identity)
    requires n < |delta|
    ensures LastEvent(delta[..n + 1], i)
         == if delta[n].identity == i then Some(delta[n]) else LastEvent(delta[..n], i)
  {
    assert delta[..n + 1][..n] == delta[..n];
  }

  lemma StepAllowed(index: Rows, snapshot: seq<Record>, delta: seq<Event>, tables: Tables, rows: seq<TableRow>, n: nat)
    requires n < |delta| && Reflects(index, snapshot, delta[..n]) && RowsSound(index, tables)
    requires Holds(tables, rows) && TablesSound(rows)
    ensures Step(index, MarkBefore(delta, n), delta[n], n + 1, tables).Ok? <==> EventRule(snapshot, delta, rows, n)
  {
    hide Holds, TablesSound, RecordRule, Holding;
    var e := delta[n];
    assert Holding(snapshot, delta[..n], e.identity) == if e.identity in index then Some(index[e.identity]) else None;
    if e.record.Some? { RecordChecked(e.record.value, tables, rows); }
    if e.identity in index { assert CheckRecord(index[e.identity], tables).None?; }
    assert e.record.Some? && CheckRecord(e.record.value, tables).None? ==> e.record.value.identity.table in tables;
  }

  lemma StepReflects(index: Rows, snapshot: seq<Record>, delta: seq<Event>, tables: Tables, n: nat)
    requires n < |delta| && Reflects(index, snapshot, delta[..n])
    requires Step(index, MarkBefore(delta, n), delta[n], n + 1, tables).Ok?
    ensures Reflects(Step(index, MarkBefore(delta, n), delta[n], n + 1, tables).value, snapshot, delta[..n + 1])
  {
    hide CheckRecord, Before, LastEvent, Start;
    var next := Step(index, MarkBefore(delta, n), delta[n], n + 1, tables).value;
    forall i ensures Holding(snapshot, delta[..n + 1], i) == if i in next then Some(next[i]) else None {
      LastNext(delta, n, i);
      assert Holding(snapshot, delta[..n], i) == if i in index then Some(index[i]) else None;
    }
  }

  lemma {:induction false} FoldReflects(index: Rows, snapshot: seq<Record>, delta: seq<Event>, tables: Tables,
      rows: seq<TableRow>, n: nat)
    requires n <= |delta| && Reflects(index, snapshot, []) && RowsSound(index, tables)
    requires Holds(tables, rows) && TablesSound(rows)
    ensures var done := Fold(index, None, delta[..n], 1, tables);
            && (done.Ok? <==> Rules(snapshot, delta, rows, n))
            && (done.Ok? ==> Reflects(done.value, snapshot, delta[..n]) && RowsSound(done.value, tables))
    decreases n
  {
    hide Step, Reflects, EventRule, Holds, TablesSound, RowsSound;
    if n == 0 {
      assert delta[..0] == [];
    } else {
      FoldReflects(index, snapshot, delta, tables, rows, n - 1);
      assert delta[..n] == delta[..n - 1] + [delta[n - 1]];
      FoldAppends(index, None, delta[..n - 1], delta[n - 1], 1, tables);
      hide Fold;
      if Fold(index, None, delta[..n - 1], 1, tables).Ok? {
        var next := Fold(index, None, delta[..n - 1], 1, tables).value;
        StepAllowed(next, snapshot, delta, tables, rows, n - 1);
        if Step(next, MarkBefore(delta, n - 1), delta[n - 1], n, tables).Ok? {
          StepReflects(next, snapshot, delta, tables, n - 1);
        }
      }
      if Fold(index, None, delta[..n], 1, tables).Ok? { FoldSound(index, None, delta[..n], 1, tables); }
    }
  }

  /** A packet is accepted if and only if its metadata is, its snapshot's records
      obey their tables under distinct identities with every continued record
      there, its events obey the rules one after the other, and after the last
      one every continued record is there. The records that come out are those
      the identities hold then. */
  lemma PacketAcceptedIff(snapshot: seq<Record>, delta: seq<Event>, metadata: Metadata)
    ensures ApplyPacket(snapshot, delta, metadata).Ok? <==>
              && MetadataRule(metadata)
              && RecordsRule(snapshot, metadata.tables) && Grounded(snapshot, [])
              && Rules(snapshot, delta, metadata.tables, |delta|) && Grounded(snapshot, delta)
    ensures ApplyPacket(snapshot, delta, metadata).Ok? ==>
              forall i ::
                Holding(snapshot, delta, i) == RowAt(ApplyPacket(snapshot, delta, metadata).value, i)
  {
    hide MetadataTables, Validate, Fold, NoOrphan, Holds, TablesSound, IsBase, RecordsRule, Grounded, Rules, RowsSound,
        Holding;
    MetadataAcceptedIff(metadata);
    if MetadataTables(metadata).Ok? {
      var tables := MetadataTables(metadata).value;
      SnapshotValidIff(snapshot, tables, metadata.tables);
      if Validate(snapshot, tables).Ok? {
        var index := Validate(snapshot, tables).value;
        FoldReflects(index, snapshot, delta, tables, metadata.tables, |delta|);
        assert delta[..|delta|] == delta;
        if Fold(index, None, delta, 1, tables).Ok? {
          OrphansAre(Fold(index, None, delta, 1, tables).value, tables, snapshot, delta);
        }
      }
    }
  }
}
