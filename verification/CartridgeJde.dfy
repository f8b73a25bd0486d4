/** The JD Edwards journal: an ordered delta applied to a snapshot, its bronze
    projection and its reconciliation counts. Key tuples matter only by equality and
    by their sort order, which `rank` stands for; row contents are opaque. */
module CartridgeJde {
  import opened Common

  datatype Key = Key(rank: int)

  datatype Row = Row(key: Key, body: Id)

  datatype RawRow = GoodRow(row: Row) | BadRow

  datatype Operation = Insert | Update | Delete | UnknownOperation

  /** `shaped` is the closed field set; `key` is absent when malformed; `row` is
      None for the null that a delete must carry. */
  datatype Entry = Entry(shaped: bool, sequence: int, operation: Operation, key: Option<Key>, row: Option<RawRow>)

  datatype Rejection =
    | RowInvalid | SnapshotDuplicate | DeltaShape | DeltaSequence | DeltaOperation | KeyInvalid
    | DeleteRow | DeleteMissing | KeyMismatch | InsertExisting | UpdateMissing

  type Table = map<Key, Row>

  // ------------------------------------------------------------ applying

  function Load(current: Table, snapshot: seq<RawRow>): Result<Table, Rejection>
    decreases |snapshot|
  {
    if snapshot == [] then Ok(current)
    else if snapshot[0].BadRow? then Err(RowInvalid)
    else if snapshot[0].row.key in current then Err(SnapshotDuplicate)
    else Load(current[snapshot[0].row.key := snapshot[0].row], snapshot[1..])
  }

  function Step(current: Table, e: Entry, expected: int): Result<Table, Rejection> {
    if !e.shaped then Err(DeltaShape)
    else if e.sequence != expected then Err(DeltaSequence)
    else if e.operation.UnknownOperation? then Err(DeltaOperation)
    else if e.key.None? then Err(KeyInvalid)
    else
      var key := e.key.value;
      if e.operation.Delete? then
        if e.row.Some? then Err(DeleteRow)
        else if key !in current then Err(DeleteMissing)
        else Ok(current - {key})
      else if e.row.None? || e.row.value.BadRow? then Err(RowInvalid)
      else if e.row.value.row.key != key then Err(KeyMismatch)
      else if e.operation.Insert? && key in current then Err(InsertExisting)
      else if e.operation.Update? && key !in current then Err(UpdateMissing)
      else Ok(current[key := e.row.value.row])
  }

  function Fold(current: Table, delta: seq<Entry>, expected: int): Result<Table, Rejection>
    decreases |delta|
  {
    if delta == [] then Ok(current)
    else match Step(current, delta[0], expected)
      case Err(code) => Err(code)
      case Ok(next) => Fold(next, delta[1..], expected + 1)
  }

  function Merge(snapshot: seq<RawRow>, delta: seq<Entry>): Result<Table, Rejection> {
    match Load(map[], snapshot)
    case Err(code) => Err(code)
    case Ok(current) => Fold(current, delta, 1)
  }

  // -------------------------------------------------------------- sorting

  predicate Ascending(keys: seq<Key>) { forall i, j | 0 <= i < j < |keys| :: keys[i].rank < keys[j].rank }

  predicate IsLeast(s: set<Key>, k: Key) { k in s && forall x: Key | x in s :: k.rank <= x.rank }

  function Least(s: set<Key>): (k: Key)
    requires |s| > 0
    ensures IsLeast(s, k)
  {
    LeastExists(s);
    assert forall j, k | IsLeast(s, j) && IsLeast(s, k) :: j == k;
    var k :| IsLeast(s, k);
    k
  }

  lemma {:induction false} LeastExists(s: set<Key>)
    requires |s| > 0
    ensures exists k :: IsLeast(s, k)
    decreases |s|
  {
    var a :| a in s;
    var rest := s - {a};
    if |rest| == 0 {
      assert s == rest + {a};
      assert IsLeast(s, a);
    } else {
      LeastExists(rest);
      var b :| IsLeast(rest, b);
      assert forall x | x in s :: x == a || x in rest;
      assert IsLeast(s, if a.rank < b.rank then a else b);
    }
  }

  predicate Sorts(keys: seq<Key>, s: set<Key>) {
    Ascending(keys) && |keys| == |s| && (forall k | k in keys :: k in s) && forall k | k in s :: k in keys
  }

  lemma SortsWithLeast(s: set<Key>, k: Key, rest: seq<Key>)
    requires |s| > 0 && IsLeast(s, k) && Sorts(rest, s - {k})
    ensures Sorts([k] + rest, s)
  {
    var keys := [k] + rest;
    forall i, j | 0 <= i < j < |keys| ensures keys[i].rank < keys[j].rank {
      assert keys[j] == rest[j - 1] && rest[j - 1] in rest;
    }
    assert s == s - {k} + {k};
  }

  function SortedKeys(s: set<Key>): (keys: seq<Key>)
    ensures Sorts(keys, s)
    decreases |s|
  {
    if |s| == 0 then [] else
      var k := Least(s);
      var rest := SortedKeys(s - {k});
      SortsWithLeast(s, k, rest);
      [k] + rest
  }

  function RowsOf(t: Table, keys: seq<Key>): (rows: seq<Row>)
    requires forall i | 0 <= i < |keys| :: keys[i] in t
    ensures |rows| == |keys| && forall i | 0 <= i < |keys| :: rows[i] == t[keys[i]]
  {
    if keys == [] then [] else [t[keys[0]]] + RowsOf(t, keys[1..])
  }

  function Listed(t: Table): seq<Row> {
    var keys := SortedKeys(t.Keys);
    assert forall i | 0 <= i < |keys| :: keys[i] in keys;
    RowsOf(t, keys)
  }

  /** The current rows in key order. */
  function ApplyDelta(snapshot: seq<RawRow>, delta: seq<Entry>): Result<seq<Row>, Rejection> {
    match Merge(snapshot, delta)
    case Err(code) => Err(code)
    case Ok(t) => Ok(Listed(t))
  }

  // ---------------------------------------------------------- well-keyed

  predicate Keyed(t: Table) { forall k | k in t :: t[k].key == k }

  lemma {:induction false} LoadKeyed(current: Table, snapshot: seq<RawRow>)
    requires Keyed(current) && Load(current, snapshot).Ok?
    ensures Keyed(Load(current, snapshot).value) && |Load(current, snapshot).value| == |current| + |snapshot|
    decreases |snapshot|
  {
    if snapshot == [] {
    } else {
      var next := current[snapshot[0].row.key := snapshot[0].row];
      assert next.Keys == current.Keys + {snapshot[0].row.key};
      LoadKeyed(next, snapshot[1..]);
    }
  }

  lemma {:induction false} FoldKeyed(current: Table, delta: seq<Entry>, expected: int)
    requires Keyed(current) && Fold(current, delta, expected).Ok?
    ensures Keyed(Fold(current, delta, expected).value)
    decreases |delta|
  {
    if delta == [] {
    } else {
      FoldKeyed(Step(current, delta[0], expected).value, delta[1..], expected + 1);
    }
  }

  // ---------------------------------------------- batch equals incremental

  function Raw(rows: seq<Row>): seq<RawRow> { seq(|rows|, i requires 0 <= i < |rows| => GoodRow(rows[i])) }

  /** The part of a table under the given keys. */
  function Part(t: Table, keys: seq<Key>): Table
    requires forall i | 0 <= i < |keys| :: keys[i] in t
  {
    map k | k in keys && k in t :: t[k]
  }

  lemma RawRowsCons(t: Table, keys: seq<Key>)
    requires keys != [] && forall i | 0 <= i < |keys| :: keys[i] in t
    ensures Raw(RowsOf(t, keys)) == [GoodRow(t[keys[0]])] + Raw(RowsOf(t, keys[1..]))
  {
    assert RowsOf(t, keys) == [t[keys[0]]] + RowsOf(t, keys[1..]);
    hide RowsOf;
    RawCons(t[keys[0]], RowsOf(t, keys[1..]));
  }

  lemma RawCons(row: Row, rows: seq<Row>)
    ensures Raw([row] + rows) == [GoodRow(row)] + Raw(rows)
  {
  }

  lemma LoadCons(current: Table, row: Row, rest: seq<RawRow>)
    requires row.key !in current
    ensures Load(current, [GoodRow(row)] + rest) == Load(current[row.key := row], rest)
  {
    assert ([GoodRow(row)] + rest)[1..] == rest;
  }

  /** Loading sorted rows of a table gives the table back. */
  lemma {:induction false} LoadRows(t: Table, keys: seq<Key>, current: Table)
    requires Keyed(t) && Ascending(keys) && (forall i | 0 <= i < |keys| :: keys[i] in t && keys[i] !in current)
    ensures Load(current, Raw(RowsOf(t, keys))) == Ok(current + Part(t, keys))
    decreases |keys|
  {
    hide RowsOf;
    if keys == [] {
      assert current + Part(t, keys) == current;
    } else {
      var k, tail := keys[0], keys[1..];
      var next := current[k := t[k]];
      forall i | 0 <= i < |tail| ensures tail[i] in t && tail[i] !in next { assert tail[i] == keys[i + 1]; }
      RawRowsCons(t, keys);
      LoadCons(current, t[k], Raw(RowsOf(t, tail)));
      hide Load, Raw;
      LoadRows(t, tail, next);
      PartSplits(t, keys, current);
    }
  }

  lemma PartSplits(t: Table, keys: seq<Key>, current: Table)
    requires keys != [] && forall i | 0 <= i < |keys| :: keys[i] in t
    ensures current[keys[0] := t[keys[0]]] + Part(t, keys[1..]) == current + Part(t, keys)
  {
    assert forall k :: k in keys <==> k == keys[0] || k in keys[1..];
  }

  lemma PartIsAll(t: Table, keys: seq<Key>)
    requires forall k :: k in keys <==> k in t
    ensures (forall i | 0 <= i < |keys| :: keys[i] in t) && map[] + Part(t, keys) == t
  {
    forall i | 0 <= i < |keys| ensures keys[i] in t { assert keys[i] in keys; }
  }

  lemma ReloadsItself(t: Table)
    requires Keyed(t)
    ensures Load(map[], Raw(Listed(t))) == Ok(t)
  {
    var keys := SortedKeys(t.Keys);
    forall i | 0 <= i < |keys| ensures keys[i] in t { assert keys[i] in keys; }
    hide Load, SortedKeys;
    LoadRows(t, keys, map[]);
    PartIsAll(t, keys);
  }

  /** The same entries, their sequence numbers moved down. */
  function Renumbered(delta: seq<Entry>, shift: int): (out: seq<Entry>)
    ensures |out| == |delta| && forall i | 0 <= i < |delta| ::
            out[i] == delta[i].(sequence := delta[i].sequence - shift)
  {
    seq(|delta|, i requires 0 <= i < |delta| => delta[i].(sequence := delta[i].sequence - shift))
  }

  lemma {:induction false} FoldRenumbered(current: Table, delta: seq<Entry>, expected: int, shift: int)
    ensures Fold(current, Renumbered(delta, shift), expected - shift) == Fold(current, delta, expected)
    decreases |delta|
  {
    if delta == [] {
    } else {
      var step := Step(current, delta[0], expected);
      assert Renumbered(delta, shift)[1..] == Renumbered(delta[1..], shift);
      assert Step(current, Renumbered(delta, shift)[0], expected - shift) == step;
      if step.Ok? { FoldRenumbered(step.value, delta[1..], expected + 1, shift); }
    }
  }

  lemma {:induction false} FoldSplits(current: Table, d1: seq<Entry>, d2: seq<Entry>, expected: int)
    ensures Fold(current, d1 + d2, expected) ==
              match Fold(current, d1, expected)
              case Err(code) => Err(code)
              case Ok(mid) => Fold(mid, d2, expected + |d1|)
    decreases |d1|
  {
    if d1 == [] {
      assert d1 + d2 == d2;
    } else {
      assert (d1 + d2)[1..] == d1[1..] + d2;
      var step := Step(current, d1[0], expected);
      if step.Ok? { FoldSplits(step.value, d1[1..], d2, expected + 1); }
    }
  }

  /** Applying a journal in one go is applying its first part and then the rest,
      renumbered from one, to the rows that came out: same rows in the same order,
      and the same rejection where one fails. */
  lemma BatchIsIncremental(snapshot: seq<RawRow>, d1: seq<Entry>, d2: seq<Entry>)
    ensures ApplyDelta(snapshot, d1 + d2) ==
              match ApplyDelta(snapshot, d1)
              case Err(code) => Err(code)
              case Ok(rows) => ApplyDelta(Raw(rows), Renumbered(d2, |d1|))
  {
    var loaded := Load(map[], snapshot);
    hide Listed, Fold, Load;
    if loaded.Ok? {
      LoadKeyed(map[], snapshot);
      FoldSplits(loaded.value, d1, d2, 1);
      var mid := Fold(loaded.value, d1, 1);
      if mid.Ok? {
        FoldKeyed(loaded.value, d1, 1);
        ReloadsItself(mid.value);
        FoldRenumbered(mid.value, d2, 1 + |d1|, |d1|);
      }
    }
  }

  // ---------------------------------------------------------------- bronze

  datatype BronzeKind = SnapshotKind | JournalKind(operation: Operation)
  datatype Bronze = Bronze(sequence: int, kind: BronzeKind, key: Key, row: Option<Row>)

  function SnapshotBronze(rows: seq<RawRow>): seq<Bronze> {
    if rows == [] then [] else
      (if rows[0].GoodRow? then [Bronze(0, SnapshotKind, rows[0].row.key, Some(rows[0].row))] else [])
          + SnapshotBronze(rows[1..])
  }

  function JournalBronze(delta: seq<Entry>): seq<Bronze> {
    if delta == [] then [] else
      var e := delta[0];
      (if e.key.Some?
       then [Bronze(e.sequence, JournalKind(e.operation), e.key.value,
                    if e.row.Some? && e.row.value.GoodRow? then Some(e.row.value.row) else None)]
       else [])
      + JournalBronze(delta[1..])
  }

  function BuildBronze(snapshot: seq<RawRow>, delta: seq<Entry>): Result<seq<Bronze>, Rejection> {
    match ApplyDelta(snapshot, delta)
    case Err(code) => Err(code)
    case Ok(_) => Ok(SnapshotBronze(snapshot) + JournalBronze(delta))
  }

  /** Reading a bronze projection back: a row stands until it is replaced or deleted. */
  function Replay(current: Table, bronze: seq<Bronze>): Table
    decreases |bronze|
  {
    if bronze == [] then current
    else
      var b := bronze[0];
      Replay(if b.row.Some? then current[b.key := b.row.value] else current - {b.key}, bronze[1..])
  }

  lemma {:induction false} ReplayConcat(current: Table, a: seq<Bronze>, b: seq<Bronze>)
    ensures Replay(current, a + b) == Replay(Replay(current, a), b)
    decreases |a|
  {
    if a == [] {
      assert a + b == b;
    } else {
      assert (a + b)[1..] == a[1..] + b;
      var first := if a[0].row.Some? then current[a[0].key := a[0].row.value] else current - {a[0].key};
      ReplayConcat(first, a[1..], b);
    }
  }

  lemma {:induction false} ReplaySnapshot(current: Table, snapshot: seq<RawRow>)
    requires Load(current, snapshot).Ok?
    ensures Replay(current, SnapshotBronze(snapshot)) == Load(current, snapshot).value
    decreases |snapshot|
  {
    if snapshot == [] {
    } else {
      var row := snapshot[0].row;
      ReplayConcat(current, [Bronze(0, SnapshotKind, row.key, Some(row))], SnapshotBronze(snapshot[1..]));
      assert Replay(current, [Bronze(0, SnapshotKind, row.key, Some(row))]) == current[row.key := row];
      ReplaySnapshot(current[row.key := row], snapshot[1..]);
    }
  }

  lemma {:induction false} ReplayJournal(current: Table, delta: seq<Entry>, expected: int)
    requires Fold(current, delta, expected).Ok?
    ensures Replay(current, JournalBronze(delta)) == Fold(current, delta, expected).value
    decreases |delta|
  {
    if delta == [] {
    } else {
      var next := Step(current, delta[0], expected).value;
      var first := JournalBronze(delta)[..1];
      assert JournalBronze(delta) == first + JournalBronze(delta[1..]);
      ReplayConcat(current, first, JournalBronze(delta[1..]));
      assert first[1..] == [] && Replay(current, first) == next;
      ReplayJournal(next, delta[1..], expected + 1);
    }
  }

  /** Replaying the bronze projection rebuilds exactly the rows the journal leaves. */
  lemma BronzeRebuildsRows(snapshot: seq<RawRow>, delta: seq<Entry>)
    requires BuildBronze(snapshot, delta).Ok?
    ensures var t := Replay(map[], BuildBronze(snapshot, delta).value);
            ApplyDelta(snapshot, delta) == Ok(Listed(t))
  {
    var loaded := Load(map[], snapshot).value;
    ReplayConcat(map[], SnapshotBronze(snapshot), JournalBronze(delta));
    ReplaySnapshot(map[], snapshot);
    ReplayJournal(loaded, delta, 1);
  }

  // ---------------------------------------------------------------- counts

  function CountOf(delta: seq<Entry>, operation: Operation): nat {
    if delta == [] then 0 else (if delta[0].operation == operation then 1 else 0) + CountOf(delta[1..], operation)
  }

  lemma StepCounts(current: Table, e: Entry, expected: int)
    requires Step(current, e, expected).Ok?
    ensures |Step(current, e, expected).value| ==
              |current| + (if e.operation.Insert? then 1 else 0) - (if e.operation.Delete? then 1 else 0)
  {
    var next := Step(current, e, expected).value;
    var key := e.key.value;
    assert next.Keys == if e.operation.Delete? then current.Keys - {key} else current.Keys + {key};
  }

  lemma {:induction false} FoldCounts(current: Table, delta: seq<Entry>, expected: int)
    requires Fold(current, delta, expected).Ok?
    ensures |Fold(current, delta, expected).value| == |current| + CountOf(delta, Insert) - CountOf(delta, Delete)
    decreases |delta|
  {
    if delta == [] {
    } else {
      StepCounts(current, delta[0], expected);
      FoldCounts(Step(current, delta[0], expected).value, delta[1..], expected + 1);
    }
  }

  /** The final count is the snapshot's plus inserts minus deletes, and the three
      operations account for every entry of the journal. */
  lemma CountsReconcile(snapshot: seq<RawRow>, delta: seq<Entry>)
    requires ApplyDelta(snapshot, delta).Ok?
    ensures |ApplyDelta(snapshot, delta).value| == |snapshot| + CountOf(delta, Insert) - CountOf(delta, Delete)
    ensures |delta| == CountOf(delta, Insert) + CountOf(delta, Update) + CountOf(delta, Delete)
  {
    LoadKeyed(map[], snapshot);
    FoldCounts(Load(map[], snapshot).value, delta, 1);
    AllOperations(Load(map[], snapshot).value, delta, 1);
  }

  lemma {:induction false} AllOperations(current: Table, delta: seq<Entry>, expected: int)
    requires Fold(current, delta, expected).Ok?
    ensures |delta| == CountOf(delta, Insert) + CountOf(delta, Update) + CountOf(delta, Delete)
    decreases |delta|
  {
    if delta == [] {
    } else {
      AllOperations(Step(current, delta[0], expected).value, delta[1..], expected + 1);
    }
  }

  // ------------------------------------------------------------- the loops

  method Apply(snapshot: seq<RawRow>, delta: seq<Entry>) returns (result: Result<seq<Row>, Rejection>)
    ensures result == ApplyDelta(snapshot, delta)
  {
    var current: Table := map[];
    assert snapshot[0..] == snapshot;
    for i := 0 to |snapshot|
      invariant Load(map[], snapshot) == Load(current, snapshot[i..])
    {
      assert snapshot[i..][0] == snapshot[i] && snapshot[i..][1..] == snapshot[i + 1..];
      if snapshot[i].BadRow? { return Err(RowInvalid); }
      var row := snapshot[i].row;
      if row.key in current { return Err(SnapshotDuplicate); }
      current := current[row.key := row];
    }
    assert snapshot[|snapshot|..] == [];
    ghost var loaded := current;
    assert delta[0..] == delta;
    for i := 0 to |delta|
      invariant Fold(loaded, delta, 1) == Fold(current, delta[i..], i + 1)
    {
      assert delta[i..][0] == delta[i] && delta[i..][1..] == delta[i + 1..];
      var e := delta[i];
      if !e.shaped { return Err(DeltaShape); }
      if e.sequence != i + 1 { return Err(DeltaSequence); }
      if e.operation.UnknownOperation? { return Err(DeltaOperation); }
      if e.key.None? { return Err(KeyInvalid); }
      var key := e.key.value;
      if e.operation.Delete? {
        if e.row.Some? { return Err(DeleteRow); }
        if key !in current { return Err(DeleteMissing); }
        current := current - {key};
      } else {
        if e.row.None? || e.row.value.BadRow? { return Err(RowInvalid); }
        var row := e.row.value.row;
        if row.key != key { return Err(KeyMismatch); }
        if e.operation.Insert? {
          if key in current { return Err(InsertExisting); }
        } else if key !in current {
          return Err(UpdateMissing);
        }
        current := current[key := row];
      }
    }
    assert delta[|delta|..] == [];
    result := Ok(Listed(current));
  }

  lemma {:induction false} LoadedRowsGood(current: Table, snapshot: seq<RawRow>, i: nat)
    requires Load(current, snapshot).Ok? && i < |snapshot|
    ensures snapshot[i].GoodRow?
    decreases |snapshot|
  {
    if i > 0 {
      LoadedRowsGood(current[snapshot[0].row.key := snapshot[0].row], snapshot[1..], i - 1);
    }
  }

  lemma {:induction false} FoldedEntriesGood(current: Table, delta: seq<Entry>, expected: int, i: nat)
    requires Fold(current, delta, expected).Ok? && i < |delta|
    ensures delta[i].key.Some? && (delta[i].row.Some? ==> delta[i].row.value.GoodRow?)
    decreases |delta|
  {
    if i > 0 {
      FoldedEntriesGood(Step(current, delta[0], expected).value, delta[1..], expected + 1, i - 1);
    }
  }

  lemma SnapshotTail(snapshot: seq<RawRow>, i: nat)
    requires i < |snapshot| && snapshot[i].GoodRow?
    ensures SnapshotBronze(snapshot[i..])
         == [Bronze(0, SnapshotKind, snapshot[i].row.key, Some(snapshot[i].row))] + SnapshotBronze(snapshot[i + 1..])
  {
    assert snapshot[i..][0] == snapshot[i] && snapshot[i..][1..] == snapshot[i + 1..];
  }

  function EntryBronze(e: Entry): Bronze
    requires e.key.Some? && (e.row.Some? ==> e.row.value.GoodRow?)
  {
    Bronze(e.sequence, JournalKind(e.operation), e.key.value, if e.row.None? then None else Some(e.row.value.row))
  }

  lemma JournalTail(delta: seq<Entry>, i: nat)
    requires i < |delta| && delta[i].key.Some? && (delta[i].row.Some? ==> delta[i].row.value.GoodRow?)
    ensures JournalBronze(delta[i..]) == [EntryBronze(delta[i])] + JournalBronze(delta[i + 1..])
  {
    assert delta[i..][0] == delta[i] && delta[i..][1..] == delta[i + 1..];
  }

  lemma Regroup(front: seq<Bronze>, one: Bronze, back: seq<Bronze>)
    ensures front + ([one] + back) == (front + [one]) + back
  {}

  /** The projection is appended row by row and entry by entry, once the journal
      is known to apply. */
  method ProjectBronze(snapshot: seq<RawRow>, delta: seq<Entry>) returns (result: Result<seq<Bronze>, Rejection>)
    ensures result == BuildBronze(snapshot, delta)
  {
    hide SnapshotBronze, JournalBronze, Load, Fold, EntryBronze, Listed;
    var applied := Apply(snapshot, delta);
    if applied.Err? { return Err(applied.error); }
    var bronze: seq<Bronze> := [];
    NothingProjected(snapshot, delta);
    for i := 0 to |snapshot|
      invariant bronze + SnapshotBronze(snapshot[i..]) == SnapshotBronze(snapshot)
    {
      LoadedRowsGood(map[], snapshot, i);
      SnapshotTail(snapshot, i);
      var row := snapshot[i].row;
      Regroup(bronze, Bronze(0, SnapshotKind, row.key, Some(row)), SnapshotBronze(snapshot[i + 1..]));
      bronze := bronze + [Bronze(0, SnapshotKind, row.key, Some(row))];
    }
    for i := 0 to |delta|
      invariant bronze + JournalBronze(delta[i..]) == SnapshotBronze(snapshot) + JournalBronze(delta)
    {
      FoldedEntriesGood(Load(map[], snapshot).value, delta, 1, i);
      JournalTail(delta, i);
      Regroup(bronze, EntryBronze(delta[i]), JournalBronze(delta[i + 1..]));
      bronze := bronze + [EntryBronze(delta[i])];
    }
    assert bronze + JournalBronze(delta[|delta|..]) == bronze;
    return Ok(bronze);
  }

  lemma NothingProjected(snapshot: seq<RawRow>, delta: seq<Entry>)
    ensures [] + SnapshotBronze(snapshot[0..]) == SnapshotBronze(snapshot)
    ensures SnapshotBronze(snapshot[|snapshot|..]) == [] && JournalBronze(delta[|delta|..]) == []
    ensures JournalBronze(delta[0..]) == JournalBronze(delta)
  {
    assert snapshot[0..] == snapshot && delta[0..] == delta;
  }
}
