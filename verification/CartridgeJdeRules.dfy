/** The JD Edwards journal told entry by entry: which journals apply, and what
    each key is left with, from the snapshot rows and the entries alone. */
module CartridgeJdeRules {
  import opened Common
  import opened CartridgeJde

  // ------------------------------------------------------------- what is there

  /** The snapshot's row of a key. */
  function Start(snapshot: seq<RawRow>, key: Key): Option<Row> {
    if snapshot == [] then None
    else
      var last := snapshot[|snapshot| - 1];
      if last.GoodRow? && last.row.key == key then Some(last.row) else Start(snapshot[..|snapshot| - 1], key)
  }

  /** The last entry of a key. */
  function LastEntry(delta: seq<Entry>, key: Key): Option<Entry> {
    if delta == [] then None
    else if delta[|delta| - 1].key == Some(key) then Some(delta[|delta| - 1])
    else LastEntry(delta[..|delta| - 1], key)
  }

  /** What a key holds after some entries: what its last entry wrote, nothing if
      that was a delete, and the snapshot's row if there was none. */
  function Holding(snapshot: seq<RawRow>, delta: seq<Entry>, key: Key): Option<Row> {
    match LastEntry(delta, key)
    case None => Start(snapshot, key)
    case Some(e) => if e.operation != Delete && e.row.Some? && e.row.value.GoodRow? then Some(e.row.value.row) else None
  }

  // ------------------------------------------------------------------- rules

  predicate SnapshotRule(snapshot: seq<RawRow>) {
    && (forall i | 0 <= i < |snapshot| :: snapshot[i].GoodRow?)
    && (forall i, j | 0 <= i < j < |snapshot| && snapshot[i].GoodRow? && snapshot[j].GoodRow? ::
          snapshot[i].row.key != snapshot[j].row.key)
  }

  /** The entry at place `i`: numbered from one, an insert of a key that holds
      nothing, or an update or a delete of one that holds a row. */
  predicate EntryRule(snapshot: seq<RawRow>, delta: seq<Entry>, i: nat)
    requires i < |delta|
  {
    var e := delta[i];
    && e.shaped && e.sequence == i + 1 && e.key.Some?
    && e.operation in {Insert, Update, Delete}
    && (e.operation == Insert <==> Holding(snapshot, delta[..i], e.key.value) == None)
    && (if e.operation == Delete then e.row == None
        else e.row.Some? && e.row.value.GoodRow? && e.row.value.row.key == e.key.value)
  }

  predicate Rules(snapshot: seq<RawRow>, delta: seq<Entry>, n: nat)
    requires n <= |delta|
  {
    forall i | 0 <= i < n :: EntryRule(snapshot, delta, i)
  }

  /** The table holds under each key what the entries left there. */
  ghost predicate Reflects(t: Table, snapshot: seq<RawRow>, delta: seq<Entry>) {
    forall key :: Holding(snapshot, delta, key) == if key in t then Some(t[key]) else None
  }

  // ---------------------------------------------------------------- snapshot

  lemma LoadAppends(current: Table, snapshot: seq<RawRow>, raw: RawRow)
    ensures Load(current, snapshot + [raw]) ==
              match Load(current, snapshot)
              case Err(code) => Err(code)
              case Ok(t) => Load(t, [raw])
    decreases |snapshot|
  {
    if snapshot == [] {
      assert [] + [raw] == [raw];
    } else {
      assert (snapshot + [raw])[1..] == snapshot[1..] + [raw];
      if snapshot[0].GoodRow? && snapshot[0].row.key !in current {
        LoadAppends(current[snapshot[0].row.key := snapshot[0].row], snapshot[1..], raw);
      }
    }
  }

  /** The table of a loaded snapshot. */
  predicate Loaded(t: Table, snapshot: seq<RawRow>) {
    && (forall i | 0 <= i < |snapshot| :: snapshot[i].GoodRow? && snapshot[i].row.key in t)
    && (forall key | key in t :: Start(snapshot, key) == Some(t[key]))
  }

  lemma {:induction false} StartIsRow(snapshot: seq<RawRow>, key: Key)
    ensures Start(snapshot, key).Some? ==>
              exists i :: 0 <= i < |snapshot| && snapshot[i].GoodRow? && snapshot[i].row.key == key
    ensures Start(snapshot, key).None? ==>
              forall i | 0 <= i < |snapshot| && snapshot[i].GoodRow? :: snapshot[i].row.key != key
    decreases |snapshot|
  {
    if snapshot == [] {
    } else {
      StartIsRow(snapshot[..|snapshot| - 1], key);
    }
  }

  lemma StartMore(front: seq<RawRow>, row: Row, key: Key)
    ensures Start(front + [GoodRow(row)], key) == if row.key == key then Some(row) else Start(front, key)
  {
    assert (front + [GoodRow(row)])[..|front|] == front;
  }

  lemma LoadedMore(t: Table, front: seq<RawRow>, row: Row)
    requires Loaded(t, front) && row.key !in t
    ensures Loaded(t[row.key := row], front + [GoodRow(row)])
  {
    hide Start;
    var next, all := t[row.key := row], front + [GoodRow(row)];
    forall key | key in next ensures Start(all, key) == Some(next[key]) {
      StartMore(front, row, key);
    }
  }

  lemma RuleMore(t: Table, front: seq<RawRow>, last: RawRow)
    requires Loaded(t, front) && SnapshotRule(front)
    ensures SnapshotRule(front + [last]) <==> last.GoodRow? && last.row.key !in t
  {
    var all := front + [last];
    assert all[|front|] == last;
    if last.GoodRow? && last.row.key in t {
      StartIsRow(front, last.row.key);
      var i :| 0 <= i < |front| && front[i].GoodRow? && front[i].row.key == last.row.key;
      assert all[i] == front[i];
    }
  }

  lemma RuleLess(front: seq<RawRow>, last: RawRow)
    requires SnapshotRule(front + [last])
    ensures SnapshotRule(front)
  {
    var all := front + [last];
    assert forall i | 0 <= i < |front| :: front[i] == all[i];
  }

  lemma {:induction false} SnapshotLoads(snapshot: seq<RawRow>)
    ensures Load(map[], snapshot).Ok? <==> SnapshotRule(snapshot)
    ensures Load(map[], snapshot).Ok? ==> Loaded(Load(map[], snapshot).value, snapshot)
    decreases |snapshot|
  {
    if snapshot == [] {
    } else {
      var front, last := snapshot[..|snapshot| - 1], snapshot[|snapshot| - 1];
      assert snapshot == front + [last];
      SnapshotLoads(front);
      LoadAppends(map[], front, last);
      if Load(map[], front).Ok? {
        LoadOne(Load(map[], front).value, last);
        hide Load, SnapshotRule, Loaded;
        RuleMore(Load(map[], front).value, front, last);
        if last.GoodRow? && last.row.key !in Load(map[], front).value {
          LoadedMore(Load(map[], front).value, front, last.row);
        }
      } else if SnapshotRule(snapshot) {
        RuleLess(front, last);
      }
    }
  }

  lemma LoadOne(t: Table, raw: RawRow)
    ensures Load(t, [raw]).Ok? <==> raw.GoodRow? && raw.row.key !in t
    ensures Load(t, [raw]).Ok? ==> Load(t, [raw]).value == t[raw.row.key := raw.row]
  {
    assert [raw][1..] == [];
  }

  lemma LoadReflects(snapshot: seq<RawRow>)
    ensures Load(map[], snapshot).Ok? <==> SnapshotRule(snapshot)
    ensures Load(map[], snapshot).Ok? ==> Reflects(Load(map[], snapshot).value, snapshot, [])
  {
    hide Load, SnapshotRule, Start;
    SnapshotLoads(snapshot);
    if Load(map[], snapshot).Ok? {
      var t := Load(map[], snapshot).value;
      forall key ensures Holding(snapshot, [], key) == if key in t then Some(t[key]) else None {
        StartIsRow(snapshot, key);
      }
    }
  }

  // ----------------------------------------------------------------- journal

  lemma HoldingNext(snapshot: seq<RawRow>, delta: seq<Entry>, n: nat, key: Key)
    requires n < |delta|
    ensures LastEntry(delta[..n + 1], key)
         == if delta[n].key == Some(key) then Some(delta[n]) else LastEntry(delta[..n], key)
  {
    assert delta[..n + 1][..n] == delta[..n];
  }

  lemma StepReflects(t: Table, snapshot: seq<RawRow>, delta: seq<Entry>, n: nat)
    requires n < |delta| && Reflects(t, snapshot, delta[..n])
    ensures Step(t, delta[n], n + 1).Ok? <==> EntryRule(snapshot, delta, n)
    ensures Step(t, delta[n], n + 1).Ok? ==> Reflects(Step(t, delta[n], n + 1).value, snapshot, delta[..n + 1])
  {
    hide LastEntry, Start;
    var e := delta[n];
    if e.key.Some? {
      assert Holding(snapshot, delta[..n], e.key.value) == if e.key.value in t then Some(t[e.key.value]) else None;
    }
    if Step(t, e, n + 1).Ok? {
      var next := Step(t, e, n + 1).value;
      forall key ensures Holding(snapshot, delta[..n + 1], key) == if key in next then Some(next[key]) else None {
        HoldingNext(snapshot, delta, n, key);
      }
    }
  }

  lemma {:induction false} FoldReflects(t: Table, snapshot: seq<RawRow>, delta: seq<Entry>, n: nat)
    requires n <= |delta| && Reflects(t, snapshot, [])
    ensures Fold(t, delta[..n], 1).Ok? <==> Rules(snapshot, delta, n)
    ensures Fold(t, delta[..n], 1).Ok? ==> Reflects(Fold(t, delta[..n], 1).value, snapshot, delta[..n])
    decreases n
  {
    hide Step, Reflects, EntryRule;
    if n == 0 {
      assert delta[..0] == [];
    } else {
      FoldReflects(t, snapshot, delta, n - 1);
      assert delta[..n] == delta[..n - 1] + [delta[n - 1]];
      FoldSplits(t, delta[..n - 1], [delta[n - 1]], 1);
      if Fold(t, delta[..n - 1], 1).Ok? {
        StepReflects(Fold(t, delta[..n - 1], 1).value, snapshot, delta, n - 1);
        OneStep(Fold(t, delta[..n - 1], 1).value, delta[n - 1], n);
      }
    }
  }

  lemma OneStep(t: Table, e: Entry, expected: int)
    ensures Fold(t, [e], expected) == Step(t, e, expected)
  {
    hide Step;
    assert [e][1..] == [];
    if Step(t, e, expected).Ok? {
      assert Fold(Step(t, e, expected).value, [], expected + 1) == Step(t, e, expected);
    }
  }

  /** A journal applies if and only if the snapshot's rows are well formed and of
      distinct keys, and its entries are numbered from one without a gap, each
      an insert of a key that then holds nothing or an update or delete of one
      that then holds a row. The rows that come out are in rising key order, one
      for each key that holds a row after the last entry, and exactly that row. */
  lemma JournalAppliesIff(snapshot: seq<RawRow>, delta: seq<Entry>)
    ensures ApplyDelta(snapshot, delta).Ok? <==> SnapshotRule(snapshot) && Rules(snapshot, delta, |delta|)
    ensures ApplyDelta(snapshot, delta).Ok? ==>
              var rows := ApplyDelta(snapshot, delta).value;
              && (forall i, j | 0 <= i < j < |rows| :: rows[i].key.rank < rows[j].key.rank)
              && (forall i | 0 <= i < |rows| :: Holding(snapshot, delta, rows[i].key) == Some(rows[i]))
              && (forall key | Holding(snapshot, delta, key).Some? :: Holding(snapshot, delta, key).value in rows)
  {
    hide Load, Fold, Rules, SnapshotRule, Holding, Listed;
    LoadReflects(snapshot);
    if Load(map[], snapshot).Ok? {
      var t := Load(map[], snapshot).value;
      FoldReflects(t, snapshot, delta, |delta|);
      assert delta[..|delta|] == delta;
      if Fold(t, delta, 1).Ok? {
        LoadKeyed(map[], snapshot);
        FoldKeyed(t, delta, 1);
        ListedInOrder(Fold(t, delta, 1).value);
      }
    }
  }

  lemma ListedInOrder(t: Table)
    requires Keyed(t)
    ensures var rows := Listed(t);
            && (forall i, j | 0 <= i < j < |rows| :: rows[i].key.rank < rows[j].key.rank)
            && (forall i | 0 <= i < |rows| :: rows[i].key in t && t[rows[i].key] == rows[i])
            && (forall key | key in t :: t[key] in rows)
  {
    hide SortedKeys;
    var keys := SortedKeys(t.Keys);
    assert forall i | 0 <= i < |keys| :: keys[i] in keys;
    var rows := RowsOf(t, keys);
    hide RowsOf;
    forall key | key in t ensures t[key] in rows {
      var i :| 0 <= i < |keys| && keys[i] == key;
      assert rows[i] == t[key];
    }
  }

  // ------------------------------------------------------------------ bronze

  lemma {:induction false} SnapshotBronzeLists(snapshot: seq<RawRow>)
    requires forall i | 0 <= i < |snapshot| :: snapshot[i].GoodRow?
    ensures |SnapshotBronze(snapshot)| == |snapshot|
    ensures forall i | 0 <= i < |snapshot| ::
              SnapshotBronze(snapshot)[i] == Bronze(0, SnapshotKind, snapshot[i].row.key, Some(snapshot[i].row))
    decreases |snapshot|
  {
    if snapshot == [] {
    } else {
      SnapshotBronzeLists(snapshot[1..]);
      assert SnapshotBronze(snapshot)[1..] == SnapshotBronze(snapshot[1..]);
    }
  }

  lemma {:induction false} JournalBronzeLists(delta: seq<Entry>)
    requires forall i | 0 <= i < |delta| ::
               delta[i].key.Some? && (delta[i].row.Some? ==> delta[i].row.value.GoodRow?)
    ensures |JournalBronze(delta)| == |delta|
    ensures forall i | 0 <= i < |delta| :: JournalBronze(delta)[i] == EntryBronze(delta[i])
    decreases |delta|
  {
    hide EntryBronze;
    if delta == [] {
    } else {
      JournalBronzeLists(delta[1..]);
      JournalTail(delta, 0);
      assert delta[0..] == delta;
    }
  }

  /** The bronze projection of an accepted journal is one line for each snapshot row
      and then one for each entry, in order and numbered from one: its operation,
      its key and, unless it is a delete, its row. */
  lemma BronzeLists(snapshot: seq<RawRow>, delta: seq<Entry>)
    requires BuildBronze(snapshot, delta).Ok?
    ensures SnapshotRule(snapshot) && Rules(snapshot, delta, |delta|)
    ensures var bronze := BuildBronze(snapshot, delta).value;
            && |bronze| == |snapshot| + |delta|
            && (forall i | 0 <= i < |snapshot| ::
                  bronze[i] == Bronze(0, SnapshotKind, snapshot[i].row.key, Some(snapshot[i].row)))
            && (forall i | 0 <= i < |delta| ::
                  EntryRule(snapshot, delta, i) &&
                  bronze[|snapshot| + i] == Bronze(i + 1, JournalKind(delta[i].operation), delta[i].key.value,
                    if delta[i].operation == Delete then None else Some(delta[i].row.value.row)))
  {
    hide Holding, ApplyDelta, SnapshotBronze, JournalBronze;
    JournalAppliesIff(snapshot, delta);
    forall i | 0 <= i < |delta|
      ensures EntryRule(snapshot, delta, i)
      ensures delta[i].key.Some? && (delta[i].row.Some? ==> delta[i].row.value.GoodRow?)
    {
      assert EntryRule(snapshot, delta, i);
    }
    SnapshotBronzeLists(snapshot);
    JournalBronzeLists(delta);
  }
}
