/** Exact reconciliation of a warehouse table from aggregates alone. */
module CloudReconcile {
  import opened Common

  /** The lineage columns of one destination row; `Null` is SQL NULL. */
  datatype Lineage = Lineage(plan: Id, output: Id, bundle: Id, approval: Id, policy: Id, job: Id)

  datatype Row = Row(ordinal: Option<int>, lineage: Lineage)

  datatype Observation = Observation(
    rowCount: int, distinctOrdinals: int, minimum: Option<int>, maximum: Option<int>,
    plans: set<Id>, outputs: set<Id>, bundles: set<Id>, approvals: set<Id>, policies: set<Id>, jobs: set<Id>)

  // ------------------------------------------------------------ aggregation

  function Ordinals(rows: seq<Row>): set<int> {
    set r | r in rows && r.ordinal.Some? :: r.ordinal.value
  }

  /** MIN and MAX skip NULLs and are NULL over no value. */
  function Minimum(rows: seq<Row>): Option<int> {
    if rows == [] then None
    else
      var rest := Minimum(rows[1..]);
      var first := rows[0].ordinal;
      if first.None? then rest else if rest.None? || first.value < rest.value then first else rest
  }

  function Maximum(rows: seq<Row>): Option<int> {
    if rows == [] then None
    else
      var rest := Maximum(rows[1..]);
      var first := rows[0].ordinal;
      if first.None? then rest else if rest.None? || first.value > rest.value then first else rest
  }

  /** ARRAY_AGG(DISTINCT ... IGNORE NULLS) of each lineage column. */
  function Observe(rows: seq<Row>): Observation {
    Observation(
      |rows|, |Ordinals(rows)|, Minimum(rows), Maximum(rows),
      set r | r in rows && Filled(r.lineage.plan) :: r.lineage.plan,
      set r | r in rows && Filled(r.lineage.output) :: r.lineage.output,
      set r | r in rows && Filled(r.lineage.bundle) :: r.lineage.bundle,
      set r | r in rows && Filled(r.lineage.approval) :: r.lineage.approval,
      set r | r in rows && Filled(r.lineage.policy) :: r.lineage.policy,
      set r | r in rows && Filled(r.lineage.job) :: r.lineage.job)
  }

  const EMPTY_OBSERVATION := Observation(0, 0, None, None, {}, {}, {}, {}, {}, {})

  predicate Reconciles(o: Observation, expected: Lineage, count: int) {
    && o.rowCount == count && o.distinctOrdinals == count
    && o.minimum == (if count != 0 then Some(0) else None)
    && o.maximum == (if count != 0 then Some(count - 1) else None)
    && o.plans == {expected.plan} && o.outputs == {expected.output} && o.bundles == {expected.bundle}
    && o.approvals == {expected.approval} && o.policies == {expected.policy} && o.jobs == {expected.job}
  }

  // ---------------------------------------------------------------- meaning

  /** Exactly one row for each ordinal 0..count-1, and no other row. */
  predicate OneRowEach(rows: seq<Row>, count: nat) {
    && |rows| == count
    && (forall i | 0 <= i < |rows| :: rows[i].ordinal.Some? && 0 <= rows[i].ordinal.value < count)
    && (forall i, j | 0 <= i < j < |rows| :: rows[i].ordinal != rows[j].ordinal)
  }

  predicate Complete(l: Lineage) {
    Filled(l.plan) && Filled(l.output) && Filled(l.bundle) && Filled(l.approval) && Filled(l.policy) && Filled(l.job)
  }

  predicate SingleLineage(rows: seq<Row>, expected: Lineage) {
    forall r | r in rows :: r.lineage == expected
  }

  /** The destination schema marks every lineage column as required. */
  predicate RequiredColumns(rows: seq<Row>) {
    forall r | r in rows :: Complete(r.lineage)
  }

  // ------------------------------------------------------------ pigeonhole

  function Below(n: nat): (s: set<int>)
    ensures |s| == n && forall k :: k in s <==> 0 <= k < n
  {
    if n == 0 then {} else Below(n - 1) + {n - 1}
  }

  /** A subset as large as its set is the set. */
  lemma FullSubset(s: set<int>, t: set<int>)
    requires s <= t && |s| == |t|
    ensures s == t
  {
    assert |t - s| == |t| - |s|;
    assert t == s + (t - s);
  }

  lemma {:induction false} OrdinalsBounded(rows: seq<Row>)
    ensures |Ordinals(rows)| <= |rows|
    decreases |rows|
  {
    if rows == [] {
      assert Ordinals(rows) == {};
    } else {
      OrdinalsBounded(rows[1..]);
      OrdinalsSplit(rows);
    }
  }

  lemma OrdinalsSplit(rows: seq<Row>)
    requires rows != []
    ensures Ordinals(rows) == Ordinals(rows[1..]) + (if rows[0].ordinal.Some? then {rows[0].ordinal.value} else {})
  {
    assert forall r :: r in rows <==> r == rows[0] || r in rows[1..];
  }

  /** As many distinct ordinals as rows: none is missing and none repeats. */
  lemma {:induction false} DistinctIfFull(rows: seq<Row>)
    requires |Ordinals(rows)| == |rows|
    ensures forall i | 0 <= i < |rows| :: rows[i].ordinal.Some?
    ensures forall i, j | 0 <= i < j < |rows| :: rows[i].ordinal != rows[j].ordinal
    decreases |rows|
  {
    if rows == [] {
    } else {
      OrdinalsSplit(rows);
      OrdinalsBounded(rows[1..]);
      DistinctIfFull(rows[1..]);
      forall j | 0 < j < |rows| ensures rows[j].ordinal.Some? && rows[0].ordinal != rows[j].ordinal {
        assert rows[j] == rows[1..][j - 1] && rows[1..][j - 1] in rows[1..];
      }
      forall i, j | 0 <= i < j < |rows| ensures rows[i].ordinal != rows[j].ordinal {
        if i > 0 { assert rows[i] == rows[1..][i - 1] && rows[j] == rows[1..][j - 1]; }
      }
    }
  }

  lemma {:induction false} FullIfDistinct(rows: seq<Row>)
    requires forall i | 0 <= i < |rows| :: rows[i].ordinal.Some?
    requires forall i, j | 0 <= i < j < |rows| :: rows[i].ordinal != rows[j].ordinal
    ensures |Ordinals(rows)| == |rows|
    decreases |rows|
  {
    if rows == [] {
      assert Ordinals(rows) == {};
    } else {
      FullIfDistinct(rows[1..]);
      OrdinalsSplit(rows);
      assert rows[0].ordinal.value !in Ordinals(rows[1..]);
    }
  }

  lemma {:induction false} MinimumIsLeast(rows: seq<Row>)
    ensures Minimum(rows).None? <==> Ordinals(rows) == {}
    ensures Minimum(rows).Some? ==>
            Minimum(rows).value in Ordinals(rows) && forall k | k in Ordinals(rows) :: Minimum(rows).value <= k
    decreases |rows|
  {
    if rows == [] {
    } else {
      MinimumIsLeast(rows[1..]);
      OrdinalsSplit(rows);
    }
  }

  lemma {:induction false} MaximumIsGreatest(rows: seq<Row>)
    ensures Maximum(rows).None? <==> Ordinals(rows) == {}
    ensures Maximum(rows).Some? ==>
            Maximum(rows).value in Ordinals(rows) && forall k | k in Ordinals(rows) :: k <= Maximum(rows).value
    decreases |rows|
  {
    if rows == [] {
    } else {
      MaximumIsGreatest(rows[1..]);
      OrdinalsSplit(rows);
    }
  }

  // ---------------------------------------------------------- the theorems

  /** Count, distinct count, minimum and maximum pin down the ordinals. */
  lemma OrdinalsExact(rows: seq<Row>, count: nat)
    requires count >= 1
    ensures OneRowEach(rows, count) <==>
              |rows| == count && |Ordinals(rows)| == count && Minimum(rows) == Some(0)
              && Maximum(rows) == Some(count - 1)
  {
    MinimumIsLeast(rows);
    MaximumIsGreatest(rows);
    if OneRowEach(rows, count) {
      FullIfDistinct(rows);
      assert Ordinals(rows) <= Below(count);
      FullSubset(Ordinals(rows), Below(count));
      assert 0 in Ordinals(rows) && count - 1 in Ordinals(rows);
    }
    if |rows| == count && |Ordinals(rows)| == count && Minimum(rows) == Some(0) && Maximum(rows) == Some(count - 1) {
      DistinctIfFull(rows);
      forall i | 0 <= i < |rows| ensures 0 <= rows[i].ordinal.value < count {
        assert rows[i] in rows;
        assert rows[i].ordinal.value in Ordinals(rows);
      }
    }
  }

  lemma LineageExact(rows: seq<Row>, expected: Lineage)
    requires rows != [] && RequiredColumns(rows)
    ensures var o := Observe(rows);
            SingleLineage(rows, expected) <==>
              && o.plans == {expected.plan} && o.outputs == {expected.output} && o.bundles == {expected.bundle}
              && o.approvals == {expected.approval} && o.policies == {expected.policy} && o.jobs == {expected.job}
  {
    hide Ordinals, Minimum, Maximum;
    var o := Observe(rows);
    assert rows[0] in rows;
    assert forall r | r in rows :: Complete(r.lineage);
    if o.plans == {expected.plan} && o.outputs == {expected.output} && o.bundles == {expected.bundle}
       && o.approvals == {expected.approval} && o.policies == {expected.policy} && o.jobs == {expected.job} {
      forall r | r in rows ensures r.lineage == expected {
        assert r.lineage.plan in o.plans && r.lineage.output in o.outputs && r.lineage.bundle in o.bundles;
        assert r.lineage.approval in o.approvals && r.lineage.policy in o.policies && r.lineage.job in o.jobs;
      }
    }
  }

  /** For at least one record, a table reconciles exactly when it holds one row
      per ordinal, all of the expected lineage; a bundle of no records never
      reconciles, not even with the empty table. */
  lemma ReconcilesIff(rows: seq<Row>, expected: Lineage, count: nat)
    requires RequiredColumns(rows)
    ensures Reconciles(Observe(rows), expected, count) <==>
            count >= 1 && OneRowEach(rows, count) && SingleLineage(rows, expected)
  {
    if count >= 1 {
      OrdinalsExact(rows, count);
      if |rows| == count { LineageExact(rows, expected); }
      hide Ordinals, Minimum, Maximum, SingleLineage, RequiredColumns;
    } else {
      assert expected.plan in {expected.plan};
      assert |rows| == 0 ==> rows == [] && Observe(rows).plans == {};
    }
  }

  /** A bundle of no records never reconciles, whatever the table holds. */
  lemma NoRecordsNeverReconcile(rows: seq<Row>, expected: Lineage)
    ensures !Reconciles(Observe(rows), expected, 0)
  {
    assert |rows| == 0 ==> rows == [] && Observe(rows).plans == {};
    assert expected.plan in {expected.plan};
  }

  lemma EmptyIff(rows: seq<Row>)
    ensures Observe(rows) == EMPTY_OBSERVATION <==> rows == []
  {
    if rows == [] {
      MinimumIsLeast(rows);
      MaximumIsGreatest(rows);
    }
  }

  function Copies(rows: seq<Row>, k: nat): seq<Row> { if k == 0 then [] else rows + Copies(rows, k - 1) }

  lemma {:induction false} CopiesFacts(rows: seq<Row>, k: nat)
    ensures |Copies(rows, k)| == k * |rows| && forall r | r in Copies(rows, k) :: r in rows
  {
    if k == 0 {
    } else {
      CopiesFacts(rows, k - 1);
      assert k * |rows| == |rows| + (k - 1) * |rows|;
    }
  }

  /** A second whole copy is never taken for the first: of an exact table with at
      least one record, k copies reconcile exactly when k is one. */
  lemma CopiesReconcileIffOne(rows: seq<Row>, expected: Lineage, count: nat, k: nat)
    requires count >= 1 && RequiredColumns(rows) && OneRowEach(rows, count) && SingleLineage(rows, expected)
    ensures Reconciles(Observe(Copies(rows, k)), expected, count) <==> k == 1
  {
    CopiesFacts(rows, k);
    ReconcilesIff(Copies(rows, k), expected, count);
    if k == 1 {
      assert Copies(rows, 1) == rows + Copies(rows, 0) == rows;
    } else {
      Multiples(k, count);
    }
  }

  lemma Multiples(k: nat, count: nat)
    requires count >= 1 && k != 1
    ensures k * count != count
  {
    if k >= 2 { assert k * count >= 2 * count; }
  }
}
