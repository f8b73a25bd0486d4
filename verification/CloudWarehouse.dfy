/** The destination table as the orchestrator queries it: the rows that carry one
    run and source, whatever else the table holds. */
module CloudWarehouse {
  import opened Common
  import opened CloudDocument
  import opened CloudTemplate
  import opened CloudAgreement
  import R = CloudReconcile

  function AsId(json: Json): Id { if json.JsonString? then Text(json.text) else Null }

  /** Every row of the table has the lineage columns. */
  predicate Stored(table: seq<Destination>) { forall k | 0 <= k < |table| :: LineageNames() <= table[k].Keys }

  /** A destination row as the warehouse aggregates it. */
  function WarehouseRow(out: Destination): R.Row
    requires LineageNames() <= out.Keys
  {
    R.Row(
      if out["_ztm_row_ordinal"].JsonInteger? then Some(out["_ztm_row_ordinal"].number) else None,
      R.Lineage(
        AsId(out["_ztm_plan_digest"]), AsId(out["_ztm_output_digest"]), AsId(out["_ztm_bundle_digest"]),
        AsId(out["_ztm_approval_digest"]), AsId(out["_ztm_policy_digest"]), AsId(out["_ztm_job_name"])))
  }

  /** The condition of the query. */
  predicate Matches(out: Destination, run: string, source: string)
    requires LineageNames() <= out.Keys
  {
    out["_ztm_run_id"] == JsonString(run) && out["_ztm_source_id"] == JsonString(source)
  }

  function Select(table: seq<Destination>, run: string, source: string): seq<R.Row>
    requires Stored(table)
  {
    if table == [] then []
    else (if Matches(table[0], run, source) then [WarehouseRow(table[0])] else []) + Select(table[1..], run, source)
  }

  /** What the query answers for a run and source. */
  function Observed(table: seq<Destination>, run: string, source: string): R.Observation
    requires Stored(table)
  {
    R.Observe(Select(table, run, source))
  }

  /** The rows that one run of the template writes. */
  function Loaded(d: Document, job: string): seq<Destination> {
    seq(|d.rows|, k requires 0 <= k < |d.rows| => DestinationRow(d, job, k))
  }

  predicate NoMatch(table: seq<Destination>, run: string, source: string)
    requires Stored(table)
  {
    forall k | 0 <= k < |table| :: !Matches(table[k], run, source)
  }

  // -------------------------------------------------------------- the query

  lemma {:induction false} SelectAdds(a: seq<Destination>, b: seq<Destination>, run: string, source: string)
    requires Stored(a) && Stored(b)
    ensures Stored(a + b) && Select(a + b, run, source) == Select(a, run, source) + Select(b, run, source)
  {
    hide Matches, WarehouseRow, LineageNames, Stored;
    StoredAdds(a, b);
    if a == [] {
      assert a + b == b;
    } else {
      StoredTail(a);
      StoredTail(a + b);
      SelectAdds(a[1..], b, run, source);
      assert (a + b)[1..] == a[1..] + b;
    }
  }

  lemma StoredAdds(a: seq<Destination>, b: seq<Destination>)
    requires Stored(a) && Stored(b)
    ensures Stored(a + b)
  {
    hide LineageNames;
  }

  lemma StoredTail(table: seq<Destination>)
    requires Stored(table) && table != []
    ensures LineageNames() <= table[0].Keys && Stored(table[1..])
  {
    hide LineageNames;
  }

  lemma {:induction false} SelectsNone(table: seq<Destination>, run: string, source: string)
    requires Stored(table)
    ensures Select(table, run, source) == [] <==> NoMatch(table, run, source)
  {
    hide Matches, WarehouseRow, LineageNames;
    if table == [] {
    } else {
      SelectsNone(table[1..], run, source);
      assert NoMatch(table, run, source) <==>
          !Matches(table[0], run, source) && NoMatch(table[1..], run, source) by {
        assert forall k | 0 <= k < |table[1..]| :: table[1..][k] == table[k + 1];
        assert forall k | 0 < k < |table| :: table[k] == table[1..][k - 1];
      }
    }
  }

  lemma {:induction false} SelectsAll(table: seq<Destination>, run: string, source: string)
    requires Stored(table) && forall k | 0 <= k < |table| :: Matches(table[k], run, source)
    ensures |Select(table, run, source)| == |table|
    ensures forall k | 0 <= k < |table| :: Select(table, run, source)[k] == WarehouseRow(table[k])
  {
    hide Matches, WarehouseRow, LineageNames;
    if table == [] {
    } else {
      SelectsAll(table[1..], run, source);
    }
  }

  // --------------------------------------------------------- reconciliation

  function LineageOf(h: Hashing, d: Document, p: Parameters): R.Lineage {
    R.Lineage(Text(p.plan), Text(h.rows(d.rows)), Text(p.bundle), Text(d.approval), Text(d.policy), Text(p.job))
  }

  /** The query finds every loaded row, as it was written. */
  lemma LoadedIsFound(lib: Library, h: Hashing, d: Document, p: Parameters)
    requires Accepted(lib, h, d, p)
    ensures Stored(Loaded(d, p.job))
    ensures var found := Select(Loaded(d, p.job), p.run, p.source);
            |found| == d.count && forall k | 0 <= k < d.count :: found[k] == R.Row(Some(k), LineageOf(h, d, p))
  {
    hide Accepted, DestinationRow, LineageNames;
    assert |d.rows| == d.count by { CountBinds(lib, h, d, p); }
    forall k | 0 <= k < |d.rows|
      ensures LineageNames() <= DestinationRow(d, p.job, k).Keys
      ensures Matches(DestinationRow(d, p.job, k), p.run, p.source)
      ensures WarehouseRow(DestinationRow(d, p.job, k)) == R.Row(Some(k), LineageOf(h, d, p))
    {
      LineageCellsAre(d, p.job, k);
      AcceptedBinds(lib, h, d, p);
    }
    SelectsAll(Loaded(d, p.job), p.run, p.source);
  }

  lemma CountBinds(lib: Library, h: Hashing, d: Document, p: Parameters)
    requires Accepted(lib, h, d, p)
    ensures |d.rows| == d.count
  {
    hide Bound, WellDeclared, Schema, IsJobName, ValidRows;
  }

  /** The rows of an accepted bundle, loaded once anywhere in the destination table,
      pass the orchestrator's reconciliation of the launch's run and source, if
      and only if there is at least one and no other row carries that run and source. */
  lemma LoadedReconciles(lib: Library, h: Hashing, d: Document, p: Parameters, before: seq<Destination>,
      after: seq<Destination>)
    requires Accepted(lib, h, d, p) && Stored(before) && Stored(after)
    ensures var table := before + Loaded(d, p.job) + after;
            && Stored(table)
            && (R.Reconciles(Observed(table, p.run, p.source), LineageOf(h, d, p), d.count) <==>
                  d.count >= 1 && NoMatch(before, p.run, p.source) && NoMatch(after, p.run, p.source))
  {
    hide Accepted, LineageNames, Matches, NoMatch, Loaded, R.OneRowEach, R.SingleLineage, R.RequiredColumns;
    LoadedIsFound(lib, h, d, p);
    SelectAdds(before, Loaded(d, p.job), p.run, p.source);
    SelectAdds(before + Loaded(d, p.job), after, p.run, p.source);
    SelectsNone(before, p.run, p.source);
    SelectsNone(after, p.run, p.source);
    hide Select, Stored;
    var first, found := Select(before, p.run, p.source), Select(Loaded(d, p.job), p.run, p.source);
    var last := Select(after, p.run, p.source);
    if first == [] && last == [] {
      assert first + found + last == found;
      ExactRows(found, LineageOf(h, d, p), d.count);
    }
  }

  lemma ExactRows(found: seq<R.Row>, lineage: R.Lineage, count: nat)
    requires R.Complete(lineage) && |found| == count && forall k | 0 <= k < count :: found[k] == R.Row(Some(k), lineage)
    ensures R.Reconciles(R.Observe(found), lineage, count) <==> count >= 1
  {
    hide R.Observe, R.Reconciles;
    R.ReconcilesIff(found, lineage, count);
  }
}
