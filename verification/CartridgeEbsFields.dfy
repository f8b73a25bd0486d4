/** What the flexfield resolution of the Oracle EBS compiler yields, told on the
    metadata rows themselves: which rows serve a segment, when a record
    resolves, and which attributes it then has. */
module CartridgeEbsFields {
  import opened Common
  import opened CartridgeEbs

  // --------------------------------------------------------------- metadata

  /** A row of the segment's application, table, context and name. */
  predicate Describes(row: MetaRow, r: Record, name: Id) {
    row.application == r.key.application && row.table == r.key.table && row.context == r.context && row.segment == name
  }

  /** A describing row of the record's metadata version that allows the value. */
  predicate Serves(row: MetaRow, r: Record, segment: Segment) {
    Describes(row, r, segment.name) && row.version == r.version && segment.value in row.allowed
  }

  predicate Same(a: MetaRow, b: MetaRow) {
    a.application == b.application && a.table == b.table && a.context == b.context && a.segment == b.segment
    && a.version == b.version
  }

  predicate RowSound(row: MetaRow) {
    && Filled(row.application) && Filled(row.table) && Filled(row.context) && Filled(row.segment)
    && Filled(row.version) && Filled(row.output)
    && row.isString && row.allowed != [] && DistinctIds(row.allowed)
  }

  predicate Sound(rows: seq<MetaRow>) {
    && (forall k | 0 <= k < |rows| :: RowSound(rows[k]))
    && (forall k, l | 0 <= k < l < |rows| :: !Same(rows[k], rows[l]))
  }

  /** `index` holds exactly the rows, each under its own key. */
  predicate Holds(index: Index, rows: seq<MetaRow>) {
    && (forall k | 0 <= k < |rows| ::
          KeyOf(rows[k]) in index && index[KeyOf(rows[k])] == Definition(rows[k].output, rows[k].allowed))
    && (forall key | key in index :: exists k :: 0 <= k < |rows| && KeyOf(rows[k]) == key)
  }

  lemma SameKey(a: MetaRow, b: MetaRow)
    ensures Same(a, b) <==> KeyOf(a) == KeyOf(b)
  {
  }

  lemma HoldsMore(index: Index, rows: seq<MetaRow>, row: MetaRow)
    requires Holds(index, rows) && Sound(rows) && RowSound(row) && KeyOf(row) !in index
    ensures Holds(index[KeyOf(row) := Definition(row.output, row.allowed)], rows + [row]) && Sound(rows + [row])
  {
    hide RowSound, KeyOf, Same;
    var more := rows + [row];
    assert more[|rows|] == row;
    forall k | 0 <= k < |rows| ensures !Same(rows[k], row) {
      SameKey(rows[k], row);
    }
    var next := index[KeyOf(row) := Definition(row.output, row.allowed)];
    forall key | key in next
      ensures exists k :: 0 <= k < |more| && KeyOf(more[k]) == key
    {
      if key in index {
        var k :| 0 <= k < |rows| && KeyOf(rows[k]) == key;
        assert more[k] == rows[k];
      } else {
        assert KeyOf(more[|rows|]) == key;
      }
    }
  }

  /** Indexing rows onto an index of earlier rows accepts exactly what is sound
      together with them, and ends with the index of all. */
  lemma {:induction false} IndexFromHolds(index: Index, done: seq<MetaRow>, rows: seq<MetaRow>)
    requires Holds(index, done) && Sound(done)
    ensures IndexFrom(index, rows).Ok? <==> Sound(done + rows)
    ensures IndexFrom(index, rows).Ok? ==> Holds(IndexFrom(index, rows).value, done + rows)
    decreases |rows|
  {
    hide Holds, Same, Sound;
    if rows == [] {
      assert done + rows == done;
    } else {
      var row := rows[0];
      assert done + rows == (done + [row]) + rows[1..];
      Refused(index, done, rows);
      if RowSound(row) && KeyOf(row) !in index {
        HoldsMore(index, done, row);
        IndexFromHolds(index[KeyOf(row) := Definition(row.output, row.allowed)], done + [row], rows[1..]);
      }
    }
  }

  lemma Refused(index: Index, done: seq<MetaRow>, rows: seq<MetaRow>)
    requires Holds(index, done) && rows != []
    ensures Sound(done + rows) ==> RowSound(rows[0]) && KeyOf(rows[0]) !in index
  {
    hide RowSound, KeyOf, Same;
    var all := done + rows;
    assert all[|done|] == rows[0];
    if Sound(all) && KeyOf(rows[0]) in index {
      var k :| 0 <= k < |done| && KeyOf(done[k]) == KeyOf(rows[0]);
      assert all[k] == done[k];
      SameKey(all[k], all[|done|]);
      assert false;
    }
  }

  /** Metadata is accepted if and only if there is some, every row is filled, of
      strings and with distinct allowed values, and no two rows are for one
      application, table, context, segment and version. */
  lemma MetadataAcceptedIff(rows: seq<MetaRow>)
    ensures MetadataIndex(rows).Ok? <==> rows != [] && Sound(rows)
    ensures MetadataIndex(rows).Ok? ==> Holds(MetadataIndex(rows).value, rows)
  {
    assert [] + rows == rows;
    IndexFromHolds(map[], [], rows);
  }

  // -------------------------------------------------------------- resolving

  /** The attributes are the outputs of the rows that serve the segments, each
      with its own segment's value. */
  predicate Attributed(attributes: map<Id, Id>, r: Record, segments: seq<Segment>, rows: seq<MetaRow>) {
    && (forall i, k | 0 <= i < |segments| && 0 <= k < |rows| && Serves(rows[k], r, segments[i]) ::
          rows[k].output in attributes && attributes[rows[k].output] == segments[i].value)
    && (forall output | output in attributes ::
          exists i, k :: 0 <= i < |segments| && 0 <= k < |rows| && Serves(rows[k], r, segments[i])
                         && rows[k].output == output)
  }

  predicate Served(r: Record, segment: Segment, rows: seq<MetaRow>) {
    exists k :: 0 <= k < |rows| && Serves(rows[k], r, segment)
  }

  /** Some row serves two segments with one output. */
  predicate Clash(r: Record, s: Segment, t: Segment, rows: seq<MetaRow>) {
    exists k, l :: 0 <= k < |rows| && 0 <= l < |rows| && Serves(rows[k], r, s) && Serves(rows[l], r, t)
                   && rows[k].output == rows[l].output
  }

  predicate Resolvable(r: Record, segments: seq<Segment>, rows: seq<MetaRow>) {
    && (forall i | 0 <= i < |segments| :: Served(r, segments[i], rows))
    && (forall i, j | 0 <= i < j < |segments| :: !Clash(r, segments[i], segments[j], rows))
  }

  /** Why a segment is refused. */
  function Blame(r: Record, segment: Segment, rows: seq<MetaRow>): Rejection {
    if forall k | 0 <= k < |rows| :: !Describes(rows[k], r, segment.name) then SegmentUnmapped
    else if forall k | 0 <= k < |rows| :: !(Describes(rows[k], r, segment.name) && rows[k].version == r.version)
    then VersionMismatch
    else if !Served(r, segment, rows) then SegmentValue
    else OutputAmbiguous
  }

  lemma KeyDescribes(row: MetaRow, r: Record, name: Id)
    ensures KeyOf(row) == MetaKeyFor(r, name) <==> Describes(row, r, name) && row.version == r.version
    ensures KeyOf(row).subject == MetaKeyFor(r, name).subject <==> Describes(row, r, name)
  {
  }

  /** Two rows that serve one segment are one row. */
  lemma OneServes(rows: seq<MetaRow>, r: Record, segment: Segment, k: nat, l: nat)
    requires Sound(rows) && k < |rows| && l < |rows| && Serves(rows[k], r, segment) && Serves(rows[l], r, segment)
    ensures k == l
  {
    assert Same(rows[k], rows[l]) && Same(rows[l], rows[k]);
    hide Same, RowSound, Serves;
  }

  /** The first segment is taken: served by one row, whose output is new. */
  lemma HeadTaken(r: Record, index: Index, rows: seq<MetaRow>, done: seq<Segment>, head: Segment,
      attributes: map<Id, Id>)
    requires Holds(index, rows) && Sound(rows) && Attributed(attributes, r, done, rows)
    requires var key := MetaKeyFor(r, head.name);
             key in index && head.value in index[key].allowed && index[key].output !in attributes
    ensures Served(r, head, rows) && (forall i | 0 <= i < |done| :: !Clash(r, done[i], head, rows))
    ensures Attributed(attributes[index[MetaKeyFor(r, head.name)].output := head.value], r, done + [head], rows)
  {
    hide Holds, Attributed, Sound, Served, Clash, Serves, Describes;
    var k := RowOfKey(r, index, rows, head);
    HeadAdds(r, rows, done, head, attributes, k);
  }

  /** The first segment is refused, for its own reason. */
  lemma HeadRefused(r: Record, index: Index, rows: seq<MetaRow>, done: seq<Segment>, segments: seq<Segment>,
      attributes: map<Id, Id>)
    requires Holds(index, rows) && Sound(rows) && segments != [] && Attributed(attributes, r, done, rows)
    requires var key := MetaKeyFor(r, segments[0].name);
             !(key in index && segments[0].value in index[key].allowed && index[key].output !in attributes)
    ensures !(Served(r, segments[0], rows) && forall i | 0 <= i < |done| :: !Clash(r, done[i], segments[0], rows))
    ensures ResolveSegments(r, index, segments, attributes) == Err(Blame(r, segments[0], rows))
  {
    hide Holds, Attributed, Sound, Served, Clash, Serves, Describes;
    var key, head := MetaKeyFor(r, segments[0].name), segments[0];
    if key in index {
      var k := RowOfKey(r, index, rows, head);
      if head.value in index[key].allowed {
        HeadClashes(r, rows, done, head, attributes, k);
      } else {
        HeadUnserved(r, index, rows, head);
      }
    } else {
      HeadUnknown(r, index, rows, head);
    }
  }

  lemma RowOfKey(r: Record, index: Index, rows: seq<MetaRow>, head: Segment) returns (k: nat)
    requires Holds(index, rows) && MetaKeyFor(r, head.name) in index
    ensures k < |rows| && Describes(rows[k], r, head.name) && rows[k].version == r.version
    ensures index[MetaKeyFor(r, head.name)] == Definition(rows[k].output, rows[k].allowed)
    ensures head.value in index[MetaKeyFor(r, head.name)].allowed ==> Serves(rows[k], r, head)
  {
    hide MetaKeyFor, KeyOf;
    var key := MetaKeyFor(r, head.name);
    k :| 0 <= k < |rows| && KeyOf(rows[k]) == key;
    KeyDescribes(rows[k], r, head.name);
  }

  lemma HeadUnserved(r: Record, index: Index, rows: seq<MetaRow>, head: Segment)
    requires Holds(index, rows) && MetaKeyFor(r, head.name) in index
    requires head.value !in index[MetaKeyFor(r, head.name)].allowed
    ensures !Served(r, head, rows)
  {
    hide MetaKeyFor, KeyOf;
    forall k | 0 <= k < |rows| ensures !Serves(rows[k], r, head) {
      KeyDescribes(rows[k], r, head.name);
    }
  }

  lemma HeadUnknown(r: Record, index: Index, rows: seq<MetaRow>, head: Segment)
    requires Holds(index, rows) && MetaKeyFor(r, head.name) !in index
    ensures !Served(r, head, rows)
    ensures forall k | 0 <= k < |rows| :: !(Describes(rows[k], r, head.name) && rows[k].version == r.version)
    ensures (exists key :: key in index && key.subject == MetaKeyFor(r, head.name).subject)
       <==> (exists k :: 0 <= k < |rows| && Describes(rows[k], r, head.name))
  {
    hide MetaKeyFor, KeyOf, Describes;
    forall k | 0 <= k < |rows| ensures KeyOf(rows[k]) != MetaKeyFor(r, head.name)
      ensures KeyOf(rows[k]).subject == MetaKeyFor(r, head.name).subject <==> Describes(rows[k], r, head.name)
      ensures !(Describes(rows[k], r, head.name) && rows[k].version == r.version)
    {
      KeyDescribes(rows[k], r, head.name);
    }
    if k :| 0 <= k < |rows| && Describes(rows[k], r, head.name) {
      assert KeyOf(rows[k]) in index;
    }
  }

  lemma HeadClashes(r: Record, rows: seq<MetaRow>, done: seq<Segment>, head: Segment, attributes: map<Id, Id>, k: nat)
    requires Attributed(attributes, r, done, rows)
    requires k < |rows| && Serves(rows[k], r, head) && rows[k].output in attributes
    ensures Served(r, head, rows) && exists i :: 0 <= i < |done| && Clash(r, done[i], head, rows)
  {
    hide Serves;
    var i, l :| 0 <= i < |done| && 0 <= l < |rows| && Serves(rows[l], r, done[i]) && rows[l].output == rows[k].output;
    assert Clash(r, done[i], head, rows);
  }

  lemma HeadAdds(r: Record, rows: seq<MetaRow>, done: seq<Segment>, head: Segment, attributes: map<Id, Id>, k: nat)
    requires Sound(rows) && Attributed(attributes, r, done, rows)
    requires k < |rows| && Serves(rows[k], r, head) && rows[k].output !in attributes
    ensures Served(r, head, rows) && forall i | 0 <= i < |done| :: !Clash(r, done[i], head, rows)
    ensures Attributed(attributes[rows[k].output := head.value], r, done + [head], rows)
  {
    hide Serves, Sound;
    forall l | 0 <= l < |rows| && Serves(rows[l], r, head) ensures l == k {
      OneServes(rows, r, head, k, l);
    }
    var all, next := done + [head], attributes[rows[k].output := head.value];
    assert all[|done|] == head;
    forall output | output in next
      ensures exists i, l :: 0 <= i < |all| && 0 <= l < |rows| && Serves(rows[l], r, all[i]) && rows[l].output == output
    {
      if output in attributes {
        var i, l :| 0 <= i < |done| && 0 <= l < |rows| && Serves(rows[l], r, done[i]) && rows[l].output == output;
        assert all[i] == done[i] && Serves(rows[l], r, all[i]);
      } else {
        assert Serves(rows[k], r, all[|done|]);
      }
    }
  }

  lemma ResolvableMore(r: Record, done: seq<Segment>, head: Segment, rows: seq<MetaRow>)
    requires Resolvable(r, done, rows) && Served(r, head, rows)
    requires forall i | 0 <= i < |done| :: !Clash(r, done[i], head, rows)
    ensures Resolvable(r, done + [head], rows)
  {
    hide Served, Clash;
  }

  lemma Unresolvable(r: Record, done: seq<Segment>, segments: seq<Segment>, rows: seq<MetaRow>)
    requires segments != []
    requires !(Served(r, segments[0], rows) && forall i | 0 <= i < |done| :: !Clash(r, done[i], segments[0], rows))
    ensures !Resolvable(r, done + segments, rows)
  {
    hide Served, Clash;
    var all := done + segments;
    assert all[|done|] == segments[0];
    if Served(r, segments[0], rows) {
      var i :| 0 <= i < |done| && Clash(r, done[i], segments[0], rows);
      assert all[i] == done[i] && Clash(r, all[i], all[|done|], rows);
    }
  }

  /** The segments up to one resolve after those `done`, with that one they do not,
      and it is to blame. */
  predicate FirstFailure(r: Record, done: seq<Segment>, segments: seq<Segment>, rows: seq<MetaRow>, error: Rejection) {
    exists i ::
      && 0 <= i < |segments| && Resolvable(r, done + segments[..i], rows)
      && !Resolvable(r, done + segments[..i + 1], rows) && error == Blame(r, segments[i], rows)
  }

  /** Resolving segments onto the attributes of earlier ones. */
  lemma {:induction false} SegmentsResolve(r: Record, index: Index, rows: seq<MetaRow>, done: seq<Segment>,
      segments: seq<Segment>, attributes: map<Id, Id>)
    requires Holds(index, rows) && Sound(rows) && Attributed(attributes, r, done, rows) && Resolvable(r, done, rows)
    ensures var result := ResolveSegments(r, index, segments, attributes);
            && (result.Ok? <==> Resolvable(r, done + segments, rows))
            && (result.Ok? ==> Attributed(result.value, r, done + segments, rows))
            && (result.Err? ==> FirstFailure(r, done, segments, rows, result.error))
    decreases |segments|
  {
    hide Holds, Sound, Attributed, Resolvable, Served, Clash, Blame;
    if segments == [] {
      assert done + segments == done;
    } else {
      var key, head := MetaKeyFor(r, segments[0].name), segments[0];
      if key in index && head.value in index[key].allowed && index[key].output !in attributes {
        HeadTaken(r, index, rows, done, head, attributes);
        ResolvableMore(r, done, head, rows);
        assert done + segments == (done + [head]) + segments[1..];
        SegmentsResolve(r, index, rows, done + [head], segments[1..], attributes[index[key].output := head.value]);
        if ResolveSegments(r, index, segments, attributes).Err? {
          FailsLater(r, done, segments, rows, ResolveSegments(r, index, segments, attributes).error);
        }
      } else {
        HeadRefused(r, index, rows, done, segments, attributes);
        Unresolvable(r, done, segments, rows);
        Unresolvable(r, done, [head], rows);
        assert done + segments[..0] == done && segments[..0 + 1] == [head];
      }
    }
  }

  lemma FailsLater(r: Record, done: seq<Segment>, segments: seq<Segment>, rows: seq<MetaRow>, error: Rejection)
    requires segments != [] && FirstFailure(r, done + [segments[0]], segments[1..], rows, error)
    ensures FirstFailure(r, done, segments, rows, error)
  {
    hide Resolvable, Blame;
    var head, rest := done + [segments[0]], segments[1..];
    var i :| 0 <= i < |rest| && Resolvable(r, head + rest[..i], rows) && !Resolvable(r, head + rest[..i + 1], rows)
      && error == Blame(r, rest[i], rows);
    assert head + rest[..i] == done + segments[..i + 1];
    assert head + rest[..i + 1] == done + segments[..(i + 1) + 1];
  }

  /** Nothing of the record is blank. */
  predicate Whole(r: Record) {
    Null !in {r.key.party, r.key.application, r.key.table, r.context, r.version, r.written}
  }

  /** A record resolves if and only if nothing of it is blank, the metadata is
      accepted, it has segments, every segment has a row of its application,
      table, context, name and version that allows its value, and no two
      segments share an output. Its attributes are then exactly those outputs,
      each with the value of its own segment. Otherwise its first segment that
      fails is to blame: unmapped, of another version, of a value that is not
      allowed, or of an output that an earlier segment has. */
  lemma ResolvesIff(r: Record, rows: seq<MetaRow>)
    ensures Resolve(r, rows).Ok? <==>
              Whole(r) && rows != [] && Sound(rows) && r.segments != [] && Resolvable(r, r.segments, rows)
    ensures Resolve(r, rows).Ok? ==> Attributed(Resolve(r, rows).value, r, r.segments, rows)
    ensures Resolve(r, rows).Err? && Whole(r) && rows != [] && Sound(rows) && r.segments != [] ==>
              FirstFailure(r, [], r.segments, rows, Resolve(r, rows).error)
  {
    hide RowSound, Same, Served, Clash, Blame, Holds, Sound, Resolvable, Attributed, FirstFailure, MetadataIndex;
    MetadataAcceptedIff(rows);
    if MetadataIndex(rows).Ok? {
      assert [] + r.segments == r.segments;
      NothingYet(r, rows);
      SegmentsResolve(r, MetadataIndex(rows).value, rows, [], r.segments, map[]);
    }
  }

  lemma NothingYet(r: Record, rows: seq<MetaRow>)
    ensures Attributed(map[], r, [], rows) && Resolvable(r, [], rows)
  {
  }
}
