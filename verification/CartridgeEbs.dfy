/** The Oracle EBS fixture compiler: descriptive flexfields resolved by metadata,
    a snapshot and a timestamped delta folded into current rows. Timestamps come
    as written and as parsed; two spellings may mean the same instant. */
module CartridgeEbs {
  import opened Common

  datatype RecordKey = RecordKey(application: Id, table: Id, party: Id)

  /** `segments` is the segment dictionary in name order. */
  datatype Record = Record(
    key: RecordKey, context: Id, version: Id, written: Id, instant: int, segments: seq<Segment>)

  datatype Segment = Segment(name: Id, value: Id)

  datatype MetaRow = MetaRow(
    application: Id, table: Id, context: Id, segment: Id, version: Id, output: Id, isString: bool, allowed: seq<Id>)

  datatype Subject = Subject(application: Id, table: Id, context: Id, segment: Id)
  datatype MetaKey = MetaKey(subject: Subject, version: Id)
  datatype Definition = Definition(output: Id, allowed: seq<Id>)

  type Index = map<MetaKey, Definition>

  datatype Rejection =
    | MetadataEmpty | MetadataField | ContextAmbiguous | MetadataType | MetadataAllowed
    | RecordField | SegmentsShape | VersionMismatch | SegmentUnmapped | SegmentValue | OutputAmbiguous
    | SnapshotDuplicate | NotAfterWatermark | DeltaDuplicate | NotAfterCurrent | DeletePayload
    | DeleteMissing | DeleteIdentity | DeltaOperation

  // -------------------------------------------------------------- metadata

  function KeyOf(row: MetaRow): MetaKey {
    MetaKey(Subject(row.application, row.table, row.context, row.segment), row.version)
  }

  predicate DistinctIds(ids: seq<Id>) { forall i, j | 0 <= i < j < |ids| :: ids[i] != ids[j] }

  function IndexFrom(index: Index, rows: seq<MetaRow>): Result<Index, Rejection>
    decreases |rows|
  {
    if rows == [] then Ok(index)
    else
      var row := rows[0];
      if !(Filled(row.application) && Filled(row.table) && Filled(row.context) && Filled(row.segment)
           && Filled(row.version)) then Err(MetadataField)
      else if KeyOf(row) in index then Err(ContextAmbiguous)
      else if !row.isString then Err(MetadataType)
      else if row.allowed == [] || !DistinctIds(row.allowed) then Err(MetadataAllowed)
      else if !Filled(row.output) then Err(MetadataField)
      else IndexFrom(index[KeyOf(row) := Definition(row.output, row.allowed)], rows[1..])
  }

  function MetadataIndex(rows: seq<MetaRow>): Result<Index, Rejection> {
    if rows == [] then Err(MetadataEmpty) else IndexFrom(map[], rows)
  }

  // ------------------------------------------------------------- resolving

  predicate Shaped(r: Record) {
    Filled(r.key.party) && Filled(r.key.application) && Filled(r.key.table) && Filled(r.version) && Filled(r.context)
    && Filled(r.written)
  }

  function MetaKeyFor(r: Record, segment: Id): MetaKey {
    MetaKey(Subject(r.key.application, r.key.table, r.context, segment), r.version)
  }

  function ResolveSegments(r: Record, index: Index, segments: seq<Segment>,
      attributes: map<Id, Id>): Result<map<Id, Id>, Rejection>
    decreases |segments|
  {
    if segments == [] then Ok(attributes)
    else
      var key := MetaKeyFor(r, segments[0].name);
      if key !in index then
        if exists k :: k in index && k.subject == key.subject then Err(VersionMismatch) else Err(SegmentUnmapped)
      else if segments[0].value !in index[key].allowed then Err(SegmentValue)
      else if index[key].output in attributes then Err(OutputAmbiguous)
      else ResolveSegments(r, index, segments[1..], attributes[index[key].output := segments[0].value])
  }

  /** The attributes of a record; its bronze row is the record itself. */
  function Resolve(r: Record, metadata: seq<MetaRow>): Result<map<Id, Id>, Rejection> {
    if !Shaped(r) then Err(RecordField)
    else if r.segments == [] then Err(SegmentsShape)
    else match MetadataIndex(metadata)
      case Err(code) => Err(code)
      case Ok(index) => ResolveSegments(r, index, r.segments, map[])
  }

  // ------------------------------------------------------------- compiling

  datatype Operation = Upsert | Delete | UnknownOperation

  datatype Event = Event(operation: Operation, record: Record)

  datatype Versioned = Versioned(key: RecordKey, written: Id)

  datatype State = State(
    current: map<RecordKey, Record>, latest: map<RecordKey, int>, seen: set<Versioned>, upserts: nat, deletes: nat)

  const EMPTY := State(map[], map[], {}, 0, 0)

  function Load(s: State, snapshot: seq<Record>, metadata: seq<MetaRow>): Result<State, Rejection>
    decreases |snapshot|
  {
    if snapshot == [] then Ok(s)
    else
      var r := snapshot[0];
      match Resolve(r, metadata)
      case Err(code) => Err(code)
      case Ok(_) =>
        if r.key in s.current then Err(SnapshotDuplicate)
        else Load(s.(current := s.current[r.key := r], latest := s.latest[r.key := r.instant]), snapshot[1..], metadata)
  }

  function Step(s: State, e: Event, metadata: seq<MetaRow>, watermark: int): Result<State, Rejection> {
    var r := e.record;
    var seen := s.seen + {Versioned(r.key, r.written)};
    if !Shaped(r) then Err(RecordField)
    else if r.segments == [] && !e.operation.Delete? then Err(SegmentsShape)
    else if r.instant <= watermark then Err(NotAfterWatermark)
    else if Versioned(r.key, r.written) in s.seen then Err(DeltaDuplicate)
    else if r.instant <= (if r.key in s.latest then s.latest[r.key] else watermark) then Err(NotAfterCurrent)
    else if e.operation.Upsert? then
      match Resolve(r, metadata)
      case Err(code) => Err(code)
      case Ok(_) =>
        Ok(State(s.current[r.key := r], s.latest[r.key := r.instant], seen, s.upserts + 1, s.deletes))
    else if e.operation.Delete? then
      if r.segments != [] then Err(DeletePayload)
      else if r.key !in s.current then Err(DeleteMissing)
      else if s.current[r.key].context != r.context || s.current[r.key].version != r.version then Err(DeleteIdentity)
      else Ok(State(s.current - {r.key}, s.latest[r.key := r.instant], seen, s.upserts, s.deletes + 1))
    else Err(DeltaOperation)
  }

  function Fold(s: State, delta: seq<Event>, metadata: seq<MetaRow>, watermark: int): Result<State, Rejection>
    decreases |delta|
  {
    if delta == [] then Ok(s)
    else match Step(s, delta[0], metadata, watermark)
      case Err(code) => Err(code)
      case Ok(next) => Fold(next, delta[1..], metadata, watermark)
  }

  function Compile(snapshot: seq<Record>, delta: seq<Event>, metadata: seq<MetaRow>,
      watermark: int): Result<State, Rejection> {
    match Load(EMPTY, snapshot, metadata)
    case Err(code) => Err(code)
    case Ok(s) => Fold(s, delta, metadata, watermark)
  }

  // -------------------------------------------------------------- invariant

  /** Every current row resolves and has its stamp on record. */
  predicate Sound(s: State, metadata: seq<MetaRow>) {
    (forall k | k in s.current :: s.current[k].key == k && Resolve(s.current[k], metadata).Ok? && k in s.latest)
  }

  lemma {:induction false} LoadSound(s: State, snapshot: seq<Record>, metadata: seq<MetaRow>)
    requires Sound(s, metadata) && Load(s, snapshot, metadata).Ok?
    ensures Sound(Load(s, snapshot, metadata).value, metadata) && Load(s, snapshot, metadata).value.seen == s.seen
    decreases |snapshot|
  {
    hide Resolve;
    if snapshot == [] {
    } else {
      var r := snapshot[0];
      LoadSound(s.(current := s.current[r.key := r], latest := s.latest[r.key := r.instant]), snapshot[1..], metadata);
    }
  }

  lemma StepSound(s: State, e: Event, metadata: seq<MetaRow>, watermark: int)
    requires Sound(s, metadata) && Step(s, e, metadata, watermark).Ok?
    ensures Sound(Step(s, e, metadata, watermark).value, metadata)
  {
    hide Resolve;
  }

  lemma {:induction false} FoldSound(s: State, delta: seq<Event>, metadata: seq<MetaRow>, watermark: int)
    requires Sound(s, metadata) && Fold(s, delta, metadata, watermark).Ok?
    ensures Sound(Fold(s, delta, metadata, watermark).value, metadata)
    decreases |delta|
  {
    if delta == [] {
    } else {
      StepSound(s, delta[0], metadata, watermark);
      hide Sound, Step;
      FoldSound(Step(s, delta[0], metadata, watermark).value, delta[1..], metadata, watermark);
    }
  }

  /** Resolving the rows again to project them never fails. */
  lemma BronzeResolvesAgain(snapshot: seq<Record>, delta: seq<Event>, metadata: seq<MetaRow>, watermark: int,
      k: RecordKey)
    requires Compile(snapshot, delta, metadata, watermark).Ok?
    requires k in Compile(snapshot, delta, metadata, watermark).value.current
    ensures Resolve(Compile(snapshot, delta, metadata, watermark).value.current[k], metadata).Ok?
  {
    LoadSound(EMPTY, snapshot, metadata);
    FoldSound(Load(EMPTY, snapshot, metadata).value, delta, metadata, watermark);
  }

  // --------------------------------------------------- the seen-version check

  /** The same compiler without its table of seen versions. */
  function StepUnseen(s: State, e: Event, metadata: seq<MetaRow>, watermark: int): Result<State, Rejection> {
    match Step(s.(seen := {}), e, metadata, watermark)
    case Err(code) => Err(code)
    case Ok(next) => Ok(next.(seen := s.seen + {Versioned(e.record.key, e.record.written)}))
  }

  /** A written stamp means one instant: `read` parses it. */
  predicate Reads(read: Id -> int, r: Record) { r.instant == read(r.written) }

  predicate SeenSound(s: State, read: Id -> int) {
    forall v | v in s.seen :: v.key in s.latest && read(v.written) <= s.latest[v.key]
  }

  lemma StepKeepsSeen(s: State, e: Event, metadata: seq<MetaRow>, watermark: int, read: Id -> int)
    requires SeenSound(s, read) && Reads(read, e.record) && Step(s, e, metadata, watermark).Ok?
    ensures SeenSound(Step(s, e, metadata, watermark).value, read)
  {
    hide Resolve;
  }

  /** The seen-version check only changes which rejection is given: what it
      refuses, the timestamp check would refuse. */
  lemma SeenCheckIsImplied(s: State, e: Event, metadata: seq<MetaRow>, watermark: int, read: Id -> int)
    requires SeenSound(s, read) && Reads(read, e.record)
    ensures Step(s, e, metadata, watermark).Ok? == StepUnseen(s, e, metadata, watermark).Ok?
    ensures Step(s, e, metadata, watermark).Ok? ==>
            Step(s, e, metadata, watermark) == StepUnseen(s, e, metadata, watermark)
    ensures Versioned(e.record.key, e.record.written) in s.seen ==>
              StepUnseen(s, e, metadata, watermark).Err?
              && StepUnseen(s, e, metadata, watermark).error in {RecordField, SegmentsShape, NotAfterWatermark,
                                                                 NotAfterCurrent}
  {
    hide Resolve, Shaped;
    var v := Versioned(e.record.key, e.record.written);
    assert v in s.seen ==> e.record.key in s.latest && e.record.instant <= s.latest[e.record.key];
  }

  function FoldUnseen(s: State, delta: seq<Event>, metadata: seq<MetaRow>, watermark: int): Result<State, Rejection>
    decreases |delta|
  {
    if delta == [] then Ok(s)
    else match StepUnseen(s, delta[0], metadata, watermark)
      case Err(code) => Err(code)
      case Ok(next) => FoldUnseen(next, delta[1..], metadata, watermark)
  }

  lemma {:induction false} FoldWithoutSeen(s: State, delta: seq<Event>, metadata: seq<MetaRow>, watermark: int,
      read: Id -> int)
    requires SeenSound(s, read) && forall e | e in delta :: Reads(read, e.record)
    ensures Fold(s, delta, metadata, watermark).Ok? == FoldUnseen(s, delta, metadata, watermark).Ok?
    ensures Fold(s, delta, metadata, watermark).Ok? ==>
            Fold(s, delta, metadata, watermark) == FoldUnseen(s, delta, metadata, watermark)
    decreases |delta|
  {
    if delta == [] {
    } else {
      SeenCheckIsImplied(s, delta[0], metadata, watermark, read);
      if Step(s, delta[0], metadata, watermark).Ok? {
        StepKeepsSeen(s, delta[0], metadata, watermark, read);
        hide Step, StepUnseen, SeenSound, Reads;
        FoldWithoutSeen(Step(s, delta[0], metadata, watermark).value, delta[1..], metadata, watermark, read);
      }
    }
  }

  /** Dropping the seen-version check changes neither what is accepted nor what comes out. */
  lemma SeenVersionsAreRedundant(snapshot: seq<Record>, delta: seq<Event>, metadata: seq<MetaRow>, watermark: int,
      read: Id -> int)
    requires Load(EMPTY, snapshot, metadata).Ok? && forall e | e in delta :: Reads(read, e.record)
    ensures var s := Load(EMPTY, snapshot, metadata).value;
            && Compile(snapshot, delta, metadata, watermark).Ok? == FoldUnseen(s, delta, metadata, watermark).Ok?
            && (Compile(snapshot, delta, metadata, watermark).Ok? ==>
                  Compile(snapshot, delta, metadata, watermark) == FoldUnseen(s, delta, metadata, watermark))
  {
    LoadSound(EMPTY, snapshot, metadata);
    FoldWithoutSeen(Load(EMPTY, snapshot, metadata).value, delta, metadata, watermark, read);
  }

  // ------------------------------------------------------- last writer wins

  function EventsOf(delta: seq<Event>, k: RecordKey): seq<Event> {
    if delta == [] then []
    else (if delta[0].record.key == k then [delta[0]] else []) + EventsOf(delta[1..], k)
  }

  /** What one event leaves at its key. */
  function Leaves(e: Event): Option<Record> { if e.operation.Upsert? then Some(e.record) else None }

  function RowAt(s: State, k: RecordKey): Option<Record> { if k in s.current then Some(s.current[k]) else None }

  predicate Rising(events: seq<Event>, after: int) {
    && (forall i | 0 <= i < |events| :: events[i].record.instant > after)
    && (forall i, j | 0 <= i < j < |events| :: events[i].record.instant < events[j].record.instant)
  }

  function LatestOr(s: State, k: RecordKey, watermark: int): int { if k in s.latest then s.latest[k] else watermark }

  lemma StepAt(s: State, e: Event, metadata: seq<MetaRow>, watermark: int, k: RecordKey)
    requires Step(s, e, metadata, watermark).Ok?
    ensures var next := Step(s, e, metadata, watermark).value;
            if e.record.key == k
            then RowAt(next, k) == Leaves(e)
            && LatestOr(next, k, watermark) == e.record.instant > LatestOr(s, k, watermark)
            else RowAt(next, k) == RowAt(s, k) && LatestOr(next, k, watermark) == LatestOr(s, k, watermark)
  {
    hide Resolve;
  }

  lemma RisingCons(e: Event, rest: seq<Event>, after: int)
    requires Rising(rest, e.record.instant) && e.record.instant > after
    ensures Rising([e] + rest, after) && Rising(rest, after)
  {
    assert forall i | 0 < i < |[e] + rest| :: ([e] + rest)[i] == rest[i - 1];
  }

  /** In an accepted delta the events of each key come in strictly rising time, and
      the last of them, the one of greatest timestamp, decides the key's row. */
  lemma {:induction false} LastWriterWins(s: State, delta: seq<Event>, metadata: seq<MetaRow>, watermark: int,
      k: RecordKey)
    requires Fold(s, delta, metadata, watermark).Ok?
    ensures var events := EventsOf(delta, k);
            && Rising(events, LatestOr(s, k, watermark))
            && RowAt(Fold(s, delta, metadata, watermark).value, k) ==
                 if events == [] then RowAt(s, k) else Leaves(events[|events| - 1])
    decreases |delta|
  {
    hide Step, RowAt, LatestOr, Leaves;
    if delta == [] {
    } else {
      var e := delta[0];
      var rest := EventsOf(delta[1..], k);
      StepAt(s, e, metadata, watermark, k);
      LastWriterWins(Step(s, e, metadata, watermark).value, delta[1..], metadata, watermark, k);
      if e.record.key == k {
        RisingCons(e, rest, LatestOr(s, k, watermark));
        assert EventsOf(delta, k) == [e] + rest;
      } else {
        assert EventsOf(delta, k) == rest;
      }
      hide Rising, EventsOf;
    }
  }

  // -------------------------------------------------------- order of events

  /** What an event needs to know about its own key, and nothing else. */
  datatype KeyState = KeyState(row: Option<Record>, latest: Option<int>, seen: set<Id>)

  function At(s: State, k: RecordKey): KeyState {
    KeyState(RowAt(s, k), if k in s.latest then Some(s.latest[k]) else None, Written(s.seen, k))
  }

  function StepKey(ks: KeyState, e: Event, metadata: seq<MetaRow>, watermark: int): Option<KeyState> {
    var r := e.record;
    var timely :=
        && Shaped(r) && (r.segments != [] || e.operation.Delete?) && r.instant > watermark && r.written !in ks.seen
                  && r.instant > (if ks.latest.Some? then ks.latest.value else watermark);
    if !timely then None
    else if e.operation.Upsert? then
      if Resolve(r, metadata).Ok? then Some(KeyState(Some(r), Some(r.instant), ks.seen + {r.written})) else None
    else if e.operation.Delete? && r.segments == [] && ks.row.Some? && ks.row.value.context == r.context
        && ks.row.value.version == r.version
    then Some(KeyState(None, Some(r.instant), ks.seen + {r.written}))
    else None
  }

  lemma StepIsLocal(s: State, e: Event, metadata: seq<MetaRow>, watermark: int, k: RecordKey)
    ensures var next := Step(s, e, metadata, watermark);
            var own := StepKey(At(s, e.record.key), e, metadata, watermark);
            && next.Ok? == own.Some?
            && (next.Ok? ==> At(next.value, k) == if k == e.record.key then own.value else At(s, k))
  {
    var next := Step(s, e, metadata, watermark);
    hide Resolve, Shaped;
    var v := Versioned(e.record.key, e.record.written);
    assert v in s.seen <==> e.record.written in At(s, e.record.key).seen;
    if next.Ok? {
      SeenGrows(s.seen, v, k);
    }
  }

  function Written(seen: set<Versioned>, k: RecordKey): set<Id> { set v | v in seen && v.key == k :: v.written }

  lemma SeenGrows(seen: set<Versioned>, v: Versioned, k: RecordKey)
    ensures Written(seen + {v}, k) == Written(seen, k) + (if v.key == k then {v.written} else {})
  {
    forall x: Id | x in Written(seen, k) ensures x in Written(seen + {v}, k) {
      var w :| w in seen && w.key == k && w.written == x;
      assert w in seen + {v};
    }
    assert v.key == k ==> v in seen + {v} && v.written in Written(seen + {v}, k);
  }

  function FoldKey(ks: KeyState, events: seq<Event>, metadata: seq<MetaRow>, watermark: int): Option<KeyState>
    decreases |events|
  {
    if events == [] then Some(ks)
    else match StepKey(ks, events[0], metadata, watermark)
      case None => None
      case Some(next) => FoldKey(next, events[1..], metadata, watermark)
  }

  lemma EventsStep(delta: seq<Event>, k: RecordKey)
    requires delta != []
    ensures if delta[0].record.key == k
            then EventsOf(delta, k) != [] && EventsOf(delta, k)[0] == delta[0]
            && EventsOf(delta, k)[1..] == EventsOf(delta[1..], k)
            else EventsOf(delta, k) == EventsOf(delta[1..], k)
  {
    var rest := EventsOf(delta[1..], k);
    if delta[0].record.key == k { assert ([delta[0]] + rest)[1..] == rest; } else { assert [] + rest == rest; }
  }

  /** An accepted delta takes each key through its own events. */
  lemma {:induction false} AcceptedByKey(s: State, delta: seq<Event>, metadata: seq<MetaRow>, watermark: int,
      k: RecordKey)
    requires Fold(s, delta, metadata, watermark).Ok?
    ensures FoldKey(At(s, k), EventsOf(delta, k), metadata, watermark)
         == Some(At(Fold(s, delta, metadata, watermark).value, k))
    decreases |delta|
  {
    if delta == [] {
    } else {
      var e := delta[0];
      StepIsLocal(s, e, metadata, watermark, k);
      hide Step, StepKey, At;
      AcceptedByKey(Step(s, e, metadata, watermark).value, delta[1..], metadata, watermark, k);
      EventsStep(delta, k);
    }
  }

  /** A rejected delta is rejected by the events of one key alone. */
  lemma {:induction false} RejectedByKey(s: State, delta: seq<Event>, metadata: seq<MetaRow>, watermark: int)
      returns (k: RecordKey)
    requires Fold(s, delta, metadata, watermark).Err?
    ensures FoldKey(At(s, k), EventsOf(delta, k), metadata, watermark).None?
    decreases |delta|
  {
    var e := delta[0];
    k := e.record.key;
    StepIsLocal(s, e, metadata, watermark, k);
    var step := Step(s, e, metadata, watermark);
    if step.Ok? {
      k := RejectedByKey(step.value, delta[1..], metadata, watermark);
      StepIsLocal(s, e, metadata, watermark, k);
      hide Step, StepKey, At;
    }
    EventsStep(delta, k);
  }

  ghost predicate SameByKey(d1: seq<Event>, d2: seq<Event>) { forall k :: EventsOf(d1, k) == EventsOf(d2, k) }

  /** Any reordering that keeps each key's own order gives the same acceptance and
      leaves every key with the same row and stamp. */
  lemma ReorderingChangesNothing(s: State, d1: seq<Event>, d2: seq<Event>, metadata: seq<MetaRow>, watermark: int)
    requires SameByKey(d1, d2)
    ensures Fold(s, d1, metadata, watermark).Ok? == Fold(s, d2, metadata, watermark).Ok?
    ensures Fold(s, d1, metadata, watermark).Ok? ==>
              forall k :: At(Fold(s, d1, metadata, watermark).value, k) == At(Fold(s, d2, metadata, watermark).value, k)
  {
    var r1, r2 := Fold(s, d1, metadata, watermark), Fold(s, d2, metadata, watermark);
    hide Fold, FoldKey, At, EventsOf;
    if r1.Err? && r2.Ok? {
      var k := RejectedByKey(s, d1, metadata, watermark);
      assert EventsOf(d1, k) == EventsOf(d2, k);
      AcceptedByKey(s, d2, metadata, watermark, k);
    }
    if r2.Err? && r1.Ok? {
      var k := RejectedByKey(s, d2, metadata, watermark);
      assert EventsOf(d1, k) == EventsOf(d2, k);
      AcceptedByKey(s, d1, metadata, watermark, k);
    }
    if r1.Ok? && r2.Ok? {
      forall k ensures At(r1.value, k) == At(r2.value, k) {
        AcceptedByKey(s, d1, metadata, watermark, k);
        AcceptedByKey(s, d2, metadata, watermark, k);
        assert EventsOf(d1, k) == EventsOf(d2, k);
      }
    }
  }

  // ---------------------------------------------------------------- counts

  function CountOf(delta: seq<Event>, operation: Operation): nat {
    if delta == [] then 0 else (if delta[0].operation == operation then 1 else 0) + CountOf(delta[1..], operation)
  }

  /** The reported counts are the numbers of upserts and deletes. */
  lemma {:induction false} CountsAreOperations(s: State, delta: seq<Event>, metadata: seq<MetaRow>, watermark: int)
    requires Fold(s, delta, metadata, watermark).Ok?
    ensures var end := Fold(s, delta, metadata, watermark).value;
            && end.upserts == s.upserts + CountOf(delta, Upsert) && end.deletes == s.deletes + CountOf(delta, Delete)
            && CountOf(delta, Upsert) + CountOf(delta, Delete) == |delta|
    decreases |delta|
  {
    hide Resolve, Shaped;
    if delta == [] {
    } else {
      CountsAreOperations(Step(s, delta[0], metadata, watermark).value, delta[1..], metadata, watermark);
    }
  }

  function Without(delta: seq<Event>, k: RecordKey): seq<Event> {
    if delta == [] then [] else (if delta[0].record.key == k then [] else [delta[0]]) + Without(delta[1..], k)
  }

  lemma {:induction false} WithoutSplits(delta: seq<Event>, k: RecordKey, operation: Operation)
    ensures CountOf(delta, operation) == CountOf(EventsOf(delta, k), operation) + CountOf(Without(delta, k), operation)
    ensures |Without(delta, k)| + |EventsOf(delta, k)| == |delta|
    decreases |delta|
  {
    if delta == [] {
    } else {
      WithoutSplits(delta[1..], k, operation);
      EventsStep(delta, k);
      if delta[0].record.key != k {
        assert Without(delta, k)[1..] == Without(delta[1..], k);
      } else {
        assert Without(delta, k) == Without(delta[1..], k);
      }
    }
  }

  lemma {:induction false} WithoutOthers(delta: seq<Event>, k: RecordKey, j: RecordKey)
    ensures EventsOf(Without(delta, k), j) == if j == k then [] else EventsOf(delta, j)
    decreases |delta|
  {
    if delta == [] {
    } else {
      WithoutOthers(delta[1..], k, j);
      EventsStep(delta, j);
      if delta[0].record.key != k {
        assert Without(delta, k)[1..] == Without(delta[1..], k);
        EventsStep(Without(delta, k), j);
      } else {
        assert Without(delta, k) == Without(delta[1..], k);
      }
    }
  }

  /** Reordering that keeps each key's own order keeps the counts. */
  lemma {:induction false} ReorderingKeepsCounts(d1: seq<Event>, d2: seq<Event>, operation: Operation)
    requires SameByKey(d1, d2)
    ensures CountOf(d1, operation) == CountOf(d2, operation)
    decreases |d1| + |d2|
  {
    if d1 == [] && d2 == [] {
    } else {
      var k := if d1 != [] then d1[0].record.key else d2[0].record.key;
      if d1 != [] { EventsStep(d1, k); } else { EventsStep(d2, k); }
      WithoutSplits(d1, k, operation);
      WithoutSplits(d2, k, operation);
      assert EventsOf(d1, k) == EventsOf(d2, k);
      forall j ensures EventsOf(Without(d1, k), j) == EventsOf(Without(d2, k), j) {
        WithoutOthers(d1, k, j);
        WithoutOthers(d2, k, j);
        assert EventsOf(d1, j) == EventsOf(d2, j);
      }
      ReorderingKeepsCounts(Without(d1, k), Without(d2, k), operation);
    }
  }

  // -------------------------------------------------------------- the loops

  method ResolveRecord(r: Record, metadata: seq<MetaRow>) returns (result: Result<map<Id, Id>, Rejection>)
    ensures result == Resolve(r, metadata)
  {
    if !Shaped(r) { return Err(RecordField); }
    if r.segments == [] { return Err(SegmentsShape); }
    var index := BuildIndex(metadata);
    if index.Err? { return Err(index.error); }
    var attributes: map<Id, Id> := map[];
    assert r.segments[0..] == r.segments;
    for i := 0 to |r.segments|
      invariant ResolveSegments(r, index.value, r.segments, map[])
           == ResolveSegments(r, index.value, r.segments[i..], attributes)
    {
      assert r.segments[i..][0] == r.segments[i] && r.segments[i..][1..] == r.segments[i + 1..];
      var key := MetaKeyFor(r, r.segments[i].name);
      if key !in index.value {
        var sameSubject := exists k :: k in index.value && k.subject == key.subject;
        return Err(if sameSubject then VersionMismatch else SegmentUnmapped);
      }
      var definition := index.value[key];
      if r.segments[i].value !in definition.allowed { return Err(SegmentValue); }
      if definition.output in attributes { return Err(OutputAmbiguous); }
      attributes := attributes[definition.output := r.segments[i].value];
    }
    assert r.segments[|r.segments|..] == [];
    result := Ok(attributes);
  }

  method BuildIndex(rows: seq<MetaRow>) returns (result: Result<Index, Rejection>)
    ensures result == MetadataIndex(rows)
  {
    if rows == [] { return Err(MetadataEmpty); }
    var index: Index := map[];
    assert rows[0..] == rows;
    for i := 0 to |rows|
      invariant IndexFrom(map[], rows) == IndexFrom(index, rows[i..])
    {
      assert rows[i..][0] == rows[i] && rows[i..][1..] == rows[i + 1..];
      var row := rows[i];
      if !(Filled(row.application) && Filled(row.table) && Filled(row.context) && Filled(row.segment)
           && Filled(row.version)) {
        return Err(MetadataField);
      }
      if KeyOf(row) in index { return Err(ContextAmbiguous); }
      if !row.isString { return Err(MetadataType); }
      if row.allowed == [] || !DistinctIds(row.allowed) { return Err(MetadataAllowed); }
      if !Filled(row.output) { return Err(MetadataField); }
      index := index[KeyOf(row) := Definition(row.output, row.allowed)];
    }
    assert rows[|rows|..] == [];
    result := Ok(index);
  }

  method CompileRows(snapshot: seq<Record>, delta: seq<Event>, metadata: seq<MetaRow>, watermark: int)
      returns (result: Result<State, Rejection>)
    ensures result == Compile(snapshot, delta, metadata, watermark)
  {
    hide Resolve, Shaped;
    var current: map<RecordKey, Record> := map[];
    var latest: map<RecordKey, int> := map[];
    assert snapshot[0..] == snapshot;
    for i := 0 to |snapshot|
      invariant Load(EMPTY, snapshot, metadata) == Load(State(current, latest, {}, 0, 0), snapshot[i..], metadata)
    {
      assert snapshot[i..][0] == snapshot[i] && snapshot[i..][1..] == snapshot[i + 1..];
      var r := snapshot[i];
      var bronze := ResolveRecord(r, metadata);
      if bronze.Err? { return Err(bronze.error); }
      if r.key in current { return Err(SnapshotDuplicate); }
      current := current[r.key := r];
      latest := latest[r.key := r.instant];
    }
    assert snapshot[|snapshot|..] == [];
    ghost var loaded := State(current, latest, {}, 0, 0);
    result := FoldDelta(loaded, current, latest, delta, metadata, watermark);
  }

  method FoldDelta(ghost loaded: State, current0: map<RecordKey, Record>, latest0: map<RecordKey, int>,
      delta: seq<Event>, metadata: seq<MetaRow>, watermark: int)
    returns (result: Result<State, Rejection>)
    requires loaded == State(current0, latest0, {}, 0, 0)
    ensures result == Fold(loaded, delta, metadata, watermark)
  {
    hide Resolve, Shaped;
    var current, latest := current0, latest0;
    var upserts: nat, deletes: nat := 0, 0;
    var seen: set<Versioned> := {};
    assert delta[0..] == delta;
    for i := 0 to |delta|
      invariant Fold(loaded, delta, metadata, watermark) ==
                Fold(State(current, latest, seen, upserts, deletes), delta[i..], metadata, watermark)
    {
      assert delta[i..][0] == delta[i] && delta[i..][1..] == delta[i + 1..];
      var e := delta[i];
      var r := e.record;
      if !Shaped(r) { return Err(RecordField); }
      if r.segments == [] && !e.operation.Delete? { return Err(SegmentsShape); }
      if r.instant <= watermark { return Err(NotAfterWatermark); }
      var version := Versioned(r.key, r.written);
      if version in seen { return Err(DeltaDuplicate); }
      seen := seen + {version};
      if r.instant <= (if r.key in latest then latest[r.key] else watermark) { return Err(NotAfterCurrent); }
      if e.operation.Upsert? {
        var bronze := ResolveRecord(r, metadata);
        if bronze.Err? { return Err(bronze.error); }
        current := current[r.key := r];
        latest := latest[r.key := r.instant];
        upserts := upserts + 1;
      } else if e.operation.Delete? {
        if r.segments != [] { return Err(DeletePayload); }
        if r.key !in current { return Err(DeleteMissing); }
        if current[r.key].context != r.context || current[r.key].version != r.version { return Err(DeleteIdentity); }
        current := current - {r.key};
        latest := latest[r.key := r.instant];
        deletes := deletes + 1;
      } else {
        return Err(DeltaOperation);
      }
    }
    assert delta[|delta|..] == [];
    result := Ok(State(current, latest, seen, upserts, deletes));
  }
}
