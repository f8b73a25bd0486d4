/** The Oracle EBS compiler told event by event: which snapshots and deltas it
    accepts, and which row each key is left with, from the records alone. */
module CartridgeEbsRules {
  import opened Common
  import opened CartridgeEbs

  // ------------------------------------------------------------- what is there

  /** The snapshot's record of a key. */
  function Start(snapshot: seq<Record>, key: RecordKey): Option<Record> {
    if snapshot == [] then None
    else if snapshot[|snapshot| - 1].key == key then Some(snapshot[|snapshot| - 1])
    else Start(snapshot[..|snapshot| - 1], key)
  }

  /** The last event of a key. */
  function LastEvent(delta: seq<Event>, key: RecordKey): Option<Event> {
    if delta == [] then None
    else if delta[|delta| - 1].record.key == key then Some(delta[|delta| - 1])
    else LastEvent(delta[..|delta| - 1], key)
  }

  /** What a key holds after some events. */
  function Holding(snapshot: seq<Record>, delta: seq<Event>, key: RecordKey): Option<Record> {
    match LastEvent(delta, key)
    case None => Start(snapshot, key)
    case Some(e) => if e.operation == Upsert then Some(e.record) else None
  }

  /** The instant of a key's last event, or of its snapshot record. */
  function Stamp(snapshot: seq<Record>, delta: seq<Event>, key: RecordKey): Option<int> {
    match LastEvent(delta, key)
    case Some(e) => Some(e.record.instant)
    case None => match Start(snapshot, key) case None => None case Some(r) => Some(r.instant)
  }

  predicate Written(delta: seq<Event>, v: Versioned) {
    exists j :: 0 <= j < |delta| && Versioned(delta[j].record.key, delta[j].record.written) == v
  }

  // ------------------------------------------------------------------- rules

  predicate SnapshotRule(snapshot: seq<Record>, metadata: seq<MetaRow>) {
    && (forall i | 0 <= i < |snapshot| :: Resolve(snapshot[i], metadata).Ok?)
    && (forall i, j | 0 <= i < j < |snapshot| :: snapshot[i].key != snapshot[j].key)
  }

  /** The event at place `i`: later than the watermark and than everything of its
      key, under a written stamp that is new for it; an upsert that resolves, or
      an empty delete of a row of the same context and version. */
  predicate EventRule(snapshot: seq<Record>, delta: seq<Event>, metadata: seq<MetaRow>, watermark: int, i: nat)
    requires i < |delta|
  {
    var r, stamp := delta[i].record, Stamp(snapshot, delta[..i], delta[i].record.key);
    var row := Holding(snapshot, delta[..i], delta[i].record.key);
    && Null !in {r.key.party, r.key.application, r.key.table, r.context, r.version, r.written}
    && watermark < r.instant && (stamp.Some? ==> stamp.value < r.instant)
    && !Written(delta[..i], Versioned(r.key, r.written))
    && match delta[i].operation
       case Upsert => Resolve(r, metadata).Ok?
       case Delete => r.segments == [] && row.Some? && row.value.context == r.context && row.value.version == r.version
       case UnknownOperation => false
  }

  predicate Rules(snapshot: seq<Record>, delta: seq<Event>, metadata: seq<MetaRow>, watermark: int, n: nat)
    requires n <= |delta|
  {
    forall i | 0 <= i < n :: EventRule(snapshot, delta, metadata, watermark, i)
  }

  /** The state says of every key what the events say. */
  ghost predicate Reflects(s: State, snapshot: seq<Record>, delta: seq<Event>) {
    && (forall key :: Holding(snapshot, delta, key) == if key in s.current then Some(s.current[key]) else None)
    && (forall key :: Stamp(snapshot, delta, key) == if key in s.latest then Some(s.latest[key]) else None)
    && (forall v :: Written(delta, v) <==> v in s.seen)
  }

  // ---------------------------------------------------------------- snapshot

  lemma {:induction false} LoadAppends(s: State, snapshot: seq<Record>, r: Record, metadata: seq<MetaRow>)
    ensures Load(s, snapshot + [r], metadata) ==
              match Load(s, snapshot, metadata)
              case Err(code) => Err(code)
              case Ok(t) => Load(t, [r], metadata)
    decreases |snapshot|
  {
    hide Resolve;
    if snapshot == [] {
      assert [] + [r] == [r];
    } else {
      assert (snapshot + [r])[1..] == snapshot[1..] + [r];
      var first := snapshot[0];
      if Resolve(first, metadata).Ok? && first.key !in s.current {
        LoadAppends(s.(current := s.current[first.key := first], latest := s.latest[first.key := first.instant]),
                    snapshot[1..], r, metadata);
      }
    }
  }

  /** The state of a loaded snapshot. */
  predicate Loaded(s: State, snapshot: seq<Record>) {
    && s.seen == {}
    && (forall i | 0 <= i < |snapshot| :: snapshot[i].key in s.current)
    && (forall key | key in s.current :: Start(snapshot, key) == Some(s.current[key]))
    && s.latest.Keys == s.current.Keys && (forall key | key in s.current :: s.latest[key] == s.current[key].instant)
  }

  lemma {:induction false} StartIsRecord(snapshot: seq<Record>, key: RecordKey)
    ensures Start(snapshot, key).Some? ==> exists i :: 0 <= i < |snapshot| && snapshot[i].key == key
    ensures Start(snapshot, key).None? ==> forall i | 0 <= i < |snapshot| :: snapshot[i].key != key
    decreases |snapshot|
  {
    if snapshot == [] {
    } else {
      StartIsRecord(snapshot[..|snapshot| - 1], key);
    }
  }

  lemma LoadedMore(s: State, front: seq<Record>, r: Record)
    requires Loaded(s, front) && r.key !in s.current
    ensures Loaded(s.(current := s.current[r.key := r], latest := s.latest[r.key := r.instant]), front + [r])
  {
    var all, next := front + [r], s.current[r.key := r];
    assert all[..|front|] == front;
    forall key | key in next ensures Start(all, key) == Some(next[key]) {
    }
  }

  lemma RuleMore(s: State, front: seq<Record>, last: Record, metadata: seq<MetaRow>)
    requires Loaded(s, front) && SnapshotRule(front, metadata)
    ensures SnapshotRule(front + [last], metadata) <==> Resolve(last, metadata).Ok? && last.key !in s.current
  {
    hide Resolve;
    var all := front + [last];
    assert all[|front|] == last;
    if last.key in s.current {
      StartIsRecord(front, last.key);
      var i :| 0 <= i < |front| && front[i].key == last.key;
      assert all[i] == front[i];
    }
  }

  lemma RuleLess(front: seq<Record>, last: Record, metadata: seq<MetaRow>)
    requires SnapshotRule(front + [last], metadata)
    ensures SnapshotRule(front, metadata)
  {
    hide Resolve;
    var all := front + [last];
    assert forall i | 0 <= i < |front| :: front[i] == all[i];
  }

  lemma LoadOne(s: State, r: Record, metadata: seq<MetaRow>)
    ensures Load(s, [r], metadata).Ok? <==> Resolve(r, metadata).Ok? && r.key !in s.current
    ensures Load(s, [r], metadata).Ok? ==>
              Load(s, [r], metadata).value
              == s.(current := s.current[r.key := r], latest := s.latest[r.key := r.instant])
  {
    hide Resolve;
    assert [r][1..] == [];
  }

  lemma {:induction false} SnapshotLoads(snapshot: seq<Record>, metadata: seq<MetaRow>)
    ensures Load(EMPTY, snapshot, metadata).Ok? <==> SnapshotRule(snapshot, metadata)
    ensures Load(EMPTY, snapshot, metadata).Ok? ==> Loaded(Load(EMPTY, snapshot, metadata).value, snapshot)
    decreases |snapshot|
  {
    if snapshot == [] {
    } else {
      var front, last := snapshot[..|snapshot| - 1], snapshot[|snapshot| - 1];
      assert snapshot == front + [last];
      SnapshotLoads(front, metadata);
      LoadAppends(EMPTY, front, last, metadata);
      hide Load, SnapshotRule, Loaded, Resolve;
      if Load(EMPTY, front, metadata).Ok? {
        var s := Load(EMPTY, front, metadata).value;
        LoadOne(s, last, metadata);
        RuleMore(s, front, last, metadata);
        if last.key !in s.current { LoadedMore(s, front, last); }
      } else if SnapshotRule(snapshot, metadata) {
        RuleLess(front, last, metadata);
      }
    }
  }

  lemma LoadReflects(snapshot: seq<Record>, metadata: seq<MetaRow>)
    ensures Load(EMPTY, snapshot, metadata).Ok? <==> SnapshotRule(snapshot, metadata)
    ensures Load(EMPTY, snapshot, metadata).Ok? ==> Reflects(Load(EMPTY, snapshot, metadata).value, snapshot, [])
  {
    hide Load, SnapshotRule, Start, Resolve;
    SnapshotLoads(snapshot, metadata);
    if Load(EMPTY, snapshot, metadata).Ok? {
      var s := Load(EMPTY, snapshot, metadata).value;
      forall key
        ensures Holding(snapshot, [], key) == if key in s.current then Some(s.current[key]) else None
        ensures Stamp(snapshot, [], key) == if key in s.latest then Some(s.latest[key]) else None
      {
        StartIsRecord(snapshot, key);
      }
    }
  }

  // ------------------------------------------------------------------- delta

  lemma {:induction false} FoldAppends(s: State, delta: seq<Event>, e: Event, metadata: seq<MetaRow>, watermark: int)
    ensures Fold(s, delta + [e], metadata, watermark) ==
              match Fold(s, delta, metadata, watermark)
              case Err(code) => Err(code)
              case Ok(t) => Step(t, e, metadata, watermark)
    decreases |delta|
  {
    hide Step;
    if delta == [] {
      assert [] + [e] == [e] && [e][1..] == [];
    } else {
      assert (delta + [e])[1..] == delta[1..] + [e];
      var first := Step(s, delta[0], metadata, watermark);
      if first.Ok? { FoldAppends(first.value, delta[1..], e, metadata, watermark); }
    }
  }

  lemma LastNext(delta: seq<Event>, n: nat, key: RecordKey)
    requires n < |delta|
    ensures LastEvent(delta[..n + 1], key)
         == if delta[n].record.key == key then Some(delta[n]) else LastEvent(delta[..n], key)
  {
    assert delta[..n + 1][..n] == delta[..n];
  }

  lemma WrittenNext(delta: seq<Event>, n: nat, v: Versioned)
    requires n < |delta|
    ensures Written(delta[..n + 1], v) <==>
              Written(delta[..n], v) || Versioned(delta[n].record.key, delta[n].record.written) == v
  {
    var more := delta[..n + 1];
    assert more[n] == delta[n];
    assert forall j | 0 <= j < n :: more[j] == delta[..n][j];
  }

  lemma StepAllowed(s: State, snapshot: seq<Record>, delta: seq<Event>, metadata: seq<MetaRow>, watermark: int, n: nat)
    requires n < |delta| && Reflects(s, snapshot, delta[..n])
    ensures Step(s, delta[n], metadata, watermark).Ok? <==> EventRule(snapshot, delta, metadata, watermark, n)
  {
    var r := delta[n].record;
    assert Resolve(r, metadata).Ok? ==> r.segments != [];
    hide Resolve, LastEvent, Start, Written, Holding, Stamp;
    assert Holding(snapshot, delta[..n], r.key) == if r.key in s.current then Some(s.current[r.key]) else None;
    assert Stamp(snapshot, delta[..n], r.key) == if r.key in s.latest then Some(s.latest[r.key]) else None;
    assert Written(delta[..n], Versioned(r.key, r.written)) <==> Versioned(r.key, r.written) in s.seen;
  }

  lemma StepReflects(s: State, snapshot: seq<Record>, delta: seq<Event>, metadata: seq<MetaRow>, watermark: int, n: nat)
    requires n < |delta| && Reflects(s, snapshot, delta[..n]) && Step(s, delta[n], metadata, watermark).Ok?
    ensures Reflects(Step(s, delta[n], metadata, watermark).value, snapshot, delta[..n + 1])
  {
    hide Resolve, LastEvent, Start, Written, Shaped;
    var next := Step(s, delta[n], metadata, watermark).value;
    forall key
      ensures Holding(snapshot, delta[..n + 1], key) == if key in next.current then Some(next.current[key]) else None
      ensures Stamp(snapshot, delta[..n + 1], key) == if key in next.latest then Some(next.latest[key]) else None
    {
      LastNext(delta, n, key);
      assert Holding(snapshot, delta[..n], key) == if key in s.current then Some(s.current[key]) else None;
      assert Stamp(snapshot, delta[..n], key) == if key in s.latest then Some(s.latest[key]) else None;
    }
    forall v ensures Written(delta[..n + 1], v) <==> v in next.seen {
      WrittenNext(delta, n, v);
    }
  }

  lemma {:induction false} FoldReflects(s: State, snapshot: seq<Record>, delta: seq<Event>, metadata: seq<MetaRow>,
      watermark: int, n: nat)
    requires n <= |delta| && Reflects(s, snapshot, [])
    ensures Fold(s, delta[..n], metadata, watermark).Ok? <==> Rules(snapshot, delta, metadata, watermark, n)
    ensures Fold(s, delta[..n], metadata, watermark).Ok? ==>
              Reflects(Fold(s, delta[..n], metadata, watermark).value, snapshot, delta[..n])
    decreases n
  {
    hide Step, Reflects, EventRule;
    if n == 0 {
      assert delta[..0] == [];
    } else {
      FoldReflects(s, snapshot, delta, metadata, watermark, n - 1);
      assert delta[..n] == delta[..n - 1] + [delta[n - 1]];
      FoldAppends(s, delta[..n - 1], delta[n - 1], metadata, watermark);
      hide Fold;
      if Fold(s, delta[..n - 1], metadata, watermark).Ok? {
        var t := Fold(s, delta[..n - 1], metadata, watermark).value;
        StepAllowed(t, snapshot, delta, metadata, watermark, n - 1);
        if Step(t, delta[n - 1], metadata, watermark).Ok? {
          StepReflects(t, snapshot, delta, metadata, watermark, n - 1);
        }
      }
    }
  }

  /** A packet compiles if and only if every snapshot record resolves, no two are of
      one key, and every event is timely and either an upsert that resolves or a
      delete of the row its key then holds. The rows that come out are those the
      keys hold after the last event: the record of its last upsert, nothing
      after a delete, and the snapshot's record if there was no event. */
  lemma CompilesIff(snapshot: seq<Record>, delta: seq<Event>, metadata: seq<MetaRow>, watermark: int)
    ensures Compile(snapshot, delta, metadata, watermark).Ok? <==>
              SnapshotRule(snapshot, metadata) && Rules(snapshot, delta, metadata, watermark, |delta|)
    ensures Compile(snapshot, delta, metadata, watermark).Ok? ==>
              forall key ::
                Holding(snapshot, delta, key)
                == RowAt(Compile(snapshot, delta, metadata, watermark).value, key)
  {
    hide Load, Fold, Rules, SnapshotRule, Holding, Stamp, Written;
    LoadReflects(snapshot, metadata);
    if Load(EMPTY, snapshot, metadata).Ok? {
      FoldReflects(Load(EMPTY, snapshot, metadata).value, snapshot, delta, metadata, watermark, |delta|);
      assert delta[..|delta|] == delta;
    }
  }
}
