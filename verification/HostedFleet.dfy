/** Any number of control planes sharing one hosted object, their reads and writes
    interleaved step by step: a read fetches the head and later its chunks, a
    write creates chunks and later swaps the head, an acknowledgement may be
    lost, a failed write is given up, a process may stop between any two steps. */
module HostedFleet {
  import opened Common
  import opened ControlPlane
  import opened ControlPlaneGate
  import opened ControlPlaneHistory
  import opened HostedObject

  /** How snapshots become bodies; `hash` is the portfolio digest. */
  datatype Format = Format(hash: Hash, codec: Codec, json: Snapshot -> Bytes, parse: Bytes -> Option<Snapshot>)

  ghost predicate Trusted(f: Format) {
    Faithful(f.codec) && forall s: Snapshot :: f.parse(f.json(s)) == Some(s)
  }

  datatype Pending = Pending(next: Snapshot, revision: int)

  datatype Phase =
    | Closed
    | Creating(revision: int) // the initial chunks are written, the head is not
    | Fetching(seen: Head)    // the head is read, its chunks are not
    | Ready(snap: Snapshot, generation: int, pending: Option<Pending>)

  /** One value the head has had. */
  datatype Published = Published(revision: int, snap: Snapshot)

  datatype World = World(store: Object, phases: map<int, Phase>, trail: seq<Published>)

  const NOTHING := World(NO_OBJECT, map[], [])

  datatype Step =
    | FetchHead(p: int)
    | FetchChunks(p: int)
    | StartCreate(p: int, revision: int)
    | SwapCreate(p: int)
    | StartWrite(p: int, command: Command, draw: Draw, revision: int)
    | SwapWrite(p: int, acknowledged: bool)
    | Abandon(p: int) // the chunks or the head could not be written
    | Stop(p: int)

  function PhaseOf(w: World, p: int): Phase { if p in w.phases then w.phases[p] else Closed }

  function Enter(w: World, p: int, phase: Phase): World { w.(phases := w.phases[p := phase]) }

  predicate RevisionDrawn(revision: int) { 1 <= revision < 0x8000_0000_0000_0000 }

  function Opened(f: Format, head: Head, chunks: map<ChunkId, Chunk>): Phase {
    match ReadUnder(f.codec, head, chunks, MAX_STATE_BYTES)
    case Err(_) => Closed
    case Ok(body) =>
      match f.parse(body)
      case None => Closed
      case Some(s) => if ValidSnapshot(f.hash, s) then Ready(s, head.revision, None) else Closed
  }

  /** The object with the chunks of a new body under a fresh revision, if it can be written. */
  function Staged(f: Format, o: Object, s: Snapshot, revision: int): Option<Object> {
    match Encode(f.codec, f.json(s))
    case Err(_) => None
    case Ok(parts) =>
      match CreateChunks(o, revision, parts)
      case Err(_) => None
      case Ok(next) => Some(next)
  }

  function HeadFor(f: Format, s: Snapshot, revision: int): Head {
    HeadOf(f.codec, revision, f.json(s), match Encode(f.codec, f.json(s)) case Ok(parts) => |parts| case Err(_) => 0)
  }

  function Take(f: Format, w: World, step: Step): World {
    var phase := PhaseOf(w, step.p);
    match step
    case FetchHead(p) => if phase.Closed? && w.store.head.Some? then Enter(w, p, Fetching(w.store.head.value)) else w
    case FetchChunks(p) => if phase.Fetching? then Enter(w, p, Opened(f, phase.seen, w.store.chunks)) else w
    case StartCreate(p, revision) =>
      if phase.Closed? && RevisionDrawn(revision) && Staged(f, w.store, EMPTY, revision).Some?
      then Enter(w.(store := Staged(f, w.store, EMPTY, revision).value), p, Creating(revision)) else w
    case SwapCreate(p) => if phase.Creating? then Created(f, w, p, phase.revision) else w
    case StartWrite(p, c, draw, revision) =>
      if phase.Ready? && phase.pending.None? && RevisionDrawn(revision) && Build(f.hash, phase.snap, c, draw).Ok?
      then Begun(f, w, p, phase, Build(f.hash, phase.snap, c, draw).value, revision) else w
    case SwapWrite(p, acknowledged) =>
      if phase.Ready? && phase.pending.Some? then Swapped(f, w, p, phase, acknowledged) else w
    case Abandon(p) => if phase.Ready? then Enter(w, p, phase.(pending := None)) else w
    case Stop(p) => Enter(w, p, Closed)
  }

  function Created(f: Format, w: World, p: int, revision: int): World {
    match SwapHead(w.store, HeadFor(f, EMPTY, revision), 0, true)
    case Err(_) => Enter(w, p, Closed)
    case Ok(o) => Enter(w.(store := o, trail := w.trail + [Published(revision, EMPTY)]), p, Closed)
  }

  function Begun(f: Format, w: World, p: int, phase: Phase, next: Snapshot, revision: int): World
    requires phase.Ready?
  {
    var staged := Staged(f, w.store, next, revision);
    if ValidSnapshot(f.hash, next) && staged.Some?
    then Enter(w.(store := staged.value), p, phase.(pending := Some(Pending(next, revision)))) else w
  }

  function Swapped(f: Format, w: World, p: int, phase: Phase, acknowledged: bool): World
    requires phase.Ready? && phase.pending.Some?
  {
    var pending := phase.pending.value;
    match SwapHead(w.store, HeadFor(f, pending.next, pending.revision), phase.generation, false)
    case Err(_) => Enter(w, p, phase.(pending := None))
    case Ok(o) =>
      Enter(w.(store := o, trail := w.trail + [Published(pending.revision, pending.next)]), p,
            if acknowledged then Ready(pending.next, pending.revision, None) else phase.(pending := None))
  }

  function Reach(f: Format, w: World, steps: seq<Step>): World
    decreases |steps|
  {
    if steps == [] then w else Reach(f, Take(f, w, steps[0]), steps[1..])
  }

  // -------------------------------------------------------------- invariant

  /** All chunks of a snapshot's body are stored under the revision. */
  predicate Kept(f: Format, chunks: map<ChunkId, Chunk>, s: Snapshot, revision: int) {
    RevisionDrawn(revision) && Encode(f.codec, f.json(s)).Ok?
    && Stored(chunks, revision, Encode(f.codec, f.json(s)).value)
  }

  predicate Unpublished(trail: seq<Published>, revision: int) {
    forall i | 0 <= i < |trail| :: trail[i].revision != revision
  }

  /** What a process holds is backed by the object and its past. */
  predicate Backed(f: Format, w: World, phase: Phase) {
    match phase
    case Closed => true
    case Creating(revision) => Kept(f, w.store.chunks, EMPTY, revision) && Unpublished(w.trail, revision)
    case Fetching(seen) => exists i :: 0 <= i < |w.trail| && seen == HeadFor(f, w.trail[i].snap, w.trail[i].revision)
    case Ready(snap, generation, pending) =>
      && Published(generation, snap) in w.trail
      && (pending.Some? ==>
            && Kept(f, w.store.chunks, pending.value.next, pending.value.revision)
            && Unpublished(w.trail, pending.value.revision)
            && Sound(f.hash, pending.value.next) && Later(snap, pending.value.next))
  }

  function Claimed(phase: Phase): Option<int> {
    if phase.Creating? then Some(phase.revision)
    else if phase.Ready? && phase.pending.Some? then Some(phase.pending.value.revision)
    else None
  }

  /** No two processes have written chunks under one revision. */
  predicate ClaimsDistinct(phases: map<int, Phase>) {
    forall p, q | p in phases && q in phases && p != q && Claimed(phases[p]).Some? ::
        Claimed(phases[p]) != Claimed(phases[q])
  }

  predicate TrailSound(f: Format, trail: seq<Published>) {
    && (forall i, j | 0 <= i < j < |trail| :: trail[i].revision != trail[j].revision)
    && (forall i | 0 <= i < |trail| :: Sound(f.hash, trail[i].snap))
    && (forall i, j | 0 <= i <= j < |trail| :: Later(trail[i].snap, trail[j].snap))
  }

  predicate HeadIsLast(f: Format, w: World) {
    if w.trail == [] then w.store.head.None?
    else w.store.head == Some(HeadFor(f, w.trail[|w.trail| - 1].snap, w.trail[|w.trail| - 1].revision))
  }

  predicate WorldInv(f: Format, w: World) {
    && TrailSound(f, w.trail) && HeadIsLast(f, w) && ClaimsDistinct(w.phases)
    && (forall i | 0 <= i < |w.trail| :: Kept(f, w.store.chunks, w.trail[i].snap, w.trail[i].revision))
    && (forall p | p in w.phases :: Backed(f, w, w.phases[p]))
  }

  // ------------------------------------------------------------- step lemmas

  predicate Grows(chunks: map<ChunkId, Chunk>, next: map<ChunkId, Chunk>) {
    forall id | id in chunks :: id in next && next[id] == chunks[id]
  }

  lemma KeptStays(f: Format, chunks: map<ChunkId, Chunk>, next: map<ChunkId, Chunk>, s: Snapshot, revision: int)
    requires Kept(f, chunks, s, revision) && Grows(chunks, next)
    ensures Kept(f, next, s, revision)
  {
    hide Encode;
  }

  /** A kept revision has its first chunk in the store, so it cannot be drawn again. */
  lemma KeptHasFirst(f: Format, chunks: map<ChunkId, Chunk>, s: Snapshot, revision: int)
    requires Kept(f, chunks, s, revision)
    ensures ChunkId(revision, 0) in chunks
  {
    assert |Encode(f.codec, f.json(s)).value| >= 1;
  }

  lemma BackedStays(f: Format, w: World, next: World, phase: Phase)
    requires Backed(f, w, phase) && next.trail == w.trail && Grows(w.store.chunks, next.store.chunks)
    ensures Backed(f, next, phase)
  {
    hide Sound, Later, Kept, HeadFor;
    if phase.Creating? { KeptStays(f, w.store.chunks, next.store.chunks, EMPTY, phase.revision); }
    if phase.Ready? && phase.pending.Some? {
      KeptStays(f, w.store.chunks, next.store.chunks, phase.pending.value.next, phase.pending.value.revision);
    }
  }

  /** A step that publishes nothing and gives one process a backed phase. */
  lemma QuietStep(f: Format, w: World, next: World, p: int, phase: Phase)
    requires WorldInv(f, w) && next.trail == w.trail && next.store.head == w.store.head
    requires Grows(w.store.chunks, next.store.chunks) && next.phases == w.phases[p := phase]
    requires Backed(f, next, phase)
    requires Claimed(phase).Some? ==> forall q | q in w.phases && q != p :: Claimed(w.phases[q]) != Claimed(phase)
    ensures WorldInv(f, next)
  {
    hide TrailSound, Kept, Backed, HeadFor;
    forall i | 0 <= i < |w.trail| ensures Kept(f, next.store.chunks, next.trail[i].snap, next.trail[i].revision) {
      KeptStays(f, w.store.chunks, next.store.chunks, w.trail[i].snap, w.trail[i].revision);
    }
    forall q | q in next.phases ensures Backed(f, next, next.phases[q]) {
      if q != p { BackedStays(f, w, next, w.phases[q]); }
    }
  }

  /** Newly staged chunks take a revision that nobody has used. */
  lemma StagedFresh(f: Format, w: World, s: Snapshot, revision: int, p: int)
    requires WorldInv(f, w) && RevisionDrawn(revision) && Staged(f, w.store, s, revision).Some?
    ensures var o := Staged(f, w.store, s, revision).value;
            && Kept(f, o.chunks, s, revision) && Grows(w.store.chunks, o.chunks) && o.head == w.store.head
            && Unpublished(w.trail, revision) && forall q | q in w.phases :: Claimed(w.phases[q]) != Some(revision)
  {
    ChunksCreated(w.store, revision, Encode(f.codec, f.json(s)).value);
    hide CreateChunks, Encode, Kept, TrailSound;
    assert ChunkId(revision, 0) !in w.store.chunks;
    forall i | 0 <= i < |w.trail| ensures w.trail[i].revision != revision {
      KeptHasFirst(f, w.store.chunks, w.trail[i].snap, w.trail[i].revision);
    }
    forall q | q in w.phases ensures Claimed(w.phases[q]) != Some(revision) {
      assert Backed(f, w, w.phases[q]);
      if Claimed(w.phases[q]).Some? { ClaimHasFirst(f, w, w.phases[q]); }
    }
    assert Kept(f, Staged(f, w.store, s, revision).value.chunks, s, revision) by {
      StagedKept(f, w.store, s, revision);
    }
  }

  lemma StagedKept(f: Format, o: Object, s: Snapshot, revision: int)
    requires RevisionDrawn(revision) && Staged(f, o, s, revision).Some?
    ensures Kept(f, Staged(f, o, s, revision).value.chunks, s, revision)
  {
    ChunksCreated(o, revision, Encode(f.codec, f.json(s)).value);
  }

  lemma ClaimHasFirst(f: Format, w: World, phase: Phase)
    requires Backed(f, w, phase) && Claimed(phase).Some?
    ensures ChunkId(Claimed(phase).value, 0) in w.store.chunks
  {
    if phase.Creating? {
      KeptHasFirst(f, w.store.chunks, EMPTY, phase.revision);
    } else {
      KeptHasFirst(f, w.store.chunks, phase.pending.value.next, phase.pending.value.revision);
    }
  }

  lemma BackedUnderPublish(f: Format, w: World, next: World, entry: Published, phase: Phase)
    requires Backed(f, w, phase) && next.trail == w.trail + [entry] && next.store.chunks == w.store.chunks
    requires Claimed(phase) != Some(entry.revision)
    ensures Backed(f, next, phase)
  {
    hide Sound, Later, Kept, HeadFor;
    if phase.Fetching? {
      var i :| 0 <= i < |w.trail| && phase.seen == HeadFor(f, w.trail[i].snap, w.trail[i].revision);
      assert next.trail[i] == w.trail[i];
    }
  }

  lemma TrailExtends(f: Format, trail: seq<Published>, entry: Published)
    requires TrailSound(f, trail) && Unpublished(trail, entry.revision) && Sound(f.hash, entry.snap)
    requires trail != [] ==> Later(trail[|trail| - 1].snap, entry.snap)
    ensures TrailSound(f, trail + [entry])
  {
    hide Sound, Later;
    LaterReflexive(entry.snap);
    forall i | 0 <= i < |trail| ensures Later(trail[i].snap, entry.snap) {
      LaterTransitive(trail[i].snap, trail[|trail| - 1].snap, entry.snap);
    }
  }

  /** A step that publishes an entry whose chunks are kept. */
  lemma PublishStep(f: Format, w: World, next: World, p: int, phase: Phase, entry: Published)
    requires WorldInv(f, w) && p in w.phases && Claimed(w.phases[p]) == Some(entry.revision)
    requires next
         == World(w.store.(head := Some(HeadFor(f, entry.snap, entry.revision))), w.phases[p := phase],
                  w.trail + [entry])
    requires Kept(f, w.store.chunks, entry.snap, entry.revision) && Unpublished(w.trail, entry.revision)
    requires Sound(f.hash, entry.snap)
    requires w.trail != [] ==> Later(w.trail[|w.trail| - 1].snap, entry.snap)
    requires Claimed(phase).None? && Backed(f, next, phase)
    ensures WorldInv(f, next)
  {
    hide Backed, Kept, HeadFor, Sound, Later;
    TrailExtends(f, w.trail, entry);
    hide TrailSound;
    forall q | q in next.phases ensures Backed(f, next, next.phases[q]) {
      if q != p {
        assert Claimed(w.phases[q]) != Some(entry.revision);
        BackedUnderPublish(f, w, next, entry, w.phases[q]);
      }
    }
  }

  /** The generation of a ready process that swaps is the head: what it builds on is the last value. */
  lemma SwapBuildsOnLast(f: Format, w: World, generation: int, snap: Snapshot, head: Head)
    requires WorldInv(f, w) && Published(generation, snap) in w.trail && SwapHead(w.store, head, generation, false).Ok?
    ensures w.trail != [] && w.trail[|w.trail| - 1] == Published(generation, snap)
  {
    hide Kept, Backed, Sound, Later;
    var i :| 0 <= i < |w.trail| && w.trail[i] == Published(generation, snap);
    var last := |w.trail| - 1;
    assert w.trail[last].revision == generation == w.trail[i].revision;
  }

  /** Any process that reads a head the object ever had gets the snapshot published under it. */
  lemma EveryHeadOpens(f: Format, w: World, i: nat)
    requires Trusted(f) && WorldInv(f, w) && i < |w.trail|
    ensures Opened(f, HeadFor(f, w.trail[i].snap, w.trail[i].revision), w.store.chunks)
         == Ready(w.trail[i].snap, w.trail[i].revision, None)
  {
    var s, revision := w.trail[i].snap, w.trail[i].revision;
    assert Kept(f, w.store.chunks, s, revision) && Sound(f.hash, s);
    assert ValidSnapshot(f.hash, s);
    hide Sound, WorldInv, ValidSnapshot;
    WrittenIsReadable(f.codec, f.json(s), revision, w.store.chunks);
    hide ReadUnder, Stored, Encode, Faithful;
  }

  /** What the invariant says of one process. */
  lemma ProcessFacts(f: Format, w: World, p: int)
    requires WorldInv(f, w)
    ensures HeadIsLast(f, w) && Backed(f, w, PhaseOf(w, p))
    ensures PhaseOf(w, p).Ready? ==> Sound(f.hash, PhaseOf(w, p).snap)
  {
    hide Kept, HeadFor, Sound, Later;
    if PhaseOf(w, p).Ready? {
      assert Backed(f, w, PhaseOf(w, p));
    }
  }

  lemma OpenKeeps(f: Format, w: World, p: int)
    requires Trusted(f) && WorldInv(f, w)
    ensures WorldInv(f, Take(f, w, FetchChunks(p)))
  {
    hide WorldInv, Opened, Trusted, HeadFor, TrailSound, Kept, Sound, Later;
    var phase := PhaseOf(w, p);
    if phase.Fetching? {
      ProcessFacts(f, w, p);
      var i :| 0 <= i < |w.trail| && phase.seen == HeadFor(f, w.trail[i].snap, w.trail[i].revision);
      EveryHeadOpens(f, w, i);
      var ready := Ready(w.trail[i].snap, w.trail[i].revision, None);
      assert w.trail[i] in w.trail;
      QuietStep(f, w, Enter(w, p, ready), p, ready);
    }
  }

  lemma FetchKeeps(f: Format, w: World, p: int)
    requires WorldInv(f, w)
    ensures WorldInv(f, Take(f, w, FetchHead(p)))
  {
    if PhaseOf(w, p).Closed? && w.store.head.Some? {
      var phase := Fetching(w.store.head.value);
      hide Kept, TrailSound, HeadFor;
      assert w.trail[|w.trail| - 1] in w.trail;
      QuietStep(f, w, Enter(w, p, phase), p, phase);
    }
  }

  lemma StageKeeps(f: Format, w: World, p: int, s: Snapshot, revision: int, phase: Phase)
    requires WorldInv(f, w) && RevisionDrawn(revision) && Staged(f, w.store, s, revision).Some?
    requires || (phase == Creating(revision) && s == EMPTY)
             || (phase.Ready? && phase.pending == Some(Pending(s, revision))
                 && Published(phase.generation, phase.snap) in w.trail
                 && Sound(f.hash, s) && Later(phase.snap, s))
    ensures WorldInv(f, Enter(w.(store := Staged(f, w.store, s, revision).value), p, phase))
  {
    hide WorldInv, Sound, Later, Kept, Staged, Unpublished;
    StagedFresh(f, w, s, revision, p);
    QuietStep(f, w, Enter(w.(store := Staged(f, w.store, s, revision).value), p, phase), p, phase);
  }

  lemma StartWriteKeeps(f: Format, w: World, p: int, c: Command, draw: Draw, revision: int)
    requires WorldInv(f, w)
    ensures WorldInv(f, Take(f, w, StartWrite(p, c, draw, revision)))
  {
    hide WorldInv, Sound, Later, Build, ValidSnapshot, Staged, Kept, Unpublished, HeadFor;
    var phase := PhaseOf(w, p);
    if phase.Ready? && phase.pending.None? && RevisionDrawn(revision) && Build(f.hash, phase.snap, c, draw).Ok? {
      var next := Build(f.hash, phase.snap, c, draw).value;
      ProcessFacts(f, w, p);
      BuildKeeps(f.hash, phase.snap, c, draw, next);
      if ValidSnapshot(f.hash, next) && Staged(f, w.store, next, revision).Some? {
        StageKeeps(f, w, p, next, revision, phase.(pending := Some(Pending(next, revision))));
      }
    }
  }

  lemma SwapWriteKeeps(f: Format, w: World, p: int, acknowledged: bool)
    requires WorldInv(f, w)
    ensures WorldInv(f, Take(f, w, SwapWrite(p, acknowledged)))
  {
    hide WorldInv, Sound, Later, Kept, HeadFor, Unpublished;
    var phase := PhaseOf(w, p);
    if phase.Ready? && phase.pending.Some? {
      var pending := phase.pending.value;
      var head := HeadFor(f, pending.next, pending.revision);
      ProcessFacts(f, w, p);
      if SwapHead(w.store, head, phase.generation, false).Err? {
        QuietStep(f, w, Enter(w, p, phase.(pending := None)), p, phase.(pending := None));
      } else {
        var entry := Published(pending.revision, pending.next);
        SwapBuildsOnLast(f, w, phase.generation, phase.snap, head);
        assert entry in w.trail + [entry];
        PublishStep(f, w, Take(f, w, SwapWrite(p, acknowledged)), p,
                    if acknowledged then Ready(pending.next, pending.revision, None)
                        else phase.(pending := None), entry);
      }
    }
  }

  lemma SwapCreateKeeps(f: Format, w: World, p: int)
    requires WorldInv(f, w)
    ensures WorldInv(f, Take(f, w, SwapCreate(p)))
  {
    hide WorldInv, Sound, Later, HeadFor, Kept;
    var phase := PhaseOf(w, p);
    if phase.Creating? {
      ProcessFacts(f, w, p);
      if SwapHead(w.store, HeadFor(f, EMPTY, phase.revision), 0, true).Err? {
        QuietStep(f, w, Enter(w, p, Closed), p, Closed);
      } else {
        assert w.trail == [];
        EmptySound(f.hash);
        PublishStep(f, w, Take(f, w, SwapCreate(p)), p, Closed, Published(phase.revision, EMPTY));
      }
    }
  }

  lemma AbandonKeeps(f: Format, w: World, p: int)
    requires WorldInv(f, w)
    ensures WorldInv(f, Take(f, w, Abandon(p)))
  {
    hide WorldInv, Sound, Later, Kept, Unpublished;
    var phase := PhaseOf(w, p);
    if phase.Ready? {
      ProcessFacts(f, w, p);
      QuietStep(f, w, Enter(w, p, phase.(pending := None)), p, phase.(pending := None));
    }
  }

  lemma TakeKeeps(f: Format, w: World, step: Step)
    requires Trusted(f) && WorldInv(f, w)
    ensures WorldInv(f, Take(f, w, step)) && w.trail <= Take(f, w, step).trail
  {
    hide WorldInv, Trusted, Opened, Staged, Build, ValidSnapshot, HeadFor;
    match step
    case FetchHead(p) => FetchKeeps(f, w, p);
    case FetchChunks(p) => OpenKeeps(f, w, p);
    case StartCreate(p, revision) =>
      if PhaseOf(w, p).Closed? && RevisionDrawn(revision) && Staged(f, w.store, EMPTY, revision).Some? {
        StageKeeps(f, w, p, EMPTY, revision, Creating(revision));
      }
    case SwapCreate(p) => SwapCreateKeeps(f, w, p);
    case StartWrite(p, c, draw, revision) => StartWriteKeeps(f, w, p, c, draw, revision);
    case SwapWrite(p, acknowledged) => SwapWriteKeeps(f, w, p, acknowledged);
    case Abandon(p) => AbandonKeeps(f, w, p);
    case Stop(p) => QuietStep(f, w, Enter(w, p, Closed), p, Closed);
  }

  lemma {:induction false} ReachKeeps(f: Format, w: World, steps: seq<Step>)
    requires Trusted(f) && WorldInv(f, w)
    ensures WorldInv(f, Reach(f, w, steps)) && w.trail <= Reach(f, w, steps).trail
    decreases |steps|
  {
    if steps == [] {
    } else {
      TakeKeeps(f, w, steps[0]);
      hide WorldInv, Take, Trusted;
      ReachKeeps(f, Take(f, w, steps[0]), steps[1..]);
    }
  }

  // -------------------------------------------------------------- theorems

  lemma NothingHolds(f: Format)
    ensures WorldInv(f, NOTHING)
  {
  }

  /** No update is lost: however the processes interleave, every value the head
      takes extends every value it had before, in events, decisions and progress;
      no revision is ever used twice. */
  lemma NoLostUpdate(f: Format, steps: seq<Step>, i: nat, j: nat)
    requires Trusted(f) && i < j < |Reach(f, NOTHING, steps).trail|
    ensures var trail := Reach(f, NOTHING, steps).trail;
            && Later(trail[i].snap, trail[j].snap) && trail[i].revision != trail[j].revision
            && Sound(f.hash, trail[j].snap)
  {
    NothingHolds(f);
    ReachKeeps(f, NOTHING, steps);
    hide Reach, Later, Sound, Kept, Backed;
  }

  /** A process only ever holds a snapshot published under its generation, and the
      current head extends it: an acknowledged write is in every later head. */
  lemma MemoryIsPublished(f: Format, steps: seq<Step>, p: int)
    requires Trusted(f) && PhaseOf(Reach(f, NOTHING, steps), p).Ready?
    ensures var w := Reach(f, NOTHING, steps);
            var phase := PhaseOf(w, p);
            && Published(phase.generation, phase.snap) in w.trail && w.trail != []
            && Later(phase.snap, w.trail[|w.trail| - 1].snap)
  {
    NothingHolds(f);
    ReachKeeps(f, NOTHING, steps);
    var w := Reach(f, NOTHING, steps);
    hide Reach, Later, Sound, Kept, HeadFor;
    assert Backed(f, w, PhaseOf(w, p));
    var i :| 0 <= i < |w.trail| && w.trail[i] == Published(PhaseOf(w, p).generation, PhaseOf(w, p).snap);
  }

  /** The visible head always opens as the last published snapshot. */
  lemma HeadOpens(f: Format, steps: seq<Step>)
    requires Trusted(f)
    ensures var w := Reach(f, NOTHING, steps);
            if w.trail == [] then w.store.head.None?
            else var last := w.trail[|w.trail| - 1];
                 w.store.head.Some? && Opened(f, w.store.head.value, w.store.chunks)
                     == Ready(last.snap, last.revision, None)
  {
    hide WorldInv, Reach, HeadFor, Opened, Trusted;
    NothingHolds(f);
    ReachKeeps(f, NOTHING, steps);
    var w := Reach(f, NOTHING, steps);
    ProcessFacts(f, w, 0);
    if w.trail != [] { EveryHeadOpens(f, w, |w.trail| - 1); }
  }

  /** A head that a reader fetched still opens after any further steps, even once it was replaced. */
  lemma FetchedHeadStaysOpen(f: Format, steps: seq<Step>, more: seq<Step>, i: nat)
    requires Trusted(f) && i < |Reach(f, NOTHING, steps).trail|
    ensures var before := Reach(f, NOTHING, steps);
            var seen := before.trail[i];
            Opened(f, HeadFor(f, seen.snap, seen.revision), Reach(f, before, more).store.chunks)
                == Ready(seen.snap, seen.revision, None)
  {
    NothingHolds(f);
    hide WorldInv, Reach, HeadFor, Opened, Trusted;
    ReachKeeps(f, NOTHING, steps);
    var before := Reach(f, NOTHING, steps);
    ReachKeeps(f, before, more);
    EveryHeadOpens(f, Reach(f, before, more), i);
  }
}
