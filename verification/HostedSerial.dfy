/** The shared object as one history: the values of the head are those of a single
    control plane run command by command, a swap succeeds exactly when nothing
    was published since, and a process that opens anew can always write. */
module HostedSerial {
  import opened Common
  import opened ControlPlaneGate
  import opened ControlPlaneHistory
  import P = ControlPlane
  import opened HostedObject
  import opened HostedFleet

  // ------------------------------------------------------- one serial history

  lemma {:induction false} ReachAppends(f: Format, w: World, steps: seq<Step>, step: Step)
    ensures Reach(f, w, steps + [step]) == Take(f, Reach(f, w, steps), step)
    decreases |steps|
  {
    hide Take;
    if steps == [] {
      assert [] + [step] == [step] && [step][1..] == [];
    } else {
      assert (steps + [step])[1..] == steps[1..] + [step];
      ReachAppends(f, Take(f, w, steps[0]), steps[1..], step);
    }
  }

  /** Some step of the history asked for this write: its command makes `next` of `from`. */
  predicate Asked(f: Format, steps: seq<Step>, from: P.Snapshot, next: P.Snapshot, revision: int) {
    exists k ::
      && 0 <= k < |steps| && steps[k].StartWrite? && steps[k].revision == revision
      && P.Build(f.hash, from, steps[k].command, steps[k].draw) == Ok(next)
  }

  predicate CreateAsked(steps: seq<Step>, revision: int) {
    exists k :: 0 <= k < |steps| && steps[k].StartCreate? && steps[k].revision == revision
  }

  /** The first value is the empty control plane, and every other one what a command
      of the history made of the value just before it. */
  predicate Serial(f: Format, steps: seq<Step>, trail: seq<Published>) {
    && (trail != [] ==> trail[0].snap == P.EMPTY && CreateAsked(steps, trail[0].revision))
    && forall i | 0 < i < |trail| :: Asked(f, steps, trail[i - 1].snap, trail[i].snap, trail[i].revision)
  }

  predicate PhaseAsked(f: Format, steps: seq<Step>, phase: Phase) {
    match phase
    case Creating(revision) => CreateAsked(steps, revision)
    case Ready(snap, _, Some(pending)) => Asked(f, steps, snap, pending.next, pending.revision)
    case _ => true
  }

  predicate AllAsked(f: Format, steps: seq<Step>, phases: map<int, Phase>) {
    forall p | p in phases :: PhaseAsked(f, steps, phases[p])
  }

  lemma AskedStays(f: Format, steps: seq<Step>, step: Step, phase: Phase)
    requires PhaseAsked(f, steps, phase)
    ensures PhaseAsked(f, steps + [step], phase)
  {
    hide P.Build;
    var more := steps + [step];
    assert forall k | 0 <= k < |steps| :: more[k] == steps[k];
  }

  lemma SerialStays(f: Format, steps: seq<Step>, step: Step, trail: seq<Published>)
    requires Serial(f, steps, trail)
    ensures Serial(f, steps + [step], trail)
  {
    hide P.Build;
    var more := steps + [step];
    assert forall k | 0 <= k < |steps| :: more[k] == steps[k];
  }

  /** A step changes at most its own process's phase, to one that was asked for. */
  lemma PhaseStep(f: Format, w: World, steps: seq<Step>, step: Step)
    requires AllAsked(f, steps, w.phases)
    ensures AllAsked(f, steps + [step], Take(f, w, step).phases)
  {
    hide P.Build, P.ValidSnapshot, Staged, HeadFor, SwapHead, ReadUnder, PhaseAsked;
    var next := Take(f, w, step);
    forall p | p in next.phases ensures PhaseAsked(f, steps + [step], next.phases[p]) {
      if p in w.phases && next.phases[p] == w.phases[p] {
        AskedStays(f, steps, step, w.phases[p]);
      } else {
        NewPhase(f, w, steps, step);
      }
    }
  }

  lemma NewPhase(f: Format, w: World, steps: seq<Step>, step: Step)
    requires AllAsked(f, steps, w.phases)
    ensures PhaseAsked(f, steps + [step], PhaseOf(Take(f, w, step), step.p))
  {
    hide P.Build, P.ValidSnapshot, Staged, HeadFor, SwapHead, ReadUnder;
    var more := steps + [step];
    assert more[|steps|] == step;
    if step.p in w.phases { AskedStays(f, steps, step, w.phases[step.p]); }
  }

  lemma TrailStep(f: Format, w: World, steps: seq<Step>, step: Step)
    requires Trusted(f) && WorldInv(f, w) && Serial(f, steps, w.trail) && AllAsked(f, steps, w.phases)
    ensures Serial(f, steps + [step], Take(f, w, step).trail)
  {
    hide WorldInv, P.Build, P.ValidSnapshot, Staged, HeadFor, ReadUnder, Serial;
    var next := Take(f, w, step);
    SerialStays(f, steps, step, w.trail);
    if next.trail != w.trail {
      var entry := next.trail[|w.trail|];
      assert next.trail == w.trail + [entry];
      var phase := PhaseOf(w, step.p);
      AskedStays(f, steps, step, phase);
      if step.SwapWrite? {
        SwapWriteEntry(f, w, step.p, step.acknowledged);
      } else {
        ProcessFacts(f, w, step.p);
      }
      hide Take;
      SerialMore(f, steps + [step], w.trail, entry);
    }
  }

  lemma SwapWriteEntry(f: Format, w: World, p: int, acknowledged: bool)
    requires WorldInv(f, w) && Take(f, w, SwapWrite(p, acknowledged)).trail != w.trail
    ensures var phase := PhaseOf(w, p);
            && phase.Ready? && phase.pending.Some? && w.trail != []
            && w.trail[|w.trail| - 1].snap == phase.snap
            && Take(f, w, SwapWrite(p, acknowledged)).trail
               == w.trail + [Published(phase.pending.value.revision, phase.pending.value.next)]
  {
    hide WorldInv, HeadFor;
    var phase := PhaseOf(w, p);
    var pending := phase.pending.value;
    ProcessFacts(f, w, p);
    SwapBuildsOnLast(f, w, phase.generation, phase.snap, HeadFor(f, pending.next, pending.revision));
  }

  lemma SerialMore(f: Format, steps: seq<Step>, trail: seq<Published>, entry: Published)
    requires Serial(f, steps, trail)
    requires if trail == [] then entry.snap == P.EMPTY && CreateAsked(steps, entry.revision)
             else Asked(f, steps, trail[|trail| - 1].snap, entry.snap, entry.revision)
    ensures Serial(f, steps, trail + [entry])
  {
    hide Asked, CreateAsked;
  }

  lemma {:induction false} ReachSerial(f: Format, steps: seq<Step>)
    requires Trusted(f)
    ensures var w := Reach(f, NOTHING, steps);
            WorldInv(f, w) && Serial(f, steps, w.trail) && AllAsked(f, steps, w.phases)
    decreases |steps|
  {
    hide WorldInv, Take, Trusted, Asked;
    NothingHolds(f);
    ReachKeeps(f, NOTHING, steps);
    if steps == [] {
    } else {
      var front, last := steps[..|steps| - 1], steps[|steps| - 1];
      assert steps == front + [last];
      ReachSerial(f, front);
      ReachAppends(f, NOTHING, front, last);
      hide Reach, Serial, AllAsked;
      TrailStep(f, Reach(f, NOTHING, front), front, last);
      PhaseStep(f, Reach(f, NOTHING, front), front, last);
    }
  }

  /** However the processes interleave, the values of the head are one serial run: it
      starts empty, and each further value is what one command asked for in the
      history makes of the value just before it. */
  lemma HeadIsOneHistory(f: Format, steps: seq<Step>, i: nat)
    requires Trusted(f) && i < |Reach(f, NOTHING, steps).trail|
    ensures var trail := Reach(f, NOTHING, steps).trail;
            if i == 0 then trail[0].snap == P.EMPTY && CreateAsked(steps, trail[0].revision)
            else Asked(f, steps, trail[i - 1].snap, trail[i].snap, trail[i].revision)
  {
    hide WorldInv, Reach, Asked, CreateAsked;
    ReachSerial(f, steps);
  }

  // --------------------------------------------------------------- the swap

  /** A swap publishes the pending snapshot if and only if the last value published is
      the one its process built on; otherwise it changes no object and the process
      keeps what it had. */
  lemma SwapPublishesIff(f: Format, w: World, p: int, acknowledged: bool)
    requires Trusted(f) && WorldInv(f, w) && PhaseOf(w, p).Ready? && PhaseOf(w, p).pending.Some?
    ensures var phase, next := PhaseOf(w, p), Take(f, w, SwapWrite(p, acknowledged));
            var pending := phase.pending.value;
            && w.trail != []
            && if w.trail[|w.trail| - 1] == Published(phase.generation, phase.snap)
               then
                 && next.trail == w.trail + [Published(pending.revision, pending.next)]
                 && next.store == w.store.(head := Some(HeadFor(f, pending.next, pending.revision)))
                 && next.phases == w.phases[p := if acknowledged then Ready(pending.next, pending.revision, None)
                                                 else Ready(phase.snap, phase.generation, None)]
               else next == w.(phases := w.phases[p := Ready(phase.snap, phase.generation, None)])
  {
    hide WorldInv, Trusted;
    var phase := PhaseOf(w, p);
    var pending := phase.pending.value;
    ProcessFacts(f, w, p);
    assert HeadFor(f, w.trail[|w.trail| - 1].snap, w.trail[|w.trail| - 1].revision).revision
        == w.trail[|w.trail| - 1].revision;
    if w.trail[|w.trail| - 1].revision == phase.generation {
      SwapBuildsOnLast(f, w, phase.generation, phase.snap, HeadFor(f, pending.next, pending.revision));
    }
  }

  // --------------------------------------------------------------- progress

  /** A body of admissible size can be stored under a revision that has no chunk yet. */
  lemma CanStage(f: Format, o: Object, s: P.Snapshot, revision: int)
    requires |f.json(s)| <= MAX_STATE_BYTES && forall id | id in o.chunks :: id.revision != revision
    ensures Staged(f, o, s, revision).Some?
  {
    hide Pieces, Numbered;
  }

  predicate Unused(o: Object, revision: int) { forall id | id in o.chunks :: id.revision != revision }

  /** The steps of one write by a process that starts over. */
  function WriteSteps(p: int, c: P.Command, draw: P.Draw, revision: int): seq<Step> {
    [Stop(p), FetchHead(p), FetchChunks(p), StartWrite(p, c, draw, revision), SwapWrite(p, true)]
  }

  lemma FiveSteps(f: Format, w: World, a: Step, b: Step, c: Step, d: Step, e: Step)
    ensures Reach(f, w, [a, b, c, d, e]) == Take(f, Take(f, Take(f, Take(f, Take(f, w, a), b), c), d), e)
  {
    hide Take;
    ReachAppends(f, w, [a, b, c, d], e);
    ReachAppends(f, w, [a, b, c], d);
    ReachAppends(f, w, [a, b], c);
    ReachAppends(f, w, [a], b);
    ReachAppends(f, w, [], a);
    assert [a, b, c, d] + [e] == [a, b, c, d, e] && [a, b, c] + [d] == [a, b, c, d] && [a, b] + [c] == [a, b, c];
    assert [a] + [b] == [a, b] && [] + [a] == [a];
  }

  /** Reopening gives the last value and touches nothing else. */
  lemma Reopens(f: Format, w: World, p: int)
    requires Trusted(f) && WorldInv(f, w) && w.trail != []
    ensures var last := w.trail[|w.trail| - 1];
            var open := Take(f, Take(f, Take(f, w, Stop(p)), FetchHead(p)), FetchChunks(p));
            open == w.(phases := w.phases[p := Ready(last.snap, last.revision, None)])
  {
    hide WorldInv, Trusted, HeadFor, Opened;
    var n := |w.trail| - 1;
    ProcessFacts(f, w, p);
    EveryHeadOpens(f, w, n);
    var stopped := Take(f, w, Stop(p));
    assert stopped == w.(phases := w.phases[p := Closed]);
    var fetching := Take(f, stopped, FetchHead(p));
    assert fetching == w.(phases := w.phases[p := Fetching(w.store.head.value)]);
    var ready := Opened(f, w.store.head.value, w.store.chunks);
    assert Take(f, fetching, FetchChunks(p)) == w.(phases := w.phases[p := ready]);
  }

  /** Whatever happened before, a process that starts over and writes alone publishes
      what its command makes of the last value: no crash, lost acknowledgement or
      failed write leaves the object stuck. */
  lemma WriterSucceeds(f: Format, steps: seq<Step>, p: int, c: P.Command, draw: P.Draw, revision: int, next: P.Snapshot)
    requires Trusted(f) && RevisionDrawn(revision) && Unused(Reach(f, NOTHING, steps).store, revision)
    requires var trail := Reach(f, NOTHING, steps).trail;
             trail != [] && P.Build(f.hash, trail[|trail| - 1].snap, c, draw) == Ok(next)
    requires P.ValidSnapshot(f.hash, next) && |f.json(next)| <= MAX_STATE_BYTES
    ensures var w := Reach(f, NOTHING, steps);
            var done := Reach(f, w, WriteSteps(p, c, draw, revision));
            && done.trail == w.trail + [Published(revision, next)]
            && PhaseOf(done, p) == Ready(next, revision, None)
  {
    hide WorldInv, Trusted, HeadFor, Opened, P.Build, P.ValidSnapshot, Staged, Unused;
    var w := Reach(f, NOTHING, steps);
    NothingHolds(f);
    ReachKeeps(f, NOTHING, steps);
    Reopens(f, w, p);
    FiveSteps(f, w, Stop(p), FetchHead(p), FetchChunks(p), StartWrite(p, c, draw, revision), SwapWrite(p, true));
    var last := w.trail[|w.trail| - 1];
    var open := w.(phases := w.phases[p := Ready(last.snap, last.revision, None)]);
    assert Staged(f, w.store, next, revision).Some? by { UnusedStages(f, w.store, next, revision); }
    TakeKeeps(f, w, Stop(p));
    TakeKeeps(f, Take(f, w, Stop(p)), FetchHead(p));
    TakeKeeps(f, Take(f, Take(f, w, Stop(p)), FetchHead(p)), FetchChunks(p));
    assert WorldInv(f, open);
    hide Reach;
    WritesFrom(f, open, p, c, draw, revision, next);
  }

  lemma UnusedStages(f: Format, o: Object, s: P.Snapshot, revision: int)
    requires |f.json(s)| <= MAX_STATE_BYTES && Unused(o, revision)
    ensures Staged(f, o, s, revision).Some?
  {
    CanStage(f, o, s, revision);
  }

  lemma WritesFrom(f: Format, w: World, p: int, c: P.Command, draw: P.Draw, revision: int, next: P.Snapshot)
    requires Trusted(f) && WorldInv(f, w) && w.trail != []
    requires PhaseOf(w, p)
          == Ready(w.trail[|w.trail| - 1].snap, w.trail[|w.trail| - 1].revision, None)
    requires RevisionDrawn(revision) && Staged(f, w.store, next, revision).Some? && P.ValidSnapshot(f.hash, next)
    requires P.Build(f.hash, w.trail[|w.trail| - 1].snap, c, draw) == Ok(next)
    ensures var done := Take(f, Take(f, w, StartWrite(p, c, draw, revision)), SwapWrite(p, true));
            && done.trail == w.trail + [Published(revision, next)]
            && PhaseOf(done, p) == Ready(next, revision, None)
  {
    hide WorldInv, Trusted, HeadFor, P.Build, P.ValidSnapshot;
    var begun := Take(f, w, StartWrite(p, c, draw, revision));
    var last := w.trail[|w.trail| - 1];
    assert begun.trail == w.trail;
    assert PhaseOf(begun, p) == Ready(last.snap, last.revision, Some(Pending(next, revision)));
    TakeKeeps(f, w, StartWrite(p, c, draw, revision));
    hide Take, Staged;
    SwapPublishesIff(f, begun, p, true);
  }

  /** Before anything is published, a process that starts over can create the object. */
  lemma CreatorSucceeds(f: Format, steps: seq<Step>, p: int, revision: int)
    requires Trusted(f) && RevisionDrawn(revision) && Unused(Reach(f, NOTHING, steps).store, revision)
    requires Reach(f, NOTHING, steps).trail == [] && |f.json(P.EMPTY)| <= MAX_STATE_BYTES
    ensures var w := Reach(f, NOTHING, steps);
            Take(f, Take(f, Take(f, w, Stop(p)), StartCreate(p, revision)), SwapCreate(p)).trail
            == [Published(revision, P.EMPTY)]
  {
    hide WorldInv, Trusted, HeadFor, Staged, Unused;
    var w := Reach(f, NOTHING, steps);
    NothingHolds(f);
    ReachKeeps(f, NOTHING, steps);
    hide Reach;
    ProcessFacts(f, w, p);
    UnusedStages(f, w.store, P.EMPTY, revision);
    StagedKeepsHead(f, w.store, P.EMPTY, revision);
  }

  lemma StagedKeepsHead(f: Format, o: Object, s: P.Snapshot, revision: int)
    requires Staged(f, o, s, revision).Some?
    ensures Staged(f, o, s, revision).value.head == o.head
  {
    hide Encode;
  }

  // ---------------------------------------------------------------- reading

  /** Whatever chunks a reader finds under the head of a body, it reads that body or
      nothing, unless it meets another one of the same digest and the same size. */
  lemma ReadsTheWritten(codec: Codec, body: Bytes, revision: int, count: int, chunks: map<ChunkId, Chunk>, limit: int)
    requires ReadUnder(codec, HeadOf(codec, revision, body, count), chunks, limit).Ok?
    ensures var read := ReadUnder(codec, HeadOf(codec, revision, body, count), chunks, limit).value;
            && |read| == |body| && |read| <= limit && codec.digest(read) == codec.digest(body)
  {
    hide Gather, ChunkFits;
  }

  /** What a head of any content needs to be read. */
  lemma ReadableIff(codec: Codec, head: Head, chunks: map<ChunkId, Chunk>, limit: int, body: Bytes)
    ensures ReadUnder(codec, head, chunks, limit) == Ok(body) <==>
              && 1 <= head.revision && head.gzip && 1 <= head.chunkCount <= MAX_CHUNKS
              && (forall i | 0 <= i < head.chunkCount ::
                    ChunkId(head.revision, i) in chunks && chunks[ChunkId(head.revision, i)].index == i
                    && |chunks[ChunkId(head.revision, i)].body| <= CHUNK_BYTES)
              && codec.unzip(Joined(Bodies(chunks, head.revision, head.chunkCount))) == Some(body)
              && |body| == head.size && |body| <= limit && codec.digest(body) == head.digest
  {
    if exists i :: 0 <= i < head.chunkCount && !ChunkFits(chunks, head.revision, i) {
      var i :| 0 <= i < head.chunkCount && !ChunkFits(chunks, head.revision, i);
    } else if head.chunkCount >= 1 {
      forall i | 0 <= i < head.chunkCount
        ensures ChunkId(head.revision, i) in chunks && chunks[ChunkId(head.revision, i)].index == i
        ensures |chunks[ChunkId(head.revision, i)].body| <= CHUNK_BYTES
      {
        assert ChunkFits(chunks, head.revision, i);
      }
      GatherIsJoined(chunks, head.revision, head.chunkCount);
    }
  }

  /** The chunk bodies of a revision in order. */
  function Bodies(chunks: map<ChunkId, Chunk>, revision: int, n: int): seq<Bytes> {
    if n <= 0 then []
    else Bodies(chunks, revision, n - 1)
         + [if ChunkId(revision, n - 1) in chunks then chunks[ChunkId(revision, n - 1)].body else []]
  }

  lemma {:induction false} GatherIsJoined(chunks: map<ChunkId, Chunk>, revision: int, n: nat)
    requires forall i | 0 <= i < n :: ChunkFits(chunks, revision, i)
    ensures |Bodies(chunks, revision, n)| == n && Gather(chunks, revision, n) == Joined(Bodies(chunks, revision, n))
    decreases n
  {
    if n == 0 {
    } else {
      GatherIsJoined(chunks, revision, n - 1);
      assert ChunkFits(chunks, revision, n - 1);
      var all := Bodies(chunks, revision, n);
      assert all[..n - 1] == Bodies(chunks, revision, n - 1) && all[..n - 1 + 1] == all;
      JoinedSplit(all, n - 1);
    }
  }
}
