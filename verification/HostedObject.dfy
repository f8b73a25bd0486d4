/** One hosted object: an immutable set of chunk documents per revision and a head
    document that names the current revision. Compression, hashing and document
    encoding are parameters. */
module HostedObject {
  import opened Common

  type Bytes = seq<bv8>

  const CHUNK_BYTES := 716_800
  const MAX_CHUNKS := 500
  const MAX_STATE_BYTES := 67_108_864

  datatype Codec = Codec(zip: Bytes -> Bytes, unzip: Bytes -> Option<Bytes>, digest: Bytes -> Id)

  /** What is assumed of compression: it can be undone, and does not blow a body
      of admissible size up beyond what a head may name. */
  ghost predicate Faithful(codec: Codec) {
    forall body: Bytes | |body| <= MAX_STATE_BYTES ::
      codec.unzip(codec.zip(body)) == Some(body) && |codec.zip(body)| <= MAX_CHUNKS * CHUNK_BYTES
  }

  datatype Chunk = Chunk(index: int, body: Bytes)
  datatype ChunkId = ChunkId(revision: int, index: int)
  datatype Head = Head(revision: int, digest: Id, size: int, chunkCount: int, gzip: bool)
  datatype Object = Object(head: Option<Head>, chunks: map<ChunkId, Chunk>)

  const NO_OBJECT := Object(None, map[])

  datatype HostedError =
    | TooLarge | ChunksUnwritten | Conflict | CommitFailed | Missing | BadMetadata | BadChunk | BadEncoding
    | DigestMismatch

  // -------------------------------------------------------------- encoding

  /** Cut into pieces of at most the chunk size, always at least one. */
  function Pieces(encoded: Bytes): (pieces: seq<Bytes>)
    ensures |pieces| >= 1
  {
    if |encoded| <= CHUNK_BYTES then [encoded]
    else [encoded[..CHUNK_BYTES]] + Pieces(encoded[CHUNK_BYTES..])
  }

  function Joined(pieces: seq<Bytes>): Bytes {
    if pieces == [] then [] else pieces[0] + Joined(pieces[1..])
  }

  function Numbered(pieces: seq<Bytes>): (chunks: seq<Chunk>)
    ensures |chunks| == |pieces| && forall i | 0 <= i < |pieces| :: chunks[i] == Chunk(i, pieces[i])
  {
    seq(|pieces|, i requires 0 <= i < |pieces| => Chunk(i, pieces[i]))
  }

  function Encode(codec: Codec, body: Bytes): Result<seq<Chunk>, HostedError> {
    if |body| > MAX_STATE_BYTES then Err(TooLarge) else Ok(Numbered(Pieces(codec.zip(body))))
  }

  function HeadOf(codec: Codec, revision: int, body: Bytes, chunkCount: int): Head {
    Head(revision, codec.digest(body), |body|, chunkCount, true)
  }

  function Decode(codec: Codec, encoded: Bytes, expected: int, limit: int): Result<Bytes, HostedError> {
    if expected < 0 || expected > limit then Err(TooLarge)
    else match codec.unzip(encoded)
      case None => Err(BadEncoding)
      case Some(body) => if |body| != expected || |body| > limit then Err(BadEncoding) else Ok(body)
  }

  // --------------------------------------------------------------- reading

  predicate ChunkFits(chunks: map<ChunkId, Chunk>, revision: int, i: int) {
    var id := ChunkId(revision, i);
    id in chunks && chunks[id].index == i && |chunks[id].body| <= CHUNK_BYTES
  }

  function Gather(chunks: map<ChunkId, Chunk>, revision: int, n: nat): Bytes
    requires forall i | 0 <= i < n :: ChunkFits(chunks, revision, i)
  {
    if n == 0 then []
    else
      assert ChunkFits(chunks, revision, n - 1);
      Gather(chunks, revision, n - 1) + chunks[ChunkId(revision, n - 1)].body
  }

  /** What a reader makes of a head it has fetched, and the chunks it then fetches. */
  function ReadUnder(codec: Codec, head: Head, chunks: map<ChunkId, Chunk>, limit: int): Result<Bytes, HostedError> {
    if head.revision <= 0 || !head.gzip || head.chunkCount < 1 || head.chunkCount > MAX_CHUNKS then Err(BadMetadata)
    else if exists i :: 0 <= i < head.chunkCount && !ChunkFits(chunks, head.revision, i) then Err(BadChunk)
    else
      match Decode(codec, Gather(chunks, head.revision, head.chunkCount), head.size, limit)
      case Err(error) => Err(error)
      case Ok(body) => if codec.digest(body) != head.digest then Err(DigestMismatch) else Ok(body)
  }

  function Read(codec: Codec, o: Object, limit: int): Result<(Bytes, int), HostedError> {
    if o.head.None? then Err(Missing)
    else match ReadUnder(codec, o.head.value, o.chunks, limit)
      case Err(error) => Err(error)
      case Ok(body) => Ok((body, o.head.value.revision))
  }

  // --------------------------------------------------------------- writing

  function Documents(revision: int, chunks: seq<Chunk>): map<ChunkId, Chunk> {
    map i | 0 <= i < |chunks| :: ChunkId(revision, i) := chunks[i]
  }

  /** The batch of creates fails as a whole if any of its documents exists. */
  function CreateChunks(o: Object, revision: int, chunks: seq<Chunk>): Result<Object, HostedError> {
    if exists i :: 0 <= i < |chunks| && ChunkId(revision, i) in o.chunks then Err(ChunksUnwritten)
    else Ok(o.(chunks := o.chunks + Documents(revision, chunks)))
  }

  /** The transaction on the head document. */
  function SwapHead(o: Object, head: Head, generation: int, createOnly: bool): Result<Object, HostedError> {
    if createOnly then
      if o.head.Some? then Err(Conflict) else Ok(o.(head := Some(head)))
    else if o.head.None? || o.head.value.revision != generation then Err(Conflict)
    else Ok(o.(head := Some(head)))
  }

  // --------------------------------------------------------------- lemmas

  lemma {:induction false} PiecesJoin(encoded: Bytes)
    ensures Joined(Pieces(encoded)) == encoded
    ensures forall p | p in Pieces(encoded) :: |p| <= CHUNK_BYTES
    ensures forall m: nat | m >= 1 && |encoded| <= m * CHUNK_BYTES :: |Pieces(encoded)| <= m
    decreases |encoded|
  {
    if |encoded| <= CHUNK_BYTES {
      assert Joined([encoded]) == encoded + Joined([]);
    } else {
      var rest := encoded[CHUNK_BYTES..];
      PiecesJoin(rest);
      assert Pieces(encoded)[1..] == Pieces(rest);
      forall m: nat | m >= 1 && |encoded| <= m * CHUNK_BYTES ensures |Pieces(encoded)| <= m {
        assert m >= 2 && |rest| <= (m - 1) * CHUNK_BYTES;
      }
    }
  }

  /** All chunks of an encoding are stored under a revision. */
  predicate Stored(chunks: map<ChunkId, Chunk>, revision: int, parts: seq<Chunk>) {
    forall i | 0 <= i < |parts| :: ChunkId(revision, i) in chunks && chunks[ChunkId(revision, i)] == parts[i]
  }

  lemma {:induction false} JoinedSplit(pieces: seq<Bytes>, n: nat)
    requires n < |pieces|
    ensures Joined(pieces[..n + 1]) == Joined(pieces[..n]) + pieces[n]
    decreases n
  {
    if n == 0 {
      assert pieces[..1][1..] == [] && pieces[..0] == [];
    } else {
      JoinedSplit(pieces[1..], n - 1);
      assert pieces[..n + 1][1..] == pieces[1..][..n] && pieces[..n][1..] == pieces[1..][..n - 1];
    }
  }

  lemma {:induction false} GatherJoins(chunks: map<ChunkId, Chunk>, revision: int, pieces: seq<Bytes>, n: nat)
    requires Stored(chunks, revision, Numbered(pieces)) && n <= |pieces| && forall p | p in pieces :: |p| <= CHUNK_BYTES
    ensures forall i | 0 <= i < n :: ChunkFits(chunks, revision, i)
    ensures Gather(chunks, revision, n) == Joined(pieces[..n])
    decreases n
  {
    forall i | 0 <= i < n ensures ChunkFits(chunks, revision, i) { assert pieces[i] in pieces; }
    if n == 0 {
    } else {
      GatherJoins(chunks, revision, pieces, n - 1);
      JoinedSplit(pieces, n - 1);
    }
  }

  /** Whoever holds a head whose chunks are stored reads back exactly what was written. */
  lemma WrittenIsReadable(codec: Codec, body: Bytes, revision: int, chunks: map<ChunkId, Chunk>)
    requires Faithful(codec) && Encode(codec, body).Ok? && revision > 0
    requires Stored(chunks, revision, Encode(codec, body).value)
    ensures ReadUnder(codec, HeadOf(codec, revision, body, |Encode(codec, body).value|), chunks, MAX_STATE_BYTES)
         == Ok(body)
  {
    var pieces := Pieces(codec.zip(body));
    assert codec.unzip(codec.zip(body)) == Some(body) && |codec.zip(body)| <= MAX_CHUNKS * CHUNK_BYTES;
    hide Faithful;
    PiecesJoin(codec.zip(body));
    assert |pieces| <= MAX_CHUNKS;
    hide Pieces;
    GatherJoins(chunks, revision, pieces, |pieces|);
    assert pieces[..|pieces|] == pieces;
    hide Gather, Joined, ChunkFits, Stored;
  }

  lemma ChunksCreated(o: Object, revision: int, parts: seq<Chunk>)
    requires CreateChunks(o, revision, parts).Ok? && |parts| >= 1
    ensures var next := CreateChunks(o, revision, parts).value;
            && Stored(next.chunks, revision, parts) && next.head == o.head && ChunkId(revision, 0) !in o.chunks
            && forall id | id in o.chunks :: id in next.chunks && next.chunks[id] == o.chunks[id]
  {
  }

  // ----------------------------------------------------------- the store

  /** The client of one hosted object. */
  class ObjectStore {
    const codec: Codec
    var head: Option<Head>
    var chunks: map<ChunkId, Chunk>

    ghost function Value(): Object reads this { Object(head, chunks) }

    constructor (codec: Codec)
      ensures Value() == NO_OBJECT && this.codec == codec
    {
      this.codec := codec;
      head, chunks := None, map[];
    }

    method EncodeBody(body: Bytes) returns (result: Result<seq<Chunk>, HostedError>)
      ensures result == Encode(codec, body)
    {
      if |body| > MAX_STATE_BYTES { return Err(TooLarge); }
      var encoded := codec.zip(body);
      var parts: seq<Chunk> := [];
      var offset := 0;
      ghost var pieces := Pieces(encoded);
      assert encoded[0..] == encoded;
      while offset < |encoded|
        invariant 0 <= offset && |parts| <= |pieces| && (offset == 0 ==> parts == [])
        invariant offset < |encoded| ==> pieces[|parts|..] == Pieces(encoded[offset..]) && |parts| < |pieces|
        invariant offset >= |encoded| && |encoded| > 0 ==> |parts| == |pieces|
        invariant forall i | 0 <= i < |parts| :: parts[i] == Chunk(i, pieces[i])
        decreases |encoded| - offset
      {
        var end := offset + CHUNK_BYTES;
        if end > |encoded| { end := |encoded|; }
        assert pieces[|parts|] == pieces[|parts|..][0];
        assert encoded[offset..][..end - offset] == encoded[offset..end];
        assert encoded[offset..][end - offset..] == encoded[end..];
        assert pieces[|parts|..][1..] == pieces[|parts| + 1..];
        parts := parts + [Chunk(|parts|, encoded[offset..end])];
        offset := offset + CHUNK_BYTES;
      }
      if |parts| == 0 { parts := [Chunk(0, [])]; }
      assert |parts| == |pieces|;
      assert parts == Numbered(pieces);
      result := Ok(parts);
    }

    method ReadBody(limit: int) returns (result: Result<(Bytes, int), HostedError>)
      ensures result == Read(codec, Value(), limit)
    {
      if head.None? { return Err(Missing); }
      var h := head.value;
      if h.revision <= 0 || !h.gzip || h.chunkCount < 1 || h.chunkCount > MAX_CHUNKS { return Err(BadMetadata); }
      var encoded: Bytes := [];
      var index := 0;
      while index < h.chunkCount
        invariant 0 <= index <= h.chunkCount
        invariant forall i | 0 <= i < index :: ChunkFits(chunks, h.revision, i)
        invariant encoded == Gather(chunks, h.revision, index)
      {
        var id := ChunkId(h.revision, index);
        if id !in chunks || chunks[id].index != index || |chunks[id].body| > CHUNK_BYTES {
          assert !ChunkFits(chunks, h.revision, index);
          return Err(BadChunk);
        }
        encoded := encoded + chunks[id].body;
        index := index + 1;
      }
      var body := Decode(codec, encoded, h.size, limit);
      if body.Err? { return Err(body.error); }
      if codec.digest(body.value) != h.digest { return Err(DigestMismatch); }
      result := Ok((body.value, h.revision));
    }

    /** A write that nobody interrupts: chunks first, then the head. */
    method Write(body: Bytes, generation: int, createOnly: bool, revision: int)
        returns (result: Result<int, HostedError>)
      modifies this
      ensures match Encode(codec, body)
              case Err(error) => result == Err(error) && Value() == old(Value())
              case Ok(parts) =>
                match CreateChunks(old(Value()), revision, parts)
                case Err(error) => result == Err(error) && Value() == old(Value())
                case Ok(mid) =>
                  match SwapHead(mid, HeadOf(codec, revision, body, |parts|), generation, createOnly)
                  case Err(error) => result == Err(error) && Value() == mid
                  case Ok(after) => result == Ok(revision) && Value() == after
    {
      hide Encode, HeadOf, Documents;
      var parts := EncodeBody(body);
      if parts.Err? { return Err(parts.error); }
      var taken := exists i :: 0 <= i < |parts.value| && ChunkId(revision, i) in chunks;
      if taken { return Err(ChunksUnwritten); }
      chunks := chunks + Documents(revision, parts.value);
      var next := HeadOf(codec, revision, body, |parts.value|);
      if createOnly {
        if head.Some? { return Err(Conflict); }
      } else {
        if head.None? { return Err(Conflict); }
        if head.value.revision != generation { return Err(Conflict); }
      }
      head := Some(next);
      result := Ok(revision);
    }

    /** Opening: read, or create what is missing and read again. */
    method LoadOrCreate(initial: Bytes, revision: int) returns (result: Result<(Bytes, int), HostedError>)
      requires Faithful(codec) && revision > 0
      modifies this
      ensures old(head).Some? ==> Value() == old(Value()) && result == Read(codec, old(Value()), MAX_STATE_BYTES)
      ensures old(head).None? ==>
                if |initial| <= MAX_STATE_BYTES && (forall id | id in old(chunks) :: id.revision != revision)
                then result == Ok((initial, revision)) && head.Some? && head.value.revision == revision
                else result.Ok? ==> result == Ok((initial, revision))
    {
      result := ReadBody(MAX_STATE_BYTES);
      if result.Ok? || !result.error.Missing? { return; }
      ghost var before := Value();
      assert old(head).None? by {
        assert before == old(Value());
        if old(head).Some? { ReadNeverMissing(codec, before, MAX_STATE_BYTES); }
      }
      var written := Write(initial, 0, true, revision);
      if written.Err? && !written.error.Conflict? { return Err(written.error); }
      ghost var parts := Encode(codec, initial).value;
      ChunksCreated(before, revision, parts);
      WrittenIsReadable(codec, initial, revision, chunks);
      result := ReadBody(MAX_STATE_BYTES);
    }
  }

  lemma ReadNeverMissing(codec: Codec, o: Object, limit: int)
    requires o.head.Some?
    ensures Read(codec, o, limit) != Err(Missing)
  {
  }
}
