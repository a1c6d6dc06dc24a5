/** Chunked file serving (cmd/embedded/http/handler_ygg.go): the body in pieces of 250 KB, each
    with its hash in an HTTP trailer that was declared before the first piece. */
module ChunkedFile {
  import opened Text

  type Bytes = seq<bv8>

  const CHUNK_SIZE := 250 * 1024

  // ---------- Reference ----------

  function Chunks(data: Bytes): seq<Bytes> {
    if data == [] then []
    else if |data| <= CHUNK_SIZE then [data]
    else [data[..CHUNK_SIZE]] + Chunks(data[CHUNK_SIZE..])
  }

  function Concat(parts: seq<Bytes>): Bytes {
    if parts == [] then [] else parts[0] + Concat(parts[1..])
  }

  /** Number of chunks the handler announces for a file of this size. */
  function ChunkCount(size: nat): nat { (size + CHUNK_SIZE - 1) / CHUNK_SIZE }

  function HashesOf(chunks: seq<Bytes>, hash: Bytes -> string): seq<string> {
    seq(|chunks|, i requires 0 <= i < |chunks| => hash(chunks[i]))
  }

  function TrailerKey(i: nat): string { "X-Chunk-Hash-" + Decimal(i) }

  /** The chunks put together are the file, all but the last are full, none is empty, and there
      are as many as announced. */
  lemma {:induction false} ChunksReassemble(data: Bytes)
    ensures Concat(Chunks(data)) == data
    ensures |Chunks(data)| == ChunkCount(|data|)
    ensures forall i :: 0 <= i < |Chunks(data)| ==> 0 < |Chunks(data)[i]| <= CHUNK_SIZE
    ensures forall i :: 0 <= i < |Chunks(data)| - 1 ==> |Chunks(data)[i]| == CHUNK_SIZE
  {
    hide Chunks, ChunkCount;
    if |data| > CHUNK_SIZE {
      var head, tail := data[..CHUNK_SIZE], data[CHUNK_SIZE..];
      ChunksReassemble(tail);
      assert data == head + tail;
      FirstChunk(head, tail);
      assert ([head] + Chunks(tail))[1..] == Chunks(tail);
      CountStep(|data|);
    } else if data != [] {
      OneChunk(data);
      assert Concat([data]) == data + Concat([data][1..]) == data;
      CountSmall(|data|);
    } else {
      NoChunks(data);
      assert data[..0] == data;
      CountSmall(0);
    }
  }

  lemma CountStep(size: nat)
    requires size > CHUNK_SIZE
    ensures ChunkCount(size) == ChunkCount(size - CHUNK_SIZE) + 1
  {}

  lemma CountSmall(size: nat)
    requires size <= CHUNK_SIZE
    ensures ChunkCount(size) == if size == 0 then 0 else 1
  {}

  /** Chunks of a prefix that ends on a chunk boundary, then the next chunk. */
  lemma {:induction false} ChunksExtend(data: Bytes, n: nat, m: nat)
    requires n % CHUNK_SIZE == 0 && n < m <= |data|
    requires m == if n + CHUNK_SIZE < |data| then n + CHUNK_SIZE else |data|
    ensures Chunks(data[..m]) == Chunks(data[..n]) + [data[n..m]]
    decreases n
  {
    hide Chunks;
    if n > 0 {
      var head, tail := data[..CHUNK_SIZE], data[CHUNK_SIZE..];
      ChunksExtend(tail, n - CHUNK_SIZE, m - CHUNK_SIZE);
      FirstChunk(head, tail[..n - CHUNK_SIZE]);
      FirstChunk(head, tail[..m - CHUNK_SIZE]);
      assert data[..n] == head + tail[..n - CHUNK_SIZE] && data[..m] == head + tail[..m - CHUNK_SIZE];
      assert tail[n - CHUNK_SIZE..m - CHUNK_SIZE] == data[n..m];
    } else {
      NoChunks(data);
      OneChunk(data[..m]);
      assert data[..m] == data[0..m];
    }
  }

  lemma FirstChunk(head: Bytes, tail: Bytes)
    requires |head| == CHUNK_SIZE
    ensures Chunks(head + tail) == [head] + Chunks(tail)
  {
    assert (head + tail)[..CHUNK_SIZE] == head && (head + tail)[CHUNK_SIZE..] == tail;
    if tail == [] {
      assert head + tail == head;
    }
  }

  lemma OneChunk(data: Bytes)
    requires 0 < |data| <= CHUNK_SIZE
    ensures Chunks(data) == [data]
  {}

  lemma NoChunks(data: Bytes)
    ensures Chunks(data[..0]) == []
  {}

  lemma TrailerKeysDistinct(i: nat, j: nat)
    requires TrailerKey(i) == TrailerKey(j)
    ensures i == j
  {
    var p := "X-Chunk-Hash-";
    assert TrailerKey(i)[|p|..] == Decimal(i) && TrailerKey(j)[|p|..] == Decimal(j);
    DecimalRoundTrip(i);
    DecimalRoundTrip(j);
  }

  // ---------- The handler ----------

  datatype ReadResult = Full | UnexpectedEOF | EOF | ReadError

  /** `data` is what can be read, up to the end of the file or, if `failing`, up to a read error. */
  class File {
    const data: Bytes
    const failing: bool
    var pos: nat

    ghost predicate Valid()
      reads this
    {
      pos <= |data|
    }

    constructor (data: Bytes, failing: bool)
      ensures Valid() && this.data == data && this.failing == failing && pos == 0
    {
      this.data, this.failing, pos := data, failing, 0;
    }

    /** `io.ReadFull`: fills the buffer from the file, or as much of it as is left. */
    method ReadFull(buf: array<bv8>) returns (n: nat, result: ReadResult)
      requires Valid() && buf.Length > 0
      modifies this`pos, buf
      ensures Valid() && pos == old(pos) + n
      ensures n == if buf.Length <= |data| - old(pos) then buf.Length else |data| - old(pos)
      ensures buf[..n] == data[old(pos)..old(pos) + n]
      ensures result == if n == buf.Length then Full else if failing then ReadError
                        else if n > 0 then UnexpectedEOF else EOF
    {
      n := if buf.Length <= |data| - pos then buf.Length else |data| - pos;
      forall i | 0 <= i < n { buf[i] := data[pos + i]; }
      pos := pos + n;
      result := if n == buf.Length then Full else if failing then ReadError
                else if n > 0 then UnexpectedEOF else EOF;
    }
  }

  /** The response as the client sees it: writes in order, declared trailers, trailers set. */
  datatype Response = Response(writes: seq<Bytes>, declared: seq<string>, trailers: map<string, string>)

  /** Trailer `i` holds the hash of chunk `i`, and there is no other trailer. */
  ghost predicate TrailersAre(trailers: map<string, string>, hashes: seq<string>) {
    && (forall i :: 0 <= i < |hashes| ==> TrailerKey(i) in trailers && trailers[TrailerKey(i)] == hashes[i])
    && (forall k :: k in trailers ==> exists i :: 0 <= i < |hashes| && k == TrailerKey(i))
  }

  /** The read loop: every chunk of what can be read, as written and as hashed. */
  method WriteChunks(f: File, encode: Bytes -> Bytes, hash: Bytes -> string)
    returns (writes: seq<Bytes>, chunkHashes: seq<string>)
    requires f.Valid() && f.pos == 0
    modifies f`pos
    ensures var chunks := Chunks(f.data);
            && |writes| == |chunks| && chunkHashes == HashesOf(chunks, hash)
            && forall i :: 0 <= i < |chunks| ==> writes[i] == encode(chunks[i])
  {
    hide Chunks;
    writes, chunkHashes := [], [];
    NoChunks(f.data);
    var buf := new bv8[CHUNK_SIZE];
    ghost var chunks: seq<Bytes> := [];
    var reading := true;
    while reading
      invariant f.Valid() && (reading ==> f.pos % CHUNK_SIZE == 0)
      invariant !reading ==> f.pos == |f.data|
      invariant chunks == Chunks(f.data[..f.pos])
      invariant |writes| == |chunks| == |chunkHashes|
      invariant forall i :: 0 <= i < |chunks| ==> writes[i] == encode(chunks[i]) && chunkHashes[i] == hash(chunks[i])
      decreases |f.data| - f.pos, reading
    {
      ghost var start := f.pos;
      var n, result := f.ReadFull(buf);
      if n > 0 {
        var chunk := buf[..n];
        ChunksExtend(f.data, start, f.pos);
        chunks := chunks + [chunk];
        chunkHashes := chunkHashes + [hash(chunk)];
        writes := writes + [encode(chunk)];
      }
      if result != Full {
        reading := false;
      }
    }
    assert f.data[..|f.data|] == f.data;
  }

  /** The loop that sets the trailers. The handler indexes the declared keys by chunk; `inBounds`
      says that no index fell outside. */
  method SetTrailers(trailerKeys: seq<string>, chunkHashes: seq<string>)
    returns (trailers: map<string, string>, inBounds: bool)
    requires forall i :: 0 <= i < |trailerKeys| ==> trailerKeys[i] == TrailerKey(i)
    ensures inBounds <==> |chunkHashes| <= |trailerKeys|
    ensures inBounds ==> TrailersAre(trailers, chunkHashes)
  {
    trailers, inBounds := map[], true;
    hide TrailerKey;
    for i := 0 to |chunkHashes|
      invariant i <= |trailerKeys|
      invariant TrailersAre(trailers, chunkHashes[..i])
    {
      if i >= |trailerKeys| {
        inBounds := false;
        return;
      }
      forall j | 0 <= j < i ensures TrailerKey(j) != trailerKeys[i] {
        if TrailerKey(j) == TrailerKey(i) { TrailerKeysDistinct(j, i); }
      }
      trailers := trailers[trailerKeys[i] := chunkHashes[i]];
    }
    assert chunkHashes[..|chunkHashes|] == chunkHashes;
  }

  lemma HashCount(chunks: seq<Bytes>, hash: Bytes -> string)
    ensures |HashesOf(chunks, hash)| == |chunks|
  {}

  /** `serveChunked`. `fileSize` is the size found by `stat`; the file may have changed since or
      fail to read part way, and the trailers stay within the declared keys exactly when what was read has
      not outgrown them. */
  method ServeChunked(f: File, fileSize: nat, encode: Bytes -> Bytes, hash: Bytes -> string)
    returns (resp: Response, inBounds: bool)
    requires f.Valid() && f.pos == 0
    modifies f`pos
    ensures |resp.declared| == ChunkCount(fileSize)
    ensures forall i :: 0 <= i < |resp.declared| ==> resp.declared[i] == TrailerKey(i)
    ensures var chunks := Chunks(f.data);
            && |resp.writes| == |chunks|
            && (forall i :: 0 <= i < |chunks| ==> resp.writes[i] == encode(chunks[i]))
            && (inBounds <==> |f.data| <= ChunkCount(fileSize) * CHUNK_SIZE)
            && (inBounds ==> TrailersAre(resp.trailers, HashesOf(chunks, hash)))
  {
    hide Chunks, TrailerKey, TrailersAre, HashesOf, Concat;
    var trailerKeys := seq(ChunkCount(fileSize), i requires 0 <= i => TrailerKey(i));
    var writes, chunkHashes := WriteChunks(f, encode, hash);
    ChunksReassemble(f.data);
    var trailers;
    trailers, inBounds := SetTrailers(trailerKeys, chunkHashes);
    HashCount(Chunks(f.data), hash);
    resp := Response(writes, trailerKeys, trailers);
  }

  /** For a file unchanged since `stat`, every chunk has its own declared trailer and none is spare. */
  lemma UnchangedFileFits(data: Bytes)
    ensures |data| <= ChunkCount(|data|) * CHUNK_SIZE
    ensures |Chunks(data)| == ChunkCount(|data|)
  {
    ChunksReassemble(data);
  }
}
