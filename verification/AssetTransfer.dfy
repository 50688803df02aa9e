/** Fetching a board asset in chunks: the provider's chunk handler, the client's
    loop over it, and the landing of the assembled file. */
module AssetTransfer {

  type Bytes = seq<bv8>
  type Hash = string

  datatype Result<+T> = Ok(value: T) | Err

  // Server clamp, client step and client limit.
  const MAX_CHUNK_LEN: nat := 1_048_576
  const RPC_CHUNK_BYTES: nat := 262_144
  const MAX_RPC_FETCH_BYTES: nat := 67_108_864

  function Min(a: nat, b: nat): nat { if a <= b then a else b }

  // ----- The provider -----

  /** What one call meets at the provider: a refusal or an I/O error, or a file
      with the length that `stat` reports and the bytes that reading finds. The
      two may disagree, because the file may change between them. */
  datatype Provider = Refuses | File(statLen: nat, content: Bytes)

  datatype Chunk = Chunk(data: Bytes, eof: bool)

  function Slice(content: Bytes, offset: nat, len: nat): Bytes {
    if offset >= |content| then [] else content[offset..Min(offset + len, |content|)]
  }

  /** The reply to one chunk call. */
  function Serve(p: Provider, offset: nat, want: nat): Result<Chunk> {
    if p.Refuses? || want == 0 || offset >= p.statLen then Err
    else
      var data := Slice(p.content, offset, Min(want, MAX_CHUNK_LEN));
      Ok(Chunk(data, offset + |data| >= p.statLen))
  }

  /** One read call: any positive number of bytes up to what is asked and what
      is there; zero exactly at the end. */
  method ReadSome(content: Bytes, pos: nat, buf: array<bv8>, start: nat) returns (n: nat)
    requires start < buf.Length
    modifies buf
    ensures n <= buf.Length - start
    ensures n == 0 <==> pos >= |content|
    ensures n > 0 ==> pos + n <= |content|
    ensures buf[..start] == old(buf[..start])
    ensures n > 0 ==> buf[start..start + n] == content[pos..pos + n]
  {
    if pos >= |content| {
      return 0;
    }
    n :| 1 <= n <= buf.Length - start && n <= |content| - pos;
    forall k | start <= k < start + n {
      buf[k] := content[pos + (k - start)];
    }
  }

  /** The chunk handler: whatever the pattern of short reads, the reply is the
      same. */
  method ServeChunk(p: Provider, offset: nat, want: nat) returns (r: Result<Chunk>)
    ensures r == Serve(p, offset, want)
  {
    if p.Refuses? || want == 0 {
      return Err;
    }
    var len := Min(want, MAX_CHUNK_LEN);
    if offset >= p.statLen {
      return Err;
    }
    var buf := new bv8[len];
    var filled: nat := 0;
    while filled < len
      invariant filled <= len
      invariant filled > 0 ==> offset + filled <= |p.content|
      invariant buf[..filled] == Slice(p.content, offset, filled)
      decreases len - filled
    {
      var n := ReadSome(p.content, offset + filled, buf, filled);
      if n == 0 {
        break;
      }
      SliceGrows(p.content, offset, filled, n);
      assert buf[..filled + n] == buf[..filled] + buf[filled..filled + n];
      filled := filled + n;
    }
    SliceStops(p.content, offset, filled, len);
    var data := buf[..filled];
    r := Ok(Chunk(data, offset + filled >= p.statLen));
  }

  lemma SliceGrows(content: Bytes, offset: nat, filled: nat, n: nat)
    requires offset + filled + n <= |content| && n > 0
    ensures Slice(content, offset, filled + n) ==
      Slice(content, offset, filled) + content[offset + filled..offset + filled + n]
  {
  }

  lemma SliceStops(content: Bytes, offset: nat, filled: nat, len: nat)
    requires filled <= len
    requires filled == len || offset + filled >= |content|
    ensures Slice(content, offset, filled) == Slice(content, offset, len)
  {
  }

  // ----- The client -----

  datatype Meta = Meta(size: nat, sha: Hash)

  function Chunks(size: nat): nat { (size + RPC_CHUNK_BYTES - 1) / RPC_CHUNK_BYTES }

  function OffsetOf(k: nat): nat { k * RPC_CHUNK_BYTES }

  function LenOf(size: nat, k: nat): nat
    requires k < Chunks(size)
  {
    Min(RPC_CHUNK_BYTES, size - OffsetOf(k))
  }

  /** What the client holds after its first `k` calls, when `calls(j)` is what
      call `j` meets; the client moves on by what it asked for, not by what came. */
  function Gather(calls: nat -> Provider, size: nat, k: nat): Result<Bytes>
    requires k <= Chunks(size)
  {
    if k == 0 then Ok([])
    else
      match Gather(calls, size, k - 1)
      case Err => Err
      case Ok(sofar) =>
        match Serve(calls(k - 1), OffsetOf(k - 1), LenOf(size, k - 1))
        case Err => Err
        case Ok(chunk) => Ok(sofar + chunk.data)
  }

  /** The client's decision once the loop is through. */
  predicate Acceptable(got: Result<Bytes>, size: nat, expected: Hash, sha: Bytes -> Hash) {
    got.Ok? && |got.value| == size && sha(got.value) == expected
  }

  /** Meta and all calls together lead to an accepted assembly. */
  predicate Fetchable(meta: Result<Meta>, calls: nat -> Provider, expected: Hash, sha: Bytes -> Hash) {
    && meta.Ok? && meta.value.sha == expected && meta.value.size <= MAX_RPC_FETCH_BYTES
    && Acceptable(Gather(calls, meta.value.size, Chunks(meta.value.size)), meta.value.size, expected, sha)
  }

  method FetchViaRpc(meta: Result<Meta>, calls: nat -> Provider, expected: Hash, sha: Bytes -> Hash)
      returns (r: Result<Bytes>, made: nat)
    ensures r.Ok? <==> Fetchable(meta, calls, expected, sha)
    ensures r.Ok? ==> r == Gather(calls, meta.value.size, Chunks(meta.value.size)) && made == Chunks(meta.value.size)
    ensures made > 0 ==> meta.Ok? && meta.value.sha == expected && meta.value.size <= MAX_RPC_FETCH_BYTES
    ensures meta.Ok? ==> made <= Chunks(meta.value.size)
  {
    made := 0;
    if meta.Err? || meta.value.sha != expected || meta.value.size > MAX_RPC_FETCH_BYTES {
      return Err, made;
    }
    var size := meta.value.size;
    AtStart(size);
    hide Serve, OffsetOf, LenOf, Chunks, Gather, Acceptable, Fetchable;
    var buf: Bytes := [];
    var offset: nat := 0;
    while offset < size
      invariant made <= Chunks(size)
      invariant offset == Min(OffsetOf(made), size)
      invariant offset == size ==> made == Chunks(size)
      invariant Gather(calls, size, made) == Ok(buf)
      decreases size - offset
    {
      var len := Min(RPC_CHUNK_BYTES, size - offset);
      NextOffset(size, made);
      GatherNext(calls, size, made);
      var chunk := ServeChunk(calls(made), offset, len);
      made := made + 1;
      if chunk.Err? {
        RefusedIsErr(meta, calls, expected, sha, made);
        return Err, made;
      }
      buf := buf + chunk.value.data;
      offset := offset + len;
    }
    Verdict(meta, calls, expected, sha);
    if |buf| != size || sha(buf) != expected {
      return Err, made;
    }
    r := Ok(buf);
  }

  lemma Verdict(meta: Result<Meta>, calls: nat -> Provider, expected: Hash, sha: Bytes -> Hash)
    requires meta.Ok? && meta.value.sha == expected && meta.value.size <= MAX_RPC_FETCH_BYTES
    ensures var got := Gather(calls, meta.value.size, Chunks(meta.value.size));
      Fetchable(meta, calls, expected, sha) <==> got.Ok? && |got.value| == meta.value.size && sha(got.value) == expected
  {
  }

  /** A refused call decides. */
  lemma RefusedIsErr(meta: Result<Meta>, calls: nat -> Provider, expected: Hash, sha: Bytes -> Hash, made: nat)
    requires meta.Ok? && made <= Chunks(meta.value.size) && Gather(calls, meta.value.size, made).Err?
    ensures !Fetchable(meta, calls, expected, sha)
  {
    GatherStaysErr(calls, meta.value.size, made, Chunks(meta.value.size));
    hide Gather, Chunks;
  }

  /** One call more. */
  lemma GatherNext(calls: nat -> Provider, size: nat, k: nat)
    requires k < Chunks(size) && Gather(calls, size, k).Ok?
    ensures var reply := Serve(calls(k), OffsetOf(k), LenOf(size, k));
      Gather(calls, size, k + 1) == if reply.Ok? then Ok(Gather(calls, size, k).value + reply.value.data) else Err
  {
    hide Serve;
  }

  lemma AtStart(size: nat)
    ensures OffsetOf(0) == 0 && (size == 0 ==> Chunks(size) == 0)
    ensures forall calls: nat -> Provider :: Gather(calls, size, 0) == Ok([])
  {
  }

  /** The loop's offset before and after the call for chunk `k`. */
  lemma NextOffset(size: nat, k: nat)
    requires Min(OffsetOf(k), size) < size
    ensures k < Chunks(size)
    ensures Min(OffsetOf(k), size) == OffsetOf(k) && LenOf(size, k) == Min(RPC_CHUNK_BYTES, size - OffsetOf(k)) > 0
    ensures Min(OffsetOf(k + 1), size) == OffsetOf(k) + LenOf(size, k)
    ensures OffsetOf(k) + LenOf(size, k) == size <==> k + 1 == Chunks(size)
  {
  }

  lemma {:induction false} GatherStaysErr(calls: nat -> Provider, size: nat, k: nat, m: nat)
    requires k <= m <= Chunks(size) && Gather(calls, size, k).Err?
    ensures Gather(calls, size, m).Err?
    decreases m
  {
    if k < m {
      GatherStaysErr(calls, size, k, m - 1);
    }
  }

  // ----- What acceptance means -----

  /** Call `k` delivered its whole piece. */
  ghost predicate Whole(p: Provider, size: nat, k: nat)
    requires k < Chunks(size)
  {
    p.File? && OffsetOf(k) < p.statLen && OffsetOf(k) + LenOf(size, k) <= |p.content|
  }

  /** The bytes due after `k` calls. */
  function Due(size: nat, k: nat): nat { Min(OffsetOf(k), size) }

  lemma ServedLength(p: Provider, size: nat, k: nat)
    requires k < Chunks(size)
    ensures Serve(p, OffsetOf(k), LenOf(size, k)).Ok? ==>
      |Serve(p, OffsetOf(k), LenOf(size, k)).value.data| <= LenOf(size, k)
    ensures Whole(p, size, k) <==>
      && Serve(p, OffsetOf(k), LenOf(size, k)).Ok?
      && |Serve(p, OffsetOf(k), LenOf(size, k)).value.data| == LenOf(size, k)
  {
  }

  /** The assembled length comes out right exactly when every call delivered its
      whole piece: missing bytes are never made up for by a later call. */
  lemma {:induction false} LengthTellsAll(calls: nat -> Provider, size: nat, k: nat)
    requires k <= Chunks(size)
    ensures Gather(calls, size, k).Ok? ==> |Gather(calls, size, k).value| <= Due(size, k)
    ensures (Gather(calls, size, k).Ok? && |Gather(calls, size, k).value| == Due(size, k))
      <==> forall j :: 0 <= j < k ==> Whole(calls(j), size, j)
  {
    hide Serve, Whole, Due, LenOf, OffsetOf;
    if k == 0 {
      NoneDue(size);
    } else {
      LengthTellsAll(calls, size, k - 1);
      ServedLength(calls(k - 1), size, k - 1);
      OneMoreDue(size, k);
    }
  }

  lemma NoneDue(size: nat)
    ensures Due(size, 0) == 0
  {
  }

  lemma OneMoreDue(size: nat, k: nat)
    requires 0 < k <= Chunks(size)
    ensures Due(size, k) == Due(size, k - 1) + LenOf(size, k - 1)
  {
  }

  /** The bytes of piece `j` within `b`. */
  function Piece(b: Bytes, size: nat, j: nat): Bytes
    requires j < Chunks(size)
  {
    Slice(b, OffsetOf(j), LenOf(size, j))
  }

  lemma PieceOfPrefix(a: Bytes, x: Bytes, size: nat, j: nat)
    requires j < Chunks(size) && OffsetOf(j) + LenOf(size, j) <= |a|
    ensures Piece(a + x, size, j) == Piece(a, size, j)
  {
  }

  lemma PieceAtEnd(a: Bytes, x: Bytes, size: nat, j: nat)
    requires j < Chunks(size) && OffsetOf(j) == |a| && |x| == LenOf(size, j)
    ensures Piece(a + x, size, j) == x
  {
  }

  lemma DueGrows(size: nat, k: nat)
    requires k < Chunks(size)
    ensures Due(size, k) == OffsetOf(k) && Due(size, k + 1) == OffsetOf(k) + LenOf(size, k)
    ensures forall j :: 0 <= j < k ==> OffsetOf(j) + LenOf(size, j) <= OffsetOf(k)
  {
  }

  /** What was assembled is, piece by piece, what the provider's file held at
      the time of each call. */
  lemma {:induction false} PiecesAreTheFiles(calls: nat -> Provider, size: nat, k: nat, j: nat)
    requires j < k <= Chunks(size)
    requires Gather(calls, size, k).Ok? && |Gather(calls, size, k).value| == Due(size, k)
    ensures Whole(calls(j), size, j)
    ensures Piece(Gather(calls, size, k).value, size, j) == Piece(calls(j).content, size, j)
  {
    LastPiece(calls, size, k);
    LengthTellsAll(calls, size, k);
    DueGrows(size, k - 1);
    assert Whole(calls(j), size, j);
    var sofar := Gather(calls, size, k - 1).value;
    var data := Piece(calls(k - 1).content, size, k - 1);
    hide Slice, Gather, Whole, Piece, Serve;
    if j < k - 1 {
      PiecesAreTheFiles(calls, size, k - 1, j);
      PieceOfPrefix(sofar, data, size, j);
    } else {
      PieceAtEnd(sofar, data, size, j);
    }
  }

  /** The last call of an assembly of the right length. */
  lemma LastPiece(calls: nat -> Provider, size: nat, k: nat)
    requires 0 < k <= Chunks(size)
    requires Gather(calls, size, k).Ok? && |Gather(calls, size, k).value| == Due(size, k)
    ensures Whole(calls(k - 1), size, k - 1)
    ensures Gather(calls, size, k - 1).Ok? && |Gather(calls, size, k - 1).value| == Due(size, k - 1)
    ensures Gather(calls, size, k).value == Gather(calls, size, k - 1).value + Piece(calls(k - 1).content, size, k - 1)
    ensures |Piece(calls(k - 1).content, size, k - 1)| == LenOf(size, k - 1)
  {
    LengthTellsAll(calls, size, k);
    LengthTellsAll(calls, size, k - 1);
    assert Whole(calls(k - 1), size, k - 1);
    ServedPiece(calls(k - 1), size, k - 1);
    ServedLength(calls(k - 1), size, k - 1);
    hide Slice, Whole, Piece, Serve, Due;
  }

  lemma ServedPiece(p: Provider, size: nat, k: nat)
    requires k < Chunks(size) && Whole(p, size, k)
    ensures Serve(p, OffsetOf(k), LenOf(size, k)).Ok?
    ensures Serve(p, OffsetOf(k), LenOf(size, k)).value.data == Piece(p.content, size, k)
  {
  }

  /** However the file changes while it is fetched: what is accepted has meta's
      size and the expected hash, and each of its pieces is what the file held
      when that piece was asked for. */
  lemma AcceptedWhileChanging(calls: nat -> Provider, size: nat, expected: Hash, sha: Bytes -> Hash, j: nat)
    requires Acceptable(Gather(calls, size, Chunks(size)), size, expected, sha)
    requires j < Chunks(size)
    ensures var got := Gather(calls, size, Chunks(size)).value;
      && |got| == size && sha(got) == expected
      && Whole(calls(j), size, j)
      && Piece(got, size, j) == Piece(calls(j).content, size, j)
  {
    assert Due(size, Chunks(size)) == size;
    PiecesAreTheFiles(calls, size, Chunks(size), j);
  }

  lemma {:induction false} UnchangedGather(file: Bytes, k: nat)
    requires k <= Chunks(|file|)
    ensures Gather(_ => File(|file|, file), |file|, k) == Ok(file[..Due(|file|, k)])
  {
    hide Serve, Due, OffsetOf, LenOf;
    if k == 0 {
      NoneDue(|file|);
    } else {
      UnchangedGather(file, k - 1);
      ChunkOfFile(file, k - 1);
      FilePrefixGrows(file, OffsetOf(k - 1), LenOf(|file|, k - 1));
      GatherStep(_ => File(|file|, file), |file|, k);
      hide Gather;
    }
  }

  /** An unchanged file: no call is refused, `eof` is set on the last chunk and
      on no other, and the assembly is the file. */
  lemma {:induction false} UnchangedFile(file: Bytes, k: nat)
    requires k <= Chunks(|file|)
    ensures Gather(_ => File(|file|, file), |file|, k) == Ok(file[..Due(|file|, k)])
    ensures forall j :: 0 <= j < k ==>
      var reply := Serve(File(|file|, file), OffsetOf(j), LenOf(|file|, j));
      reply.Ok? && (reply.value.eof <==> j == Chunks(|file|) - 1)
  {
    UnchangedGather(file, k);
    hide Gather, Serve, Due, OffsetOf, LenOf;
    forall j | 0 <= j < k
      ensures var reply := Serve(File(|file|, file), OffsetOf(j), LenOf(|file|, j));
        reply.Ok? && (reply.value.eof <==> j == Chunks(|file|) - 1)
    {
      ChunkOfFile(file, j);
    }
  }

  lemma FilePrefixGrows(file: Bytes, from: nat, len: nat)
    requires from + len <= |file|
    ensures file[..from] + file[from..from + len] == file[..from + len]
  {
  }

  lemma GatherStep(calls: nat -> Provider, size: nat, k: nat)
    requires 0 < k <= Chunks(size)
    ensures var sofar, reply := Gather(calls, size, k - 1), Serve(calls(k - 1), OffsetOf(k - 1), LenOf(size, k - 1));
      sofar.Ok? && reply.Ok? ==> Gather(calls, size, k) == Ok(sofar.value + reply.value.data)
  {
    hide Serve;
  }

  lemma ChunkOfFile(file: Bytes, k: nat)
    requires k < Chunks(|file|)
    ensures var from, len := OffsetOf(k), LenOf(|file|, k);
      && Due(|file|, k) == from && Due(|file|, k + 1) == from + len <= |file|
      && Serve(File(|file|, file), from, len) == Ok(Chunk(file[from..from + len], k == Chunks(|file|) - 1))
  {
  }

  lemma ChunksRoundsUp(size: nat)
    ensures RPC_CHUNK_BYTES * (Chunks(size) - 1) < size <= RPC_CHUNK_BYTES * Chunks(size) || size == Chunks(size) == 0
  {
  }

  /** The whole transfer of an unchanged file within the limit succeeds with its
      bytes after as many calls as there are chunks. */
  method TransferUnchanged(file: Bytes, sha: Bytes -> Hash) returns (r: Result<Bytes>, made: nat)
    ensures |file| <= MAX_RPC_FETCH_BYTES ==> r == Ok(file)
    ensures |file| <= MAX_RPC_FETCH_BYTES ==>
      RPC_CHUNK_BYTES * (made - 1) < |file| <= RPC_CHUNK_BYTES * made || |file| == made == 0
    ensures |file| > MAX_RPC_FETCH_BYTES ==> r == Err && made == 0
  {
    ChunksRoundsUp(|file|);
    r, made := FetchViaRpc(Ok(Meta(|file|, sha(file))), _ => File(|file|, file), sha(file), sha);
    UnchangedFile(file, Chunks(|file|));
    assert file[..|file|] == file;
  }

  /** A piece inside the file arrives whole exactly when it is within the server's
      clamp, so the loop, which moves on by what it asked for, needs its step to
      be within the clamp. */
  lemma WholeIffWithinClamp(file: Bytes, offset: nat, want: nat)
    requires want > 0 && offset + want <= |file|
    ensures Serve(File(|file|, file), offset, want).Ok?
    ensures Serve(File(|file|, file), offset, want).value.data == file[offset..offset + want] <==> want <= MAX_CHUNK_LEN
  {
    assert |file[offset..offset + want]| == want;
  }

  /** A file that stays as it is answers a call exactly when there is something to
      give, and then gives something. */
  lemma AnswersIff(file: Bytes, offset: nat, want: nat)
    ensures var reply := Serve(File(|file|, file), offset, want);
      && (reply.Ok? <==> want > 0 && offset < |file|)
      && (reply.Ok? ==> reply.value.data != [] && reply.value.data <= file[offset..])
  {
  }

  // ----- Landing the file -----

  /** The directory entries a fetch touches: the part file and the asset. */
  class AssetFiles {
    var part: Result<Bytes>
    var asset: Result<Bytes>

    constructor ()
      ensures part == Err && asset == Err
    {
      part, asset := Err, Err;
    }

    /** Hash the part file and rename it over the asset; on any failure the asset is
        as it was, and the part file goes if it can be removed. */
    method FinalizeDownload(expected: Hash, sha: Bytes -> Hash, readable: bool, renames: bool, removes: bool)
        returns (r: Result<nat>)
      modifies this
      ensures part == if r.Ok? || removes then Err else old(part)
      ensures r.Ok? <==> readable && renames && old(part).Ok? && sha(old(part).value) == expected
      ensures asset == if r.Ok? then old(part) else old(asset)
      ensures r.Ok? ==> asset.Ok? && sha(asset.value) == expected && r.value == |asset.value|
    {
      r := FinalizeStep(expected, sha, readable, renames);
      if r.Err? && removes {
        part := Err;
      }
    }

    method FinalizeStep(expected: Hash, sha: Bytes -> Hash, readable: bool, renames: bool) returns (r: Result<nat>)
      modifies this
      ensures r.Ok? <==> readable && renames && old(part).Ok? && sha(old(part).value) == expected
      ensures r.Ok? ==> part == Err && asset == old(part) && r.value == |asset.value|
      ensures r.Err? ==> part == old(part) && asset == old(asset)
    {
      if !readable || part.Err? || sha(part.value) != expected {
        return Err;
      }
      if !renames {
        return Err;
      }
      asset, part := part, Err;
      r := Ok(|asset.value|);
    }
  }
}
