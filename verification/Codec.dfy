/** What happens to one chunk between the caller's bytes and the remote bytes
    (drivepool/pool.go, storage/compress.go): cutting, compression, sealing, checking. */
module Codec {
  import opened Prelude
  import opened Ctr

  type Digest = string

  /** The library algorithms, as parameters. */
  datatype Suite = Suite(
    block: Cipher,
    sha256: Bytes -> Digest,
    deflate: Bytes -> Option<Bytes>,
    inflate: Bytes -> Option<Bytes>)

  /** SHA-256 has no collision; decompression undoes compression, and a compressed form has
      at least the three bits of a block header (RFC 1951). */
  ghost predicate Lawful(s: Suite) {
    && (forall x, y :: s.sha256(x) == s.sha256(y) ==> x == y)
    && (forall x :: s.deflate(x).Some? ==> s.deflate(x).value != [] && s.inflate(s.deflate(x).value) == Some(x))
  }

  datatype Algo = NoCompression | Flate

  datatype Packed = Packed(algo: Algo, payload: Bytes)

  /** The compressed form, if there is one and it is smaller. */
  function Pack(s: Suite, plain: Bytes): (p: Packed)
    ensures |p.payload| <= |plain| && (s.deflate(plain).Some? ==> |p.payload| <= |s.deflate(plain).value|)
    ensures p.algo == Flate <==> s.deflate(plain).Some? && |s.deflate(plain).value| < |plain|
    ensures if p.algo == Flate then Some(p.payload) == s.deflate(plain) else p.payload == plain
  {
    match s.deflate(plain)
    case Some(z) => if |z| < |plain| then Packed(Flate, z) else Packed(NoCompression, plain)
    case None => Packed(NoCompression, plain)
  }

  lemma PackEmptyIff(s: Suite, plain: Bytes)
    requires Lawful(s)
    ensures Pack(s, plain).payload == [] <==> plain == []
  {
  }

  /** downloadChunk on the bytes `raw`, its first Read having delivered `first` of them and
      reported their end if `ended`: decrypt, decompress, compare with the recorded hash. */
  function Check(s: Suite, key: Bytes, algo: Algo, sha: Digest, raw: Bytes, first: nat, ended: bool): Option<Bytes> {
    if ended || first > 16 || first > |raw| then None
    else
      var payload := Unseal(s.block, key, raw, first);
      var plain := if algo == Flate then s.inflate(payload) else Some(payload);
      if plain.Some? && s.sha256(plain.value) == sha then plain else None
  }

  /** `raw` is a stored form of `plain` that a healthy download turns back into it. */
  ghost predicate Holds(s: Suite, key: Bytes, algo: Algo, packedSize: nat, raw: Bytes, plain: Bytes) {
    && |raw| == 16 + packedSize && packedSize <= |plain|
    && Check(s, key, algo, s.sha256(plain), raw, 16, false) == Some(plain)
  }

  /** Uploading and downloading one chunk gives the chunk back, whatever the vector. */
  lemma ChunkRoundTrip(s: Suite, key: Bytes, iv: Block, plain: Bytes)
    requires Lawful(s)
    ensures var p := Pack(s, plain); Holds(s, key, p.algo, |p.payload|, Seal(s.block, key, iv, p.payload), plain)
  {
    RoundTripIff(s.block, key, iv, Pack(s, plain).payload, 16);
  }

  /** A first Read of honest bytes that is too short never passes for a chunk stored as it
      is, and for a compressed one it yields the chunk itself or an error. */
  lemma ShortReadIsRefused(s: Suite, key: Bytes, algo: Algo, packedSize: nat, raw: Bytes, plain: Bytes, first: nat)
    requires Lawful(s) && Holds(s, key, algo, packedSize, raw, plain) && first < 16
    ensures var r := Check(s, key, algo, s.sha256(plain), raw, first, false);
      r == None || (algo == Flate && r == Some(plain))
  {
    if algo == NoCompression {
      assert plain == Unseal(s.block, key, raw, 16);
      assert |Unseal(s.block, key, raw, first)| != |plain|;
    }
  }

  /** downloadChunk over a reader: exactly that check, where the end counts as reported if
      the reader gives nothing, or all of at most 16 bytes together with its end. */
  method DownloadChunk(s: Suite, key: Bytes, algo: Algo, sha: Digest, src: Source) returns (r: Option<Bytes>)
    requires src.end != NoErr
    modifies src
    ensures r == if src.end == Eof then Check(s, key, algo, sha, Concat(old(src.pieces)), FirstRead(old(src.pieces)),
                                              !VectorRead(old(src.pieces), src.eager)) else None
  {
    var decrypted := new Sink(None);
    var n, ok := CopyDecrypt(s.block, key, src, decrypted);
    if !ok {
      return None;
    }
    ghost var raw, first := Concat(old(src.pieces)), FirstRead(old(src.pieces));
    assert decrypted.written == Unseal(s.block, key, raw, first);
    var plain := if algo == Flate then s.inflate(decrypted.written) else Some(decrypted.written);
    r := if plain.Some? && s.sha256(plain.value) == sha then plain else None;
  }

  // ---- cutting a file into chunks ----

  function NumChunks(size: nat, c: nat): nat
    requires c > 0
  {
    if size > 0 then (size + c - 1) / c else 1
  }

  function Chunks(data: Bytes, c: nat): (r: seq<Bytes>)
    requires c > 0
    ensures |r| >= 1
    decreases |data|
  {
    if |data| <= c then [data] else [data[..c]] + Chunks(data[c..], c)
  }

  lemma {:induction false} ChunksConcat(data: Bytes, c: nat)
    requires c > 0
    ensures Concat(Chunks(data, c)) == data
    decreases |data|
  {
    if |data| <= c {
      assert [data][1..] == [];
      assert Concat([data]) == data + Concat([data][1..]);
    } else {
      ChunksConcat(data[c..], c);
      assert ([data[..c]] + Chunks(data[c..], c))[1..] == Chunks(data[c..], c);
      assert data == data[..c] + data[c..];
    }
  }

  lemma CeilStep(size: nat, c: nat)
    requires 0 < c < size
    ensures NumChunks(size, c) == 1 + NumChunks(size - c, c)
  {
    assert size + c - 1 == (size - c + c - 1) + c;
    DivStep(size - c + c - 1, c);
  }

  /** The count the upload loop computes, and the size of each chunk. */
  lemma {:induction false} ChunksShape(data: Bytes, c: nat)
    requires c > 0
    ensures |Chunks(data, c)| == NumChunks(|data|, c)
    ensures forall i :: 0 <= i < |Chunks(data, c)| ==> |Chunks(data, c)[i]| == Min(c, |data| - i * c)
    decreases |data|
  {
    var parts := Chunks(data, c);
    if |data| <= c {
      if |data| > 0 {
        DivIs(|data| + c - 1, c, 1);
      }
    } else {
      ChunksShape(data[c..], c);
      CeilStep(|data|, c);
      forall i | 0 <= i < |parts| ensures |parts[i]| == Min(c, |data| - i * c) {
        if i > 0 {
          assert parts[i] == Chunks(data[c..], c)[i - 1];
          assert i * c == (i - 1) * c + c;
        }
      }
    }
  }

  lemma {:induction false} ChunksNonEmpty(data: Bytes, c: nat)
    requires c > 0 && data != []
    ensures forall i :: 0 <= i < |Chunks(data, c)| ==> Chunks(data, c)[i] != []
    decreases |data|
  {
    if |data| > c {
      ChunksNonEmpty(data[c..], c);
    }
  }
}
