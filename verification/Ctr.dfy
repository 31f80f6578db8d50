/** Counter-mode streaming encryption (storage/crypto.go): a reused buffer, an
    advancing key stream and readers that deliver their bytes in arbitrary pieces.
    The block cipher itself is a parameter; positions and XOR are modelled. */
module Ctr {
  import opened Prelude

  const BLOCK: nat := 16
  const BUFFER: nat := 32 * 1024

  type Block = b: Bytes | |b| == 16 witness seq(16, i => 0)

  /** A keyed block cipher. */
  type Cipher = (Bytes, Block) -> Block

  function BigEndian(s: Bytes): nat {
    if s == [] then 0 else 256 * BigEndian(s[..|s| - 1]) + Nat(s[|s| - 1])
  }

  function ToBigEndian(n: nat, len: nat): (r: Bytes)
    ensures |r| == len
  {
    if len == 0 then [] else ToBigEndian(n / 256, len - 1) + [ToByte(n % 256)]
  }

  function Pow256(len: nat): (p: nat)
    ensures p > 0
  {
    if len == 0 then 1 else 256 * Pow256(len - 1)
  }

  const TWO_128: nat := 0x1_0000_0000_0000_0000_0000_0000_0000_0000

  lemma Pow256Is128()
    ensures Pow256(16) == TWO_128
  {
    assert Pow256(4) == 0x1_0000_0000;
    assert Pow256(8) == 0x1_0000_0000_0000_0000;
    assert Pow256(12) == 0x1_0000_0000_0000_0000_0000_0000;
  }

  /** The first byte is the most significant one. */
  lemma {:induction false} BigEndianFirst(b: Byte, s: Bytes)
    ensures BigEndian([b] + s) == Nat(b) * Pow256(|s|) + BigEndian(s)
  {
    if s == [] {
      assert [b][..0] == [];
    } else {
      var front, last := s[..|s| - 1], s[|s| - 1];
      BigEndianFirst(b, front);
      assert ([b] + s)[..|s|] == [b] + front && ([b] + s)[|s|] == last;
      TimesTwice(Nat(b), Pow256(|front|));
    }
  }

  lemma TimesTwice(a: nat, p: nat)
    ensures 256 * (a * p) == a * (256 * p)
  {
  }

  lemma {:induction false} BigEndianBound(s: Bytes)
    ensures BigEndian(s) < Pow256(|s|)
  {
    if s != [] {
      BigEndianBound(s[..|s| - 1]);
    }
  }

  /** Reading back what was written, modulo what `len` bytes can hold. */
  lemma {:induction false} BigEndianBack(n: nat, len: nat)
    ensures BigEndian(ToBigEndian(n, len)) == n % Pow256(len)
  {
    if len > 0 {
      var front, last := ToBigEndian(n / 256, len - 1), ToByte(n % 256);
      BigEndianBack(n / 256, len - 1);
      hide Nat, ToByte;
      ToByteIs(n % 256);
      assert (front + [last])[..|front|] == front;
      ModDigits(n, Pow256(len - 1));
    }
  }

  lemma ModDigits(n: nat, p: nat)
    requires p > 0
    ensures 256 * (n / 256 % p) + n % 256 == n % (256 * p)
  {
    var h := n / 256;
    var q, r := h / p, h % p;
    assert n == 256 * h + n % 256;
    assert h == q * p + r;
    TimesTwice(q, p);
    assert n == q * (256 * p) + (256 * r + n % 256);
    ModIs(n, 256 * p, q, 256 * r + n % 256);
  }

  lemma LastDigit(x: nat, a: nat, y: nat, b: nat)
    requires 256 * x + a == 256 * y + b && a < 256 && b < 256
    ensures x == y && a == b
  {
  }

  /** Blocks of the same value are the same. */
  lemma {:induction false} BigEndianApart(s: Bytes, t: Bytes)
    requires |s| == |t| && BigEndian(s) == BigEndian(t)
    ensures s == t
  {
    if s != [] {
      hide Nat;
      var n := |s| - 1;
      LastDigit(BigEndian(s[..n]), Nat(s[n]), BigEndian(t[..n]), Nat(t[n]));
      SameByte(s[n], t[n]);
      BigEndianApart(s[..n], t[..n]);
      assert s == s[..n] + [s[n]] && t == t[..n] + [t[n]];
    }
  }

  /** The counter block of every position is the vector plus the block's number, modulo
      2^128. */
  lemma CounterValue(iv: Block, k: nat)
    ensures BigEndian(Counter(iv, k)) == (BigEndian(iv) + k) % TWO_128
  {
    Pow256Is128();
    BigEndianBack(BigEndian(iv) + k, 16);
  }

  /** So block 0 is the vector, and no counter block comes twice before 2^128. */
  lemma CounterBlocks(iv: Block, k: nat, l: nat)
    requires k < l < TWO_128
    ensures Counter(iv, 0) == iv && Counter(iv, k) != Counter(iv, l)
  {
    Pow256Is128();
    BigEndianBound(iv);
    hide Pow256, BigEndian, Counter;
    CounterValue(iv, 0);
    BigEndianApart(Counter(iv, 0), iv);
    CounterValue(iv, k);
    CounterValue(iv, l);
    WrapApart(BigEndian(iv), k, l);
  }

  lemma WrapApart(v: nat, k: nat, l: nat)
    requires v < TWO_128 && k < l < TWO_128
    ensures (v + k) % TWO_128 != (v + l) % TWO_128
  {
  }

  /** Counter block `k`: the initial vector as a 128-bit number plus `k`, wrapping. */
  function Counter(iv: Block, k: nat): Block {
    ToBigEndian(BigEndian(iv) + k, 16)
  }

  /** Byte `pos` of the key stream (section 6.5 of NIST SP 800-38A). */
  function KeyByte(e: Cipher, key: Bytes, iv: Block, pos: nat): Byte {
    e(key, Counter(iv, pos / 16))[pos % 16]
  }

  /** Counter mode as section 6.5 of NIST SP 800-38A has it: the vector, then every byte
      combined with the same byte of the encrypted counter block, where the counter blocks
      are the vector plus 0, 1, 2 and so on as big-endian numbers modulo 2^128. */
  ghost predicate IsCounterMode(e: Cipher, key: Bytes, iv: Block, plain: Bytes, out: Bytes) {
    && |out| == 16 + |plain| && out[..16] == iv
    && forall q: nat, r: nat, b: Block :: CounterAt(iv, q, b) && r < 16 && 16 * q + r < |plain| ==>
         out[16 + (16 * q + r)] == plain[16 * q + r] ^ e(key, b)[r]
  }

  /** `b` is the `q`-th counter block. */
  predicate CounterAt(iv: Block, q: nat, b: Block) {
    BigEndian(b) == (BigEndian(iv) + q) % TWO_128
  }

  type KeyStream = nat -> Byte

  function Keys(e: Cipher, key: Bytes, iv: Block): KeyStream {
    (pos: nat) => KeyByte(e, key, iv, pos)
  }

  /** `data` combined with the key stream from position `pos` on. */
  function XorAt(ks: KeyStream, pos: nat, data: Bytes): (r: Bytes)
    ensures |r| == |data|
  {
    seq(|data|, j requires 0 <= j < |data| => data[j] ^ ks(pos + j))
  }

  /** What CopyEncrypt emits. */
  function Seal(e: Cipher, key: Bytes, iv: Block, plain: Bytes): (r: Bytes)
    ensures |r| == 16 + |plain|
  {
    iv + XorAt(Keys(e, key, iv), 0, plain)
  }

  /** CopyEncrypt is counter mode. */
  lemma SealIsCounterMode(e: Cipher, key: Bytes, iv: Block, plain: Bytes)
    ensures IsCounterMode(e, key, iv, plain, Seal(e, key, iv, plain))
  {
    hide BigEndian, ToBigEndian, Counter, Pow256;
    var out := Seal(e, key, iv, plain);
    forall q: nat, r: nat, b: Block | CounterAt(iv, q, b) && r < 16 && 16 * q + r < |plain|
      ensures out[16 + (16 * q + r)] == plain[16 * q + r] ^ e(key, b)[r]
    {
      CounterValue(iv, q);
      BigEndianApart(b, Counter(iv, q));
      PlaceInBlock(q, r);
    }
  }

  lemma PlaceInBlock(q: nat, r: nat)
    requires r < 16
    ensures (16 * q + r) / 16 == q && (16 * q + r) % 16 == r
  {
  }

  /** The vector CopyDecrypt works with when its one Read delivered `first` bytes:
      the array was zeroed, and only its front was filled. */
  function ShortIv(raw: Bytes, first: nat): Block
    requires first <= 16 && first <= |raw|
    ensures forall i :: 0 <= i < 16 ==> ShortIv(raw, first)[i] == if i < first then raw[i] else 0
  {
    raw[..first] + seq(16 - first, i => 0)
  }

  /** What CopyDecrypt emits when its first Read delivered `first` bytes of `raw`. */
  function Unseal(e: Cipher, key: Bytes, raw: Bytes, first: nat): (r: Bytes)
    requires first <= 16 && first <= |raw|
    ensures |r| == |raw| - first
  {
    XorAt(Keys(e, key, ShortIv(raw, first)), 0, raw[first..])
  }

  lemma XorTwice(ks: KeyStream, pos: nat, data: Bytes)
    ensures XorAt(ks, pos, XorAt(ks, pos, data)) == data
  {
    var once := XorAt(ks, pos, data);
    var twice := XorAt(ks, pos, once);
    forall j | 0 <= j < |data| ensures twice[j] == data[j] {
      XorCancels(data[j], ks(pos + j));
    }
  }

  lemma XorCancels(a: Byte, b: Byte)
    ensures (a ^ b) ^ b == a
  {
  }

  /** CopyDecrypt is counter mode backwards, under whatever vector it ended up with. */
  lemma UnsealIsCounterMode(e: Cipher, key: Bytes, raw: Bytes, first: nat)
    requires first <= 16 && first <= |raw|
    ensures IsCounterMode(e, key, ShortIv(raw, first), Unseal(e, key, raw, first), ShortIv(raw, first) + raw[first..])
  {
    hide IsCounterMode, Counter, BigEndian;
    var iv, out := ShortIv(raw, first), Unseal(e, key, raw, first);
    SealIsCounterMode(e, key, iv, out);
    XorTwice(Keys(e, key, iv), 0, raw[first..]);
  }

  /** The key stream does not care where the data was cut. */
  lemma XorAppend(ks: KeyStream, pos: nat, a: Bytes, b: Bytes)
    ensures XorAt(ks, pos, a + b) == XorAt(ks, pos, a) + XorAt(ks, pos + |a|, b)
  {
    var l := XorAt(ks, pos, a + b);
    var r := XorAt(ks, pos, a) + XorAt(ks, pos + |a|, b);
    forall j | 0 <= j < |l| ensures l[j] == r[j] {
      if j < |a| {
        assert (a + b)[j] == a[j];
      } else {
        assert (a + b)[j] == b[j - |a|];
        assert pos + j == (pos + |a|) + (j - |a|);
      }
    }
  }

  /** Decryption undoes encryption exactly when the first Read delivered the whole
      vector; any shorter first Read yields the wrong bytes, for every input. */
  lemma RoundTripIff(e: Cipher, key: Bytes, iv: Block, plain: Bytes, first: nat)
    requires first <= 16
    ensures Unseal(e, key, Seal(e, key, iv, plain), first) == plain <==> first == 16
  {
    var raw := Seal(e, key, iv, plain);
    if first == 16 {
      assert raw[..16] == iv;
      assert raw[16..] == XorAt(Keys(e, key, iv), 0, plain);
      assert ShortIv(raw, 16) == iv;
      XorTwice(Keys(e, key, iv), 0, plain);
    } else {
      assert |Unseal(e, key, raw, first)| != |plain|;
    }
  }

  datatype ReadErr = NoErr | Eof | Fault

  /** An io.Reader that hands over `pieces` one after the other (a piece longer than
      the buffer takes several reads) and then reports `end`; an eager reader reports
      `end` together with its last bytes. */
  class Source {
    var pieces: seq<Bytes>
    const end: ReadErr
    const eager: bool

    constructor (pieces: seq<Bytes>, end: ReadErr, eager: bool)
      requires end != NoErr
      ensures this.pieces == pieces && this.end == end && this.eager == eager
    {
      this.pieces, this.end, this.eager := pieces, end, eager;
    }

    method Read(buf: array<Byte>) returns (n: nat, err: ReadErr)
      requires end != NoErr
      modifies this, buf
      ensures n <= buf.Length
      ensures old(pieces) == [] ==> n == 0 && err == end && pieces == []
      ensures old(pieces) != [] ==> n == Min(|old(pieces)[0]|, buf.Length)
      ensures old(pieces) != [] ==> err == if eager && pieces == [] then end else NoErr
      ensures old(pieces) != [] ==> (pieces == [] <==> |old(pieces)| == 1 && |old(pieces)[0]| <= buf.Length)
      ensures Concat(old(pieces)) == buf[..n] + Concat(pieces)
      ensures forall j :: n <= j < buf.Length ==> buf[j] == old(buf[j])
      ensures old(pieces) != [] && 0 < buf.Length ==>
        |Concat(pieces)| + |pieces| < |Concat(old(pieces))| + |old(pieces)|
    {
      if pieces == [] {
        return 0, end;
      }
      var p := pieces[0];
      n := Min(|p|, buf.Length);
      forall j | 0 <= j < n {
        buf[j] := p[j];
      }
      assert buf[..n] == p[..n];
      ghost var before := pieces;
      if n == |p| {
        pieces := pieces[1..];
      } else {
        pieces := [p[n..]] + pieces[1..];
        assert pieces[1..] == before[1..];
        assert p == p[..n] + p[n..];
      }
      assert Concat(before) == p[..n] + Concat(pieces);
      err := if eager && pieces == [] then end else NoErr;
    }
  }

  /** An io.Writer with room for `room` more bytes, or for any number. A write that
      does not fit stores what fits and fails. */
  class Sink {
    var written: Bytes
    var room: Option<nat>

    constructor (room: Option<nat>)
      ensures written == [] && this.room == room
    {
      written, this.room := [], room;
    }

    predicate Fits(n: nat)
      reads this
    {
      room.None? || n <= room.value
    }

    method Write(b: Bytes) returns (n: nat, ok: bool)
      modifies this
      ensures ok == old(Fits(|b|))
      ensures n == if ok then |b| else old(room).value
      ensures n <= |b| && written == old(written) + b[..n]
      ensures room == if old(room).None? then None else Some(old(room).value - n)
    {
      ok := Fits(|b|);
      n := if ok then |b| else room.value;
      written := written + b[..n];
      if room.Some? {
        room := Some(room.value - n);
      }
    }
  }

  /** A cipher.Stream: a position in a fixed key stream. */
  class Stream {
    const keys: KeyStream
    var pos: nat

    constructor (keys: KeyStream)
      ensures this.keys == keys && pos == 0
    {
      this.keys, pos := keys, 0;
    }

    /** XORs the first `n` bytes of `buf` in place and advances. */
    method XorKeyStream(buf: array<Byte>, n: nat)
      requires n <= buf.Length
      modifies this, buf
      ensures buf[..n] == XorAt(keys, old(pos), old(buf[..n]))
      ensures pos == old(pos) + n
      ensures forall j :: n <= j < buf.Length ==> buf[j] == old(buf[j])
    {
      var j := 0;
      while j < n
        invariant j <= n && pos == old(pos)
        invariant forall k :: 0 <= k < j ==> buf[k] == old(buf[k]) ^ keys(pos + k)
        invariant forall k :: j <= k < buf.Length ==> buf[k] == old(buf[k])
      {
        buf[j] := buf[j] ^ keys(pos + j);
        j := j + 1;
      }
      assert buf[..n] == XorAt(keys, old(pos), old(buf[..n]));
      pos := pos + n;
    }
  }

  /** One turn of the copy loop: read a piece, combine it in the buffer, write it. */
  method CopyPiece(stream: Stream, src: Source, dst: Sink, buf: array<Byte>)
      returns (n: nat, err: ReadErr, wrote: bool, ghost part: Bytes)
    requires src.end != NoErr && 0 < buf.Length
    modifies stream, src, dst, buf
    ensures n == |part| && Concat(old(src.pieces)) == part + Concat(src.pieces)
    ensures err != NoErr ==> err == src.end && src.pieces == []
    ensures err == NoErr ==>
      |Concat(src.pieces)| + |src.pieces| < |Concat(old(src.pieces))| + |old(src.pieces)|
    ensures stream.pos == old(stream.pos) + n
    ensures wrote == old(dst.Fits(n))
    ensures wrote ==> dst.room == if old(dst.room).None? then None else Some(old(dst.room).value - n)
    ensures Extends(old(dst.written), XorAt(stream.keys, old(stream.pos), part), dst.written)
    ensures wrote ==> |dst.written| == |old(dst.written)| + n
  {
    n, err := src.Read(buf);
    part := buf[..n];
    wrote := true;
    if n > 0 {
      stream.XorKeyStream(buf, n);
      var nn;
      nn, wrote := dst.Write(buf[..n]);
    }
  }

  /** `now` is `before` followed by a front part of `add`. */
  ghost predicate Extends(before: Bytes, add: Bytes, now: Bytes) {
    |before| <= |now| <= |before| + |add| && now == before + add[..|now| - |before|]
  }

  lemma ExtendsMore(before: Bytes, a: Bytes, b: Bytes, mid: Bytes, now: Bytes)
    requires mid == before + a && Extends(mid, b, now)
    ensures Extends(before, a + b, now)
  {
    assert (a + b)[..|now| - |before|] == a + b[..|now| - |mid|];
  }

  lemma ExtendsWider(before: Bytes, a: Bytes, b: Bytes, now: Bytes)
    requires Extends(before, a, now)
    ensures Extends(before, a + b, now)
  {
    assert (a + b)[..|now| - |before|] == a[..|now| - |before|];
  }

  /** copyStream: succeeds exactly when the reader ends with end-of-file and the
      writer has room; then the output is the whole input under one uninterrupted key
      stream and the count is 16 more than its length. When it fails, what was written
      is a front part of that. */
  method CopyStream(stream: Stream, src: Source, dst: Sink) returns (nw: nat, ok: bool)
    requires src.end != NoErr
    modifies stream, src, dst
    ensures ok == (src.end == Eof && old(dst.Fits(|Concat(src.pieces)|)))
    ensures nw == if ok then 16 + |Concat(old(src.pieces))| else 0
    ensures Extends(old(dst.written),
                    XorAt(stream.keys, old(stream.pos), Concat(old(src.pieces))), dst.written)
    ensures ok ==> |dst.written| == |old(dst.written)| + |Concat(old(src.pieces))|
  {
    ghost var p0, all, w0 := stream.pos, Concat(src.pieces), dst.written;
    var buf := new Byte[BUFFER];
    nw := BLOCK;
    ghost var done: Bytes := [];
    while true
      invariant all == done + Concat(src.pieces)
      invariant stream.pos == p0 + |done| && nw == 16 + |done|
      invariant dst.written == w0 + XorAt(stream.keys, p0, done)
      invariant old(dst.room).None? ==> dst.room.None?
      invariant old(dst.room).Some? ==> dst.room.Some? && dst.room.value + |done| == old(dst.room).value
      decreases |Concat(src.pieces)| + |src.pieces|
    {
      ghost var mid := dst.written;
      var n, err, wrote, part := CopyPiece(stream, src, dst, buf);
      assert all == done + part + Concat(src.pieces);
      XorAppend(stream.keys, p0, done, part);
      XorAppend(stream.keys, p0, done + part, Concat(src.pieces));
      ExtendsMore(w0, XorAt(stream.keys, p0, done),
                  XorAt(stream.keys, p0 + |done|, part), mid, dst.written);
      if !wrote || err != NoErr {
        ExtendsWider(w0, XorAt(stream.keys, p0, done + part),
                     XorAt(stream.keys, p0 + |done + part|, Concat(src.pieces)), dst.written);
      }
      if !wrote {
        return 0, false;
      }
      nw := nw + n;
      done := done + part;
      if err == Eof {
        assert done == all;
        return nw, true;
      }
      if err != NoErr {
        return 0, false;
      }
    }
  }

  /** CopyEncrypt with the vector `iv` drawn by the random source. */
  method CopyEncrypt(e: Cipher, key: Bytes, iv: Block, src: Source, dst: Sink) returns (n: nat, ok: bool)
    requires src.end != NoErr
    modifies src, dst
    ensures ok == (src.end == Eof && old(dst.Fits(16 + |Concat(src.pieces)|)))
    ensures n == if ok then 16 + |Concat(old(src.pieces))| else 0
    ensures Extends(old(dst.written), Seal(e, key, iv, Concat(old(src.pieces))), dst.written)
    ensures ok ==> dst.written == old(dst.written) + Seal(e, key, iv, Concat(old(src.pieces)))
    ensures ok ==> IsCounterMode(e, key, iv, Concat(old(src.pieces)), dst.written[|old(dst.written)|..])
  {
    SealIsCounterMode(e, key, iv, Concat(src.pieces));
    hide IsCounterMode;
    ghost var w0, body := dst.written, XorAt(Keys(e, key, iv), 0, Concat(src.pieces));
    var _, wok := dst.Write(iv);
    if !wok {
      ExtendsWider(w0, iv, body, dst.written);
      return 0, false;
    }
    assert iv[..16] == iv;
    ghost var mid := dst.written;
    var stream := new Stream(Keys(e, key, iv));
    n, ok := CopyStream(stream, src, dst);
    ExtendsMore(w0, iv, body, mid, dst.written);
    assert ok ==> (iv + body)[..|dst.written| - |w0|] == iv + body;
  }

  /** The number of bytes the single Read of the vector delivers. */
  function FirstRead(pieces: seq<Bytes>): (n: nat)
    ensures n <= 16 && n <= |Concat(pieces)|
  {
    if pieces == [] then 0 else Min(|pieces[0]|, 16)
  }

  /** The Read of the vector reports no error, not even an early end-of-file. */
  predicate VectorRead(pieces: seq<Bytes>, eager: bool) {
    pieces != [] && !(eager && |pieces| == 1 && |pieces[0]| <= 16)
  }

  /** CopyDecrypt: whatever the first Read delivered is taken as the vector, and the
      rest of the input is decrypted from there. */
  method CopyDecrypt(e: Cipher, key: Bytes, src: Source, dst: Sink) returns (n: nat, ok: bool)
    requires src.end != NoErr
    modifies src, dst
    ensures ok == (VectorRead(old(src.pieces), src.eager) && src.end == Eof &&
                   old(dst.Fits(|Concat(src.pieces)| - FirstRead(src.pieces))))
    ensures n == if ok then 16 + |Concat(old(src.pieces))| - FirstRead(old(src.pieces)) else 0
    ensures Extends(old(dst.written), Unseal(e, key, Concat(old(src.pieces)), FirstRead(old(src.pieces))), dst.written)
    ensures ok ==> dst.written == old(dst.written) + Unseal(e, key, Concat(old(src.pieces)), FirstRead(old(src.pieces)))
  {
    ghost var raw := Concat(src.pieces);
    ghost var first := FirstRead(src.pieces);
    var iv := new Byte[16](i => 0);
    var got, err := src.Read(iv);
    assert got == first;
    assert raw[..first] == iv[..first] && raw[first..] == Concat(src.pieces);
    if err != NoErr {
      return 0, false;
    }
    var block: Block := iv[..];
    assert block == ShortIv(raw, first);
    var stream := new Stream(Keys(e, key, block));
    n, ok := CopyStream(stream, src, dst);
  }

  /** Both directions composed, for two unrelated ways of cutting the data into reads, and
      readers that report their end with the last bytes or after them. */
  method EncryptThenDecrypt(e: Cipher, key: Bytes, iv: Block, plain: seq<Bytes>, cut: seq<Bytes>, eagerIn: bool,
                            eagerOut: bool)
      returns (sealed: Bytes, back: Bytes, n: nat, m: nat)
    requires Concat(cut) == Seal(e, key, iv, Concat(plain)) && VectorRead(cut, eagerOut) && |cut[0]| >= 16
    ensures sealed == Concat(cut) && back == Concat(plain)
    ensures n == m == 16 + |Concat(plain)|
  {
    hide Seal, Unseal, XorAt, Keys, Extends, Concat;
    var src := new Source(plain, Eof, eagerIn);
    var mid := new Sink(None);
    var ok: bool;
    n, ok := CopyEncrypt(e, key, iv, src, mid);
    sealed := mid.written;
    var again := new Source(cut, Eof, eagerOut);
    var dst := new Sink(None);
    m, ok := CopyDecrypt(e, key, again, dst);
    RoundTripIff(e, key, iv, Concat(plain), 16);
    back := dst.written;
  }
}
