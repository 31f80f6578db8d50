/** Byte strings and small helpers shared by every module. */
module Prelude {

  type Byte = bv8
  type Bytes = seq<Byte>

  datatype Option<+T> = None | Some(value: T)

  type UserId = string
  type AccountId = string
  type FileId = nat
  type RemoteId = string

  function Min(a: int, b: int): int {
    if a <= b then a else b
  }

  // ---- bytes and numbers ----

  function Nat(b: Byte): (n: nat)
    ensures n < 256
  {
    b as nat
  }

  function Bit(c: bool): nat {
    if c then 1 else 0
  }

  function FromBits(b0: bool, b1: bool, b2: bool, b3: bool, b4: bool, b5: bool, b6: bool, b7: bool): Byte {
    (if b0 then 1 else 0) | (if b1 then 2 else 0) | (if b2 then 4 else 0) | (if b3 then 8 else 0) |
    (if b4 then 16 else 0) | (if b5 then 32 else 0) | (if b6 then 64 else 0) | (if b7 then 128 else 0)
  }

  /** One of the digits in `mask` is set. */
  predicate Has(b: Byte, mask: Byte) {
    b & mask != 0
  }

  lemma FromBitsHas(b0: bool, b1: bool, b2: bool, b3: bool, b4: bool, b5: bool, b6: bool, b7: bool)
    ensures var b := FromBits(b0, b1, b2, b3, b4, b5, b6, b7);
      && Bit(Has(b, 1)) == Bit(b0) && Bit(Has(b, 2)) == Bit(b1) && Bit(Has(b, 4)) == Bit(b2)
      && Bit(Has(b, 8)) == Bit(b3) && Bit(Has(b, 16)) == Bit(b4) && Bit(Has(b, 32)) == Bit(b5)
      && Bit(Has(b, 64)) == Bit(b6) && Bit(Has(b, 128)) == Bit(b7)
  {
  }

  lemma ByteValue(b: Byte)
    ensures Nat(b) ==
      Bit(Has(b, 1)) + 2 * Bit(Has(b, 2)) + 4 * Bit(Has(b, 4)) + 8 * Bit(Has(b, 8)) +
      16 * Bit(Has(b, 16)) + 32 * Bit(Has(b, 32)) + 64 * Bit(Has(b, 64)) + 128 * Bit(Has(b, 128))
  {
  }

  lemma BitsValue(b0: bool, b1: bool, b2: bool, b3: bool, b4: bool, b5: bool, b6: bool, b7: bool)
    ensures Nat(FromBits(b0, b1, b2, b3, b4, b5, b6, b7)) ==
      Bit(b0) + 2 * Bit(b1) + 4 * Bit(b2) + 8 * Bit(b3) + 16 * Bit(b4) + 32 * Bit(b5) + 64 * Bit(b6) + 128 * Bit(b7)
  {
    hide FromBits, Bit, Nat, Has;
    FromBitsHas(b0, b1, b2, b3, b4, b5, b6, b7);
    ByteValue(FromBits(b0, b1, b2, b3, b4, b5, b6, b7));
  }

  /** `n` divided by 2 `k` times. */
  function Halved(n: nat, k: nat): nat {
    if k == 0 then n else Halved(n, k - 1) / 2
  }

  predicate Digit(n: nat, k: nat) {
    Halved(n, k) % 2 == 1
  }

  /** The byte of value `n`, from its binary digits. */
  function ToByte(n: nat): Byte
    requires n < 256
  {
    FromBits(Digit(n, 0), Digit(n, 1), Digit(n, 2), Digit(n, 3), Digit(n, 4), Digit(n, 5), Digit(n, 6), Digit(n, 7))
  }

  lemma Half(n: nat, k: nat)
    ensures Halved(n, k) == Bit(Digit(n, k)) + 2 * Halved(n, k + 1)
  {
  }

  lemma NoneAbove(n: nat)
    requires n < 256
    ensures Halved(n, 8) == 0
  {
    assert Halved(n, 1) <= 127;
    assert Halved(n, 2) <= 63;
    assert Halved(n, 3) <= 31;
    assert Halved(n, 4) <= 15;
    assert Halved(n, 5) <= 7;
    assert Halved(n, 6) <= 3;
    assert Halved(n, 7) <= 1;
  }

  /** Every number is the sum of its digits. */
  lemma DigitSum(n: nat)
    requires n < 256
    ensures n == Bit(Digit(n, 0)) + 2 * Bit(Digit(n, 1)) + 4 * Bit(Digit(n, 2)) + 8 * Bit(Digit(n, 3)) +
      16 * Bit(Digit(n, 4)) + 32 * Bit(Digit(n, 5)) + 64 * Bit(Digit(n, 6)) + 128 * Bit(Digit(n, 7))
  {
    assert Halved(n, 0) == n;
    NoneAbove(n);
    hide Bit, Halved, Digit;
    Half(n, 0);
    Half(n, 1);
    Half(n, 2);
    Half(n, 3);
    Half(n, 4);
    Half(n, 5);
    Half(n, 6);
    Half(n, 7);
  }

  lemma ToByteIs(n: nat)
    requires n < 256
    ensures Nat(ToByte(n)) == n
  {
    hide FromBits, Bit, Halved, Digit, Nat;
    BitsValue(Digit(n, 0), Digit(n, 1), Digit(n, 2), Digit(n, 3), Digit(n, 4), Digit(n, 5), Digit(n, 6), Digit(n, 7));
    DigitSum(n);
  }

  lemma SameByte(a: Byte, b: Byte)
    requires Nat(a) == Nat(b)
    ensures a == b
  {
  }

  // ---- division ----

  lemma DivStep(x: nat, c: nat)
    requires c > 0
    ensures (x + c) / c == x / c + 1
  {
    var q := x / c;
    assert x == q * c + x % c;
    DivIs(x + c, c, q + 1);
  }

  lemma DivIs(x: nat, c: nat, q: nat)
    requires c > 0 && q * c <= x < q * c + c
    ensures x / c == q
  {
    var d := x / c;
    assert x == d * c + x % c;
    assert (q - d) * c == q * c - d * c;
    MulSign(q - d, c);
  }

  lemma MulSign(k: int, c: nat)
    requires c > 0
    ensures k >= 1 ==> k * c >= c
    ensures k <= -1 ==> k * c <= 0 - c
  {
    if k >= 1 {
      assert k * c == (k - 1) * c + c;
    } else if k <= -1 {
      assert k * c == (k + 1) * c - c;
    }
  }

  lemma ModIs(n: nat, m: nat, q: nat, r: nat)
    requires m > 0 && n == q * m + r && r < m
    ensures n % m == r
  {
    DivIs(n, m, q);
    assert n == n / m * m + n % m;
  }

  /** The bytes of `parts`, one part after the other. */
  function Concat(parts: seq<Bytes>): Bytes {
    if parts == [] then [] else parts[0] + Concat(parts[1..])
  }

  lemma {:induction false} ConcatSplit(a: seq<Bytes>, b: seq<Bytes>)
    ensures Concat(a + b) == Concat(a) + Concat(b)
  {
    if a == [] {
      assert a + b == b;
    } else {
      assert (a + b)[0] == a[0] && (a + b)[1..] == a[1..] + b;
      ConcatSplit(a[1..], b);
    }
  }

  lemma ConcatSnoc(parts: seq<Bytes>, last: Bytes)
    ensures Concat(parts + [last]) == Concat(parts) + last
  {
    ConcatSplit(parts, [last]);
    assert [last][1..] == [];
    assert Concat([last]) == last + Concat([last][1..]);
  }

  /** The first `k` parts give a prefix of what all of them give. */
  lemma ConcatPrefix(parts: seq<Bytes>, k: nat)
    requires k <= |parts|
    ensures Concat(parts[..k]) <= Concat(parts)
  {
    assert parts == parts[..k] + parts[k..];
    ConcatSplit(parts[..k], parts[k..]);
  }

  /** The weights of all elements, added up. */
  function Tally<T>(w: T -> nat, s: seq<T>): nat {
    if s == [] then 0 else w(s[0]) + Tally(w, s[1..])
  }

  lemma {:induction false} TallyUpdate<T>(w: T -> nat, s: seq<T>, i: nat, v: T)
    requires i < |s|
    ensures Tally(w, s[i := v]) == Tally(w, s) - w(s[i]) + w(v)
  {
    if i == 0 {
      assert s[i := v][1..] == s[1..];
    } else {
      assert s[i := v][1..] == s[1..][i - 1 := v];
      TallyUpdate(w, s[1..], i - 1, v);
    }
  }

  lemma {:induction false} TallySame<T>(w: T -> nat, s: seq<T>, v: T)
    requires forall i :: 0 <= i < |s| ==> s[i] == v
    ensures Tally(w, s) == |s| * w(v)
  {
    if s != [] {
      TallySame(w, s[1..], v);
      assert |s| * w(v) == (|s| - 1) * w(v) + w(v);
    }
  }

  /** If elements weigh nothing or one, the tally is their number. */
  lemma {:induction false} TallyCount<T>(w: T -> nat, s: seq<T>, those: set<nat>)
    requires forall i: nat :: i in those <==> i < |s| && w(s[i]) == 1
    requires forall i :: 0 <= i < |s| ==> w(s[i]) <= 1
    ensures Tally(w, s) == |those|
  {
    if s == [] {
      assert those == {};
    } else {
      var later := set i | i in those && i > 0 :: i - 1;
      assert forall i :: 0 <= i < |s| - 1 ==> s[1..][i] == s[i + 1];
      forall i: nat ensures i in later <==> i < |s[1..]| && w(s[1..][i]) == 1 {
        assert i in later <==> i + 1 in those;
      }
      TallyCount(w, s[1..], later);
      ShiftCount(those, later);
    }
  }

  lemma {:induction false} ShiftCount(those: set<nat>, later: set<nat>)
    requires forall i: nat :: i in later <==> i + 1 in those
    ensures |those| == |later| + if 0 in those then 1 else 0
    decreases |later|
  {
    if later == {} {
      assert forall i :: i in those ==> i == 0 || i - 1 in later;
      assert those == if 0 in those then {0} else {};
    } else {
      var i :| i in later;
      ShiftCount(those - {i + 1}, later - {i});
    }
  }

  /** Something that weighs is there. */
  lemma {:induction false} TallyPositive<T>(w: T -> nat, s: seq<T>) returns (i: nat)
    requires Tally(w, s) > 0
    ensures i < |s| && w(s[i]) > 0
  {
    if w(s[0]) > 0 {
      i := 0;
    } else {
      i := TallyPositive(w, s[1..]);
      i := i + 1;
    }
  }
}
