/** Unsigned 64-bit words, with the operators of the source written out over
    numbers: truncating shift up, shift down, bitwise or, bitwise and. Each
    operator is characterised bit by bit; the replay window and the reassembler
    reason about their bitmaps through these facts alone. */
module Words {
  const TWO_64: nat := 0x1_0000_0000_0000_0000
  type uint8 = x: nat | x < 0x100
  type uint16 = x: nat | x < 0x1_0000
  type uint32 = x: nat | x < 0x1_0000_0000
  type uint64 = x: nat | x < 0x1_0000_0000_0000_0000

  function Min(a: nat, b: nat): nat { if a <= b then a else b }

  function Pow2(n: nat): (p: nat)
    ensures p > 0
  {
    if n == 0 then 1 else 2 * Pow2(n - 1)
  }

  /** Bit i of a number. */
  predicate Bit(w: nat, i: nat)
  {
    if i == 0 then w % 2 == 1 else Bit(w / 2, i - 1)
  }

  /** w << s: s doublings, each dropping what leaves the word. */
  function Shl(w: uint64, s: nat): uint64
  {
    if s == 0 then w else (2 * Shl(w, s - 1)) % TWO_64
  }

  /** w >> s. */
  function Shr(w: uint64, s: nat): uint64
  {
    if s == 0 then w else Shr(w, s - 1) / 2
  }

  function OrBits(a: nat, b: nat): nat
  {
    if a == 0 && b == 0 then 0
    else 2 * OrBits(a / 2, b / 2) + if a % 2 == 1 || b % 2 == 1 then 1 else 0
  }

  /** a | b. */
  function Or(a: uint64, b: uint64): uint64
  {
    PowerOf64();
    OrBelow(a, b, 64);
    OrBits(a, b)
  }

  /** a & b. */
  function And(a: nat, b: nat): nat
  {
    if a == 0 || b == 0 then 0
    else 2 * And(a / 2, b / 2) + if a % 2 == 1 && b % 2 == 1 then 1 else 0
  }

  lemma PowerOf64()
    ensures Pow2(63) == 0x8000_0000_0000_0000 && Pow2(64) == TWO_64
  {
    assert Pow2(4) == 16;
    PowerSum(4, 4);
    PowerSum(8, 8);
    PowerSum(16, 16);
    PowerSum(32, 32);
    assert Pow2(64) == 2 * Pow2(63);
  }

  lemma {:induction false} PowerSum(a: nat, b: nat)
    ensures Pow2(a + b) == Pow2(a) * Pow2(b)
  {
    if a > 0 { PowerSum(a - 1, b); }
  }

  lemma {:induction false} OrBelow(a: nat, b: nat, n: nat)
    requires a < Pow2(n) && b < Pow2(n)
    ensures OrBits(a, b) < Pow2(n)
  {
    if n > 0 && !(a == 0 && b == 0) { OrBelow(a / 2, b / 2, n - 1); }
  }

  // ---- the operators, bit by bit ----

  lemma {:induction false} ZeroBit(i: nat)
    ensures !Bit(0, i)
  {
    if i > 0 { ZeroBit(i - 1); }
  }

  lemma {:induction false} OrBit(a: nat, b: nat, i: nat)
    ensures Bit(OrBits(a, b), i) <==> Bit(a, i) || Bit(b, i)
  {
    if a == 0 && b == 0 {
      ZeroBit(i);
    } else if i > 0 {
      OrBit(a / 2, b / 2, i - 1);
    }
  }

  lemma {:induction false} AndBit(a: nat, b: nat, i: nat)
    ensures Bit(And(a, b), i) <==> Bit(a, i) && Bit(b, i)
  {
    if a == 0 || b == 0 {
      ZeroBit(i);
    } else if i > 0 {
      AndBit(a / 2, b / 2, i - 1);
    }
  }

  lemma {:induction false} ShrBit(w: uint64, s: nat, i: nat)
    ensures Bit(Shr(w, s), i) <==> Bit(w, i + s)
  {
    if s > 0 { ShrBit(w, s - 1, i + 1); }
  }

  /** Remainders keep the low half of what they divide. */
  lemma HalfOfRemainder(v: nat, q: nat)
    requires q > 0
    ensures (v % (2 * q)) / 2 == (v / 2) % q
    ensures (v % (2 * q)) % 2 == v % 2
  {
    var k, r := Split(v, 2 * q);
    Doubled(q, k);
    HalfOf(v, q, k, r);
  }

  lemma Split(v: nat, d: nat) returns (k: nat, r: nat)
    requires d > 0
    ensures v == d * k + r && r < d && v % d == r
  {
    k, r := v / d, v % d;
  }

  lemma Doubled(q: nat, k: nat)
    ensures (2 * q) * k == 2 * (q * k)
  {}

  lemma HalfOf(v: nat, q: nat, k: nat, r: nat)
    requires v == 2 * (q * k) + r && r < 2 * q
    ensures r / 2 == (v / 2) % q && r % 2 == v % 2
  {
    Halved(v, q * k, r);
    RemainderIs(v / 2, q, k, r / 2);
  }

  lemma Halved(v: nat, m: nat, r: nat)
    requires v == 2 * m + r
    ensures v / 2 == m + r / 2 && v % 2 == r % 2
  {}

  lemma RemainderIs(x: nat, q: nat, k: nat, t: nat)
    requires 0 <= t < q && x == q * k + t
    ensures x % q == t && x / q == k
  {
    var d := x / q - k;
    assert q * d == t - x % q;
    assert d >= 1 ==> q * d >= q;
    assert d <= -1 ==> q * d <= 0 - q;
  }

  lemma {:induction false} LowBits(v: nat, n: nat, i: nat)
    requires i < n
    ensures Bit(v % Pow2(n), i) <==> Bit(v, i)
  {
    HalfOfRemainder(v, Pow2(n - 1));
    if i > 0 { LowBits(v / 2, n - 1, i - 1); }
  }

  lemma {:induction false} ShlBit(w: uint64, s: nat, i: nat)
    requires i < 64
    ensures Bit(Shl(w, s), i) <==> i >= s && Bit(w, i - s)
  {
    if s > 0 {
      PowerOf64();
      LowBits(2 * Shl(w, s - 1), 64, i);
      if i > 0 { ShlBit(w, s - 1, i - 1); }
    }
  }

  lemma {:induction false} NonzeroHasBit(w: nat) returns (i: nat)
    requires w != 0
    ensures Bit(w, i)
  {
    if w % 2 == 1 {
      i := 0;
    } else {
      i := NonzeroHasBit(w / 2);
      i := i + 1;
    }
  }

  lemma {:induction false} HighBitsClear(w: nat, n: nat, i: nat)
    requires w < Pow2(n) && n <= i
    ensures !Bit(w, i)
  {
    if n == 0 {
      ZeroBit(i);
    } else {
      HighBitsClear(w / 2, n - 1, i - 1);
    }
  }

  /** 1 << s has bit s and no other. */
  lemma OneBit(s: nat, i: nat)
    requires s < 64
    ensures Bit(Shl(1, s), i) <==> i == s
  {
    if i < 64 {
      ShlBit(1, s, i);
      if i > s { HighBitsClear(1, 1, i - s); }
    } else {
      PowerOf64();
      HighBitsClear(Shl(1, s), 64, i);
    }
  }

  /** The mask test w & (1 << s) != 0 of the source reads bit s. */
  lemma MaskTest(w: uint64, s: nat)
    requires s < 64
    ensures And(w, Shl(1, s)) != 0 <==> Bit(w, s)
  {
    if And(w, Shl(1, s)) != 0 {
      var i := NonzeroHasBit(And(w, Shl(1, s)));
      AndBit(w, Shl(1, s), i);
      OneBit(s, i);
    } else {
      AndBit(w, Shl(1, s), s);
      OneBit(s, s);
      ZeroBit(s);
    }
  }

  // ---- multi-word bitmaps ----

  /** Bit p of a bitmap stored as words, least significant word first. */
  predicate BitAt(words: seq<uint64>, p: nat)
    requires p < 64 * |words|
  {
    Bit(words[p / 64], p % 64)
  }

  /** words[p/64] |= 1 << (p%64). */
  function SetAt(words: seq<uint64>, p: nat): (r: seq<uint64>)
    requires p < 64 * |words|
    ensures |r| == |words|
  {
    words[p / 64 := Or(words[p / 64], Shl(1, p % 64))]
  }

  /** Setting position p changes that position and no other. */
  lemma BitAtSet(words: seq<uint64>, p: nat, q: nat)
    requires p < 64 * |words| && q < 64 * |words|
    ensures BitAt(SetAt(words, p), q) <==> q == p || BitAt(words, q)
  {
    if p / 64 == q / 64 {
      OrBit(words[p / 64], Shl(1, p % 64), q % 64);
      OneBit(p % 64, q % 64);
    }
  }

  // ---- sets of numbers ----

  lemma {:induction false} IntervalSize(s: set<int>, lo: int, hi: int)
    requires lo <= hi && forall x :: x in s ==> lo <= x < hi
    ensures |s| <= hi - lo
    decreases hi - lo
  {
    if lo == hi {
      assert s == {};
    } else {
      IntervalSize(s - {hi - 1}, lo, hi - 1);
      assert s <= (s - {hi - 1}) + {hi - 1};
    }
  }
}
