/** Byte strings: big-endian integers, and buffers filled through an offset. */
module Bytes {
  import opened Words

  type Bytes = seq<uint8>

  /** 256^k. */
  function Range(k: nat): (p: nat)
    ensures p > 0
  {
    if k == 0 then 1 else 256 * Range(k - 1)
  }

  lemma Ranges()
    ensures Range(1) == 0x100 && Range(2) == 0x1_0000 && Range(4) == 0x1_0000_0000 && Range(8) == TWO_64
  {
    assert Range(4) == 256 * Range(3);
    assert Range(6) == 256 * Range(5);
    assert Range(8) == 256 * Range(7);
  }

  /** The k-byte big-endian encoding of n. */
  function BigEndian(n: nat, k: nat): (r: Bytes)
    ensures |r| == k
  {
    if k == 0 then [] else BigEndian(n / 256, k - 1) + [n % 256]
  }

  function Value(b: Bytes): nat
  {
    if b == [] then 0 else 256 * Value(b[..|b| - 1]) + b[|b| - 1]
  }

  /** Decoding undoes encoding for everything that fits. */
  lemma {:induction false} ValueOfBigEndian(n: nat, k: nat)
    requires n < Range(k)
    ensures Value(BigEndian(n, k)) == n
  {
    if k > 0 {
      ValueOfBigEndian(n / 256, k - 1);
      assert BigEndian(n, k)[..k - 1] == BigEndian(n / 256, k - 1);
    }
  }

  lemma {:induction false} ValueBelow(b: Bytes)
    ensures Value(b) < Range(|b|)
  {
    if b != [] { ValueBelow(b[..|b| - 1]); }
  }

  /** Encoding undoes decoding. */
  lemma {:induction false} BigEndianOfValue(b: Bytes)
    ensures BigEndian(Value(b), |b|) == b
  {
    if b != [] {
      BigEndianOfValue(b[..|b| - 1]);
      assert b == b[..|b| - 1] + [b[|b| - 1]];
    }
  }

  lemma BigEndianInjective(m: nat, n: nat, k: nat)
    requires m < Range(k) && n < Range(k) && BigEndian(m, k) == BigEndian(n, k)
    ensures m == n
  {
    ValueOfBigEndian(m, k);
    ValueOfBigEndian(n, k);
  }

  lemma SliceOfSlice(s: Bytes, a: nat, b: nat, c: nat, d: nat)
    requires a <= b <= |s| && c <= d <= b - a
    ensures s[a..b][c..d] == s[a + c..a + d]
  {
    forall i | 0 <= i < d - c ensures s[a..b][c..d][i] == s[a + c..a + d][i] {}
  }

  function Zeros(n: nat): (r: Bytes)
    ensures |r| == n
  {
    seq(n, _ => 0)
  }

  /** Writes v big-endian at `off`; what lies before it stays. */
  method PutUint(buf: array<uint8>, off: nat, v: nat, k: nat)
    requires off + k <= buf.Length
    modifies buf
    ensures buf[..off + k] == old(buf[..off]) + BigEndian(v, k)
  {
    var w := v;
    var i := k;
    while i > 0
      invariant 0 <= i <= k
      invariant buf[..off] == old(buf[..off])
      invariant BigEndian(v, k) == BigEndian(w, i) + buf[off + i..off + k]
    {
      assert BigEndian(w, i) == BigEndian(w / 256, i - 1) + [w % 256];
      ghost var tail := buf[off + i..off + k];
      i := i - 1;
      buf[off + i] := w % 256;
      assert buf[off + i..off + k] == [w % 256] + tail;
      w := w / 256;
    }
    assert buf[..off + k] == buf[..off] + buf[off..off + k];
  }

  /** Copies a byte string to `off`. */
  method PutBytes(buf: array<uint8>, off: nat, s: Bytes)
    requires off + |s| <= buf.Length
    modifies buf
    ensures buf[..off + |s|] == old(buf[..off]) + s
  {
    for i := 0 to |s|
      invariant buf[..off] == old(buf[..off])
      invariant buf[off..off + i] == s[..i]
    {
      buf[off + i] := s[i];
      assert buf[off..off + i + 1] == buf[off..off + i] + [s[i]];
    }
    assert buf[..off + |s|] == buf[..off] + buf[off..off + |s|];
  }

  method PutByte(buf: array<uint8>, off: nat, b: uint8)
    requires off < buf.Length
    modifies buf
    ensures buf[..off + 1] == old(buf[..off]) + [b]
  {
    buf[off] := b;
    assert buf[..off + 1] == buf[..off] + [b];
  }

  lemma Joined<T>(p: seq<T>, a: seq<T>, b: seq<T>)
    ensures (p + a) + b == p + (a + b)
  {}

  lemma Joined3(p: Bytes, a: Bytes, b: Bytes, c: Bytes)
    ensures ((p + a) + b) + c == p + (a + (b + c))
  {}

  lemma Joined4(p: Bytes, a: Bytes, b: Bytes, c: Bytes, d: Bytes)
    ensures (((p + a) + b) + c) + d == p + (a + (b + (c + d)))
  {}
}
