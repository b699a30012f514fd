/** What the key derivation functions feed to the hash. The hash itself stays a
    term over the bytes it absorbed, so two derivations can agree only if those
    bytes do; the theorems say exactly when that is. */
module Kdf {
  import opened Words
  import opened Symbolic
  import opened Bytes

  const TWO_32: nat := 0x1_0000_0000
  const MAX_OUTPUT: nat := 0x10_0000

  datatype Digest = Shake256(absorbed: Bytes, length: nat) | Sha3(absorbed: Bytes)

  predicate Fits(b: Bytes) { |b| < TWO_32 }
  predicate AllFit(inputs: seq<Bytes>) { |inputs| < TWO_32 && forall k :: 0 <= k < |inputs| ==> Fits(inputs[k]) }

  /** A byte string behind its 4-byte length. */
  function Framed(b: Bytes): Bytes { BigEndian(|b|, 4) + b }

  function FramedAll(inputs: seq<Bytes>): Bytes
  {
    if inputs == [] then [] else Framed(inputs[0]) + FramedAll(inputs[1..])
  }

  function Single(domain: Bytes, input: Bytes): Bytes { Framed(domain) + Framed(input) }

  function Listed(inputs: seq<Bytes>): Bytes { BigEndian(|inputs|, 4) + FramedAll(inputs) }

  function Multiple(domain: Bytes, inputs: seq<Bytes>): Bytes { Framed(domain) + Listed(inputs) }

  // ---- the hash loops ----

  predicate ValidOutput(length: int) { 0 < length <= MAX_OUTPUT }

  method DeriveKey(domain: Bytes, input: Bytes, length: int) returns (r: Option<Digest>)
    ensures r == if ValidOutput(length) && Fits(domain) && Fits(input)
                 then Some(Shake256(Single(domain, input), length)) else None
  {
    if length <= 0 || length > MAX_OUTPUT {
      return None;
    }
    if |domain| >= TWO_32 || |input| >= TWO_32 {
      return None;
    }
    var h := [];
    h := h + BigEndian(|domain|, 4);
    h := h + domain;
    h := h + BigEndian(|input|, 4);
    h := h + input;
    assert h == Single(domain, input);
    return Some(Shake256(h, length));
  }

  lemma FramedAppend(inputs: seq<Bytes>, k: nat)
    requires k < |inputs|
    ensures FramedAll(inputs[k..]) == Framed(inputs[k]) + FramedAll(inputs[k + 1..])
  {
    assert inputs[k..][1..] == inputs[k + 1..];
  }

  /** The count, then each input behind its length; fails on an input too long. */
  method AbsorbList(absorbed: Bytes, inputs: seq<Bytes>) returns (r: Option<Bytes>)
    ensures r == if AllFit(inputs) then Some(absorbed + Listed(inputs)) else None
  {
    if |inputs| >= TWO_32 {
      return None;
    }
    var h := absorbed + BigEndian(|inputs|, 4);
    for k := 0 to |inputs|
      invariant h + FramedAll(inputs[k..]) == absorbed + Listed(inputs)
      invariant forall m :: 0 <= m < k ==> Fits(inputs[m])
    {
      if |inputs[k]| >= TWO_32 {
        return None;
      }
      FramedAppend(inputs, k);
      h := h + BigEndian(|inputs[k]|, 4);
      h := h + inputs[k];
    }
    assert inputs[|inputs|..] == [] && h + [] == h;
    return Some(h);
  }

  method DeriveKeyMultiple(domain: Bytes, inputs: seq<Bytes>, length: int) returns (r: Option<Digest>)
    ensures r == if ValidOutput(length) && Fits(domain) && AllFit(inputs)
                 then Some(Shake256(Multiple(domain, inputs), length)) else None
  {
    if length <= 0 || length > MAX_OUTPUT || |domain| >= TWO_32 {
      return None;
    }
    var h := BigEndian(|domain|, 4);
    h := h + domain;
    var all := AbsorbList(h, inputs);
    if all.None? {
      return None;
    }
    return Some(Shake256(all.value, length));
  }

  method TranscriptHash(components: seq<Bytes>) returns (r: Option<Digest>)
    ensures r == if AllFit(components) then Some(Sha3(Listed(components))) else None
  {
    var all := AbsorbList([], components);
    if all.None? {
      return None;
    }
    assert [] + Listed(components) == Listed(components);
    return Some(Sha3(all.value));
  }

  // ---- the framing is injective ----

  /** Equal strings that start with a frame start with the same frame. */
  lemma FramePrefix(a: Bytes, s: Bytes, b: Bytes, t: Bytes)
    requires Fits(a) && Fits(b) && Framed(a) + s == Framed(b) + t
    ensures a == b && s == t
  {
    var whole := Framed(a) + s;
    assert whole[..4] == BigEndian(|a|, 4) && whole[..4] == BigEndian(|b|, 4);
    Ranges();
    BigEndianInjective(|a|, |b|, 4);
    assert whole[4..4 + |a|] == a && whole[4..4 + |b|] == b;
    assert whole[4 + |a|..] == s && whole[4 + |b|..] == t;
  }

  lemma {:induction false} FramesInjective(xs: seq<Bytes>, ys: seq<Bytes>)
    requires |xs| == |ys| && AllFit(xs) && AllFit(ys) && FramedAll(xs) == FramedAll(ys)
    ensures xs == ys
  {
    if xs != [] {
      FramePrefix(xs[0], FramedAll(xs[1..]), ys[0], FramedAll(ys[1..]));
      FramesInjective(xs[1..], ys[1..]);
      assert xs == [xs[0]] + xs[1..] && ys == [ys[0]] + ys[1..];
    }
  }

  /** Lists of inputs, and so transcript components, are recovered from the bytes. */
  lemma ListedInjective(xs: seq<Bytes>, ys: seq<Bytes>)
    requires AllFit(xs) && AllFit(ys) && Listed(xs) == Listed(ys)
    ensures xs == ys
  {
    assert Listed(xs)[..4] == BigEndian(|xs|, 4) && Listed(ys)[..4] == BigEndian(|ys|, 4);
    Ranges();
    BigEndianInjective(|xs|, |ys|, 4);
    assert Listed(xs)[4..] == FramedAll(xs) && Listed(ys)[4..] == FramedAll(ys);
    FramesInjective(xs, ys);
  }

  lemma SingleInjective(d: Bytes, x: Bytes, d': Bytes, x': Bytes)
    requires Fits(d) && Fits(d') && Fits(x) && Fits(x') && Single(d, x) == Single(d', x')
    ensures d == d' && x == x'
  {
    FramePrefix(d, Framed(x), d', Framed(x'));
    assert Framed(x) + [] == Framed(x) && Framed(x') + [] == Framed(x');
    FramePrefix(x, [], x', []);
  }

  lemma MultipleInjective(d: Bytes, xs: seq<Bytes>, d': Bytes, xs': seq<Bytes>)
    requires Fits(d) && Fits(d') && AllFit(xs) && AllFit(xs') && Multiple(d, xs) == Multiple(d', xs')
    ensures d == d' && xs == xs'
  {
    FramePrefix(d, Listed(xs), d', Listed(xs'));
    ListedInjective(xs, xs');
  }

  lemma {:induction false} FramedAllSize(xs: seq<Bytes>)
    ensures |FramedAll(xs)| >= 4 * |xs|
  {
    if xs != [] { FramedAllSize(xs[1..]); }
  }

  /** A one-input and a many-input derivation absorb the same bytes in one case
      only: the same domain, over an empty input and over no inputs at all. */
  lemma SingleAgainstMultiple(d: Bytes, x: Bytes, d': Bytes, xs: seq<Bytes>)
    requires Fits(d) && Fits(d') && Fits(x) && AllFit(xs)
    ensures Single(d, x) == Multiple(d', xs) <==> d == d' && x == [] && xs == []
  {
    if Single(d, x) == Multiple(d', xs) {
      FramePrefix(d, Framed(x), d', Listed(xs));
      assert Framed(x)[..4] == BigEndian(|x|, 4) && Listed(xs)[..4] == BigEndian(|xs|, 4);
      Ranges();
      BigEndianInjective(|x|, |xs|, 4);
      FramedAllSize(xs);
    }
  }

  // ---- the derivations in use ----

  /** Every derivation of the protocol, with its inputs in order. */
  datatype Use =
    | ChKem(x25519: Bytes, mlkem: Bytes, transcript: Bytes)
    | HandshakeKeys(master: Bytes)
    | TrafficKeys(master: Bytes)
    | DatagramNonces(master: Bytes)
    | StreamNonces(master: Bytes)
    | Resumption(psk: Bytes, kem: Bytes)
    | Rekey(master: Bytes, extra: Bytes)
    | Authentication(ephemeral: Bytes, identity: Bytes)
    | PreShared(master: Bytes, psk: Bytes)
    | ClientFinished(master: Bytes, transcript: Bytes)
    | ServerFinished(master: Bytes, transcript: Bytes)

  function Domain(u: Use): string
  {
    match u
    case ChKem(_, _, _) => "CH-KEM-v1-SharedSecret"
    case HandshakeKeys(_) => "CH-KEM-Tunnel-Handshake"
    case TrafficKeys(_) => "CH-KEM-Tunnel-Traffic"
    case DatagramNonces(_) => "CH-KEM-Tunnel-Datagram-Nonce"
    case StreamNonces(_) => "CH-KEM-Tunnel-Stream-Nonce"
    case Resumption(_, _) => "CH-KEM-Tunnel-Resumption"
    case Rekey(_, _) => "CH-KEM-Tunnel-Rekey"
    case Authentication(_, _) => "CH-KEM-Tunnel-Authentication"
    case PreShared(_, _) => "CH-KEM-Tunnel-PSK"
    case ClientFinished(_, _) => "CH-KEM-Tunnel-ClientFinished"
    case ServerFinished(_, _) => "CH-KEM-Tunnel-ServerFinished"
  }

  function Inputs(u: Use): seq<Bytes>
  {
    match u
    case ChKem(x, m, t) => [x, m, t]
    case HandshakeKeys(s) => [s]
    case TrafficKeys(s) => [s]
    case DatagramNonces(s) => [s]
    case StreamNonces(s) => [s]
    case Resumption(p, k) => [p, k]
    case Rekey(s, e) => [s, e]
    case Authentication(e, i) => [e, i]
    case PreShared(s, p) => [s, p]
    case ClientFinished(s, t) => [s, t]
    case ServerFinished(s, t) => [s, t]
  }

  predicate OneInput(u: Use) { u.HandshakeKeys? || u.TrafficKeys? || u.DatagramNonces? || u.StreamNonces? }

  function Ascii(s: string): (r: Bytes)
    ensures |r| == |s|
  {
    seq(|s|, i requires 0 <= i < |s| => s[i] as int % 256)
  }

  function Absorbed(u: Use): Bytes
  {
    var domain := Ascii(Domain(u));
    if OneInput(u) then Single(domain, Inputs(u)[0]) else Multiple(domain, Inputs(u))
  }

  /** Where the domain strings first differ: past the shared "CH-KEM-". */
  lemma DomainsDistinct(u: Use, v: Use)
    requires Ascii(Domain(u)) == Ascii(Domain(v))
    ensures Domain(u) == Domain(v)
  {
    assert |Domain(u)| == |Domain(v)|;
    if |Domain(u)| == 28 {
      assert Ascii(Domain(u))[14] == Ascii(Domain(v))[14];
    }
  }

  /** The separation every secret term of the model rests on: two derivations
      absorb the same bytes exactly when they are the same derivation of the same
      inputs. */
  lemma UsesNeverCollide(u: Use, v: Use)
    requires AllFit(Inputs(u)) && AllFit(Inputs(v))
    ensures Absorbed(u) == Absorbed(v) <==> u == v
  {
    hide Domain, Ascii;
    if Absorbed(u) == Absorbed(v) {
      var d, e := Ascii(Domain(u)), Ascii(Domain(v));
      DomainFits(u);
      DomainFits(v);
      if OneInput(u) && OneInput(v) {
        SingleInjective(d, Inputs(u)[0], e, Inputs(v)[0]);
      } else if OneInput(u) {
        SingleAgainstMultiple(d, Inputs(u)[0], e, Inputs(v));
      } else if OneInput(v) {
        SingleAgainstMultiple(e, Inputs(v)[0], d, Inputs(u));
      } else {
        MultipleInjective(d, Inputs(u), e, Inputs(v));
      }
      DomainsDistinct(u, v);
      SameUse(u, v);
    }
  }

  lemma DomainFits(u: Use)
    ensures Fits(Ascii(Domain(u)))
  {}

  lemma SameUse(u: Use, v: Use)
    requires Domain(u) == Domain(v) && Inputs(u) == Inputs(v)
    ensures u == v
  {
    assert |Domain(u)| == |Domain(v)|;
    assert |Domain(u)| == 28 ==> Domain(u)[14] == Domain(v)[14];
    assert forall k :: 0 <= k < |Inputs(u)| ==> Inputs(u)[k] == Inputs(v)[k];
  }

  // ---- nonces ----

  /** The AEAD nonce: a 4-byte prefix and the 8-byte sequence number. */
  function AeadNonce(prefix: Bytes, n: uint64): Bytes { prefix + BigEndian(n, 8) }

  /** Nonces with equal bytes have equal parts, as the nonce terms of the sessions do. */
  lemma AeadNonceInjective(p: Bytes, m: uint64, q: Bytes, n: uint64)
    requires |p| == |q| == 4 && AeadNonce(p, m) == AeadNonce(q, n)
    ensures p == q && m == n
  {
    assert AeadNonce(p, m)[..4] == p && AeadNonce(q, n)[..4] == q;
    assert AeadNonce(p, m)[4..] == BigEndian(m, 8) && AeadNonce(q, n)[4..] == BigEndian(n, 8);
    Ranges();
    BigEndianInjective(m, n, 8);
  }
}
