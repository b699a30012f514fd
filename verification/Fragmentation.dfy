/** Fragmenting and reassembling are inverse: every frame of the fragmenter fits
    the MTU and parses back to its piece, and the reassembler hands out the
    original message when the last missing piece arrives, in whatever order and
    however often the frames come. */
module Fragmentation {
  import opened Words
  import opened Symbolic
  import opened Bytes
  import opened DatagramCodec
  import opened Reassembly

  /** A message that can be fragmented. */
  predicate Sendable(base: HandshakeHeader, msg: Bytes)
  {
    |base.cookie| <= 255 && 0 < |msg| <= MAX_MESSAGE_SIZE
  }

  function Size(base: HandshakeHeader): nat
    requires |base.cookie| <= 255
  {
    MaxFragment(|base.cookie|)
  }

  /** Where piece k starts. */
  function Begin(size: nat, k: nat): nat
  {
    if k == 0 then 0 else Begin(size, k - 1) + size
  }

  lemma {:induction false} BeginIs(size: nat, k: nat)
    ensures Begin(size, k) == k * size
  {
    if k > 0 { BeginIs(size, k - 1); }
  }

  lemma {:induction false} BeginsInOrder(size: nat, j: nat, k: nat)
    requires j <= k
    ensures Begin(size, j) <= Begin(size, k)
  {
    if j < k { BeginsInOrder(size, j, k - 1); }
  }

  /** The k-th sequence number after n. */
  function NumberAt(n: uint64, k: nat): uint64
    decreases k
  {
    if k == 0 then n else NumberAt((n + 1) % TWO_64, k - 1)
  }

  lemma {:induction false} NumberIs(n: uint64, k: nat)
    ensures NumberAt(n, k) == (n + k) % TWO_64
    decreases k
  {
    if k > 0 {
      var next := Successor(n);
      NumberIs(next, k - 1);
      if next == 0 { OnceAround(k - 1); }
    }
  }

  lemma Successor(n: uint64) returns (next: uint64)
    ensures next == (n + 1) % TWO_64 && (next == n + 1 || (next == 0 && n + 1 == TWO_64))
  {
    next := if n + 1 == TWO_64 then 0 else n + 1;
  }

  lemma OnceAround(x: nat)
    ensures (x + TWO_64) % TWO_64 == x % TWO_64
  {}

  /** How many pieces there are from `off` on. */
  function PiecesFrom(len: nat, size: nat, off: nat): nat
    requires size > 0
    decreases len - off
  {
    if off >= len then 0 else 1 + PiecesFrom(len, size, off + size)
  }

  function Pieces(base: HandshakeHeader, msg: Bytes): nat
    requires Sendable(base, msg)
  {
    PiecesFrom(|msg|, Size(base), 0)
  }

  /** A message of `len` bytes has c pieces of this size. */
  predicate Splits(len: nat, size: nat, c: nat)
  {
    size > 0 && c > 0 && Begin(size, c - 1) < len <= Begin(size, c)
  }

  lemma {:induction false} PiecesSplit(len: nat, size: nat, j: nat)
    requires size > 0 && Begin(size, j) < len
    ensures Splits(len, size, j + PiecesFrom(len, size, Begin(size, j)))
    decreases len - Begin(size, j)
  {
    assert Begin(size, j + 1) == Begin(size, j) + size;
    if Begin(size, j + 1) < len { PiecesSplit(len, size, j + 1); }
  }

  lemma {:induction false} FrameCount(base: HandshakeHeader, msg: Bytes, pad: bool, off: nat, n: uint64)
    requires Sendable(base, msg)
    ensures |FramesFrom(base, msg, pad, off, n)| == PiecesFrom(|msg|, Size(base), off)
    decreases |msg| - off
  {
    if off < |msg| { FrameCount(base, msg, pad, off + Size(base), (n + 1) % TWO_64); }
  }

  lemma {:induction false} FrameIndex(base: HandshakeHeader, msg: Bytes, pad: bool, off: nat, j: nat, n: uint64, k: nat)
    requires Sendable(base, msg) && off == Begin(Size(base), j) && k < |FramesFrom(base, msg, pad, off, n)|
    ensures Begin(Size(base), j + k) < |msg|
    ensures FramesFrom(base, msg, pad, off, n)[k] == FrameAt(base, msg, pad, Begin(Size(base), j + k), NumberAt(n, k))
    decreases k
  {
    hide FrameAt;
    if k > 0 {
      var next: uint64 := (n + 1) % TWO_64;
      var rest := FramesFrom(base, msg, pad, off + Size(base), next);
      assert FramesFrom(base, msg, pad, off, n) == [FrameAt(base, msg, pad, off, n)] + rest;
      assert Begin(Size(base), j + 1) == off + Size(base);
      FrameIndex(base, msg, pad, off + Size(base), j + 1, next, k - 1);
      assert NumberAt(n, k) == NumberAt(next, k - 1);
    }
  }

  lemma FrameFits(base: HandshakeHeader, msg: Bytes, pad: bool, off: nat, n: uint64)
    requires Sendable(base, msg) && off < |msg|
    ensures var frame := FrameAt(base, msg, pad, off, n);
            && |frame| <= MTU && (pad ==> |frame| == MTU)
            && Parsed(frame) == Some((AsHandshake(PieceHeader(base, msg, Size(base), off, n)), Piece(msg, Size(base), off)))
  {
    var h := PieceHeader(base, msg, Size(base), off, n);
    var piece := Piece(msg, Size(base), off);
    EncodedLayout(h, piece, []);
    assert Encoded(h, piece) + [] == Encoded(h, piece);
    ParseEncoded(h, piece, []);
    ParseEncoded(h, piece, Zeros(if |Encoded(h, piece)| < MTU then MTU - |Encoded(h, piece)| else 0));
  }

  /** Every frame but the last is full, so no split of the message needs fewer. */
  lemma FramesAreFull(base: HandshakeHeader, msg: Bytes, pad: bool, k: nat)
    requires Sendable(base, msg) && k + 1 < Pieces(base, msg)
    ensures Fragments(base, msg, pad).Some? && |Fragments(base, msg, pad).value| == Pieces(base, msg)
    ensures |Fragments(base, msg, pad).value[k]| == 1200
  {
    hide Fragments, BigEndian;
    NthFragment(base, msg, pad, k);
    NthFragment(base, msg, pad, k + 1);
    var off, n := Begin(Size(base), k), NumberAt(base.header.n, k);
    assert Begin(Size(base), k + 1) == off + Size(base);
    var h := PieceHeader(base, msg, Size(base), off, n);
    EncodedLayout(h, Piece(msg, Size(base), off), []);
  }

  lemma NthFragment(base: HandshakeHeader, msg: Bytes, pad: bool, k: nat)
    requires Sendable(base, msg) && k < Pieces(base, msg)
    ensures Fragments(base, msg, pad).Some? && |Fragments(base, msg, pad).value| == Pieces(base, msg)
    ensures var off := Begin(Size(base), k);
            && off < |msg|
            && Fragments(base, msg, pad).value[k] == FrameAt(base, msg, pad, off, NumberAt(base.header.n, k))
  {
    FrameCount(base, msg, pad, 0, base.header.n);
    FrameIndex(base, msg, pad, 0, 0, base.header.n, k);
  }

  /** Frame k is within the MTU (exactly the MTU when padded), carries the k-th
      sequence number after the header's, and parses back to the piece that starts
      k piece sizes into the message; there are as many as the message has pieces. */
  lemma FragmentsParse(base: HandshakeHeader, msg: Bytes, pad: bool, k: nat)
    requires Sendable(base, msg) && k < Pieces(base, msg)
    ensures Fragments(base, msg, pad).Some? && |Fragments(base, msg, pad).value| == Pieces(base, msg)
    ensures var frame := Fragments(base, msg, pad).value[k];
            var off := k * Size(base);
            && 0 <= off < |msg|
            && |frame| <= MTU && (pad ==> |frame| == MTU)
            && Parsed(frame) == Some((AsHandshake(PieceHeader(base, msg, Size(base), off, (base.header.n + k) % TWO_64)),
                                      Piece(msg, Size(base), off)))
  {
    hide FrameAt, Fragments, Parsed, PieceHeader, Piece, AsHandshake;
    NthFragment(base, msg, pad, k);
    FrameFits(base, msg, pad, Begin(Size(base), k), NumberAt(base.header.n, k));
    BeginIs(Size(base), k);
    NumberIs(base.header.n, k);
  }

  // ---- one buffer, all arrivals of one message ----

  /** Piece k is the one that holds position p. */
  predicate Holds(size: nat, k: nat, p: nat) { Begin(size, k) <= p < Begin(size, k) + size }

  /** The buffer after the pieces `got` have arrived: exactly their bytes are
      covered, and they are the message's. */
  ghost predicate Tracks(b: Tallied, msg: Bytes, size: nat, got: set<nat>)
  {
    && b.total == |msg|
    && forall p: nat :: p < |msg| ==>
         && (BitAt(b.covered, p) <==> exists k :: k in got && Holds(size, k, p))
         && (BitAt(b.covered, p) ==> b.buf[p] == msg[p])
  }

  lemma NewTracks(msg: Bytes, size: nat, now: int)
    ensures Tracks(NewBuffer(|msg|, now), msg, size, {})
  {
    var b := NewBuffer(|msg|, now);
    forall p: nat | p < |msg| ensures !BitAt(b.covered, p) { ZeroBit(p % 64); }
  }

  lemma FilledTracks(b: Tallied, msg: Bytes, size: nat, got: set<nat>, k: nat)
    requires Begin(size, k) < |msg| && Tracks(b, msg, size, got)
    ensures Tracks(Filled(b, Begin(size, k), Piece(msg, size, Begin(size, k))), msg, size, got + {k})
  {
    var f := Filled(b, Begin(size, k), Piece(msg, size, Begin(size, k)));
    forall p: nat | p < |msg|
      ensures BitAt(f.covered, p) <==> exists j :: j in got + {k} && Holds(size, j, p)
      ensures BitAt(f.covered, p) ==> f.buf[p] == msg[p]
    {
      FilledAt(b, msg, size, k, p);
      if Holds(size, k, p) { assert k in got + {k}; }
      if exists j :: j in got && Holds(size, j, p) {
        var j :| j in got && Holds(size, j, p);
        assert j in got + {k};
      }
    }
  }

  lemma FilledAt(b: Tallied, msg: Bytes, size: nat, k: nat, p: nat)
    requires Begin(size, k) < |msg| == b.total && p < |msg|
    ensures var f := Filled(b, Begin(size, k), Piece(msg, size, Begin(size, k)));
            && (BitAt(f.covered, p) <==> BitAt(b.covered, p) || Holds(size, k, p))
            && f.buf[p] == if Holds(size, k, p) then msg[p] else b.buf[p]
  {
    FilledBit(b, Begin(size, k), Piece(msg, size, Begin(size, k)), p);
    FilledByte(b, msg, size, Begin(size, k), p);
  }

  lemma FilledBit(b: Tallied, off: nat, piece: Bytes, p: nat)
    requires off + |piece| <= b.total && p < b.total
    ensures BitAt(Filled(b, off, piece).covered, p) <==> BitAt(b.covered, p) || off <= p < off + |piece|
  {
    MarkedBit(b.covered, off, off + |piece|, p);
  }

  lemma FilledByte(b: Tallied, msg: Bytes, size: nat, off: nat, p: nat)
    requires off < |msg| == b.total && p < |msg|
    ensures Filled(b, off, Piece(msg, size, off)).buf[p] == if off <= p < off + size then msg[p] else b.buf[p]
  {}

  /** Distinct pieces hold distinct positions. */
  lemma HoldsOnce(size: nat, j: nat, k: nat, p: nat)
    requires Holds(size, j, p) && Holds(size, k, p)
    ensures j == k
  {
    if j < k { BeginsInOrder(size, j + 1, k); }
    if k < j { BeginsInOrder(size, k + 1, j); }
  }

  lemma PieceStarts(len: nat, size: nat, c: nat, k: nat)
    requires Splits(len, size, c) && k < c
    ensures Begin(size, k) < len && Holds(size, k, Begin(size, k))
  {
    BeginsInOrder(size, k, c - 1);
  }

  lemma {:induction false} PieceOf(size: nat, c: nat, p: nat) returns (k: nat)
    requires p < Begin(size, c)
    ensures k < c && Holds(size, k, p)
  {
    if p >= Begin(size, c - 1) {
      k := c - 1;
    } else {
      k := PieceOf(size, c - 1, p);
    }
  }

  /** The buffer is full exactly when every piece has arrived. */
  lemma FullWhenAll(b: Tallied, msg: Bytes, size: nat, c: nat, got: set<nat>)
    requires Splits(|msg|, size, c) && Tracks(b, msg, size, got)
    ensures b.coveredN <= b.total
    ensures b.coveredN == b.total <==> forall k: nat :: k < c ==> k in got
    ensures b.coveredN == b.total ==> b.buf == msg
  {
    CountsAll(b);
    if forall p: nat :: p < |msg| ==> BitAt(b.covered, p) {
      forall k: nat | k < c ensures k in got { CoveredCame(b, msg, size, c, got, k); }
    }
    if forall k: nat :: k < c ==> k in got {
      forall p: nat | p < |msg| ensures BitAt(b.covered, p) {
        var k := PieceOf(size, c, p);
        assert k in got;
      }
    }
  }

  /** The first byte of a piece is covered only once that piece has come. */
  lemma CoveredCame(b: Tallied, msg: Bytes, size: nat, c: nat, got: set<nat>, k: nat)
    requires Splits(|msg|, size, c) && Tracks(b, msg, size, got) && k < c
    requires forall p: nat :: p < |msg| ==> BitAt(b.covered, p)
    ensures k in got
  {
    PieceStarts(|msg|, size, c, k);
    var p := Begin(size, k);
    assert BitAt(b.covered, p);
    var j :| j in got && Holds(size, j, p);
    HoldsOnce(size, j, k, p);
  }

  // ---- the whole reassembler ----

  /** One message under way: its frames, as fragmented, and where they come from. */
  datatype Transfer = Transfer(base: HandshakeHeader, msg: Bytes, pad: bool, source: Source)

  function TransferKey(x: Transfer): BufferKey { BufferKey(x.base.sender, x.base.msgType) }

  /** The arrival of the piece at `off`. */
  function PieceArrival(x: Transfer, off: nat, n: uint64, now: int): Arrival
    requires Sendable(x.base, x.msg) && off < |x.msg|
  {
    Arrival(x.source, AsHandshake(PieceHeader(x.base, x.msg, Size(x.base), off, n)), Piece(x.msg, Size(x.base), off), now)
  }

  /** The arrival of frame k. */
  function FrameArrival(x: Transfer, k: nat, now: int): Arrival
    requires Sendable(x.base, x.msg) && k < Pieces(x.base, x.msg)
  {
    PiecesSplit(|x.msg|, Size(x.base), 0);
    PieceStarts(|x.msg|, Size(x.base), Pieces(x.base, x.msg), k);
    PieceArrival(x, Begin(Size(x.base), k), NumberAt(x.base.header.n, k), now)
  }

  /** It is what the parser makes of the k-th frame of the fragmenter. */
  lemma FrameArrivalParsed(x: Transfer, k: nat, now: int)
    requires Sendable(x.base, x.msg) && k < Pieces(x.base, x.msg)
    ensures Fragments(x.base, x.msg, x.pad).Some? && |Fragments(x.base, x.msg, x.pad).value| == Pieces(x.base, x.msg)
    ensures var a := FrameArrival(x, k, now);
            Parsed(Fragments(x.base, x.msg, x.pad).value[k]) == Some((a.h, a.fragment))
  {
    NthFragment(x.base, x.msg, x.pad, k);
    FrameFits(x.base, x.msg, x.pad, Begin(Size(x.base), k), NumberAt(x.base.header.n, k));
  }

  /** Frames of the transfer, mixed with any other arrivals and with sources being
      forgotten. */
  datatype Event =
    | Frame(k: nat, now: int, victim: BufferKey)
    | Other(a: Arrival, victim: BufferKey)
    | Forget(source: Source)

  predicate Proper(x: Transfer, e: Event)
  {
    && Sendable(x.base, x.msg)
    && match e
       case Frame(k, _, _) => k < Pieces(x.base, x.msg)
       case Other(a, _) => a.source != x.source || KeyOf(a) != TransferKey(x)
       case Forget(_) => true
  }

  function After(x: Transfer, st: State, e: Event): (State, Result)
    requires Proper(x, e)
  {
    match e
    case Frame(k, now, victim) => Step(st, FrameArrival(x, k, now), victim)
    case Other(a, victim) => Step(st, a, victim)
    case Forget(source) => (st.(tables := st.tables - {source}), Refused)
  }

  function Pending(st: State, x: Transfer): Option<Tallied>
  {
    if x.source in st.tables && TransferKey(x) in st.tables[x.source] then Some(st.tables[x.source][TransferKey(x)])
    else None
  }

  // ---- what becomes of the pieces held ----

  /** What is held of the transfer: its pieces, and when the first of them came. */
  datatype Held = Held(pieces: set<nat>, since: int)

  const NOTHING := Held({}, 0)

  /** Pieces are given up when the timeout has passed since the first of them. */
  predicate Expired(st: State, h: Held, now: int) { h.pieces != {} && now - st.limits.timeout > h.since }

  /** Another message of the same source needs a buffer and this one is the oldest. */
  predicate Evicted(x: Transfer, st: State, a: Arrival, victim: BufferKey)
  {
    var t := TableOf(st.tables, x.source);
    && a.source == x.source && victim == TransferKey(x)
    && KeyOf(a) !in t && |t| >= st.limits.maxPerSource
  }

  /** A frame of the transfer has a source slot, old or new. */
  predicate Roomed(x: Transfer, st: State)
  {
    x.source in st.tables || |st.tables| < st.limits.maxSources
  }

  /** The pieces still held when the event is dealt with: all of them, unless the
      buffer expires, is evicted or its source is forgotten. */
  ghost function Kept(x: Transfer, st: State, h: Held, e: Event): Held
  {
    match e
    case Frame(_, now, _) => if Expired(st, h, now) then NOTHING else h
    case Other(a, victim) =>
      if Accepts(st.limits, a) && (Expired(st, h, a.now) || Evicted(x, Aged(st, a.now), a, victim)) then NOTHING else h
    case Forget(source) => if source == x.source then NOTHING else h
  }

  predicate Stale(x: Transfer, st: State, now: int)
  {
    Pending(st, x).Some? && Pending(st, x).value.createdAt < now - st.limits.timeout
  }

  lemma AgedKeeps(x: Transfer, st: State, now: int)
    ensures Pending(Aged(st, now), x) == if Stale(x, st, now) then None else Pending(st, x)
  {
    if Pending(st, x).Some? && !Stale(x, st, now) {
      var t := Live(st.tables[x.source], now - st.limits.timeout);
      assert TransferKey(x) in t;
      assert t.Keys != {};
    }
  }

  lemma PlacedKeeps(x: Transfer, st: State, a: Arrival, victim: BufferKey)
    requires a.source != x.source || KeyOf(a) != TransferKey(x)
    requires Accepts(st.limits, a)
    ensures Pending(Placed(st, a, victim).0, x) == if Evicted(x, st, a, victim) then None else Pending(st, x)
  {
    var t := TableOf(st.tables, a.source);
    if (a.source in st.tables || |st.tables| < st.limits.maxSources) && BufferFor(t, a).total == a.h.total {
      SettledKeeps(x, st, a.source, Roomy(st, t, KeyOf(a), victim), KeyOf(a),
                   Filled(BufferFor(t, a), a.h.fragOffset, a.fragment));
    }
  }

  lemma SettledKeeps(x: Transfer, st: State, source: Source, t: Table, key: BufferKey, b: Tallied)
    requires source != x.source || key != TransferKey(x)
    ensures Pending(Settled(st, source, t, key, b).0, x) ==
            if source != x.source then Pending(st, x)
            else if TransferKey(x) in t then Some(t[TransferKey(x)]) else None
  {
    if source == x.source && TransferKey(x) in t { assert TransferKey(x) in t - {key}; assert (t - {key}).Keys != {}; }
  }

  /** A piece of the transfer goes into its buffer, new or old, or finds no room. */
  lemma PlacedFills(x: Transfer, st: State, a: Arrival, victim: BufferKey)
    requires a.source == x.source && KeyOf(a) == TransferKey(x) && Accepts(st.limits, a)
    requires Pending(st, x).Some? ==> Pending(st, x).value.total == a.h.total
    ensures var f := Filled(Pending(st, x).GetOr(NewBuffer(a.h.total, a.now)), a.h.fragOffset, a.fragment);
            var (st', r) := Placed(st, a, victim);
            if !Roomed(x, st) then st' == st && r == Refused
            else if f.coveredN < f.total then r == Partial && Pending(st', x) == Some(f)
            else r == Whole(f.buf) && Pending(st', x) == None
  {
    var t := TableOf(st.tables, x.source);
    assert BufferFor(t, a) == Pending(st, x).GetOr(NewBuffer(a.h.total, a.now));
    SettledFills(x, st, Roomy(st, t, KeyOf(a), victim), Filled(BufferFor(t, a), a.h.fragOffset, a.fragment));
  }

  lemma SettledFills(x: Transfer, st: State, t: Table, b: Tallied)
    ensures var (st', r) := Settled(st, x.source, t, TransferKey(x), b);
            if b.coveredN < b.total then r == Partial && Pending(st', x) == Some(b)
            else r == Whole(b.buf) && Pending(st', x) == None
  {}

  // ---- runs ----

  ghost predicate Under(x: Transfer, st: State, h: Held)
  {
    && Sendable(x.base, x.msg) && |x.msg| <= st.limits.maxMessageSize
    && (forall k :: k in h.pieces ==> k < Pieces(x.base, x.msg))
    && (if h.pieces == {} then h == NOTHING && Pending(st, x).None?
        else
          && Pending(st, x).Some? && Pending(st, x).value.createdAt == h.since
          && Tracks(Pending(st, x).value, x.msg, Size(x.base), h.pieces))
  }

  /** Every piece is in. */
  ghost predicate All(x: Transfer, got: set<nat>)
    requires Sendable(x.base, x.msg)
  {
    forall k: nat :: k < Pieces(x.base, x.msg) ==> k in got
  }

  /** The pieces held after the event: a frame adds its piece, unless it finds no
      room, and the last missing one empties the buffer. */
  ghost function NextHeld(x: Transfer, st: State, h: Held, e: Event): Held
    requires Proper(x, e)
  {
    var kept := Kept(x, st, h, e);
    match e
    case Frame(k, now, _) =>
      if !Roomed(x, Aged(st, now)) || All(x, kept.pieces + {k}) then NOTHING else With(kept, k, now)
    case _ => kept
  }

  function With(h: Held, k: nat, now: int): Held { Held(h.pieces + {k}, if h.pieces == {} then now else h.since) }

  /** What frame k is answered, given the pieces held. */
  ghost function Answer(x: Transfer, st: State, kept: set<nat>, k: nat, now: int): Result
    requires Sendable(x.base, x.msg)
  {
    if !Roomed(x, Aged(st, now)) then Refused else if All(x, kept + {k}) then Whole(x.msg) else Partial
  }

  ghost predicate ProperRun(x: Transfer, events: seq<Event>)
  {
    forall i :: 0 <= i < |events| ==> Proper(x, events[i])
  }

  /** Every frame that finds room is answered with the message when it is the last
      piece missing and with Partial otherwise. */
  ghost predicate Reassembled(x: Transfer, st: State, h: Held, events: seq<Event>)
    requires ProperRun(x, events)
    decreases |events|
  {
    events != [] ==>
    var e := events[0];
    && (e.Frame? ==> After(x, st, e).1 == Answer(x, st, Kept(x, st, h, e).pieces, e.k, e.now))
    && Reassembled(x, After(x, st, e).0, NextHeld(x, st, h, e), events[1..])
  }

  /** The buffer of the transfer once piece k is in it. */
  function Grown(x: Transfer, st: State, k: nat, now: int): Tallied
    requires Sendable(x.base, x.msg) && k < Pieces(x.base, x.msg)
    requires Pending(st, x).Some? ==> Pending(st, x).value.total == |x.msg|
  {
    PiecesSplit(|x.msg|, Size(x.base), 0);
    PieceStarts(|x.msg|, Size(x.base), Pieces(x.base, x.msg), k);
    var off := Begin(Size(x.base), k);
    Filled(Pending(st, x).GetOr(NewBuffer(|x.msg|, now)), off, Piece(x.msg, Size(x.base), off))
  }

  lemma GrownTracks(x: Transfer, st: State, h: Held, k: nat, now: int)
    requires Under(x, st, h) && k < Pieces(x.base, x.msg)
    ensures var f, got := Grown(x, st, k, now), h.pieces;
            && f.createdAt == With(h, k, now).since
            && Tracks(f, x.msg, Size(x.base), got + {k})
            && f.total == |x.msg|
            && (f.coveredN < f.total <==> !All(x, got + {k}))
            && (All(x, got + {k}) ==> f.buf == x.msg)
  {
    var size := Size(x.base);
    NewTracks(x.msg, size, now);
    PiecesSplit(|x.msg|, size, 0);
    PieceStarts(|x.msg|, size, Pieces(x.base, x.msg), k);
    FilledTracks(Pending(st, x).GetOr(NewBuffer(|x.msg|, now)), x.msg, size, h.pieces, k);
    FullWhenAll(Grown(x, st, k, now), x.msg, size, Pieces(x.base, x.msg), h.pieces + {k});
  }

  lemma FrameAccepted(x: Transfer, limits: Limits, k: nat, now: int)
    requires Sendable(x.base, x.msg) && k < Pieces(x.base, x.msg) && |x.msg| <= limits.maxMessageSize
    ensures Accepts(limits, FrameArrival(x, k, now))
  {
    PiecesSplit(|x.msg|, Size(x.base), 0);
    PieceStarts(|x.msg|, Size(x.base), Pieces(x.base, x.msg), k);
  }

  /** On the swept state. */
  lemma FrameFills(x: Transfer, st: State, h: Held, k: nat, now: int, victim: BufferKey)
    requires Under(x, st, h) && Proper(x, Frame(k, now, victim)) && Accepts(st.limits, FrameArrival(x, k, now))
    ensures var (next, r) := Placed(st, FrameArrival(x, k, now), victim);
            && next.limits == st.limits
            && if !Roomed(x, st) then r == Refused && Under(x, next, NOTHING)
               else if All(x, h.pieces + {k}) then r == Whole(x.msg) && Under(x, next, NOTHING)
               else r == Partial && Under(x, next, With(h, k, now))
  {
    PiecesSplit(|x.msg|, Size(x.base), 0);
    PieceStarts(|x.msg|, Size(x.base), Pieces(x.base, x.msg), k);
    GrownTracks(x, st, h, k, now);
    PlacedFills(x, st, FrameArrival(x, k, now), victim);
  }

  lemma FrameStep(x: Transfer, st: State, h: Held, k: nat, now: int, victim: BufferKey)
    requires Under(x, st, h) && Proper(x, Frame(k, now, victim))
    ensures var e := Frame(k, now, victim);
            && Under(x, After(x, st, e).0, NextHeld(x, st, h, e))
            && After(x, st, e).1 == Answer(x, st, Kept(x, st, h, e).pieces, k, now)
  {
    AgedKeeps(x, st, now);
    FrameAccepted(x, st.limits, k, now);
    FrameFills(x, Aged(st, now), Kept(x, st, h, Frame(k, now, victim)), k, now, victim);
  }

  lemma OtherStep(x: Transfer, st: State, h: Held, a: Arrival, victim: BufferKey)
    requires Under(x, st, h) && Proper(x, Other(a, victim))
    ensures Under(x, After(x, st, Other(a, victim)).0, NextHeld(x, st, h, Other(a, victim)))
  {
    if Accepts(st.limits, a) {
      AgedKeeps(x, st, a.now);
      PlacedKeeps(x, Aged(st, a.now), a, victim);
    }
  }

  lemma ForgetStep(x: Transfer, st: State, h: Held, source: Source)
    requires Under(x, st, h) && Proper(x, Forget(source))
    ensures Under(x, After(x, st, Forget(source)).0, NextHeld(x, st, h, Forget(source)))
  {}

  /** Fragment, then reassemble: over every run of the reassembler, in any order,
      with any duplication, expiry, eviction and interleaving with other senders
      and messages, a frame is answered with the original message exactly when it
      is the last missing piece of those held since the buffer was last lost. */
  lemma {:induction false} FragmentThenReassemble(x: Transfer, st: State, h: Held, events: seq<Event>)
    requires Under(x, st, h) && ProperRun(x, events)
    ensures Reassembled(x, st, h, events)
    decreases |events|
  {
    hide Under, After, Kept, NextHeld, Answer;
    if events != [] {
      assert Proper(x, events[0]);
      match events[0] {
        case Frame(k, now, victim) => FrameStep(x, st, h, k, now, victim);
        case Other(a, victim) => OtherStep(x, st, h, a, victim);
        case Forget(source) => ForgetStep(x, st, h, source);
      }
      FragmentThenReassemble(x, After(x, st, events[0]).0, NextHeld(x, st, h, events[0]), events[1..]);
    }
  }
}
