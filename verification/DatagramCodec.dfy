/** The handshake frame of the datagram wire format, and the fragmenter that cuts
    a handshake message into such frames. */
module DatagramCodec {
  import opened Words
  import opened Symbolic
  import opened Bytes

  const MTU: nat := 1200
  const HEADER_SIZE: nat := 14
  const EXT_SIZE: nat := 12
  const MAX_MESSAGE_SIZE: nat := 4096
  const HANDSHAKE_FRAME: uint8 := 1

  datatype Header = Header(frameType: uint8, epoch: uint8, recvIndex: uint32, n: uint64)

  datatype HandshakeHeader = HandshakeHeader(
    header: Header,
    sender: uint32,
    msgType: uint8,
    fragOffset: uint16,
    fragLength: uint16,
    total: uint16,
    cookie: Bytes)

  function HeaderBytes(h: Header): (r: Bytes)
    ensures |r| == HEADER_SIZE
  {
    [h.frameType, h.epoch] + BigEndian(h.recvIndex, 4) + BigEndian(h.n, 8)
  }

  function ExtBytes(h: HandshakeHeader): (r: Bytes)
    requires |h.cookie| <= 255
    ensures |r| == EXT_SIZE
  {
    BigEndian(h.sender, 4) + [h.msgType] + BigEndian(h.fragOffset, 2) + BigEndian(h.fragLength, 2)
    + BigEndian(h.total, 2) + [|h.cookie|]
  }

  function AsHandshake(h: HandshakeHeader): HandshakeHeader
  {
    h.(header := h.header.(frameType := HANDSHAKE_FRAME))
  }

  function Encoded(h: HandshakeHeader, fragment: Bytes): Bytes
    requires |h.cookie| <= 255
  {
    HeaderBytes(AsHandshake(h).header) + ExtBytes(h) + h.cookie + fragment
  }

  function U16(b: Bytes): uint16
    requires |b| == 2
  {
    ValueBelow(b);
    Ranges();
    Value(b)
  }

  function U32(b: Bytes): uint32
    requires |b| == 4
  {
    ValueBelow(b);
    Ranges();
    Value(b)
  }

  function U64(b: Bytes): uint64
    requires |b| == 8
  {
    ValueBelow(b);
    Ranges();
    Value(b)
  }

  function ParsedHeader(data: Bytes): Header
    requires |data| >= HEADER_SIZE
  {
    Header(data[0], data[1], U32(data[2..6]), U64(data[6..14]))
  }

  /** The parse: too short, of another type, a cookie or a fragment that is not
      all there, or a fragment past the message's end are refused; whatever
      follows the fragment is padding. */
  function Parsed(data: Bytes): Option<(HandshakeHeader, Bytes)>
  {
    if |data| < HEADER_SIZE || data[0] != HANDSHAKE_FRAME || |data| < HEADER_SIZE + EXT_SIZE then None
    else
      var cookieLen: nat := data[25];
      if |data| < 26 + cookieLen then None
      else
        var h := HandshakeHeader(ParsedHeader(data), U32(data[14..18]), data[18], U16(data[19..21]), U16(data[21..23]),
                                 U16(data[23..25]), data[26..26 + cookieLen]);
        var rest := data[26 + cookieLen..];
        if |rest| < h.fragLength || h.fragOffset + h.fragLength > h.total then None
        else Some((h, rest[..h.fragLength]))
  }

  lemma EncodedLayout(h: HandshakeHeader, fragment: Bytes, padding: Bytes)
    requires |h.cookie| <= 255
    ensures var data := Encoded(h, fragment) + padding;
            && |data| == 26 + |h.cookie| + |fragment| + |padding|
            && data[..14] == HeaderBytes(AsHandshake(h).header)
            && data[14..26] == ExtBytes(h)
            && data[26..26 + |h.cookie|] == h.cookie
            && data[26 + |h.cookie|..] == fragment + padding
  {}

  lemma HeaderParses(h: Header, data: Bytes)
    requires |data| >= 14 && data[..14] == HeaderBytes(h)
    ensures ParsedHeader(data) == h
  {
    Ranges();
    assert data[2..6] == data[..14][2..6] == BigEndian(h.recvIndex, 4);
    assert data[6..14] == data[..14][6..14] == BigEndian(h.n, 8);
    ValueOfBigEndian(h.recvIndex, 4);
    ValueOfBigEndian(h.n, 8);
  }

  lemma ExtParses(h: HandshakeHeader, data: Bytes)
    requires |h.cookie| <= 255 && |data| >= 26 && data[14..26] == ExtBytes(h)
    ensures U32(data[14..18]) == h.sender && data[18] == h.msgType && U16(data[19..21]) == h.fragOffset
    ensures U16(data[21..23]) == h.fragLength && U16(data[23..25]) == h.total && data[25] == |h.cookie|
  {
    Ranges();
    ExtSlices(h);
    SliceOfSlice(data, 14, 26, 0, 4);
    SliceOfSlice(data, 14, 26, 5, 7);
    SliceOfSlice(data, 14, 26, 7, 9);
    SliceOfSlice(data, 14, 26, 9, 11);
    ValueOfBigEndian(h.sender, 4);
    ValueOfBigEndian(h.fragOffset, 2);
    ValueOfBigEndian(h.fragLength, 2);
    ValueOfBigEndian(h.total, 2);
  }

  lemma ExtSlices(h: HandshakeHeader)
    requires |h.cookie| <= 255
    ensures var ext := ExtBytes(h);
            && ext[0..4] == BigEndian(h.sender, 4) && ext[4] == h.msgType && ext[5..7] == BigEndian(h.fragOffset, 2)
            && ext[7..9] == BigEndian(h.fragLength, 2) && ext[9..11] == BigEndian(h.total, 2) && ext[11] == |h.cookie|
  {
    var a := BigEndian(h.sender, 4) + [h.msgType] + BigEndian(h.fragOffset, 2);
    var b := BigEndian(h.fragLength, 2) + BigEndian(h.total, 2) + [|h.cookie|];
    assert ExtBytes(h) == a + b;
    assert ExtBytes(h)[7..9] == b[0..2] && ExtBytes(h)[9..11] == b[2..4];
  }

  /** The frame on the wire, byte by byte. */
  lemma WireLayout(h: HandshakeHeader, fragment: Bytes)
    requires |h.cookie| <= 255
    ensures var data := Encoded(h, fragment);
            && |data| == 26 + |h.cookie| + |fragment|
            && data[0] == 1 && data[1] == h.header.epoch
            && data[2..6] == BigEndian(h.header.recvIndex, 4) && data[6..14] == BigEndian(h.header.n, 8)
            && data[14..18] == BigEndian(h.sender, 4) && data[18] == h.msgType
            && data[19..21] == BigEndian(h.fragOffset, 2) && data[21..23] == BigEndian(h.fragLength, 2)
            && data[23..25] == BigEndian(h.total, 2) && data[25] == |h.cookie|
            && data[26..26 + |h.cookie|] == h.cookie && data[26 + |h.cookie|..] == fragment
  {
    hide BigEndian;
    var data := Encoded(h, fragment);
    EncodedLayout(h, fragment, []);
    assert data + [] == data && fragment + [] == fragment;
    ExtSlices(h);
    var head := HeaderBytes(AsHandshake(h).header);
    assert head[2..6] == BigEndian(h.header.recvIndex, 4) && head[6..14] == BigEndian(h.header.n, 8);
    SliceOfSlice(data, 0, 14, 2, 6);
    SliceOfSlice(data, 0, 14, 6, 14);
    SliceOfSlice(data, 14, 26, 0, 4);
    SliceOfSlice(data, 14, 26, 5, 7);
    SliceOfSlice(data, 14, 26, 7, 9);
    SliceOfSlice(data, 14, 26, 9, 11);
  }

  /** Parsing undoes encoding, whatever padding follows. */
  lemma ParseEncoded(h: HandshakeHeader, fragment: Bytes, padding: Bytes)
    requires |h.cookie| <= 255 && |fragment| == h.fragLength && h.fragOffset + h.fragLength <= h.total
    ensures Parsed(Encoded(h, fragment) + padding) == Some((AsHandshake(h), fragment))
  {
    var data := Encoded(h, fragment) + padding;
    EncodedLayout(h, fragment, padding);
    HeaderParses(AsHandshake(h).header, data);
    ExtParses(h, data);
    assert data[0] == data[..14][0];
    assert (fragment + padding)[..h.fragLength] == fragment;
  }

  lemma ParsedBytes(data: Bytes)
    requires Parsed(data).Some?
    ensures var (h, fragment) := Parsed(data).value;
            && |h.cookie| <= 255 && |fragment| == h.fragLength
            && data[..14] == HeaderBytes(AsHandshake(h).header) && data[14..26] == ExtBytes(h)
            && data[26..26 + |h.cookie|] == h.cookie && data[26 + |h.cookie|..26 + |h.cookie| + |fragment|] == fragment
  {
    hide BigEndian, Value;
    var h := Parsed(data).value.0;
    BigEndianOfValue(data[2..6]);
    BigEndianOfValue(data[6..14]);
    BigEndianOfValue(data[14..18]);
    BigEndianOfValue(data[19..21]);
    BigEndianOfValue(data[21..23]);
    BigEndianOfValue(data[23..25]);
    ExtSlices(h);
    assert data[..14] == [data[0], data[1]] + data[2..6] + data[6..14];
    assert data[14..26] == data[14..18] + [data[18]] + data[19..21] + data[21..23] + data[23..25] + [data[25]];
  }

  /** The parser accepts exactly the frames of the encoder, with any padding: it
      reads `h` and `fragment` from `data` if and only if `data` starts with their
      encoding and the fragment lies inside the message. */
  lemma ParsesExactly(data: Bytes, h: HandshakeHeader, fragment: Bytes)
    requires |h.cookie| <= 255
    ensures Parsed(data) == Some((h, fragment)) <==>
            && h.header.frameType == HANDSHAKE_FRAME && |fragment| == h.fragLength
            && h.fragOffset + h.fragLength <= h.total
            && Encoded(h, fragment) <= data
  {
    hide HeaderBytes, ExtBytes;
    if Parsed(data) == Some((h, fragment)) {
      ParsedBytes(data);
      var end := 26 + |h.cookie| + |fragment|;
      assert data[..end] == data[..14] + data[14..26] + data[26..26 + |h.cookie|] + data[26 + |h.cookie|..end];
    } else if |fragment| == h.fragLength && h.fragOffset + h.fragLength <= h.total && Encoded(h, fragment) <= data {
      ParseEncoded(h, fragment, data[|Encoded(h, fragment)|..]);
      assert data == Encoded(h, fragment) + data[|Encoded(h, fragment)|..];
    }
  }

  // ---- the codec's loops and buffers ----

  method PutHeader(buf: array<uint8>, h: Header) returns (off: nat)
    requires buf.Length >= HEADER_SIZE
    modifies buf
    ensures off == HEADER_SIZE && buf[..off] == HeaderBytes(h)
  {
    buf[0] := h.frameType;
    buf[1] := h.epoch;
    assert buf[..2] == [h.frameType, h.epoch];
    PutUint(buf, 2, h.recvIndex, 4);
    PutUint(buf, 6, h.n, 8);
    return HEADER_SIZE;
  }

  method PutExt(buf: array<uint8>, start: nat, h: HandshakeHeader) returns (off: nat)
    requires |h.cookie| <= 255 && start + EXT_SIZE <= buf.Length
    modifies buf
    ensures off == start + EXT_SIZE && buf[..off] == old(buf[..start]) + ExtBytes(h)
  {
    ghost var p := buf[..start];
    PutUint(buf, start, h.sender, 4);
    PutByte(buf, start + 4, h.msgType);
    PutUint(buf, start + 5, h.fragOffset, 2);
    ghost var q := buf[..start + 7];
    Joined3(p, BigEndian(h.sender, 4), [h.msgType], BigEndian(h.fragOffset, 2));
    PutUint(buf, start + 7, h.fragLength, 2);
    PutUint(buf, start + 9, h.total, 2);
    PutByte(buf, start + 11, |h.cookie|);
    Joined3(q, BigEndian(h.fragLength, 2), BigEndian(h.total, 2), [|h.cookie|]);
    ExtHalves(h);
    Joined(p, BigEndian(h.sender, 4) + ([h.msgType] + BigEndian(h.fragOffset, 2)),
           BigEndian(h.fragLength, 2) + (BigEndian(h.total, 2) + [|h.cookie|]));
    return start + EXT_SIZE;
  }

  lemma ExtHalves(h: HandshakeHeader)
    requires |h.cookie| <= 255
    ensures ExtBytes(h) == (BigEndian(h.sender, 4) + ([h.msgType] + BigEndian(h.fragOffset, 2)))
                           + (BigEndian(h.fragLength, 2) + (BigEndian(h.total, 2) + [|h.cookie|]))
  {}

  method EncodeDatagramHandshake(h: HandshakeHeader, fragment: Bytes) returns (r: Option<Bytes>)
    ensures r == if |h.cookie| > 255 then None else Some(Encoded(h, fragment))
  {
    if |h.cookie| > 255 {
      return None;
    }
    var buf := new uint8[HEADER_SIZE + EXT_SIZE + |h.cookie| + |fragment|];
    var off := PutHeader(buf, h.header.(frameType := HANDSHAKE_FRAME));
    off := PutExt(buf, off, h);
    PutBytes(buf, off, h.cookie);
    off := off + |h.cookie|;
    PutBytes(buf, off, fragment);
    assert buf[..] == buf[..off + |fragment|];
    return Some(buf[..]);
  }

  method ParseDatagramHandshake(data: Bytes) returns (r: Option<(HandshakeHeader, Bytes)>)
    ensures r == Parsed(data)
  {
    if |data| < HEADER_SIZE {
      return None;
    }
    var header := ParsedHeader(data);
    if header.frameType != HANDSHAKE_FRAME {
      return None;
    }
    var off := HEADER_SIZE;
    if |data| < off + EXT_SIZE {
      return None;
    }
    var sender := U32(data[off..off + 4]);
    off := off + 4;
    var msgType := data[off];
    off := off + 1;
    var fragOffset: nat := U16(data[off..off + 2]);
    off := off + 2;
    var fragLength: nat := U16(data[off..off + 2]);
    off := off + 2;
    var total := U16(data[off..off + 2]);
    off := off + 2;
    var cookieLen: nat := data[off];
    off := off + 1;
    if |data| < off + cookieLen {
      return None;
    }
    var cookie := [];
    if cookieLen > 0 {
      cookie := data[off..off + cookieLen];
      off := off + cookieLen;
    }
    var fragment := data[off..];
    if |fragment| < fragLength {
      return None;
    }
    if fragOffset + fragLength > total {
      return None;
    }
    assert cookie == data[26..26 + cookieLen];
    return Some((HandshakeHeader(header, sender, msgType, fragOffset, fragLength, total, cookie), fragment[..fragLength]));
  }

  // ---- fragmentation ----

  function MaxFragment(cookieLen: nat): int { MTU - HEADER_SIZE - EXT_SIZE - cookieLen }

  /** The piece of `msg` that starts at `off`. */
  function Piece(msg: Bytes, size: nat, off: nat): Bytes
    requires off <= |msg|
  {
    msg[off..Min(off + size, |msg|)]
  }

  /** The header of that piece in a message of at most 4096 bytes. */
  function PieceHeader(base: HandshakeHeader, msg: Bytes, size: nat, off: nat, n: uint64): HandshakeHeader
    requires off < |msg| <= MAX_MESSAGE_SIZE
  {
    base.(header := base.header.(n := n), fragOffset := off, fragLength := |Piece(msg, size, off)|, total := |msg|)
  }

  function Padded(frame: Bytes, pad: bool): Bytes
  {
    if pad && |frame| < MTU then frame + Zeros(MTU - |frame|) else frame
  }

  function FrameAt(base: HandshakeHeader, msg: Bytes, pad: bool, off: nat, n: uint64): Bytes
    requires |base.cookie| <= 255 && off < |msg| <= MAX_MESSAGE_SIZE
  {
    var size := MaxFragment(|base.cookie|);
    Padded(Encoded(PieceHeader(base, msg, size, off, n), Piece(msg, size, off)), pad)
  }

  function FramesFrom(base: HandshakeHeader, msg: Bytes, pad: bool, off: nat, n: uint64): seq<Bytes>
    requires |base.cookie| <= 255 && |msg| <= MAX_MESSAGE_SIZE
    decreases |msg| - off
  {
    if off >= |msg| then []
    else
      [FrameAt(base, msg, pad, off, n)]
      + FramesFrom(base, msg, pad, off + MaxFragment(|base.cookie|), (n + 1) % TWO_64)
  }

  lemma FramesStep(base: HandshakeHeader, msg: Bytes, pad: bool, off: nat, n: uint64, done: seq<Bytes>)
    requires |base.cookie| <= 255 && off < |msg| <= MAX_MESSAGE_SIZE
    ensures done + FramesFrom(base, msg, pad, off, n)
            == (done + [FrameAt(base, msg, pad, off, n)])
               + FramesFrom(base, msg, pad, off + MaxFragment(|base.cookie|), (n + 1) % TWO_64)
  {
    hide FrameAt;
    Joined(done, [FrameAt(base, msg, pad, off, n)],
           FramesFrom(base, msg, pad, off + MaxFragment(|base.cookie|), (n + 1) % TWO_64));
  }

  function Fragments(base: HandshakeHeader, msg: Bytes, pad: bool): Option<seq<Bytes>>
  {
    if msg == [] || |msg| > MAX_MESSAGE_SIZE then None
    else if |base.cookie| > 255 then None
    else Some(FramesFrom(base, msg, pad, 0, base.header.n))
  }

  /** One frame of the loop. */
  method FragmentAt(base: HandshakeHeader, msg: Bytes, pad: bool, off: nat, n: uint64) returns (r: Option<Bytes>)
    requires off < |msg| <= MAX_MESSAGE_SIZE && MaxFragment(|base.cookie|) > 0
    ensures r == if |base.cookie| > 255 then None else Some(FrameAt(base, msg, pad, off, n))
  {
    var end := off + MaxFragment(|base.cookie|);
    if end > |msg| {
      end := |msg|;
    }
    var h := base.(header := base.header.(n := n), fragOffset := off, fragLength := end - off, total := |msg|);
    r := EncodeDatagramHandshake(h, msg[off..end]);
    if r.Some? && pad && |r.value| < MTU {
      r := Some(r.value + Zeros(MTU - |r.value|));
    }
  }

  method FragmentHandshake(base: HandshakeHeader, msg: Bytes, pad: bool) returns (r: Option<seq<Bytes>>)
    ensures r == Fragments(base, msg, pad)
  {
    hide FrameAt;
    if msg == [] || |msg| > MAX_MESSAGE_SIZE {
      return None;
    }
    var maxFrag := MaxFragment(|base.cookie|);
    if maxFrag <= 0 {
      return None;
    }
    var frames := [];
    var n: uint64 := base.header.n;
    var off: nat := 0;
    while off < |msg|
      invariant |base.cookie| > 255 ==> off == 0
      invariant |base.cookie| <= 255 ==>
        FramesFrom(base, msg, pad, 0, base.header.n) == frames + FramesFrom(base, msg, pad, off, n)
    {
      var frame := FragmentAt(base, msg, pad, off, n);
      if frame.None? {
        return None;
      }
      FramesStep(base, msg, pad, off, n, frames);
      frames := frames + [frame.value];
      n := (n + 1) % TWO_64;
      off := off + maxFrag;
    }
    assert frames + [] == frames;
    return Some(frames);
  }
}
