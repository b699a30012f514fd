/** The stream codec of ClientHello and ServerHello. Encoders fill a buffer through
    a running offset, decoders read through one; each is proved equal to a
    function on byte strings, and the round trip is proved about those. */
module HelloCodec {
  import opened Words
  import opened Symbolic
  import opened Bytes

  const HEADER_SIZE: nat := 5
  const CLIENT_HELLO: uint8 := 1
  const SERVER_HELLO: uint8 := 2
  const CURRENT_MAJOR: uint8 := 6

  datatype ClientHello = ClientHello(
    major: uint8, minor: uint8, random: Bytes, sessionId: Bytes, kemSuite: uint16, kemSuites: seq<uint16>,
    publicKey: Bytes, ciphers: seq<uint16>, staticCt: Bytes, pskIdentity: Bytes)

  datatype ServerHello = ServerHello(
    major: uint8, minor: uint8, random: Bytes, sessionId: Bytes, kemSuite: uint16, ciphertext: Bytes, cipher: uint16)

  /** A decoder's result; Fault is a slice bound beyond the capacity of the data's
      buffer, which ends the program. */
  datatype Decoded<T> = Message(m: T) | Invalid | Fault

  predicate Supported(cipher: uint16) { cipher == 1 || cipher == 2 }

  predicate ValidClient(m: ClientHello)
  {
    && m.major == CURRENT_MAJOR
    && |m.random| == 32
    && m.publicKey != []
    && |m.sessionId| <= 255
    && m.ciphers != [] && (forall k :: 0 <= k < |m.ciphers| ==> Supported(m.ciphers[k]))
    && |m.pskIdentity| <= 255
  }

  predicate ValidServer(m: ServerHello)
  {
    m.major == CURRENT_MAJOR && |m.random| == 32 && |m.sessionId| <= 255 && m.ciphertext != [] && Supported(m.cipher)
  }

  /** Every list and key fits its length prefix. */
  predicate FitsClient(m: ClientHello)
  {
    |m.kemSuites| < 0x100 && |m.publicKey| < 0x1_0000 && |m.ciphers| < 0x1_0000 && |m.staticCt| < 0x1_0000
  }

  predicate FitsServer(m: ServerHello) { |m.ciphertext| < 0x1_0000 }

  // ---- writing ----

  function Ids(ids: seq<uint16>): (r: Bytes)
    ensures |r| == 2 * |ids|
  {
    if ids == [] then [] else BigEndian(ids[0], 2) + Ids(ids[1..])
  }

  /** A 2-byte length, truncated if need be, and the bytes. */
  function Prefixed(b: Bytes): Bytes { BigEndian(|b| % 0x1_0000, 2) + b }

  function OptionalCt(ct: Bytes): Bytes { if ct == [] then [0] else [1] + Prefixed(ct) }
  function OptionalIdentity(id: Bytes): Bytes { if id == [] then [0] else [1, |id| % 0x100] + id }

  function Prologue(major: uint8, minor: uint8, random: Bytes, sessionId: Bytes): Bytes
  {
    [major, minor] + random + [|sessionId| % 0x100] + sessionId
  }

  function ClientPayload(m: ClientHello): Bytes
  {
    Prologue(m.major, m.minor, m.random, m.sessionId)
    + (BigEndian(m.kemSuite, 2) + ([|m.kemSuites| % 0x100] + (Ids(m.kemSuites)
    + (Prefixed(m.publicKey) + (BigEndian(|m.ciphers| % 0x1_0000, 2) + (Ids(m.ciphers)
    + (OptionalCt(m.staticCt) + OptionalIdentity(m.pskIdentity))))))))
  }

  function ServerPayload(m: ServerHello): Bytes
  {
    Prologue(m.major, m.minor, m.random, m.sessionId)
    + (BigEndian(m.kemSuite, 2) + (Prefixed(m.ciphertext) + BigEndian(m.cipher, 2)))
  }

  function Packet(kind: uint8, payload: Bytes): Bytes { [kind] + BigEndian(|payload| % 0x1_0000_0000, 4) + payload }

  function EncodedClient(m: ClientHello): Option<Bytes>
  {
    if ValidClient(m) then Some(Packet(CLIENT_HELLO, ClientPayload(m))) else None
  }

  function EncodedServer(m: ServerHello): Option<Bytes>
  {
    if ValidServer(m) then Some(Packet(SERVER_HELLO, ServerPayload(m))) else None
  }

  // ---- reading ----

  /** A value read from the front of the payload, and what is left of it. */
  datatype Read<T> = Got(value: T, rest: Bytes) | Short

  function ReadU16(b: Bytes): Read<uint16>
  {
    if |b| < 2 then Short
    else
      ValueBelow(b[..2]);
      Ranges();
      Got(Value(b[..2]), b[2..])
  }

  function ReadBytes(b: Bytes, n: nat): Read<Bytes>
  {
    if |b| < n then Short else Got(b[..n], b[n..])
  }

  function ReadIds(b: Bytes, n: nat): Read<seq<uint16>>
    decreases n
  {
    if n == 0 then Got([], b)
    else
      match ReadU16(b)
      case Short => Short
      case Got(id, rest) =>
        match ReadIds(rest, n - 1)
        case Short => Short
        case Got(ids, left) => Got([id] + ids, left)
  }

  function ReadPrefixed(b: Bytes): Read<Bytes>
  {
    match ReadU16(b)
    case Short => Short
    case Got(n, rest) => ReadBytes(rest, n)
  }

  /** A flagged field that older peers leave out: absent when no byte is left. */
  function ReadCt(b: Bytes): Read<Bytes>
  {
    if b == [] then Got([], [])
    else if b[0] == 1 then ReadPrefixed(b[1..])
    else Got([], b[1..])
  }

  function ReadIdentity(b: Bytes): Read<Bytes>
  {
    if b == [] then Got([], [])
    else if b[0] != 1 then Got([], b[1..])
    else if |b| < 2 || b[1] == 0 then Short
    else ReadBytes(b[2..], b[1])
  }

  function ReadClientTail(b: Bytes, m: ClientHello): Read<ClientHello>
  {
    match ReadU16(b)
    case Short => Short
    case Got(count, b1) =>
      match ReadIds(b1, count)
      case Short => Short
      case Got(ciphers, b2) =>
        match ReadCt(b2)
        case Short => Short
        case Got(ct, b3) =>
          match ReadIdentity(b3)
          case Short => Short
          case Got(id, b4) => Got(m.(ciphers := ciphers, staticCt := ct, pskIdentity := id), b4)
  }

  function ReadClient(b: Bytes, m: ClientHello): Read<ClientHello>
  {
    match ReadU16(b)
    case Short => Short
    case Got(suite, b1) =>
      if b1 == [] then Short
      else
        match ReadIds(b1[1..], b1[0])
        case Short => Short
        case Got(suites, b2) =>
          match ReadPrefixed(b2)
          case Short => Short
          case Got(pk, b3) => ReadClientTail(b3, m.(kemSuite := suite, kemSuites := suites, publicKey := pk))
  }

  function ReadServer(b: Bytes, m: ServerHello): Read<ServerHello>
  {
    match ReadU16(b)
    case Short => Short
    case Got(suite, b1) =>
      match ReadPrefixed(b1)
      case Short => Short
      case Got(ct, b2) =>
        match ReadU16(b2)
        case Short => Short
        case Got(cipher, b3) => Got(m.(kemSuite := suite, ciphertext := ct, cipher := cipher), b3)
  }

  /** The payload of a packet of the given kind, if it is all there. */
  function PayloadOf(data: Bytes, kind: uint8, min: nat): Option<Bytes>
  {
    if |data| < HEADER_SIZE || data[0] != kind then None
    else
      var length := Value(data[1..5]);
      if |data| < HEADER_SIZE + length || length < min then None else Some(data[HEADER_SIZE..HEADER_SIZE + length])
  }

  const MIN_CLIENT: nat := 44
  const MIN_SERVER: nat := 41

  /** The session id is cut out of the buffer, of the given capacity, before the
      payload's end is looked at. */
  function DecodedClient(data: Bytes, capacity: nat): Decoded<ClientHello>
    requires |data| <= capacity
  {
    match PayloadOf(data, CLIENT_HELLO, MIN_CLIENT)
    case None => Invalid
    case Some(b) =>
      if HEADER_SIZE + 35 + b[34] > capacity then Fault
      else if 35 + b[34] > |b| then Invalid
      else
        var m := ClientHello(b[0], b[1], b[2..34], b[35..35 + b[34]], 0, [], [], [], [], []);
        match ReadClient(b[35 + b[34]..], m)
        case Short => Invalid
        case Got(hello, _) => if ValidClient(hello) then Message(hello) else Invalid
  }

  function DecodedServer(data: Bytes, capacity: nat): Decoded<ServerHello>
    requires |data| <= capacity
  {
    match PayloadOf(data, SERVER_HELLO, MIN_SERVER)
    case None => Invalid
    case Some(b) =>
      if HEADER_SIZE + 35 + b[34] > capacity then Fault
      else if 35 + b[34] > |b| then Invalid
      else
        var m := ServerHello(b[0], b[1], b[2..34], b[35..35 + b[34]], 0, [], 0);
        match ReadServer(b[35 + b[34]..], m)
        case Short => Invalid
        case Got(hello, _) => if ValidServer(hello) then Message(hello) else Invalid
  }

  // ---- when decoding is not total ----

  /** The decoder faults exactly when header and payload are complete and the
      session id's length byte points beyond the buffer. */
  lemma ClientFaults(data: Bytes, capacity: nat)
    requires |data| <= capacity
    ensures DecodedClient(data, capacity).Fault? <==>
            && |data| >= 40 && data[0] == 1
            && 44 <= Value(data[1..5]) <= |data| - 5
            && 40 + data[39] > capacity
  {
    hide Value, ReadClient, ValidClient;
    if PayloadOf(data, CLIENT_HELLO, MIN_CLIENT).Some? {
      assert PayloadOf(data, CLIENT_HELLO, MIN_CLIENT).value[34] == data[39];
    }
  }

  lemma ServerFaults(data: Bytes, capacity: nat)
    requires |data| <= capacity
    ensures DecodedServer(data, capacity).Fault? <==>
            && |data| >= 40 && data[0] == 2
            && 41 <= Value(data[1..5]) <= |data| - 5
            && 40 + data[39] > capacity
  {
    hide Value, ReadServer, ValidServer;
    if PayloadOf(data, SERVER_HELLO, MIN_SERVER).Some? {
      assert PayloadOf(data, SERVER_HELLO, MIN_SERVER).value[34] == data[39];
    }
  }

  /** A packet of the given kind whose payload is `size` bytes of 255. */
  function Filled(kind: uint8, size: nat): Bytes { [kind] + BigEndian(size, 4) + seq(size, _ => 255) }

  lemma FilledReads(kind: uint8, size: nat)
    requires 35 <= size < 0x1_0000_0000
    ensures var data := Filled(kind, size);
            |data| == HEADER_SIZE + size && data[0] == kind && data[39] == 255 && Value(data[1..5]) == size
  {
    hide BigEndian, Value;
    assert Filled(kind, size)[1..5] == BigEndian(size, 4);
    Ranges();
    ValueOfBigEndian(size, 4);
  }

  /** Such inputs exist: a complete smallest payload, in a buffer of its own size. */
  lemma DecodersAreNotTotal()
    ensures var data := Filled(CLIENT_HELLO, MIN_CLIENT); DecodedClient(data, |data|).Fault?
    ensures var data := Filled(SERVER_HELLO, MIN_SERVER); DecodedServer(data, |data|).Fault?
  {
    hide Filled;
    FilledReads(CLIENT_HELLO, MIN_CLIENT);
    FilledReads(SERVER_HELLO, MIN_SERVER);
    ClientFaults(Filled(CLIENT_HELLO, MIN_CLIENT), HEADER_SIZE + MIN_CLIENT);
    ServerFaults(Filled(SERVER_HELLO, MIN_SERVER), HEADER_SIZE + MIN_SERVER);
  }

  /** Nothing an encoder makes is among them, whatever its size and whatever follows. */
  lemma EncodedClientNeverFaults(m: ClientHello, trailing: Bytes, capacity: nat)
    requires ValidClient(m) && |EncodedClient(m).value + trailing| <= capacity
    ensures !DecodedClient(EncodedClient(m).value + trailing, capacity).Fault?
  {
    hide BigEndian, DecodedClient, Prologue, Packet, ClientPayload, Body;
    PayloadSplit(m);
    IdWithin(CLIENT_HELLO, m.major, m.minor, m.random, m.sessionId, Body(m), trailing);
    ClientFaults(EncodedClient(m).value + trailing, capacity);
  }

  lemma EncodedServerNeverFaults(m: ServerHello, trailing: Bytes, capacity: nat)
    requires ValidServer(m) && |EncodedServer(m).value + trailing| <= capacity
    ensures !DecodedServer(EncodedServer(m).value + trailing, capacity).Fault?
  {
    hide BigEndian, DecodedServer, Prologue, Packet, Prefixed;
    IdWithin(SERVER_HELLO, m.major, m.minor, m.random, m.sessionId,
             BigEndian(m.kemSuite, 2) + (Prefixed(m.ciphertext) + BigEndian(m.cipher, 2)), trailing);
    ServerFaults(EncodedServer(m).value + trailing, capacity);
  }

  lemma IdWithin(kind: uint8, major: uint8, minor: uint8, random: Bytes, sessionId: Bytes, rest: Bytes, trailing: Bytes)
    requires |random| == 32 && |sessionId| <= 255
    ensures var data := Packet(kind, Prologue(major, minor, random, sessionId) + rest) + trailing;
            |data| >= HEADER_SIZE + 35 && HEADER_SIZE + 35 + data[39] <= |data|
  {
    hide BigEndian, Prologue;
    PrologueReads(major, minor, random, sessionId, rest);
    var payload := Prologue(major, minor, random, sessionId) + rest;
    assert (Packet(kind, payload) + trailing)[39] == payload[34];
  }

  // ---- reading undoes writing ----

  lemma ReadsU16(v: uint16, rest: Bytes)
    ensures ReadU16(BigEndian(v, 2) + rest) == Got(v, rest)
  {
    var b := BigEndian(v, 2) + rest;
    assert b[..2] == BigEndian(v, 2) && b[2..] == rest;
    Ranges();
    ValueOfBigEndian(v, 2);
  }

  lemma {:induction false} ReadsIds(ids: seq<uint16>, rest: Bytes)
    ensures ReadIds(Ids(ids) + rest, |ids|) == Got(ids, rest)
  {
    hide BigEndian, ReadU16;
    if ids == [] {
      assert Ids(ids) + rest == rest;
    } else {
      Joined(BigEndian(ids[0], 2), Ids(ids[1..]), rest);
      ReadsU16(ids[0], Ids(ids[1..]) + rest);
      ReadsIds(ids[1..], rest);
      assert ids == [ids[0]] + ids[1..];
    }
  }

  lemma ReadsPrefixed(s: Bytes, rest: Bytes)
    requires |s| < 0x1_0000
    ensures ReadPrefixed(Prefixed(s) + rest) == Got(s, rest)
  {
    hide BigEndian, ReadU16;
    Joined(BigEndian(|s|, 2), s, rest);
    ReadsU16(|s|, s + rest);
  }

  lemma ReadsCt(ct: Bytes, rest: Bytes)
    requires |ct| < 0x1_0000
    ensures ReadCt(OptionalCt(ct) + rest) == Got(ct, rest)
  {
    hide Prefixed, ReadPrefixed;
    var b := OptionalCt(ct) + rest;
    if ct == [] {
      assert b[1..] == rest;
    } else {
      Joined([1], Prefixed(ct), rest);
      assert b[1..] == Prefixed(ct) + rest;
      ReadsPrefixed(ct, rest);
    }
  }

  lemma ReadsIdentity(id: Bytes)
    requires |id| <= 255
    ensures ReadIdentity(OptionalIdentity(id)) == Got(id, [])
  {
    if id != [] {
      assert OptionalIdentity(id)[2..] == id;
      assert id[..|id|] == id && id[|id|..] == [];
    }
  }

  lemma ReadsClientTail(count: uint16, ids: Bytes, ciphers: seq<uint16>, ct: Bytes, flags: Bytes, id: Bytes,
                        blank: ClientHello)
    requires ReadIds(ids + flags, count) == Got(ciphers, flags)
    requires ReadCt(flags) == Got(ct, OptionalIdentity(id)) && |id| <= 255
    ensures ReadClientTail(BigEndian(count, 2) + (ids + flags), blank)
            == Got(blank.(ciphers := ciphers, staticCt := ct, pskIdentity := id), [])
  {
    hide BigEndian, ReadU16, ReadIds, ReadCt, ReadIdentity, OptionalIdentity;
    ReadsU16(count, ids + flags);
    ReadsIdentity(id);
  }

  lemma ReadsClient(suite: uint16, count: uint8, ids: Bytes, suites: seq<uint16>, rest: Bytes, key: Bytes, tail: Bytes,
                    blank: ClientHello)
    requires ReadIds(ids + rest, count) == Got(suites, rest) && ReadPrefixed(rest) == Got(key, tail)
    ensures ReadClient(BigEndian(suite, 2) + ([count] + (ids + rest)), blank)
            == ReadClientTail(tail, blank.(kemSuite := suite, kemSuites := suites, publicKey := key))
  {
    hide BigEndian, ReadU16, ReadIds, ReadPrefixed, ReadClientTail;
    var b1 := [count] + (ids + rest);
    ReadsU16(suite, b1);
    assert b1[1..] == ids + rest && b1[0] == count;
  }

  lemma ReadsFlags(m: ClientHello, blank: ClientHello)
    requires |m.ciphers| < 0x1_0000 && |m.staticCt| < 0x1_0000 && |m.pskIdentity| <= 255
    ensures ReadClientTail(BigEndian(|m.ciphers| % 0x1_0000, 2)
                           + (Ids(m.ciphers) + (OptionalCt(m.staticCt) + OptionalIdentity(m.pskIdentity))), blank)
            == Got(blank.(ciphers := m.ciphers, staticCt := m.staticCt, pskIdentity := m.pskIdentity), [])
  {
    hide BigEndian, Ids, OptionalCt, OptionalIdentity, ReadIds, ReadCt, ReadClientTail;
    var flags := OptionalCt(m.staticCt) + OptionalIdentity(m.pskIdentity);
    var count: uint16 := |m.ciphers| % 0x1_0000;
    assert ReadIds(Ids(m.ciphers) + flags, count) == Got(m.ciphers, flags) by { ReadsIds(m.ciphers, flags); }
    assert ReadCt(flags) == Got(m.staticCt, OptionalIdentity(m.pskIdentity)) by {
      ReadsCt(m.staticCt, OptionalIdentity(m.pskIdentity));
    }
    ReadsClientTail(count, Ids(m.ciphers), m.ciphers, m.staticCt, flags, m.pskIdentity, blank);
  }

  lemma ReadsServer(m: ServerHello, blank: ServerHello)
    requires |m.ciphertext| < 0x1_0000
    ensures ReadServer(BigEndian(m.kemSuite, 2) + (Prefixed(m.ciphertext) + BigEndian(m.cipher, 2)), blank)
            == Got(blank.(kemSuite := m.kemSuite, ciphertext := m.ciphertext, cipher := m.cipher), [])
  {
    ReadsU16(m.kemSuite, Prefixed(m.ciphertext) + BigEndian(m.cipher, 2));
    ReadsPrefixed(m.ciphertext, BigEndian(m.cipher, 2));
    assert BigEndian(m.cipher, 2) + [] == BigEndian(m.cipher, 2);
    ReadsU16(m.cipher, []);
  }

  lemma PayloadReads(kind: uint8, payload: Bytes, trailing: Bytes, min: nat)
    requires min <= |payload| < 0x1_0000_0000
    ensures PayloadOf(Packet(kind, payload) + trailing, kind, min) == Some(payload)
  {
    hide BigEndian;
    var data := Packet(kind, payload) + trailing;
    assert data[1..5] == BigEndian(|payload|, 4) && data[5..5 + |payload|] == payload;
    Ranges();
    ValueOfBigEndian(|payload|, 4);
  }

  lemma PrologueReads(major: uint8, minor: uint8, random: Bytes, sessionId: Bytes, rest: Bytes)
    requires |random| == 32 && |sessionId| <= 255
    ensures var b := Prologue(major, minor, random, sessionId) + rest;
            && |b| == 35 + |sessionId| + |rest|
            && b[0] == major && b[1] == minor && b[2..34] == random && b[34] == |sessionId|
            && b[35..35 + |sessionId|] == sessionId && b[35 + |sessionId|..] == rest
  {}

  function Body(m: ClientHello): Bytes
  {
    BigEndian(m.kemSuite, 2) + ([|m.kemSuites| % 0x100] + (Ids(m.kemSuites) + (Prefixed(m.publicKey) + Suffix(m))))
  }

  lemma BodySize(m: ClientHello)
    requires FitsClient(m) && |m.pskIdentity| <= 255
    ensures 9 <= |Body(m)| < 0x100_0000
  {
    hide BigEndian, Ids;
  }

  function Suffix(m: ClientHello): Bytes
  {
    BigEndian(|m.ciphers| % 0x1_0000, 2) + (Ids(m.ciphers) + (OptionalCt(m.staticCt) + OptionalIdentity(m.pskIdentity)))
  }

  lemma ReadsClientBody(m: ClientHello, blank: ClientHello)
    requires FitsClient(m) && |m.pskIdentity| <= 255
    ensures ReadClient(Body(m), blank)
            == Got(blank.(kemSuite := m.kemSuite, kemSuites := m.kemSuites, publicKey := m.publicKey,
                          ciphers := m.ciphers, staticCt := m.staticCt, pskIdentity := m.pskIdentity), [])
  {
    hide BigEndian, Ids, Prefixed, ReadIds, ReadPrefixed, ReadClient, ReadClientTail;
    var tail := Suffix(m);
    var rest := Prefixed(m.publicKey) + tail;
    var count: uint8 := |m.kemSuites| % 0x100;
    assert ReadIds(Ids(m.kemSuites) + rest, count) == Got(m.kemSuites, rest) by { ReadsIds(m.kemSuites, rest); }
    assert ReadPrefixed(rest) == Got(m.publicKey, tail) by { ReadsPrefixed(m.publicKey, tail); }
    ReadsClient(m.kemSuite, count, Ids(m.kemSuites), m.kemSuites, rest, m.publicKey, tail, blank);
    ReadsFlags(m, blank.(kemSuite := m.kemSuite, kemSuites := m.kemSuites, publicKey := m.publicKey));
  }

  lemma PayloadSplit(m: ClientHello)
    ensures ClientPayload(m) == Prologue(m.major, m.minor, m.random, m.sessionId) + Body(m)
  {
    hide BigEndian, Ids, Prefixed, Prologue, OptionalCt, OptionalIdentity;
  }

  lemma ClientDecodes(m: ClientHello, trailing: Bytes, capacity: nat)
    requires ValidClient(m) && FitsClient(m) && |EncodedClient(m).value + trailing| <= capacity
    ensures DecodedClient(EncodedClient(m).value + trailing, capacity) == Message(m)
  {
    hide BigEndian, Prologue, Body, PayloadOf, ReadClient;
    BodySize(m);
    PayloadSplit(m);
    PrologueReads(m.major, m.minor, m.random, m.sessionId, Body(m));
    PayloadReads(CLIENT_HELLO, ClientPayload(m), trailing, MIN_CLIENT);
    ReadsClientBody(m, ClientHello(m.major, m.minor, m.random, m.sessionId, 0, [], [], [], [], []));
  }

  /** The ClientHello round trip, with any bytes following: exactly for messages
      whose lists and keys fit their prefixes. */
  lemma ClientRoundTrip(m: ClientHello, trailing: Bytes, capacity: nat)
    requires ValidClient(m) && |EncodedClient(m).value + trailing| <= capacity
    ensures DecodedClient(EncodedClient(m).value + trailing, capacity) == Message(m) <==> FitsClient(m)
  {
    if FitsClient(m) { ClientDecodes(m, trailing, capacity); }
    DecodedFits(EncodedClient(m).value + trailing, capacity);
  }

  lemma ServerRoundTrip(m: ServerHello, trailing: Bytes, capacity: nat)
    requires ValidServer(m) && |EncodedServer(m).value + trailing| <= capacity
    ensures FitsServer(m) <==> DecodedServer(EncodedServer(m).value + trailing, capacity) == Message(m)
  {
    if FitsServer(m) {
      var body := BigEndian(m.kemSuite, 2) + (Prefixed(m.ciphertext) + BigEndian(m.cipher, 2));
      var blank := ServerHello(m.major, m.minor, m.random, m.sessionId, 0, [], 0);
      assert ServerPayload(m) == Prologue(m.major, m.minor, m.random, m.sessionId) + body;
      PrologueReads(m.major, m.minor, m.random, m.sessionId, body);
      PayloadReads(SERVER_HELLO, ServerPayload(m), trailing, MIN_SERVER);
      ReadsServer(m, blank);
    }
  }

  lemma {:induction false} IdsCount(b: Bytes, n: nat)
    ensures ReadIds(b, n).Got? ==> |ReadIds(b, n).value| == n
    decreases n
  {
    if n > 0 && ReadU16(b).Got? { IdsCount(ReadU16(b).rest, n - 1); }
  }

  /** Whatever decodes fits its prefixes. */
  lemma DecodedFits(data: Bytes, capacity: nat)
    requires |data| <= capacity
    ensures DecodedClient(data, capacity).Message? ==> FitsClient(DecodedClient(data, capacity).m)
  {
    hide ReadClient, FitsClient, ValidClient;
    if DecodedClient(data, capacity).Message? {
      var b := PayloadOf(data, CLIENT_HELLO, MIN_CLIENT).value;
      ReadFits(b[35 + b[34]..], ClientHello(b[0], b[1], b[2..34], b[35..35 + b[34]], 0, [], [], [], [], []));
    }
  }

  lemma ReadFits(b: Bytes, m: ClientHello)
    ensures ReadClient(b, m).Got? ==> FitsClient(ReadClient(b, m).value)
  {
    hide ReadU16, ReadIds, ReadCt, ReadIdentity;
    if ReadClient(b, m).Got? {
      var b1 := ReadU16(b).rest;
      IdsCount(b1[1..], b1[0]);
      var b2 := ReadPrefixed(ReadIds(b1[1..], b1[0]).rest).rest;
      IdsCount(ReadU16(b2).rest, ReadU16(b2).value);
      CtFits(ReadIds(ReadU16(b2).rest, ReadU16(b2).value).rest);
    }
  }

  lemma CtFits(b: Bytes)
    ensures ReadCt(b).Got? ==> |ReadCt(b).value| < 0x1_0000
  {}

  // ---- what the decoders accept ----

  lemma GetsU16(b: Bytes, v: uint16, rest: Bytes)
    ensures ReadU16(b) == Got(v, rest) <==> b == BigEndian(v, 2) + rest
  {
    hide BigEndian, Value;
    if b == BigEndian(v, 2) + rest {
      ReadsU16(v, rest);
    } else if |b| >= 2 {
      BigEndianOfValue(b[..2]);
      assert b == b[..2] + b[2..];
    }
  }

  lemma {:induction false} GetsIds(b: Bytes, ids: seq<uint16>, rest: Bytes)
    ensures ReadIds(b, |ids|) == Got(ids, rest) <==> b == Ids(ids) + rest
    decreases |ids|
  {
    hide BigEndian, ReadU16;
    if ids == [] {
      assert Ids(ids) + rest == rest;
    } else if b == Ids(ids) + rest {
      ReadsIds(ids, rest);
    } else if ReadIds(b, |ids|) == Got(ids, rest) {
      var first, left := ReadU16(b).value, ReadU16(b).rest;
      GetsU16(b, first, left);
      assert ids[1..] == ReadIds(left, |ids| - 1).value;
      GetsIds(left, ids[1..], rest);
      Joined(BigEndian(first, 2), Ids(ids[1..]), rest);
    }
  }

  lemma GetsPrefixed(b: Bytes, s: Bytes, rest: Bytes)
    ensures ReadPrefixed(b) == Got(s, rest) <==> |s| < 0x1_0000 && b == Prefixed(s) + rest
  {
    hide BigEndian, ReadU16;
    if |s| < 0x1_0000 && b == Prefixed(s) + rest {
      ReadsPrefixed(s, rest);
    } else if ReadPrefixed(b) == Got(s, rest) {
      GetsU16(b, ReadU16(b).value, ReadU16(b).rest);
      Joined(BigEndian(|s|, 2), s, rest);
    }
  }

  /** `b` starts with the encoding of an optional identity, or ends before it. */
  predicate ShowsIdentity(b: Bytes, id: Bytes)
  {
    if b == [] || b[0] != 1 then id == [] else 0 < |id| <= 255 && [1, |id|] + id <= b
  }

  /** `b` starts with the encodings of both optional fields, or ends before one of
      them; a flag other than 1 stands for an absent field. */
  predicate ShowsFlags(b: Bytes, ct: Bytes, id: Bytes)
  {
    if b == [] then ct == [] && id == []
    else if b[0] != 1 then ct == [] && ShowsIdentity(b[1..], id)
    else |ct| < 0x1_0000 && Prefixed(ct) <= b[1..] && ShowsIdentity(b[1..][|Prefixed(ct)|..], id)
  }

  lemma GetsIdentity(b: Bytes, id: Bytes)
    ensures ReadIdentity(b).Got? && ReadIdentity(b).value == id <==> ShowsIdentity(b, id)
  {
    if b != [] && b[0] == 1 && |b| >= 2 {
      assert b == [1, b[1]] + b[2..];
      if ReadIdentity(b).Got? { assert b[2..] == ReadIdentity(b).value + ReadIdentity(b).rest; }
      if 0 < |id| <= 255 && [1, |id|] + id <= b { assert b[2..2 + |id|] == id; }
    }
  }

  lemma GetsFlags(b: Bytes, ct: Bytes, id: Bytes)
    ensures ShowsFlags(b, ct, id) <==>
            && ReadCt(b).Got? && ReadCt(b).value == ct
            && ReadIdentity(ReadCt(b).rest).Got? && ReadIdentity(ReadCt(b).rest).value == id
  {
    hide ReadIdentity, ShowsIdentity, ReadPrefixed, Prefixed;
    if ReadCt(b).Got? {
      GetsIdentity(ReadCt(b).rest, id);
      if b == [] { GetsIdentity([], id); EmptyIdentity(id); }
    }
    if b != [] && b[0] == 1 {
      PrefixIs(b[1..], ct);
    }
  }

  lemma EmptyIdentity(id: Bytes)
    ensures ShowsIdentity([], id) <==> id == []
  {}

  /** Reading a prefixed string from the front, as a statement about the front. */
  lemma PrefixIs(b: Bytes, s: Bytes)
    ensures |s| < 0x1_0000 && Prefixed(s) <= b <==> ReadPrefixed(b).Got? && ReadPrefixed(b).value == s
    ensures ReadPrefixed(b).Got? && ReadPrefixed(b).value == s ==> ReadPrefixed(b).rest == b[|Prefixed(s)|..]
  {
    hide Prefixed, ReadPrefixed;
    if |s| < 0x1_0000 && Prefixed(s) <= b {
      assert b == Prefixed(s) + b[|Prefixed(s)|..];
      GetsPrefixed(b, s, b[|Prefixed(s)|..]);
    }
    if ReadPrefixed(b).Got? && ReadPrefixed(b).value == s {
      GetsPrefixed(b, s, ReadPrefixed(b).rest);
    }
  }

  function CipherList(ciphers: seq<uint16>): Bytes { BigEndian(|ciphers| % 0x1_0000, 2) + Ids(ciphers) }

  /** The fields every ClientHello has, in their order. */
  function Core(m: ClientHello): Bytes
  {
    Prologue(m.major, m.minor, m.random, m.sessionId)
    + (Share(m.kemSuite, m.kemSuites, m.publicKey) + CipherList(m.ciphers))
  }

  lemma TailAccepted(b: Bytes, blank: ClientHello, ciphers: seq<uint16>, ct: Bytes, id: Bytes)
    requires |ciphers| < 0x1_0000 && CipherList(ciphers) <= b && ShowsFlags(b[|CipherList(ciphers)|..], ct, id)
    ensures ReadClientTail(b, blank).Got?
    ensures ReadClientTail(b, blank).value == blank.(ciphers := ciphers, staticCt := ct, pskIdentity := id)
  {
    hide BigEndian, ReadU16, ReadIds, Ids, ReadCt, ReadIdentity, ShowsFlags;
    var rest := b[|CipherList(ciphers)|..];
    assert b == CipherList(ciphers) + rest;
    Joined(BigEndian(|ciphers|, 2), Ids(ciphers), rest);
    GetsU16(b, |ciphers|, Ids(ciphers) + rest);
    GetsIds(Ids(ciphers) + rest, ciphers, rest);
    GetsFlags(rest, ct, id);
  }

  lemma TailShown(b: Bytes, blank: ClientHello)
    requires ReadClientTail(b, blank).Got?
    ensures var m := ReadClientTail(b, blank).value;
            && |m.ciphers| < 0x1_0000 && CipherList(m.ciphers) <= b
            && ShowsFlags(b[|CipherList(m.ciphers)|..], m.staticCt, m.pskIdentity)
            && m == blank.(ciphers := m.ciphers, staticCt := m.staticCt, pskIdentity := m.pskIdentity)
  {
    hide BigEndian, ReadU16, ReadIds, Ids, ReadCt, ReadIdentity, ShowsFlags;
    var m := ReadClientTail(b, blank).value;
    var b1 := ReadU16(b).rest;
    IdsCount(b1, ReadU16(b).value);
    var rest := ReadIds(b1, ReadU16(b).value).rest;
    GetsU16(b, |m.ciphers|, b1);
    GetsIds(b1, m.ciphers, rest);
    Joined(BigEndian(|m.ciphers|, 2), Ids(m.ciphers), rest);
    GetsFlags(rest, m.staticCt, m.pskIdentity);
    assert b[|CipherList(m.ciphers)|..] == rest;
  }

  lemma ShareAccepted(b: Bytes, blank: ClientHello, suite: uint16, suites: seq<uint16>, key: Bytes)
    requires |suites| < 0x100 && |key| < 0x1_0000 && Share(suite, suites, key) <= b
    ensures ReadClient(b, blank)
            == ReadClientTail(b[|Share(suite, suites, key)|..],
                              blank.(kemSuite := suite, kemSuites := suites, publicKey := key))
  {
    hide BigEndian, ReadIds, Ids, Prefixed, ReadPrefixed, ReadClient, ReadClientTail;
    var tail := b[|Share(suite, suites, key)|..];
    assert b == Share(suite, suites, key) + tail;
    ReadsIds(suites, Prefixed(key) + tail);
    ReadsPrefixed(key, tail);
    ReadsClient(suite, |suites|, Ids(suites), suites, Prefixed(key) + tail, key, tail, blank);
    assert b == BigEndian(suite, 2) + ([|suites|] + (Ids(suites) + (Prefixed(key) + tail)));
  }

  lemma ShareShown(b: Bytes, blank: ClientHello)
    requires ReadClient(b, blank).Got?
    ensures var m := ReadClient(b, blank).value;
            && |m.kemSuites| < 0x100 && |m.publicKey| < 0x1_0000 && Share(m.kemSuite, m.kemSuites, m.publicKey) <= b
            && m.major == blank.major && m.minor == blank.minor && m.random == blank.random
            && m.sessionId == blank.sessionId
  {
    hide BigEndian, ReadU16, ReadIds, Ids, Prefixed, ReadPrefixed, ReadCt, ReadIdentity;
    var m := ReadClient(b, blank).value;
    var b1 := ReadU16(b).rest;
    var b2 := ReadIds(b1[1..], b1[0]).rest;
    var b3 := ReadPrefixed(b2).rest;
    IdsCount(b1[1..], b1[0]);
    GetsU16(b, m.kemSuite, b1);
    GetsIds(b1[1..], m.kemSuites, b2);
    GetsPrefixed(b2, m.publicKey, b3);
    assert b1 == [b1[0]] + b1[1..];
    assert b == Share(m.kemSuite, m.kemSuites, m.publicKey) + b3;
  }

  lemma PrologueShown(b: Bytes)
    requires |b| >= 35 && 35 + b[34] <= |b|
    ensures b == Prologue(b[0], b[1], b[2..34], b[35..35 + b[34]]) + b[35 + b[34]..]
  {
    assert [b[0], b[1]] + b[2..34] + [b[34]] + b[35..35 + b[34]] == b[..35 + b[34]];
  }

  /** A complete packet of the given kind whose payload starts with `start`. */
  predicate Starts(data: Bytes, kind: uint8, start: Bytes)
  {
    && |data| >= 5 && data[0] == kind
    && Value(data[1..5]) <= |data| - 5 && start <= data[5..5 + Value(data[1..5])]
  }

  function PayloadAfter(data: Bytes, start: nat): Bytes
    requires |data| >= 5 && start <= Value(data[1..5]) <= |data| - 5
  {
    data[5 + start..5 + Value(data[1..5])]
  }

  lemma ClientAccepted(data: Bytes, capacity: nat, m: ClientHello)
    requires |data| <= capacity && ValidClient(m) && FitsClient(m)
    requires Starts(data, 1, Core(m)) && ShowsFlags(PayloadAfter(data, |Core(m)|), m.staticCt, m.pskIdentity)
    ensures DecodedClient(data, capacity) == Message(m)
  {
    hide BigEndian, Value, ReadClient, ShowsFlags, Prologue, CipherList, Share, ReadClientTail;
    var b := data[5..5 + Value(data[1..5])];
    var share := Share(m.kemSuite, m.kemSuites, m.publicKey);
    var flags := PayloadAfter(data, |Core(m)|);
    assert b == Core(m) + flags;
    var rest := share + CipherList(m.ciphers) + flags;
    assert b == Prologue(m.major, m.minor, m.random, m.sessionId) + rest;
    PrologueReads(m.major, m.minor, m.random, m.sessionId, rest);
    CoreSize(m);
    var blank := ClientHello(m.major, m.minor, m.random, m.sessionId, 0, [], [], [], [], []);
    ShareAccepted(rest, blank, m.kemSuite, m.kemSuites, m.publicKey);
    assert rest[|share|..] == CipherList(m.ciphers) + flags;
    TailAccepted(CipherList(m.ciphers) + flags, blank.(kemSuite := m.kemSuite, kemSuites := m.kemSuites,
                                                       publicKey := m.publicKey),
                 m.ciphers, m.staticCt, m.pskIdentity);
  }

  lemma CoreSize(m: ClientHello)
    requires ValidClient(m)
    ensures |Core(m)| >= MIN_CLIENT
  {
    hide BigEndian, Ids;
  }

  lemma ClientShown(data: Bytes, capacity: nat)
    requires |data| <= capacity && DecodedClient(data, capacity).Message?
    ensures var m := DecodedClient(data, capacity).m;
            && ValidClient(m) && FitsClient(m) && Starts(data, 1, Core(m))
            && ShowsFlags(PayloadAfter(data, |Core(m)|), m.staticCt, m.pskIdentity)
  {
    hide BigEndian, Value, ShowsFlags, Prologue, CipherList, Share, ReadClient, ReadClientTail, Core;
    hide FitsClient, ValidClient;
    DecodedFits(data, capacity);
    var m := DecodedClient(data, capacity).m;
    var b := PayloadOf(data, CLIENT_HELLO, MIN_CLIENT).value;
    var blank := ClientHello(b[0], b[1], b[2..34], b[35..35 + b[34]], 0, [], [], [], [], []);
    var rest := b[35 + b[34]..];
    var share := Share(m.kemSuite, m.kemSuites, m.publicKey);
    PrologueShown(b);
    ShareShown(rest, blank);
    ShareAccepted(rest, blank, m.kemSuite, m.kemSuites, m.publicKey);
    TailShown(rest[|share|..], blank.(kemSuite := m.kemSuite, kemSuites := m.kemSuites, publicKey := m.publicKey));
    CoreShown(m, b, rest);
    assert PayloadAfter(data, |Core(m)|) == b[|Core(m)|..];
  }

  lemma CoreShown(m: ClientHello, b: Bytes, rest: Bytes)
    requires b == Prologue(m.major, m.minor, m.random, m.sessionId) + rest
    requires Share(m.kemSuite, m.kemSuites, m.publicKey) <= rest
    requires CipherList(m.ciphers) <= rest[|Share(m.kemSuite, m.kemSuites, m.publicKey)|..]
    ensures Core(m) <= b
    ensures b[|Core(m)|..] == rest[|Share(m.kemSuite, m.kemSuites, m.publicKey)|..][|CipherList(m.ciphers)|..]
  {
    hide Prologue, Share, CipherList;
    var share := Share(m.kemSuite, m.kemSuites, m.publicKey);
    var flags := rest[|share|..][|CipherList(m.ciphers)|..];
    assert rest == share + (CipherList(m.ciphers) + flags);
    assert b == Core(m) + flags;
  }

  /** The language of the ClientHello decoder: a buffer decodes to m exactly when m
      is valid, its payload starts with the encodings of m's fields in their order,
      and what follows shows the optional fields, cut off or not. */
  lemma ClientDecodesExactly(data: Bytes, capacity: nat, m: ClientHello)
    requires |data| <= capacity
    ensures DecodedClient(data, capacity) == Message(m) <==>
            && m.major == 6 && |m.random| == 32 && |m.sessionId| <= 255 && |m.kemSuites| < 0x100
            && 0 < |m.publicKey| < 0x1_0000 && |m.staticCt| < 0x1_0000 && |m.pskIdentity| <= 255
            && 0 < |m.ciphers| < 0x1_0000 && (forall k :: 0 <= k < |m.ciphers| ==> m.ciphers[k] in {1, 2})
            && Starts(data, 1, Core(m))
            && ShowsFlags(PayloadAfter(data, |Core(m)|), m.staticCt, m.pskIdentity)
  {
    hide DecodedClient, Core, ShowsFlags;
    if DecodedClient(data, capacity) == Message(m) {
      ClientShown(data, capacity);
    } else if ValidClient(m) && FitsClient(m) && Starts(data, 1, Core(m))
              && ShowsFlags(PayloadAfter(data, |Core(m)|), m.staticCt, m.pskIdentity) {
      ClientAccepted(data, capacity, m);
    }
  }

  lemma ServerAccepted(data: Bytes, capacity: nat, m: ServerHello)
    requires |data| <= capacity && ValidServer(m) && FitsServer(m) && Starts(data, 2, ServerPayload(m))
    ensures DecodedServer(data, capacity) == Message(m)
  {
    hide BigEndian, Value, ReadServer, Prologue, Prefixed;
    var b := data[5..5 + Value(data[1..5])];
    var extra := b[|ServerPayload(m)|..];
    var rest := BigEndian(m.kemSuite, 2) + (Prefixed(m.ciphertext) + (BigEndian(m.cipher, 2) + extra));
    assert b == ServerPayload(m) + extra == Prologue(m.major, m.minor, m.random, m.sessionId) + rest;
    PrologueReads(m.major, m.minor, m.random, m.sessionId, rest);
    ServerSize(m);
    ServerRead(rest, ServerHello(m.major, m.minor, m.random, m.sessionId, 0, [], 0), m.kemSuite, m.ciphertext, m.cipher,
               extra);
  }

  lemma ServerSize(m: ServerHello)
    requires ValidServer(m)
    ensures |ServerPayload(m)| >= MIN_SERVER
  {
    hide BigEndian;
  }

  lemma ServerRead(b: Bytes, blank: ServerHello, suite: uint16, ct: Bytes, cipher: uint16, rest: Bytes)
    ensures ReadServer(b, blank) == Got(blank.(kemSuite := suite, ciphertext := ct, cipher := cipher), rest) <==>
            |ct| < 0x1_0000 && b == BigEndian(suite, 2) + (Prefixed(ct) + (BigEndian(cipher, 2) + rest))
  {
    hide BigEndian, ReadU16, Prefixed, ReadPrefixed;
    if ReadServer(b, blank).Got? {
      var b1 := ReadU16(b).rest;
      var b2 := ReadPrefixed(b1).rest;
      GetsU16(b, suite, b1);
      GetsPrefixed(b1, ct, b2);
      GetsU16(b2, cipher, rest);
    }
    if |ct| < 0x1_0000 && b == BigEndian(suite, 2) + (Prefixed(ct) + (BigEndian(cipher, 2) + rest)) {
      GetsU16(b, suite, Prefixed(ct) + (BigEndian(cipher, 2) + rest));
      GetsPrefixed(Prefixed(ct) + (BigEndian(cipher, 2) + rest), ct, BigEndian(cipher, 2) + rest);
      GetsU16(BigEndian(cipher, 2) + rest, cipher, rest);
    }
  }

  /** The language of the ServerHello decoder: the encodings of valid messages that
      fit, with anything after them. */
  lemma ServerDecodesExactly(data: Bytes, capacity: nat, m: ServerHello)
    requires |data| <= capacity
    ensures DecodedServer(data, capacity) == Message(m) <==>
            && m.major == 6 && |m.random| == 32 && |m.sessionId| <= 255
            && 0 < |m.ciphertext| < 0x1_0000 && m.cipher in {1, 2}
            && Starts(data, 2, ServerPayload(m))
  {
    hide BigEndian, Value, ReadServer, Prologue, Prefixed;
    if DecodedServer(data, capacity) == Message(m) {
      var b := PayloadOf(data, SERVER_HELLO, MIN_SERVER).value;
      var blank := ServerHello(b[0], b[1], b[2..34], b[35..35 + b[34]], 0, [], 0);
      var rest := b[35 + b[34]..];
      var extra := ReadServer(rest, blank).rest;
      PrologueShown(b);
      ServerKeeps(rest, blank);
      ServerRead(rest, blank, m.kemSuite, m.ciphertext, m.cipher, extra);
      assert b == Prologue(m.major, m.minor, m.random, m.sessionId) + rest == ServerPayload(m) + extra;
    } else if ValidServer(m) && FitsServer(m) && Starts(data, 2, ServerPayload(m)) {
      ServerAccepted(data, capacity, m);
    }
  }

  lemma ServerKeeps(b: Bytes, blank: ServerHello)
    requires ReadServer(b, blank).Got?
    ensures var m := ReadServer(b, blank).value;
            m == blank.(kemSuite := m.kemSuite, ciphertext := m.ciphertext, cipher := m.cipher)
  {}

  // ---- encoders ----

  method PutIds(buf: array<uint8>, off: nat, ids: seq<uint16>)
    requires off + 2 * |ids| <= buf.Length
    modifies buf
    ensures buf[..off + 2 * |ids|] == old(buf[..off]) + Ids(ids)
  {
    var at := off;
    assert ids[0..] == ids;
    for k := 0 to |ids|
      invariant at == off + 2 * k
      invariant buf[..at] + Ids(ids[k..]) == old(buf[..off]) + Ids(ids)
    {
      assert Ids(ids[k..]) == BigEndian(ids[k], 2) + Ids(ids[k + 1..]) by { assert ids[k..][1..] == ids[k + 1..]; }
      PutUint(buf, at, ids[k], 2);
      at := at + 2;
    }
    assert ids[|ids|..] == [];
    assert buf[..at] + [] == buf[..at];
  }

  method PutPrefixed(buf: array<uint8>, off: nat, b: Bytes) returns (next: nat)
    requires off + 2 + |b| <= buf.Length
    modifies buf
    ensures next == off + 2 + |b| && buf[..next] == old(buf[..off]) + Prefixed(b)
  {
    PutUint(buf, off, |b| % 0x1_0000, 2);
    PutBytes(buf, off + 2, b);
    next := off + 2 + |b|;
    Joined(old(buf[..off]), BigEndian(|b| % 0x1_0000, 2), b);
  }

  /** Type, length, version, random and session id. */
  method PutStart(buf: array<uint8>, kind: uint8, payload: nat, major: uint8, minor: uint8, random: Bytes, sessionId: Bytes)
    returns (off: nat)
    requires |random| == 32 && buf.Length >= HEADER_SIZE + 35 + |sessionId|
    modifies buf
    ensures off == HEADER_SIZE + 35 + |sessionId|
    ensures buf[..off] == [kind] + BigEndian(payload % 0x1_0000_0000, 4) + Prologue(major, minor, random, sessionId)
  {
    PutByte(buf, 0, kind);
    PutUint(buf, 1, payload % 0x1_0000_0000, 4);
    ghost var head := buf[..5];
    PutByte(buf, 5, major);
    PutByte(buf, 6, minor);
    PutBytes(buf, 7, random);
    PutByte(buf, 39, |sessionId| % 0x100);
    PutBytes(buf, 40, sessionId);
    assert buf[..40 + |sessionId|] == head + Prologue(major, minor, random, sessionId);
    return 40 + |sessionId|;
  }

  function Share(suite: uint16, suites: seq<uint16>, key: Bytes): Bytes
  {
    BigEndian(suite, 2) + ([|suites| % 0x100] + (Ids(suites) + Prefixed(key)))
  }

  /** The key share: its suite, the supported suites, the public key. */
  method PutShare(buf: array<uint8>, start: nat, suite: uint16, suites: seq<uint16>, key: Bytes) returns (off: nat)
    requires start + 3 + 2 * |suites| + 2 + |key| <= buf.Length
    modifies buf
    ensures off == start + 3 + 2 * |suites| + 2 + |key| && buf[..off] == old(buf[..start]) + Share(suite, suites, key)
  {
    hide BigEndian, Ids;
    ghost var p := buf[..start];
    PutUint(buf, start, suite, 2);
    PutByte(buf, start + 2, |suites| % 0x100);
    PutIds(buf, start + 3, suites);
    off := PutPrefixed(buf, start + 3 + 2 * |suites|, key);
    Joined4(p, BigEndian(suite, 2), [|suites| % 0x100], Ids(suites), Prefixed(key));
  }

  method PutCt(buf: array<uint8>, start: nat, ct: Bytes) returns (off: nat)
    requires start + |OptionalCt(ct)| <= buf.Length
    modifies buf
    ensures off == start + |OptionalCt(ct)| && buf[..off] == old(buf[..start]) + OptionalCt(ct)
  {
    ghost var p := buf[..start];
    if |ct| > 0 {
      PutByte(buf, start, 1);
      off := PutPrefixed(buf, start + 1, ct);
      Joined(p, [1], Prefixed(ct));
    } else {
      PutByte(buf, start, 0);
      off := start + 1;
    }
  }

  method PutIdentity(buf: array<uint8>, start: nat, id: Bytes) returns (off: nat)
    requires start + |OptionalIdentity(id)| <= buf.Length
    modifies buf
    ensures off == start + |OptionalIdentity(id)| && buf[..off] == old(buf[..start]) + OptionalIdentity(id)
  {
    ghost var p := buf[..start];
    if |id| > 0 {
      PutByte(buf, start, 1);
      PutByte(buf, start + 1, |id| % 0x100);
      PutBytes(buf, start + 2, id);
      off := start + 2 + |id|;
      Joined3(p, [1], [|id| % 0x100], id);
      assert [1] + ([|id| % 0x100] + id) == OptionalIdentity(id);
    } else {
      PutByte(buf, start, 0);
      off := start + 1;
    }
  }

  method PutSuffix(buf: array<uint8>, start: nat, m: ClientHello) returns (off: nat)
    requires start + |Suffix(m)| <= buf.Length
    modifies buf
    ensures off == start + |Suffix(m)| && buf[..off] == old(buf[..start]) + Suffix(m)
  {
    hide BigEndian, Ids, OptionalCt, OptionalIdentity;
    ghost var p := buf[..start];
    PutUint(buf, start, |m.ciphers| % 0x1_0000, 2);
    PutIds(buf, start + 2, m.ciphers);
    off := PutCt(buf, start + 2 + 2 * |m.ciphers|, m.staticCt);
    off := PutIdentity(buf, off, m.pskIdentity);
    Joined4(p, BigEndian(|m.ciphers| % 0x1_0000, 2), Ids(m.ciphers), OptionalCt(m.staticCt),
            OptionalIdentity(m.pskIdentity));
  }

  lemma ClientLayout(m: ClientHello)
    ensures ClientPayload(m) == Prologue(m.major, m.minor, m.random, m.sessionId)
                                + (Share(m.kemSuite, m.kemSuites, m.publicKey) + Suffix(m))
  {
    Joined3(BigEndian(m.kemSuite, 2), [|m.kemSuites| % 0x100], Ids(m.kemSuites), Prefixed(m.publicKey) + Suffix(m));
    assert Share(m.kemSuite, m.kemSuites, m.publicKey) + Suffix(m)
        == BigEndian(m.kemSuite, 2) + ([|m.kemSuites| % 0x100] + (Ids(m.kemSuites) + (Prefixed(m.publicKey) + Suffix(m))));
  }

  method EncodeClientHello(m: ClientHello) returns (r: Option<Bytes>)
    ensures r == EncodedClient(m)
  {
    if !ValidClient(m) {
      return None;
    }
    var payload := 2 + 32 + 1 + |m.sessionId| + 2 + 1 + 2 * |m.kemSuites| + 2 + |m.publicKey| + 2 + 2 * |m.ciphers|
      + 1 + (if |m.staticCt| == 0 then 0 else 2 + |m.staticCt|)
      + 1 + (if |m.pskIdentity| == 0 then 0 else 1 + |m.pskIdentity|);
    ClientLayout(m);
    assert payload == |ClientPayload(m)|;
    var buf := new uint8[HEADER_SIZE + payload];
    var off := PutStart(buf, CLIENT_HELLO, payload, m.major, m.minor, m.random, m.sessionId);
    off := PutShare(buf, off, m.kemSuite, m.kemSuites, m.publicKey);
    off := PutSuffix(buf, off, m);
    assert buf[..] == buf[..off];
    Joined3([CLIENT_HELLO] + BigEndian(payload % 0x1_0000_0000, 4), Prologue(m.major, m.minor, m.random, m.sessionId),
            Share(m.kemSuite, m.kemSuites, m.publicKey), Suffix(m));
    return Some(buf[..]);
  }

  method EncodeServerHello(m: ServerHello) returns (r: Option<Bytes>)
    ensures r == EncodedServer(m)
  {
    if !ValidServer(m) {
      return None;
    }
    var payload := 2 + 32 + 1 + |m.sessionId| + 2 + 2 + |m.ciphertext| + 2;
    assert payload == |ServerPayload(m)|;
    var buf := new uint8[HEADER_SIZE + payload];
    var off := PutStart(buf, SERVER_HELLO, payload, m.major, m.minor, m.random, m.sessionId);
    PutUint(buf, off, m.kemSuite, 2);
    off := PutPrefixed(buf, off + 2, m.ciphertext);
    PutUint(buf, off, m.cipher, 2);
    assert buf[..] == buf[..off + 2];
    Joined4([SERVER_HELLO] + BigEndian(payload % 0x1_0000_0000, 4), Prologue(m.major, m.minor, m.random, m.sessionId),
            BigEndian(m.kemSuite, 2), Prefixed(m.ciphertext), BigEndian(m.cipher, 2));
    return Some(buf[..]);
  }

  // ---- decoders ----

  method ReadLenPrefixed(data: Bytes, start: nat, end: nat) returns (r: Option<Bytes>, off: nat)
    requires start <= end <= |data|
    ensures start <= off <= end
    ensures match ReadPrefixed(data[start..end])
            case Short => r.None?
            case Got(value, rest) => r == Some(value) && rest == data[off..end]
  {
    off := start;
    if off + 2 > end {
      return None, start;
    }
    var b := data[start..end];
    assert b[..2] == data[off..off + 2] && b[2..] == data[off + 2..end];
    var n := ReadU16(data[off..off + 2]).value;
    assert data[off..off + 2][..2] == data[off..off + 2];
    off := off + 2;
    if off + n > end {
      return None, start;
    }
    assert data[off..end][..n] == data[off..off + n] && data[off..end][n..] == data[off + n..end];
    return Some(data[off..off + n]), off + n;
  }

  method ReadIdList(data: Bytes, start: nat, end: nat, count: nat) returns (r: Option<seq<uint16>>, off: nat)
    requires start <= end <= |data|
    ensures start <= off <= end
    ensures match ReadIds(data[start..end], count)
            case Short => r.None?
            case Got(value, rest) => r == Some(value) && rest == data[off..end]
  {
    hide ReadIds, ReadU16;
    off := start;
    if off + 2 * count > end {
      IdsShort(data[start..end], count);
      return None, start;
    }
    var ids: seq<uint16> := [];
    IdsLong(data[start..end], count);
    assert [] + ReadIds(data[start..end], count).value == ReadIds(data[start..end], count).value;
    for k := 0 to count
      invariant |ids| == k && off == start + 2 * k
      invariant ReadIds(data[off..end], count - k).Got?
      invariant ReadIds(data[start..end], count)
        == Got(ids + ReadIds(data[off..end], count - k).value, ReadIds(data[off..end], count - k).rest)
    {
      NextId(data, off, end, count - k);
      var id := ReadU16(data[off..off + 2]).value;
      Joined(ids, [id], ReadIds(data[off + 2..end], count - k - 1).value);
      ids := ids + [id];
      off := off + 2;
    }
    NoIds(data[off..end]);
    assert ids + [] == ids;
    return Some(ids), off;
  }

  lemma NoIds(b: Bytes)
    ensures ReadIds(b, 0) == Got([], b)
  {}

  /** The id at `off` is the first of those left. */
  lemma NextId(data: Bytes, off: nat, end: nat, n: nat)
    requires off + 2 <= end <= |data| && n > 0 && ReadIds(data[off..end], n).Got?
    ensures ReadU16(data[off..off + 2]).Got? && ReadIds(data[off + 2..end], n - 1).Got?
    ensures var rest := ReadIds(data[off + 2..end], n - 1);
            ReadIds(data[off..end], n) == Got([ReadU16(data[off..off + 2]).value] + rest.value, rest.rest)
  {
    var b := data[off..end];
    assert b[2..] == data[off + 2..end] && b[..2] == data[off..off + 2] == data[off..off + 2][..2];
  }

  lemma {:induction false} IdsShort(b: Bytes, n: nat)
    requires |b| < 2 * n
    ensures ReadIds(b, n).Short?
    decreases n
  {
    if n > 0 && |b| >= 2 { IdsShort(b[2..], n - 1); }
  }

  lemma {:induction false} IdsLong(b: Bytes, n: nat)
    requires |b| >= 2 * n
    ensures ReadIds(b, n).Got?
    decreases n
  {
    if n > 0 { IdsLong(b[2..], n - 1); }
  }

  method ReadU16At(data: Bytes, off: nat, end: nat) returns (v: uint16)
    requires off + 2 <= end <= |data|
    ensures ReadU16(data[off..end]) == Got(v, data[off + 2..end])
  {
    assert data[off..end][..2] == data[off..off + 2] == data[off..off + 2][..2];
    assert data[off..end][2..] == data[off + 2..end];
    v := ReadU16(data[off..off + 2]).value;
  }

  /** The static ciphertext, if a byte is left for its flag. */
  method ReadStaticCt(data: Bytes, start: nat, end: nat) returns (r: Option<Bytes>, off: nat)
    requires start <= end <= |data|
    ensures start <= off <= end
    ensures match ReadCt(data[start..end])
            case Short => r.None?
            case Got(value, rest) => r == Some(value) && rest == data[off..end]
  {
    r, off := Some([]), start;
    if off < end {
      assert data[start..end][1..] == data[start + 1..end];
      var present := data[off];
      off := off + 1;
      if present == 1 {
        r, off := ReadLenPrefixed(data, off, end);
      }
    }
  }

  method ReadPskIdentity(data: Bytes, start: nat, end: nat) returns (r: Option<Bytes>)
    requires start <= end <= |data|
    ensures match ReadIdentity(data[start..end])
            case Short => r.None?
            case Got(value, _) => r == Some(value)
  {
    var off := start;
    if off >= end || data[off] != 1 {
      return Some([]);
    }
    off := off + 1;
    if off + 1 > end {
      return None;
    }
    var n: nat := data[off];
    off := off + 1;
    assert data[start..end][1] == n && data[start..end][2..] == data[off..end];
    if n == 0 || off + n > end {
      return None;
    }
    assert data[off..end][..n] == data[off..off + n];
    return Some(data[off..off + n]);
  }

  method DecodeClientTail(data: Bytes, start: nat, end: nat, m: ClientHello) returns (r: Option<ClientHello>)
    requires start <= end <= |data|
    ensures match ReadClientTail(data[start..end], m)
            case Short => r.None?
            case Got(hello, _) => r == Some(hello)
  {
    if start + 2 > end {
      return None;
    }
    var count := ReadU16At(data, start, end);
    var ciphers, off := ReadIdList(data, start + 2, end, count);
    if ciphers.None? {
      return None;
    }
    var ct;
    ct, off := ReadStaticCt(data, off, end);
    if ct.None? {
      return None;
    }
    var id := ReadPskIdentity(data, off, end);
    if id.None? {
      return None;
    }
    return Some(m.(ciphers := ciphers.value, staticCt := ct.value, pskIdentity := id.value));
  }

  method DecodeClientBody(data: Bytes, start: nat, end: nat, m: ClientHello) returns (r: Option<ClientHello>)
    requires start <= end <= |data|
    ensures match ReadClient(data[start..end], m)
            case Short => r.None?
            case Got(hello, _) => r == Some(hello)
  {
    var off := start;
    if off + 3 > end {
      return None;
    }
    var suite := ReadU16At(data, off, end);
    off := off + 2;
    var count := data[off];
    off := off + 1;
    assert data[start + 2..end][1..] == data[off..end] && data[start + 2..end][0] == count;
    var suites;
    suites, off := ReadIdList(data, off, end, count);
    if suites.None? {
      return None;
    }
    var pk;
    pk, off := ReadLenPrefixed(data, off, end);
    if pk.None? {
      return None;
    }
    r := DecodeClientTail(data, off, end, m.(kemSuite := suite, kemSuites := suites.value, publicKey := pk.value));
  }

  /** The checks both decoders start with; `end` is where the payload ends. */
  method PayloadEnd(data: Bytes, kind: uint8, min: nat) returns (end: Option<nat>)
    ensures match PayloadOf(data, kind, min)
            case None => end.None?
            case Some(b) => end.Some? && HEADER_SIZE + min <= end.value <= |data| && b == data[HEADER_SIZE..end.value]
  {
    if |data| < HEADER_SIZE || data[0] != kind {
      return None;
    }
    var length := Value(data[1..5]);
    if |data| < HEADER_SIZE + length || length < min {
      return None;
    }
    return Some(HEADER_SIZE + length);
  }

  lemma PrologueAt(data: Bytes, end: nat, n: nat)
    requires HEADER_SIZE + 35 <= end <= |data|
    ensures var b := data[HEADER_SIZE..end];
            && b[0] == data[5] && b[1] == data[6] && b[34] == data[39] && b[2..34] == data[7..39]
            && (40 + n <= end ==> b[35..35 + n] == data[40..40 + n] && b[35 + n..] == data[40 + n..end])
  {
    SliceOfSlice(data, 5, end, 2, 34);
    if 40 + n <= end {
      SliceOfSlice(data, 5, end, 35, 35 + n);
      SliceOfSlice(data, 5, end, 35 + n, end - 5);
    }
  }

  method DecodeClientHello(data: Bytes, capacity: nat) returns (r: Decoded<ClientHello>)
    requires |data| <= capacity
    ensures r == DecodedClient(data, capacity)
  {
    hide PayloadOf, ReadClient, ValidClient;
    var end := PayloadEnd(data, CLIENT_HELLO, MIN_CLIENT);
    if end.None? {
      return Invalid;
    }
    var off := HEADER_SIZE;
    var major, minor := data[off], data[off + 1];
    off := off + 2;
    var random := data[off..off + 32];
    off := off + 32;
    var n: nat := data[off];
    off := off + 1;
    PrologueAt(data, end.value, n);
    if off + n > capacity {
      return Fault;
    }
    off := off + n;
    if off > end.value {
      return Invalid;
    }
    var sessionId := data[off - n..off];
    var blank := ClientHello(major, minor, random, sessionId, 0, [], [], [], [], []);
    var hello := DecodeClientBody(data, off, end.value, blank);
    if hello.None? || !ValidClient(hello.value) {
      return Invalid;
    }
    return Message(hello.value);
  }

  method DecodeServerBody(data: Bytes, start: nat, end: nat, m: ServerHello) returns (r: Option<ServerHello>)
    requires start <= end <= |data|
    ensures match ReadServer(data[start..end], m)
            case Short => r.None?
            case Got(hello, _) => r == Some(hello)
  {
    if start + 2 > end {
      return None;
    }
    var suite := ReadU16At(data, start, end);
    var ct, off := ReadLenPrefixed(data, start + 2, end);
    if ct.None? || off + 2 > end {
      return None;
    }
    var cipher := ReadU16At(data, off, end);
    return Some(m.(kemSuite := suite, ciphertext := ct.value, cipher := cipher));
  }

  method DecodeServerHello(data: Bytes, capacity: nat) returns (r: Decoded<ServerHello>)
    requires |data| <= capacity
    ensures r == DecodedServer(data, capacity)
  {
    hide PayloadOf, ReadServer, ValidServer;
    var end := PayloadEnd(data, SERVER_HELLO, MIN_SERVER);
    if end.None? {
      return Invalid;
    }
    var off := HEADER_SIZE;
    var major, minor := data[off], data[off + 1];
    off := off + 2;
    var random := data[off..off + 32];
    off := off + 32;
    var n: nat := data[off];
    off := off + 1;
    PrologueAt(data, end.value, n);
    if off + n > capacity {
      return Fault;
    }
    off := off + n;
    if off > end.value {
      return Invalid;
    }
    var sessionId := data[off - n..off];
    var hello := DecodeServerBody(data, off, end.value, ServerHello(major, minor, random, sessionId, 0, [], 0));
    if hello.None? || !ValidServer(hello.value) {
      return Invalid;
    }
    return Message(hello.value);
  }
}
