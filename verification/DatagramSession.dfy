/** Datagram key state of one session: the current and the retained previous
    epoch, sealing and opening of frames and of rekey control messages, and the
    advance to the next epoch. Each method of the class is proved equal to a
    function on session values; the protocol modules reason about those values. */
module DatagramSession {
  import opened Words
  import opened Symbolic

  const PREV_EPOCH_RETAIN_SECONDS: nat := 30

  /** What is authenticated beside a ciphertext: the frame header of a DATA or
      CLOSE frame, or type, epoch and nonce sequence of a control message. */
  datatype Aad =
    | Header(close: bool, epoch: uint8, recvIndex: nat, n: uint64)
    | Control(response: bool, epoch: uint8, n: uint64)

  datatype Plain =
    | Payload(bytes: seq<uint8>)
    | PublicKey(pk: nat)
    | Ciphertext(ct: Encapsulation)

  type Box = Sealed<Aad, Plain>

  datatype Epoch = Epoch(epoch: uint8, sendKey: Key, recvKey: Key, startSeq: uint64, retireAfter: int)

  datatype State = State(
    role: Role,
    master: Secret,
    prefix: Secret,
    sendSeq: uint64,
    cur: Epoch,
    prev: Option<Epoch>)

  /** A control message body: its nonce sequence and the sealed payload. */
  datatype ControlBody = ControlBody(n: uint64, box: Box)

  function EpochOf(role: Role, epoch: uint8, secret: Secret, startSeq: uint64): Epoch
  {
    Epoch(epoch, TrafficKey(secret, role), TrafficKey(secret, Peer(role)), startSeq, 0)
  }

  function Established(role: Role, secret: Secret): State
  {
    State(role, secret, secret, 0, EpochOf(role, 0, secret, 0), None)
  }

  /** Unsigned 64-bit subtraction. */
  function Minus(a: uint64, b: uint64): (r: uint64)
    ensures r == if a >= b then a - b else TWO_64 - (b - a)
  {
    (a - b + TWO_64) % TWO_64
  }

  function Drawn(s: State): State
  {
    s.(sendSeq := (s.sendSeq + 1) % TWO_64)
  }

  /** The epoch byte of the e-th epoch: it counts up and wraps. */
  function Wire(e: nat): uint8
  {
    if e == 0 then 0 else (Wire(e - 1) + 1) % 256
  }

  lemma {:induction false} WireIsModulo(e: nat)
    ensures Wire(e) == e % 256
  {
    if e > 0 {
      WireIsModulo(e - 1);
      var q, r := (e - 1) / 256, (e - 1) % 256;
      if r < 255 { RemainderIs(e, 256, q, r + 1); } else { RemainderIs(e, 256, q + 1, 0); }
    }
  }

  function SendNonce(s: State, n: uint64): Nonce { Nonce(s.prefix, s.role, n) }
  function RecvNonce(s: State, n: uint64): Nonce { Nonce(s.prefix, Peer(s.role), n) }

  /** The budget check of a seal: refused when the epoch's key is worn out. */
  predicate WithinBudget(s: State, n: uint64)
  {
    Minus(n, s.cur.startSeq) < MAX_PACKETS_BEFORE_REKEY
  }

  function Seal(s: State, aad: Aad, n: uint64, plain: Plain): Option<Box>
  {
    if WithinBudget(s, n) then Some(Sealed(s.cur.sendKey, SendNonce(s, n), aad, plain)) else None
  }

  /** The receive key an epoch byte selects: current, or previous until retired. */
  function RecvKey(s: State, epoch: uint8, now: int): Option<Key>
  {
    if s.cur.epoch == epoch then Some(s.cur.recvKey)
    else if s.prev.Some? && s.prev.value.epoch == epoch && now < s.prev.value.retireAfter then Some(s.prev.value.recvKey)
    else None
  }

  function OpenFrame(s: State, epoch: uint8, n: uint64, box: Box, aad: Aad, now: int): Option<Plain>
  {
    var key := RecvKey(s, epoch, now);
    if key.None? then None else Open(key.value, RecvNonce(s, n), aad, box)
  }

  /** Rotation: the current epoch is demoted and retained, a new one built from
      the new secret takes over, one epoch byte further modulo 256. */
  function Advanced(s: State, secret: Secret, now: int): State
  {
    s.(prev := Some(s.cur.(retireAfter := now + PREV_EPOCH_RETAIN_SECONDS)),
       cur := EpochOf(s.role, (s.cur.epoch + 1) % 256, secret, s.sendSeq),
       master := secret)
  }

  // ---- rekey control messages ----

  /** Seals a control payload under the current epoch; draws a sequence number,
      and is not subject to the key budget. */
  function SealControl(s: State, response: bool, plain: Plain): (State, ControlBody)
  {
    var n := s.sendSeq;
    (Drawn(s), ControlBody(n, Sealed(s.cur.sendKey, SendNonce(s, n), Control(response, s.cur.epoch, n), plain)))
  }

  function OpenControl(s: State, response: bool, epoch: uint8, body: ControlBody, now: int): Option<Plain>
  {
    OpenFrame(s, epoch, body.n, body.box, Control(response, epoch, body.n), now)
  }

  /** The responder's answer to a rekey request: the response is sealed before
      the epoch advances. */
  function Respond(s: State, epoch: uint8, body: ControlBody, coins: nat, now: int): Option<(State, ControlBody)>
  {
    match OpenControl(s, false, epoch, body, now)
    case Some(PublicKey(pk)) =>
      var ct := Encapsulation(pk, coins);
      var (s1, reply) := SealControl(s, true, Ciphertext(ct));
      Some((Advanced(s1, Rekeyed(s1.master, Encapsulated(ct)), now), reply))
    case _ => None
  }

  /** The initiator's end of the exchange. */
  function Complete(s: State, epoch: uint8, body: ControlBody, keyPair: nat, now: int): Option<State>
  {
    match OpenControl(s, true, epoch, body, now)
    case Some(Ciphertext(ct)) => Some(Advanced(s, Rekeyed(s.master, Decapsulate(ct, keyPair)), now))
    case _ => None
  }

  // ---- the object ----

  class Session {
    const role: Role
    const prefix: Secret
    var masterSecret: Secret
    var sendSeq: uint64
    var cur: Epoch
    var prev: Option<Epoch>

    ghost function Value(): State
      reads this
    {
      State(role, masterSecret, prefix, sendSeq, cur, prev)
    }

    constructor (role: Role, secret: Secret)
      ensures Value() == Established(role, secret)
    {
      this.role := role;
      prefix := secret;
      masterSecret := secret;
      sendSeq := 0;
      cur := EpochOf(role, 0, secret, 0);
      prev := None;
    }

    method NextSeq() returns (n: uint64)
      modifies this
      ensures n == old(sendSeq) && Value() == Drawn(old(Value()))
    {
      n := sendSeq;
      sendSeq := (sendSeq + 1) % TWO_64;
    }

    method DatagramSeal(aad: Aad, n: uint64, plain: Plain) returns (r: Option<Box>)
      ensures r == Seal(Value(), aad, n, plain)
    {
      if Minus(n, cur.startSeq) >= MAX_PACKETS_BEFORE_REKEY {
        return None;
      }
      return Some(Sealed(cur.sendKey, Nonce(prefix, role, n), aad, plain));
    }

    /** The in-place variant: the caller's buffer is extended by what DatagramSeal
        returns, and by nothing when that refuses. */
    method DatagramSealTo(dst: seq<Box>, aad: Aad, n: uint64, plain: Plain) returns (ok: bool, r: seq<Box>)
      ensures ok == Seal(Value(), aad, n, plain).Some?
      ensures r == dst + if ok then [Seal(Value(), aad, n, plain).value] else []
    {
      if Minus(n, cur.startSeq) >= MAX_PACKETS_BEFORE_REKEY {
        return false, dst;
      }
      return true, dst + [Sealed(cur.sendKey, Nonce(prefix, role, n), aad, plain)];
    }

    method SelectRecvKey(epoch: uint8, now: int) returns (r: Option<Key>)
      ensures r == RecvKey(Value(), epoch, now)
    {
      if cur.epoch == epoch {
        return Some(cur.recvKey);
      }
      if prev.Some? && prev.value.epoch == epoch && now < prev.value.retireAfter {
        return Some(prev.value.recvKey);
      }
      return None;
    }

    method DatagramOpen(epoch: uint8, n: uint64, box: Box, aad: Aad, now: int) returns (r: Option<Plain>)
      ensures r == OpenFrame(Value(), epoch, n, box, aad, now)
    {
      var key := SelectRecvKey(epoch, now);
      if key.None? {
        return None;
      }
      r := Open(key.value, Nonce(prefix, Peer(role), n), aad, box);
    }

    /** The in-place variant of opening, likewise. */
    method DatagramOpenTo(dst: seq<Plain>, epoch: uint8, n: uint64, box: Box, aad: Aad, now: int)
      returns (ok: bool, r: seq<Plain>)
      ensures ok == OpenFrame(Value(), epoch, n, box, aad, now).Some?
      ensures r == dst + if ok then [OpenFrame(Value(), epoch, n, box, aad, now).value] else []
    {
      var key := SelectRecvKey(epoch, now);
      if key.None? {
        return false, dst;
      }
      var plain := Open(key.value, Nonce(prefix, Peer(role), n), aad, box);
      if plain.None? {
        return false, dst;
      }
      return true, dst + [plain.value];
    }

    method AdvanceDatagramEpoch(secret: Secret, now: int) returns (newEpoch: uint8)
      modifies this
      ensures Value() == Advanced(old(Value()), secret, now)
      ensures newEpoch == (old(cur.epoch) + 1) % 256 == cur.epoch
    {
      var demoted := cur.(retireAfter := now + PREV_EPOCH_RETAIN_SECONDS);
      newEpoch := (demoted.epoch + 1) % 256;
      prev := Some(demoted);
      cur := Epoch(newEpoch, TrafficKey(secret, role), TrafficKey(secret, Peer(role)), sendSeq, 0);
      masterSecret := secret;
    }

    method SealRekeyControl(response: bool, plain: Plain) returns (body: ControlBody, epoch: uint8)
      modifies this
      ensures (Value(), body) == SealControl(old(Value()), response, plain)
      ensures epoch == cur.epoch
    {
      var n := NextSeq();
      body := ControlBody(n, Sealed(cur.sendKey, Nonce(prefix, role, n), Control(response, cur.epoch, n), plain));
      epoch := cur.epoch;
    }

    /** Fails and changes nothing, or answers and advances. */
    method RespondToRekey(epoch: uint8, body: ControlBody, coins: nat, now: int) returns (r: Option<ControlBody>)
      modifies this
      ensures match Respond(old(Value()), epoch, body, coins, now)
              case None => r == None && Value() == old(Value())
              case Some((s, reply)) => r == Some(reply) && Value() == s
    {
      var plain := DatagramOpen(epoch, body.n, body.box, Control(false, epoch, body.n), now);
      if plain.None? || !plain.value.PublicKey? {
        return None;
      }
      var ct := Encapsulation(plain.value.pk, coins);
      var reply, _ := SealRekeyControl(true, Ciphertext(ct));
      var _ := AdvanceDatagramEpoch(Rekeyed(masterSecret, Encapsulated(ct)), now);
      return Some(reply);
    }

    method CompleteRekey(epoch: uint8, body: ControlBody, keyPair: nat, now: int) returns (ok: bool)
      modifies this
      ensures match Complete(old(Value()), epoch, body, keyPair, now)
              case None => !ok && Value() == old(Value())
              case Some(s) => ok && Value() == s
    {
      var plain := DatagramOpen(epoch, body.n, body.box, Control(true, epoch, body.n), now);
      if plain.None? || !plain.value.Ciphertext? {
        return false;
      }
      var _ := AdvanceDatagramEpoch(Rekeyed(masterSecret, Decapsulate(plain.value.ct, keyPair)), now);
      return true;
    }
  }
}
