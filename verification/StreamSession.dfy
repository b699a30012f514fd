/** Key state of one end of the stream transport: sealing, trial decryption and
    the methods of the rekey handshake the live transport calls. Each method of
    the class is proved equal to a function on session values. */
module StreamSession {
  import opened Words
  import opened Symbolic
  import opened ReplayWindow

  const STREAM_REPLAY_WINDOW_SIZE: nat := 1024

  datatype Body = PublicKey(pk: nat) | Ciphertext(ct: Encapsulation)

  datatype Plain = Data(bytes: seq<char>) | RekeyPayload(body: Body, activation: nat)

  /** A record on the wire: its message type, its sequence number and the sealed
      payload, which authenticates the number. */
  datatype Record = Record(rekey: bool, n: nat, box: Sealed<nat, Plain>)

  datatype State = State(
    role: Role,
    master: Secret,
    prefix: Secret,
    sendKey: Key,
    recvKey: Key,
    sendSeq: nat,
    epochStart: nat,
    window: Window,
    established: bool,       // false while a rekey is under way
    inProgress: bool,
    pendingKeyPair: Option<nat>,
    pendingSecret: Option<Secret>,
    pendingRecv: Option<Key>,
    pendingSend: Option<Key>)

  function Keyed(role: Role, secret: Secret): State
  {
    State(role, secret, secret, TrafficKey(secret, role), TrafficKey(secret, Peer(role)), 0, 0,
          Empty(STREAM_REPLAY_WINDOW_SIZE), true, false, None, None, None, None)
  }

  // ---- sealing: the number is drawn first, the key is read later ----

  function DrawNumber(s: State): State { s.(sendSeq := s.sendSeq + 1) }

  predicate Worn(s: State, n: nat)
  {
    n >= s.epochStart && n - s.epochStart >= MAX_PACKETS_BEFORE_REKEY
  }

  function SealRecord(s: State, n: nat, plain: Plain): Option<Record>
  {
    if Worn(s, n) then None
    else Some(Record(plain.RekeyPayload?, n, Sealed(s.sendKey, Nonce(s.prefix, s.role, n), n, plain)))
  }

  // ---- opening: current key, then the pending one ----

  function OpenWith(s: State, key: Key, rec: Record): Option<Plain>
  {
    Open(key, Nonce(s.prefix, Peer(s.role), rec.n), rec.n, rec.box)
  }

  function Promoted(s: State): State
  {
    if s.pendingRecv.None? then s else s.(recvKey := s.pendingRecv.value, pendingRecv := None)
  }

  function Decrypted(s: State, rec: Record): (State, Option<Plain>)
  {
    var (w, ok) := Checked(s.window, rec.n);
    if !ok then (s, None)
    else
      var s1 := s.(window := w);
      var plain := OpenWith(s, s.recvKey, rec);
      if plain.Some? then (s1, plain)
      else if s.pendingRecv.Some? && OpenWith(s, s.pendingRecv.value, rec).Some? then
        (Promoted(s1), OpenWith(s, s.pendingRecv.value, rec))
      else (s1, None)
  }

  /** The number is recorded before the payload is opened: a record whose number
      is fresh spends it whether or not it opens, and no later record with that
      number opens, whatever it carries. */
  lemma NumberSpent(s: State, accepted: set<nat>, rec: Record, later: Record)
    requires Represents(s.window, accepted) && Fresh(s.window.size, accepted, rec.n) && later.n == rec.n
    ensures var t := Decrypted(s, rec).0;
            Represents(t.window, accepted + {rec.n}) && Decrypted(t, later) == (t, None)
  {
    CheckRefines(s.window, accepted, rec.n);
    CheckRefines(Checked(s.window, rec.n).0, accepted + {rec.n}, rec.n);
  }

  // ---- the rekey handshake ----

  function InitiateRekey(s: State, keyPair: nat): Option<State>
  {
    if s.inProgress || !s.established then None
    else Some(s.(inProgress := true, pendingKeyPair := Some(keyPair), established := false))
  }

  /** The responder's half: both new ciphers become pending, neither is used. */
  function PrepareRekeyResponse(s: State, body: Body, coins: nat): Option<(State, Encapsulation)>
  {
    match body
    case Ciphertext(_) => None
    case PublicKey(pk) =>
      var ct := Encapsulation(pk, coins);
      var secret := Rekeyed(s.master, Encapsulated(ct));
      Some((s.(inProgress := true,
               pendingRecv := Some(TrafficKey(secret, Initiator)),
               pendingSend := Some(TrafficKey(secret, Responder)),
               pendingSecret := Some(secret),
               established := false), ct))
  }

  /** Adopts the pending master secret and ends the handshake. */
  function Finalized(s: State): State
  {
    s.(master := if s.pendingSecret.Some? then s.pendingSecret.value else s.master,
       pendingSecret := None, inProgress := false, established := true)
  }

  /** The initiator's half: its send key switches at once, its receive key waits
      for the first record that needs it. */
  function ProcessRekeyResponse(s: State, body: Body): Option<State>
  {
    if !s.inProgress || s.pendingKeyPair.None? || body.PublicKey? then None
    else
      var secret := Rekeyed(s.master, Decapsulate(body.ct, s.pendingKeyPair.value));
      Some(Finalized(s.(sendKey := TrafficKey(secret, Initiator),
                        epochStart := s.sendSeq,
                        pendingRecv := Some(TrafficKey(secret, Responder)),
                        pendingSecret := Some(secret),
                        pendingKeyPair := None)))
  }

  /** The responder's send switch, after its response has been written. */
  function ActivateRekeySend(s: State): State
  {
    Finalized(if s.pendingSend.None? then s
              else s.(sendKey := s.pendingSend.value, pendingSend := None, epochStart := s.sendSeq))
  }

  /** A rekey starts only on an established session with none under way, and a
      response is taken only by the side that started one. */
  lemma RekeyGuards(s: State, keyPair: nat, body: Body)
    ensures InitiateRekey(s, keyPair).Some? <==> s.established && !s.inProgress
    ensures InitiateRekey(s, keyPair).Some? ==> InitiateRekey(InitiateRekey(s, keyPair).value, keyPair + 1).None?
    ensures ProcessRekeyResponse(s, body).Some? <==> s.inProgress && s.pendingKeyPair.Some? && body.Ciphertext?
    ensures ProcessRekeyResponse(s, body).Some? ==>
            var t := ProcessRekeyResponse(s, body).value; t.established && !t.inProgress && t.pendingKeyPair.None?
  {}

  // ---- the object ----

  class Session {
    const role: Role
    const prefix: Secret
    const replayWindow: DatagramReplayWindow
    var masterSecret: Secret
    var sendCipher: Key
    var recvCipher: Key
    var sendSeq: uint64
    var sendEpochStartSeq: uint64
    var established: bool
    var rekeyInProgress: bool
    var pendingRekeyKeyPair: Option<nat>
    var pendingRekeySecret: Option<Secret>
    var pendingRecvCipher: Option<Key>
    var pendingSendCipher: Option<Key>

    ghost predicate Valid()
      reads this, replayWindow
    {
      replayWindow.Valid()
    }

    ghost function Value(): State
      requires Valid()
      reads this, replayWindow, replayWindow.bitmap
    {
      State(role, masterSecret, prefix, sendCipher, recvCipher, sendSeq, sendEpochStartSeq, replayWindow.Value(),
            established, rekeyInProgress, pendingRekeyKeyPair, pendingRekeySecret, pendingRecvCipher, pendingSendCipher)
    }

    /** Initial keys: traffic keys split by role, nonce prefix fixed for good. */
    constructor (role: Role, secret: Secret)
      ensures Valid() && fresh(replayWindow) && fresh(replayWindow.bitmap)
      ensures Value() == Keyed(role, secret)
    {
      this.role := role;
      prefix := secret;
      masterSecret := secret;
      sendCipher := TrafficKey(secret, role);
      recvCipher := TrafficKey(secret, Peer(role));
      sendSeq, sendEpochStartSeq := 0, 0;
      established, rekeyInProgress := true, false;
      pendingRekeyKeyPair, pendingRekeySecret := None, None;
      pendingRecvCipher, pendingSendCipher := None, None;
      replayWindow := new DatagramReplayWindow(1024);
      new;
      assert replayWindow.size == 1024;
    }

    /** Encrypt up to the point where the key is read. The counter wraps. */
    method DrawSeq() returns (n: uint64)
      requires Valid()
      modifies this
      ensures Valid() && n == old(sendSeq)
      ensures Value() == old(Value()).(sendSeq := (old(sendSeq) + 1) % TWO_64)
      ensures old(sendSeq) + 1 < TWO_64 ==> Value() == DrawNumber(old(Value()))
    {
      n := sendSeq;
      sendSeq := (sendSeq + 1) % TWO_64;
    }

    /** Encrypt from there on. */
    method Seal(n: uint64, plain: Plain) returns (r: Option<Record>)
      requires Valid()
      ensures r == SealRecord(Value(), n, plain)
    {
      if n >= sendEpochStartSeq && n - sendEpochStartSeq >= MAX_PACKETS_BEFORE_REKEY {
        return None;
      }
      return Some(Record(plain.RekeyPayload?, n, Sealed(sendCipher, Nonce(prefix, role, n), n, plain)));
    }

    method Decrypt(rec: Record) returns (r: Option<Plain>)
      requires Valid() && rec.n < TWO_64
      modifies this, replayWindow, replayWindow.bitmap
      ensures Valid()
      ensures (Value(), r) == Decrypted(old(Value()), rec)
    {
      var cipher, pending := recvCipher, pendingRecvCipher;
      var ok := replayWindow.Check(rec.n);
      if !ok {
        return None;
      }
      var nonce := Nonce(prefix, Peer(role), rec.n);
      r := Open(cipher, nonce, rec.n, rec.box);
      if r.None? && pending.Some? {
        var again := Open(pending.value, nonce, rec.n, rec.box);
        if again.Some? {
          PromotePendingRecvCipher();
          r := again;
        }
      }
    }

    method PromotePendingRecvCipher()
      requires Valid()
      modifies this
      ensures Valid() && Value() == Promoted(old(Value()))
    {
      if pendingRecvCipher.None? {
        return;
      }
      recvCipher := pendingRecvCipher.value;
      pendingRecvCipher := None;
    }

    method Initiate(keyPair: nat) returns (ok: bool)
      requires Valid()
      modifies this
      ensures Valid()
      ensures match InitiateRekey(old(Value()), keyPair)
              case None => !ok && Value() == old(Value())
              case Some(s) => ok && Value() == s
    {
      if rekeyInProgress {
        return false;
      }
      if !established {
        return false;
      }
      rekeyInProgress := true;
      pendingRekeyKeyPair := Some(keyPair);
      established := false;
      return true;
    }

    method PrepareResponse(body: Body, coins: nat) returns (r: Option<Encapsulation>)
      requires Valid()
      modifies this
      ensures Valid()
      ensures match PrepareRekeyResponse(old(Value()), body, coins)
              case None => r == None && Value() == old(Value())
              case Some((s, ct)) => r == Some(ct) && Value() == s
    {
      if body.Ciphertext? {
        return None;
      }
      var ct := Encapsulation(body.pk, coins);
      var secret := Rekeyed(masterSecret, Encapsulated(ct));
      rekeyInProgress := true;
      pendingRecvCipher := Some(TrafficKey(secret, Initiator));
      pendingSendCipher := Some(TrafficKey(secret, Responder));
      pendingRekeySecret := Some(secret);
      established := false;
      return Some(ct);
    }

    method ProcessResponse(body: Body) returns (ok: bool)
      requires Valid()
      modifies this
      ensures Valid()
      ensures match ProcessRekeyResponse(old(Value()), body)
              case None => !ok && Value() == old(Value())
              case Some(s) => ok && Value() == s
    {
      if !rekeyInProgress || pendingRekeyKeyPair.None? || body.PublicKey? {
        return false;
      }
      var secret := Rekeyed(masterSecret, Decapsulate(body.ct, pendingRekeyKeyPair.value));
      sendCipher := TrafficKey(secret, Initiator);
      sendEpochStartSeq := sendSeq;
      pendingRecvCipher := Some(TrafficKey(secret, Responder));
      pendingRekeySecret := Some(secret);
      pendingRekeyKeyPair := None;
      FinalizeRekeyState();
      return true;
    }

    method ActivateSend()
      requires Valid()
      modifies this
      ensures Valid() && Value() == ActivateRekeySend(old(Value()))
    {
      if pendingSendCipher.Some? {
        sendCipher := pendingSendCipher.value;
        pendingSendCipher := None;
        sendEpochStartSeq := sendSeq;
      }
      FinalizeRekeyState();
    }

    method FinalizeRekeyState()
      requires Valid()
      modifies this
      ensures Valid() && Value() == Finalized(old(Value()))
    {
      if pendingRekeySecret.Some? {
        masterSecret := pendingRekeySecret.value;
        pendingRekeySecret := None;
      }
      rekeyInProgress := false;
      established := true;
    }
  }
}
