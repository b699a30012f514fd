/** The ideal cryptography both transports are modelled over. Secrets are terms,
    so two derivations agree exactly when they were fed the same inputs. A KEM
    ciphertext decapsulates to the encapsulated secret under the key pair it was
    made for, and to an unrelated one under any other (implicit rejection). An
    AEAD ciphertext opens only under the key, nonce and associated data it was
    sealed with. */
module Symbolic {
  datatype Option<+T> = None | Some(value: T) {
    function GetOr(default: T): T { if Some? then value else default }
  }

  /** 2^28: the number of frames or records one send key may seal. */
  const MAX_PACKETS_BEFORE_REKEY: nat := 0x1000_0000

  datatype Role = Initiator | Responder

  function Peer(r: Role): Role
  {
    if r.Initiator? then Responder else Initiator
  }

  /** A KEM ciphertext: the key pair it targets and the coins that made it. */
  datatype Encapsulation = Encapsulation(pk: nat, coins: nat)

  datatype Psk = Configured(id: nat) | Dummy(coins: nat)

  datatype Secret =
    | Shared(pk: nat, coins: nat)
    | Rejected(ct: Encapsulation, holder: nat)
    | Resumed(ticket: nat, kem: Secret)
    | Authenticated(master: Secret, identity: Secret)
    | WithPsk(master: Secret, psk: Psk)
    | Rekeyed(master: Secret, kem: Secret)

  function Encapsulated(ct: Encapsulation): Secret
  {
    Shared(ct.pk, ct.coins)
  }

  function Decapsulate(ct: Encapsulation, keyPair: nat): Secret
  {
    if ct.pk == keyPair then Encapsulated(ct) else Rejected(ct, keyPair)
  }

  /** The two traffic keys of a master secret, one per direction. */
  datatype Key = TrafficKey(secret: Secret, sender: Role)

  /** The nonce prefix is derived once, from the first master secret. */
  datatype Nonce = Nonce(prefix: Secret, sender: Role, n: nat)

  datatype Sealed<Aad, Plain> = Sealed(key: Key, nonce: Nonce, aad: Aad, plain: Plain)

  function Open<Aad(==), Plain>(key: Key, nonce: Nonce, aad: Aad, ct: Sealed<Aad, Plain>): Option<Plain>
  {
    if ct.key == key && ct.nonce == nonce && ct.aad == aad then Some(ct.plain) else None
  }

  /** How often a secret has been ratcheted; each rekey adds one, so secrets of
      different generations are different. */
  function Generation(s: Secret): nat
  {
    if s.Rekeyed? then 1 + Generation(s.master) else 0
  }

  /** A chain of master secrets: each ratchets the one before. */
  ghost predicate Ratchet(secrets: seq<Secret>)
  {
    && |secrets| > 0
    && forall k :: 0 < k < |secrets| ==> secrets[k].Rekeyed? && secrets[k].master == secrets[k - 1]
  }

  lemma {:induction false} RatchetGeneration(secrets: seq<Secret>, k: nat)
    requires Ratchet(secrets) && k < |secrets|
    ensures Generation(secrets[k]) == Generation(secrets[0]) + k
  {
    if k > 0 { RatchetGeneration(secrets, k - 1); }
  }

  /** No two points of a ratchet chain carry the same secret. */
  lemma RatchetDistinct(secrets: seq<Secret>, j: nat, k: nat)
    requires Ratchet(secrets) && j < |secrets| && k < |secrets| && secrets[j] == secrets[k]
    ensures j == k
  {
    RatchetGeneration(secrets, j);
    RatchetGeneration(secrets, k);
  }

  lemma NeighboursDiffer(secrets: seq<Secret>, k: nat)
    requires Ratchet(secrets) && k + 1 < |secrets|
    ensures secrets[k] != secrets[k + 1]
  {
    RatchetGeneration(secrets, k);
    RatchetGeneration(secrets, k + 1);
  }

  lemma RatchetExtend(secrets: seq<Secret>, kem: Secret)
    requires Ratchet(secrets)
    ensures Ratchet(secrets + [Rekeyed(secrets[|secrets| - 1], kem)])
  {
    var longer := secrets + [Rekeyed(secrets[|secrets| - 1], kem)];
    forall k | 0 < k < |longer| ensures longer[k].Rekeyed? && longer[k].master == longer[k - 1] {}
  }
}
