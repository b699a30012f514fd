/** The handshake flight builders. Messages are terms: a hello is the record of
    its fields, a Finished message is an AEAD box around verify data that names
    the label, the master secret and the transcript it was computed from. Each
    builder is a function on handshake values; the class at the end updates its
    fields in the order the source does, failures included, and is proved equal
    to those functions. Random draws are the parameter `n`. */
module Handshake {
  import opened Symbolic
  import DatagramSession

  datatype CipherSuite = Aes256Gcm | ChaCha20Poly1305

  /** A KEM public key, standing also for its key pair; the suite fixes its size. */
  datatype PublicKey = PublicKey(suite: nat, id: nat)
  datatype Ciphertext = Ciphertext(suite: nat, enc: Encapsulation)

  datatype PskEntry = PskEntry(identity: string, key: nat)
  datatype Ticket = Ticket(id: nat, secret: nat)
  datatype SessionId = Own(id: nat) | ForTicket(id: nat)

  /** What one peer brings: its build (version, suites in preference order) and
      its long-term credentials. */
  datatype Config = Config(
    role: Role,
    version: nat,
    kemSuites: seq<nat>,
    ciphers: seq<CipherSuite>,
    pinned: Option<PublicKey>,
    identity: Option<PublicKey>,
    requireStaticAuth: bool,
    psk: Option<PskEntry>,
    pskLookup: Option<map<string, nat>>,
    requirePsk: bool,
    ticket: Option<Ticket>,
    tickets: Option<map<nat, nat>>)

  datatype HandshakeKey = HandshakeKey(secret: Secret, sender: Role, cipher: CipherSuite)

  datatype Entry = Hashed(hello: Body) | Frame(body: Body) | Plaintext(finished: FinishedPlain)
  datatype Verify = Verify(sender: Role, secret: Secret, transcript: seq<Entry>)
  datatype FinishedPlain = FinishedPlain(sender: Role, verify: Verify)

  /** A handshake message body; Garbage is any byte string the decoders refuse. */
  datatype Body =
    | ClientHello(version: nat, random: nat, ticket: Option<nat>, suite: nat, suites: seq<nat>, share: PublicKey,
                  ciphers: seq<CipherSuite>, staticCt: Option<Ciphertext>, identity: string)
    | HelloRetryRequest(version: nat, suite: nat)
    | ServerHello(version: nat, random: nat, sessionId: SessionId, suite: nat, ct: Ciphertext, cipher: CipherSuite)
    | Finished(key: HandshakeKey, plain: FinishedPlain)
    | Garbage

  datatype Phase =
    | Initial
    | ClientHelloSent
    | ServerHelloSent
    | ServerHelloReceived
    | ServerFinishedSent
    | ServerFinishedReceived
    | Complete

  /** What the handshake settles in the session; `keys` once it is established. */
  datatype Negotiated = Negotiated(
    kemSuite: nat,
    keyPair: PublicKey,
    remote: Option<PublicKey>,
    sessionId: SessionId,
    cipher: Option<CipherSuite>,
    keys: Option<DatagramSession.State>)

  datatype Secrets = Secrets(
    clientRandom: Option<nat>,
    shared: Option<Secret>,
    identity: Option<Secret>,
    psk: Option<Psk>,
    send: Option<HandshakeKey>,
    recv: Option<HandshakeKey>,
    ticket: Option<nat>,
    resumed: bool)

  /** HelloRetryRequest bookkeeping: the hello kept for its hash, the suite a
      retry is to be sent for, and whether one was exchanged. */
  datatype Retry = Retry(hello: Option<Body>, pending: Option<nat>, done: bool)

  datatype State = State(
    config: Config,
    phase: Phase,
    session: Negotiated,
    secrets: Secrets,
    transcript: seq<Entry>,
    retry: Retry)

  /** A new handshake: the key share is in `keyPair`'s suite. */
  function Fresh(config: Config, keyPair: PublicKey, ownId: nat): State
  {
    State(config, Initial, Negotiated(keyPair.suite, keyPair, None, Own(ownId), None, None),
          Secrets(None, None, None, None, None, None,
                  if config.ticket.Some? then Some(config.ticket.value.secret) else None, false),
          [], Retry(None, None, false))
  }

  // ---- negotiation ----

  /** The first element of `preferred` that `allowed` also lists. */
  function FirstIn<T(==)>(preferred: seq<T>, allowed: seq<T>): (r: Option<T>)
    ensures r.Some? ==> r.value in preferred && r.value in allowed
  {
    if preferred == [] then None
    else if preferred[0] in allowed then Some(preferred[0])
    else FirstIn(preferred[1..], allowed)
  }

  /** No listed element is passed over: whatever is common comes no earlier than
      the selection. */
  lemma {:induction false} FirstInIsFirst<T>(preferred: seq<T>, allowed: seq<T>, k: nat)
    requires k < |preferred| && preferred[k] in allowed
    ensures FirstIn(preferred, allowed).Some?
    ensures FirstIn(preferred, allowed).value in preferred[..k + 1]
  {
    if preferred[0] in allowed {
      assert preferred[..k + 1][0] == preferred[0];
    } else {
      FirstInIsFirst(preferred[1..], allowed, k - 1);
      var x := FirstIn(preferred, allowed).value;
      var j :| 0 <= j < k && preferred[1..][..k][j] == x;
      assert preferred[..k + 1][j + 1] == x;
    }
  }

  /** Both selection loops: the outer list is scanned in order, the inner one
      decides membership. */
  method SelectMutual<T(==)>(preferred: seq<T>, allowed: seq<T>) returns (r: Option<T>)
    ensures r == FirstIn(preferred, allowed)
  {
    for i := 0 to |preferred|
      invariant FirstIn(preferred, allowed) == FirstIn(preferred[i..], allowed)
    {
      for j := 0 to |allowed|
        invariant preferred[i] !in allowed[..j]
      {
        if preferred[i] == allowed[j] {
          return Some(preferred[i]);
        }
      }
      assert preferred[i..][1..] == preferred[i + 1..];
    }
    return None;
  }

  // ---- key schedule ----

  /** The master secret: the KEM secret, then the ticket secret of a resumed
      session, then the static secret, then the PSK, each folded in if present. */
  function Fold(kem: Secret, ticket: Option<nat>, identity: Option<Secret>, psk: Option<Psk>): Secret
  {
    var s0 := if ticket.Some? then Resumed(ticket.value, kem) else kem;
    var s1 := if identity.Some? then Authenticated(s0, identity.value) else s0;
    if psk.Some? then WithPsk(s1, psk.value) else s1
  }

  /** What is folded into the KEM secret, one input at a time. */
  datatype Contribution = FromTicket(secret: nat) | FromIdentity(leg: Secret) | FromPsk(psk: Psk)

  function FoldAll(kem: Secret, inputs: seq<Contribution>): Secret
  {
    if inputs == [] then kem
    else
      FoldOne(FoldAll(kem, inputs[..|inputs| - 1]), inputs[|inputs| - 1])
  }

  function FoldOne(s: Secret, c: Contribution): Secret
  {
    match c
    case FromTicket(t) => Resumed(t, s)
    case FromIdentity(leg) => Authenticated(s, leg)
    case FromPsk(p) => WithPsk(s, p)
  }

  /** The order is fixed and an absent input is left out: ticket, static secret, PSK. */
  lemma FoldInOrder(kem: Secret, ticket: Option<nat>, identity: Option<Secret>, psk: Option<Psk>)
    ensures var first := if ticket.Some? then [FromTicket(ticket.value)] else [];
            var second := if identity.Some? then [FromIdentity(identity.value)] else [];
            var third := if psk.Some? then [FromPsk(psk.value)] else [];
            Fold(kem, ticket, identity, psk) == FoldAll(kem, first + second + third)
  {
    var first := if ticket.Some? then [FromTicket(ticket.value)] else [];
    var second := if identity.Some? then [FromIdentity(identity.value)] else [];
    var third := if psk.Some? then [FromPsk(psk.value)] else [];
    assert [] + first == first;
    FoldLast(kem, [], first);
    FoldLast(kem, first, second);
    FoldLast(kem, first + second, third);
  }

  lemma FoldLast(kem: Secret, inputs: seq<Contribution>, last: seq<Contribution>)
    requires |last| <= 1
    ensures FoldAll(kem, inputs + last) ==
            if last == [] then FoldAll(kem, inputs) else FoldOne(FoldAll(kem, inputs), last[0])
  {
    if last == [] {
      assert inputs + last == inputs;
    } else {
      assert (inputs + last)[..|inputs + last| - 1] == inputs;
    }
  }

  predicate FromKem(s: Secret) { s.Shared? || s.Rejected? }

  /** Equal master secrets mean equal inputs, present or absent alike. */
  lemma FoldInjective(kem: Secret, ticket: Option<nat>, identity: Option<Secret>, psk: Option<Psk>,
                      kem': Secret, ticket': Option<nat>, identity': Option<Secret>, psk': Option<Psk>)
    requires FromKem(kem) && FromKem(kem')
    ensures Fold(kem, ticket, identity, psk) == Fold(kem', ticket', identity', psk') <==>
            kem == kem' && ticket == ticket' && identity == identity' && psk == psk'
  {}

  function Keyed(s: Secrets, role: Role, secret: Secret, cipher: CipherSuite): Secrets
  {
    s.(shared := Some(secret),
       identity := None,
       send := Some(HandshakeKey(secret, role, cipher)),
       recv := Some(HandshakeKey(secret, Peer(role), cipher)))
  }

  /** The secret of a resumed session, to be folded in first. */
  function Resumption(s: Secrets): Option<nat> { if s.resumed then s.ticket else None }

  function FinishedBody(h: State): Body
    requires h.secrets.send.Some? && h.secrets.shared.Some?
  {
    var sender := h.config.role;
    Finished(h.secrets.send.value, FinishedPlain(sender, Verify(sender, h.secrets.shared.value, h.transcript)))
  }

  /** A Finished body opens under the receive key and carries the verify data the
      receiver computes itself. */
  predicate Verifies(h: State, body: Body)
  {
    && h.secrets.recv.Some? && h.secrets.shared.Some?
    && body.Finished?
    && body.key == h.secrets.recv.value
    && body.plain.verify == Verify(Peer(h.config.role), h.secrets.shared.value, h.transcript)
  }

  /** What one handshake builds as its Finished verifies at another exactly when the
      two are of opposite roles and hold the same secret, the same transcript and
      the same key for that direction. In particular it never verifies at home. */
  lemma FinishedVerifies(g: State, h: State)
    requires g.secrets.send.Some? && g.secrets.shared.Some?
    ensures Verifies(h, FinishedBody(g)) <==>
            && h.config.role == Peer(g.config.role)
            && h.secrets.recv == g.secrets.send && h.secrets.shared == g.secrets.shared
            && h.transcript == g.transcript
  {}

  /** And nothing else verifies: whatever does carries the verify data of the peer
      over this transcript, under the key of that direction. */
  lemma OnlyFinishedVerifies(h: State, body: Body)
    requires Verifies(h, body)
    ensures body.Finished? && h.secrets.recv == Some(body.key)
    ensures exists g: State ::
              && g.secrets.send.Some? && g.secrets.shared.Some? && g.config.role == Peer(h.config.role)
              && FinishedBody(g).key == body.key && FinishedBody(g).plain.verify == body.plain.verify
  {
    var g := h.(config := h.config.(role := Peer(h.config.role)), secrets := h.secrets.(send := h.secrets.recv));
    assert FinishedBody(g).key == body.key && FinishedBody(g).plain.verify == body.plain.verify;
  }

  /** Completion: traffic keys from the master secret, handshake secrets erased. */
  function Completed(h: State): State
    requires h.secrets.shared.Some?
  {
    h.(phase := Complete,
       session := h.session.(keys := Some(DatagramSession.Established(h.config.role, h.secrets.shared.value))),
       secrets := h.secrets.(shared := None, clientRandom := None, send := None, recv := None),
       transcript := [])
  }

  function Rewritten(r: Retry, hrr: Body): seq<Entry>
  {
    [Hashed(r.hello.GetOr(Garbage)), Frame(hrr)]
  }

  // ---- initiator ----

  function HelloOf(h: State, random: nat, staticCt: Option<Ciphertext>): Body
  {
    var c := h.config;
    ClientHello(c.version, random, if c.ticket.Some? then Some(c.ticket.value.id) else None,
                h.session.kemSuite, c.kemSuites, h.session.keyPair, c.ciphers, staticCt,
                if c.psk.Some? then c.psk.value.identity else "")
  }

  /** The static leg of a hello: an encapsulation to the pinned key, if any. */
  function PinnedLeg(c: Config, n: nat): Option<Ciphertext>
  {
    if c.pinned.Some? then Some(Ciphertext(c.pinned.value.suite, Encapsulation(c.pinned.value.id, n))) else None
  }

  function CreateHello(h: State, n: nat): (State, Option<Body>)
  {
    var c := h.config;
    if h.phase != Initial then (h, None)
    else
      var random := h.secrets.clientRandom.GetOr(n);
      var s1 := h.secrets.(clientRandom := Some(random));
      if c.pinned.Some? && c.pinned.value.suite !in c.kemSuites then (h.(secrets := s1), None)
      else
        var ct := PinnedLeg(c, n);
        var s2 := s1.(identity := if ct.Some? then Some(Encapsulated(ct.value.enc)) else s1.identity,
                      psk := if c.psk.Some? then Some(Configured(c.psk.value.key)) else s1.psk);
        if c.ciphers == [] then (h.(secrets := s2), None)
        else
          var body := HelloOf(h, random, ct);
          (h.(secrets := s2,
              transcript := h.transcript + [Frame(body)],
              retry := h.retry.(hello := Some(h.retry.hello.GetOr(body))),
              phase := ClientHelloSent),
           Some(body))
  }

  function ProcessHrr(h: State, body: Body, n: nat): (State, bool)
  {
    if h.phase != ClientHelloSent || h.retry.done || !body.HelloRetryRequest?
       || body.version != h.config.version || body.suite !in h.config.kemSuites then (h, false)
    else
      (h.(session := h.session.(kemSuite := body.suite, keyPair := PublicKey(body.suite, n)),
          transcript := Rewritten(h.retry, body),
          retry := h.retry.(done := true),
          phase := Initial),
       true)
  }

  function ProcessSh(h: State, body: Body): (State, bool)
  {
    var c := h.config;
    if h.phase != ClientHelloSent || !body.ServerHello? || body.version != c.version
       || body.suite != h.session.kemSuite then (h, false)
    else
      var accepted := c.ticket.Some? && body.sessionId == ForTicket(c.ticket.value.id);
      var s1 := h.secrets.(resumed := h.secrets.resumed || accepted);
      if body.ct.suite != body.suite then (h.(secrets := s1), false)
      else
        var secret := Fold(Decapsulate(body.ct.enc, h.session.keyPair.id), Resumption(s1), s1.identity, s1.psk);
        var h1 := h.(transcript := h.transcript + [Frame(body)],
                     session := h.session.(sessionId := body.sessionId, cipher := Some(body.cipher)));
        if body.cipher !in c.ciphers then (h1.(secrets := s1.(shared := Some(secret), identity := None)), false)
        else (h1.(secrets := Keyed(s1, c.role, secret, body.cipher), phase := ServerHelloReceived), true)
  }

  function ProcessSf(h: State, body: Body): (State, bool)
  {
    if h.phase != ServerHelloReceived || !Verifies(h, body) then (h, false)
    else (h.(transcript := h.transcript + [Plaintext(body.plain)], phase := ServerFinishedReceived), true)
  }

  function CreateCf(h: State): (State, Option<Body>)
  {
    if h.phase != ServerFinishedReceived || h.secrets.send.None? || h.secrets.shared.None? then (h, None)
    else (Completed(h), Some(FinishedBody(h)))
  }

  // ---- responder ----

  /** The PSK for an advertised identity: the lookup decides alone when there is
      one, otherwise the single configured entry. */
  function ResponderPsk(c: Config, identity: string): Option<nat>
  {
    if identity == "" then None
    else if c.pskLookup.Some? then
      if identity in c.pskLookup.value then Some(c.pskLookup.value[identity]) else None
    else if c.psk.Some? && c.psk.value.identity == identity then Some(c.psk.value.key)
    else None
  }

  /** The PSK the responder folds: its entry, else a random one when PSKs are required. */
  function ChosenPsk(c: Config, identity: string, n: nat): Option<Psk>
  {
    var key := ResponderPsk(c, identity);
    if key.Some? then Some(Configured(key.value)) else if c.requirePsk then Some(Dummy(n)) else None
  }

  /** The responder's static leg: nothing to do, a secret, or a refusal. */
  datatype Leg = Skip | Recovered(secret: Secret) | Refuse

  function StaticLeg(c: Config, ct: Option<Ciphertext>): Leg
  {
    if c.requireStaticAuth && ct.None? then Refuse
    else if c.identity.None? || ct.None? then Skip
    else if c.identity.value.suite !in c.kemSuites || ct.value.suite != c.identity.value.suite then Refuse
    else Recovered(Decapsulate(ct.value.enc, c.identity.value.id))
  }

  function TicketSecret(c: Config, ticket: Option<nat>): Option<nat>
  {
    if ticket.Some? && c.tickets.Some? && ticket.value in c.tickets.value then Some(c.tickets.value[ticket.value])
    else None
  }

  function ProcessCh(h: State, body: Body, n: nat): (State, bool)
  {
    var c := h.config;
    if h.phase != Initial || !body.ClientHello? || body.version != c.version then (h, false)
    else if body.suite !in c.kemSuites then
      var mutual := FirstIn(c.kemSuites, body.suites);
      if h.retry.done || mutual.None? then (h, false)
      else (h.(retry := h.retry.(hello := Some(body), pending := mutual)), true)
    else
      var secret := TicketSecret(c, body.ticket);
      var g1 := h.session.(kemSuite := body.suite,
                           sessionId := if secret.Some? then ForTicket(body.ticket.value) else h.session.sessionId);
      var s1 := h.secrets.(clientRandom := Some(body.random),
                           resumed := h.secrets.resumed || secret.Some?,
                           ticket := if secret.Some? then secret else h.secrets.ticket);
      if body.share.suite != body.suite then (h.(session := g1, secrets := s1), false)
      else
        var g2 := g1.(remote := Some(body.share));
        var leg := StaticLeg(c, body.staticCt);
        if leg.Refuse? then (h.(session := g2, secrets := s1), false)
        else
          var psk := ChosenPsk(c, body.identity, n);
          var cipher := FirstIn(body.ciphers, c.ciphers);
          var h3 := h.(session := g2.(cipher := cipher),
                       secrets := s1.(identity := if leg.Recovered? then Some(leg.secret) else s1.identity,
                                      psk := if psk.Some? then psk else s1.psk));
          if cipher.None? then (h3, false)
          else (h3.(transcript := h.transcript + [Frame(body)]), true)
  }

  function CreateHrr(h: State): (State, Option<Body>)
  {
    if h.retry.pending.None? then (h, None)
    else
      var body := HelloRetryRequest(h.config.version, h.retry.pending.value);
      (h.(transcript := Rewritten(h.retry, body), retry := h.retry.(pending := None, done := true)), Some(body))
  }

  function CreateSh(h: State, n: nat): (State, Option<Body>)
  {
    var g := h.session;
    if g.remote.None? || g.cipher.None? then (h, None)
    else
      var ct := Encapsulation(g.remote.value.id, n);
      var body := ServerHello(h.config.version, n, g.sessionId, g.kemSuite, Ciphertext(g.kemSuite, ct), g.cipher.value);
      var secret := Fold(Encapsulated(ct), Resumption(h.secrets), h.secrets.identity, h.secrets.psk);
      (h.(secrets := Keyed(h.secrets, h.config.role, secret, g.cipher.value),
          transcript := h.transcript + [Frame(body)],
          phase := ServerHelloSent),
       Some(body))
  }

  function CreateSf(h: State): (State, Option<Body>)
  {
    if h.phase != ServerHelloSent || h.secrets.send.None? || h.secrets.shared.None? then (h, None)
    else
      var body := FinishedBody(h);
      (h.(transcript := h.transcript + [Plaintext(body.plain)], phase := ServerFinishedSent), Some(body))
  }

  function ProcessCf(h: State, body: Body): (State, bool)
  {
    if h.phase != ServerFinishedSent || !Verifies(h, body) then (h, false) else (Completed(h), true)
  }

  // ---- what a refused hello leaves behind ----

  /** A refused ClientHello moves nothing the handshake is in, but is not without
      trace: if it got as far as the key share, with a ticket on record, that
      ticket's secret is folded into the session a later hello sets up, whether or
      not the later hello names a ticket. */
  lemma RefusedHelloLeaves(h: State, refused: Body, n: nat, later: Body, m: nat)
    requires !ProcessCh(h, refused, n).1
    ensures var g := ProcessCh(h, refused, n).0;
            && g.config == h.config && g.phase == h.phase && g.transcript == h.transcript && g.retry == h.retry
            && g.session.keyPair == h.session.keyPair && g.session.keys == h.session.keys
            && g.secrets.shared == h.secrets.shared && g.secrets.send == h.secrets.send && g.secrets.recv == h.secrets.recv
    ensures var g := ProcessCh(h, refused, n).0;
            var c := h.config;
            ProcessCh(g, later, m).1 && later.ticket.None? && later.suite in c.kemSuites && !h.secrets.resumed ==>
              Resumption(ProcessCh(g, later, m).0.secrets) ==
              if refused.ClientHello? && refused.version == c.version && refused.suite in c.kemSuites
                 && refused.ticket.Some? && c.tickets.Some? && refused.ticket.value in c.tickets.value
              then Some(c.tickets.value[refused.ticket.value]) else None
  {}

  /** A refused ServerHello keeps the initiator waiting; it is in the transcript from
      then on exactly when all that was wrong with it is its cipher. */
  lemma RefusedServerHelloLeaves(h: State, body: Body)
    requires h.phase == ClientHelloSent && !ProcessSh(h, body).1
    ensures var g := ProcessSh(h, body).0;
            && g.phase == ClientHelloSent && g.session.keys == h.session.keys && g.secrets.send == h.secrets.send
            && g.secrets.recv == h.secrets.recv
            && (g.transcript == h.transcript || g.transcript == h.transcript + [Frame(body)])
            && (g.transcript != h.transcript <==>
                  && body.ServerHello? && body.version == h.config.version && body.suite == h.session.kemSuite
                  && body.ct.suite == body.suite && body.cipher !in h.config.ciphers)
  {
    assert h.transcript + [Frame(body)] != h.transcript;
  }

  // ---- the object ----

  class Handshake {
    const config: Config
    var phase: Phase
    var session: Negotiated
    var secrets: Secrets
    var transcript: seq<Entry>
    var retry: Retry

    function Value(): State
      reads this
    {
      State(config, phase, session, secrets, transcript, retry)
    }

    constructor (config: Config, keyPair: PublicKey, ownId: nat)
      ensures Value() == Fresh(config, keyPair, ownId)
    {
      this.config := config;
      phase := Initial;
      session := Negotiated(keyPair.suite, keyPair, None, Own(ownId), None, None);
      secrets := Secrets(None, None, None, None, None, None,
                         if config.ticket.Some? then Some(config.ticket.value.secret) else None, false);
      transcript := [];
      retry := Retry(None, None, false);
    }

    method CreateClientHello(n: nat) returns (r: Option<Body>)
      modifies this
      ensures (Value(), r) == CreateHello(old(Value()), n)
    {
      if phase != Initial {
        return None;
      }
      if secrets.clientRandom.None? {
        secrets := secrets.(clientRandom := Some(n));
      }
      var random := secrets.clientRandom.value;
      var staticCt: Option<Ciphertext> := None;
      if config.pinned.Some? {
        var pin := config.pinned.value;
        if pin.suite !in config.kemSuites {
          return None;
        }
        var enc := Encapsulation(pin.id, n);
        secrets := secrets.(identity := Some(Encapsulated(enc)));
        staticCt := Some(Ciphertext(pin.suite, enc));
      }
      var identity := "";
      if config.psk.Some? {
        identity := config.psk.value.identity;
        secrets := secrets.(psk := Some(Configured(config.psk.value.key)));
      }
      if config.ciphers == [] {
        return None;
      }
      var body := ClientHello(config.version, random,
                              if config.ticket.Some? then Some(config.ticket.value.id) else None,
                              session.kemSuite, config.kemSuites, session.keyPair, config.ciphers, staticCt, identity);
      transcript := transcript + [Frame(body)];
      if retry.hello.None? {
        retry := retry.(hello := Some(body));
      }
      phase := ClientHelloSent;
      return Some(body);
    }

    method ReplaceFirstHelloWithHash(hrr: Body)
      modifies this`transcript
      ensures transcript == Rewritten(retry, hrr)
    {
      transcript := [];
      transcript := transcript + [Hashed(retry.hello.GetOr(Garbage))];
      transcript := transcript + [Frame(hrr)];
    }

    method ProcessHelloRetryRequest(body: Body, n: nat) returns (ok: bool)
      modifies this
      ensures (Value(), ok) == ProcessHrr(old(Value()), body, n)
    {
      if phase != ClientHelloSent || retry.done || !body.HelloRetryRequest? || body.version != config.version {
        return false;
      }
      if body.suite !in config.kemSuites {
        return false;
      }
      session := session.(kemSuite := body.suite, keyPair := PublicKey(body.suite, n));
      ReplaceFirstHelloWithHash(body);
      retry := retry.(done := true);
      phase := Initial;
      return true;
    }

    /** Static fold, PSK fold, then the handshake keys; the static secret is used
        up whether or not the AEAD can be built. */
    method FoldAndDerive(kem: Secret, suite: CipherSuite, supported: bool)
      modifies this`secrets
      ensures var s := old(secrets);
              var secret := Fold(kem, Resumption(s), s.identity, s.psk);
              secrets == if supported then Keyed(s, config.role, secret, suite)
                         else s.(shared := Some(secret), identity := None)
    {
      var shared := if secrets.resumed && secrets.ticket.Some? then Resumed(secrets.ticket.value, kem) else kem;
      if secrets.identity.Some? {
        shared := Authenticated(shared, secrets.identity.value);
        secrets := secrets.(identity := None);
      }
      if secrets.psk.Some? {
        shared := WithPsk(shared, secrets.psk.value);
      }
      secrets := secrets.(shared := Some(shared));
      if supported {
        var initiatorKey := HandshakeKey(shared, Initiator, suite);
        var responderKey := HandshakeKey(shared, Responder, suite);
        if config.role == Initiator {
          secrets := secrets.(send := Some(initiatorKey), recv := Some(responderKey));
        } else {
          secrets := secrets.(send := Some(responderKey), recv := Some(initiatorKey));
        }
      }
    }

    method ProcessServerHello(body: Body) returns (ok: bool)
      modifies this
      ensures (Value(), ok) == ProcessSh(old(Value()), body)
    {
      if phase != ClientHelloSent || !body.ServerHello? || body.version != config.version
         || body.suite != session.kemSuite {
        return false;
      }
      if config.ticket.Some? && body.sessionId == ForTicket(config.ticket.value.id) {
        secrets := secrets.(resumed := true);
      }
      if body.ct.suite != session.kemSuite {
        return false;
      }
      var kem := Decapsulate(body.ct.enc, session.keyPair.id);
      transcript := transcript + [Frame(body)];
      session := session.(sessionId := body.sessionId, cipher := Some(body.cipher));
      ok := body.cipher in config.ciphers;
      FoldAndDerive(kem, body.cipher, ok);
      if ok {
        phase := ServerHelloReceived;
      }
    }

    method ProcessServerFinished(body: Body) returns (ok: bool)
      modifies this
      ensures (Value(), ok) == ProcessSf(old(Value()), body)
    {
      if phase != ServerHelloReceived || !Verifies(Value(), body) {
        return false;
      }
      transcript := transcript + [Plaintext(body.plain)];
      phase := ServerFinishedReceived;
      return true;
    }

    method Finish()
      requires secrets.shared.Some?
      modifies this
      ensures Value() == Completed(old(Value()))
    {
      session := session.(keys := Some(DatagramSession.Established(config.role, secrets.shared.value)));
      phase := Complete;
      secrets := secrets.(shared := None, clientRandom := None, send := None, recv := None);
      transcript := [];
    }

    method CreateClientFinished() returns (r: Option<Body>)
      modifies this
      ensures (Value(), r) == CreateCf(old(Value()))
    {
      if phase != ServerFinishedReceived || secrets.send.None? || secrets.shared.None? {
        return None;
      }
      var verify := Verify(config.role, secrets.shared.value, transcript);
      r := Some(Finished(secrets.send.value, FinishedPlain(config.role, verify)));
      Finish();
    }

    method Resume(ticket: Option<nat>)
      modifies this`secrets, this`session
      ensures var secret := TicketSecret(config, ticket);
              && session == old(session).(sessionId := if secret.Some? then ForTicket(ticket.value)
                                                       else old(session).sessionId)
              && secrets == old(secrets).(resumed := old(secrets).resumed || secret.Some?,
                                          ticket := if secret.Some? then secret else old(secrets).ticket)
    {
      if ticket.Some? && config.tickets.Some? && ticket.value in config.tickets.value {
        secrets := secrets.(resumed := true, ticket := Some(config.tickets.value[ticket.value]));
        session := session.(sessionId := ForTicket(ticket.value));
      }
    }

    method OpenStaticLeg(ct: Option<Ciphertext>) returns (ok: bool)
      modifies this`secrets
      ensures var leg := StaticLeg(config, ct);
              && ok == !leg.Refuse?
              && secrets == if leg.Recovered? then old(secrets).(identity := Some(leg.secret)) else old(secrets)
    {
      if config.requireStaticAuth && ct.None? {
        return false;
      }
      if config.identity.Some? && ct.Some? {
        var own := config.identity.value;
        if own.suite !in config.kemSuites || ct.value.suite != own.suite {
          return false;
        }
        secrets := secrets.(identity := Some(Decapsulate(ct.value.enc, own.id)));
      }
      return true;
    }

    method SelectPsk(identity: string, n: nat)
      modifies this`secrets
      ensures var psk := ChosenPsk(config, identity, n);
              secrets == old(secrets).(psk := if psk.Some? then psk else old(secrets).psk)
    {
      var key := ResponderPsk(config, identity);
      if key.Some? {
        secrets := secrets.(psk := Some(Configured(key.value)));
      } else if config.requirePsk {
        secrets := secrets.(psk := Some(Dummy(n)));
      }
    }

    method ProcessClientHello(body: Body, n: nat) returns (ok: bool)
      modifies this
      ensures (Value(), ok) == ProcessCh(old(Value()), body, n)
    {
      if phase != Initial || !body.ClientHello? || body.version != config.version {
        return false;
      }
      if body.suite !in config.kemSuites {
        if retry.done {
          return false;
        }
        var mutual := SelectMutual(config.kemSuites, body.suites);
        if mutual.None? {
          return false;
        }
        retry := retry.(hello := Some(body), pending := mutual);
        return true;
      }
      session := session.(kemSuite := body.suite);
      secrets := secrets.(clientRandom := Some(body.random));
      Resume(body.ticket);
      if body.share.suite != session.kemSuite {
        return false;
      }
      session := session.(remote := Some(body.share));
      var proceed := OpenStaticLeg(body.staticCt);
      if !proceed {
        return false;
      }
      SelectPsk(body.identity, n);
      var cipher := SelectMutual(body.ciphers, config.ciphers);
      session := session.(cipher := cipher);
      if cipher.None? {
        return false;
      }
      transcript := transcript + [Frame(body)];
      return true;
    }

    method CreateHelloRetryRequest() returns (r: Option<Body>)
      modifies this
      ensures (Value(), r) == CreateHrr(old(Value()))
    {
      if retry.pending.None? {
        return None;
      }
      var body := HelloRetryRequest(config.version, retry.pending.value);
      ReplaceFirstHelloWithHash(body);
      retry := retry.(pending := None, done := true);
      return Some(body);
    }

    method CreateServerHello(n: nat) returns (r: Option<Body>)
      modifies this
      ensures (Value(), r) == CreateSh(old(Value()), n)
    {
      if session.remote.None? || session.cipher.None? {
        return None;
      }
      var ct := Encapsulation(session.remote.value.id, n);
      var body := ServerHello(config.version, n, session.sessionId, session.kemSuite,
                              Ciphertext(session.kemSuite, ct), session.cipher.value);
      transcript := transcript + [Frame(body)];
      FoldAndDerive(Encapsulated(ct), session.cipher.value, true);
      phase := ServerHelloSent;
      return Some(body);
    }

    method CreateServerFinished() returns (r: Option<Body>)
      modifies this
      ensures (Value(), r) == CreateSf(old(Value()))
    {
      if phase != ServerHelloSent || secrets.send.None? || secrets.shared.None? {
        return None;
      }
      var plain := FinishedPlain(config.role, Verify(config.role, secrets.shared.value, transcript));
      r := Some(Finished(secrets.send.value, plain));
      transcript := transcript + [Plaintext(plain)];
      phase := ServerFinishedSent;
    }

    method ProcessClientFinished(body: Body) returns (ok: bool)
      modifies this
      ensures (Value(), ok) == ProcessCf(old(Value()), body)
    {
      if phase != ServerFinishedSent || !Verifies(Value(), body) {
        return false;
      }
      Finish();
      return true;
    }
  }
}
