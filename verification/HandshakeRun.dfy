/** Two handshake machines and a network between them. Every body ever sent may be
    delivered to the other side any number of times, in any order, under any
    message type, or never; bytes the decoders refuse may be delivered too, and
    bytes on which a hello decoder faults, which ends the peer's program.
    Timer-driven retransmissions repeat bodies already in the network. */
module HandshakeRun {
  import opened Symbolic
  import opened Handshake
  import opened HandshakeFsm
  import opened HandshakeReplay
  import DatagramSession

  /** `gone` holds the peers whose program has ended. */
  datatype System = System(i: Fsm, r: Fsm, toR: set<Body>, toI: set<Body>, gone: set<Role>)

  /** `n` is the randomness a step draws. `Overrun` delivers bytes on which the
      hello decoder faults to a peer that is about to decode a hello; to one that
      is not, they are bytes like any others. */
  datatype Step =
    | Start(n: nat)
    | ToResponder(kind: Kind, body: Body, n: nat)
    | ToInitiator(kind: Kind, body: Body, n: nat)
    | Overrun(to: Role)

  predicate Enabled(s: System, step: Step)
  {
    match step
    case Start(_) => Initiator !in s.gone
    case ToResponder(_, body, _) => Responder !in s.gone && (body in s.toR || body == Garbage)
    case ToInitiator(_, body, _) => Initiator !in s.gone && (body in s.toI || body == Garbage)
    case Overrun(to) => to !in s.gone && DecodesHello(s, to)
  }

  predicate DecodesHello(s: System, who: Role)
  {
    if who.Initiator? then s.i.expecting == Some(ServerHelloKind) else s.r.expecting == Some(ClientHelloKind)
  }

  function Bodies(out: seq<Message>): set<Body> { set m | m in out :: m.body }

  function Next(s: System, step: Step): System
  {
    match step
    case Start(n) =>
      if s.i.cached != [] then s
      else var (f, reply) := Started(s.i, n); s.(i := f, toR := s.toR + Bodies(reply.out))
    case ToResponder(kind, body, n) =>
      var (f, reply) := Received(s.r, kind, body, n); s.(r := f, toI := s.toI + Bodies(reply.out))
    case ToInitiator(kind, body, n) =>
      var (f, reply) := Received(s.i, kind, body, n); s.(i := f, toR := s.toR + Bodies(reply.out))
    case Overrun(to) => s.(gone := s.gone + {to})
  }

  predicate Run(s: System, steps: seq<Step>)
    decreases |steps|
  {
    steps == [] || (Enabled(s, steps[0]) && Run(Next(s, steps[0]), steps[1..]))
  }

  function End(s: System, steps: seq<Step>): System
    decreases |steps|
  {
    if steps == [] then s else End(Next(s, steps[0]), steps[1..])
  }

  /** The two peers of a run: their configurations, the initiator's first key
      pair, and the session ids they start from. */
  datatype Peers = Peers(ci: Config, cr: Config, first: PublicKey, unused: PublicKey, idI: nat, idR: nat)

  predicate Proper(p: Peers) { p.ci.role.Initiator? && p.cr.role.Responder? }

  function Initial(p: Peers): System
  {
    System(NewFsm(p.ci, p.first, p.idI), NewFsm(p.cr, p.unused, p.idR), {}, {}, {})
  }

  // ---- what the configurations decide ----

  function TicketId(c: Config): Option<nat> { if c.ticket.Some? then Some(c.ticket.value.id) else None }
  function PskIdentity(c: Config): string { if c.psk.Some? then c.psk.value.identity else "" }
  function OwnPsk(c: Config): Option<Psk> { if c.psk.Some? then Some(Configured(c.psk.value.key)) else None }

  function Mutual(p: Peers): Option<nat> { FirstIn(p.cr.kemSuites, p.ci.kemSuites) }
  function Cipher(p: Peers): Option<CipherSuite> { FirstIn(p.ci.ciphers, p.cr.ciphers) }

  /** A HelloRetryRequest is needed: the responder lacks the first share's suite. */
  predicate Retries(p: Peers) { p.first.suite !in p.cr.kemSuites }

  function Suite(p: Peers): nat { if Retries(p) then Mutual(p).GetOr(0) else p.first.suite }

  predicate StaticAgrees(ci: Config, cr: Config)
  {
    if ci.pinned.None? then !cr.requireStaticAuth
    else cr.identity == ci.pinned && ci.pinned.value.suite in cr.kemSuites
  }

  /** The responder has this key for this identity: in its lookup, if there is one,
      else as its single entry. An empty identity is no identity. */
  predicate Lists(cr: Config, identity: string, key: nat)
  {
    && identity != ""
    && if cr.pskLookup.Some? then identity in cr.pskLookup.value && cr.pskLookup.value[identity] == key
       else cr.psk == Some(PskEntry(identity, key))
  }

  predicate PskAgrees(ci: Config, cr: Config)
  {
    if ci.psk.None? then !cr.requirePsk else Lists(cr, ci.psk.value.identity, ci.psk.value.key)
  }

  predicate OpensTicket(cr: Config, id: nat) { cr.tickets.Some? && id in cr.tickets.value }

  predicate TicketAgrees(ci: Config, cr: Config)
  {
    ci.ticket.Some? && OpensTicket(cr, ci.ticket.value.id) ==>
      cr.tickets.value[ci.ticket.value.id] == ci.ticket.value.secret
  }

  /** Everything both peers must have in common for the handshake to succeed. */
  predicate Compatible(p: Peers)
  {
    && CanGreet(p.ci)
    && p.ci.version == p.cr.version
    && (Retries(p) ==> Mutual(p).Some?)
    && Cipher(p).Some?
    && StaticAgrees(p.ci, p.cr)
    && PskAgrees(p.ci, p.cr)
    && TicketAgrees(p.ci, p.cr)
  }

  // ---- invariant ----

  /** A hello this configuration produces. */
  predicate HelloFrom(ci: Config, b: Body)
  {
    && b.ClientHello?
    && b.version == ci.version && b.ticket == TicketId(ci) && b.suites == ci.kemSuites && b.ciphers == ci.ciphers
    && b.identity == PskIdentity(ci) && b.share.suite == b.suite
    && match ci.pinned
       case None => b.staticCt.None?
       case Some(pin) => b.staticCt.Some? && b.staticCt.value.suite == pin.suite && b.staticCt.value.enc.pk == pin.id
  }

  function LegI(ct: Option<Ciphertext>): Option<Secret>
  {
    if ct.Some? then Some(Encapsulated(ct.value.enc)) else None
  }

  function LegR(cr: Config, ct: Option<Ciphertext>): Option<Secret>
  {
    var leg := StaticLeg(cr, ct);
    if leg.Recovered? then Some(leg.secret) else None
  }

  /** The master secret each side derives from a hello and its answer. */
  function MasterI(ci: Config, ch: Body, sh: Body): Secret
    requires ch.ClientHello? && sh.ServerHello?
  {
    var accepted := ci.ticket.Some? && sh.sessionId == ForTicket(ci.ticket.value.id);
    Fold(Shared(ch.share.id, sh.random), if accepted then Some(ci.ticket.value.secret) else None,
         LegI(ch.staticCt), OwnPsk(ci))
  }

  function MasterR(cr: Config, ch: Body, sh: Body): Secret
    requires ch.ClientHello? && sh.ServerHello?
  {
    Fold(Shared(ch.share.id, sh.random), TicketSecret(cr, ch.ticket),
         LegR(cr, ch.staticCt), ChosenPsk(cr, ch.identity, sh.random))
  }

  /** The transcript before the hello that is answered: empty, or the rewritten
      first hello and the retry request. */
  function Base(p: Peers, first: Option<Body>, retried: bool): seq<Entry>
  {
    if retried then [Hashed(first.GetOr(Garbage)), Frame(RetryBody(p))] else []
  }

  function RetryBody(p: Peers): Body { HelloRetryRequest(p.cr.version, Mutual(p).GetOr(0)) }

  predicate Flown(r: Fsm) { IsServerFlight(r.cached) }

  function Hello(i: Fsm): Body { if i.cached == [] then Garbage else i.cached[0].body }
  function ShOf(r: Fsm): Body requires Flown(r) { r.cached[0].body }
  function SfOf(r: Fsm): Body requires Flown(r) { r.cached[1].body }

  /** The initiator between its first hello and completion. */
  predicate Awaiting(p: Peers, i: Fsm)
  {
    && Initiating(i) && i.expecting.Some?
    && i.hs.config == p.ci
    && HelloFrom(p.ci, Hello(i))
    && Hello(i).share == i.hs.session.keyPair && Hello(i).suite == i.hs.session.kemSuite
    && i.hs.retry.hello.Some? && HelloFrom(p.ci, i.hs.retry.hello.value)
    && i.hs.retry.hello.value.suite == p.first.suite
    && (if i.hs.retry.done then Retries(p) && Mutual(p) == Some(Hello(i).suite)
        else Hello(i) == i.hs.retry.hello.value)
    && Hello(i).random == i.hs.retry.hello.value.random && i.hs.secrets.clientRandom == Some(Hello(i).random)
    && i.hs.secrets.psk == OwnPsk(p.ci)
  }

  predicate AwaitingSh(p: Peers, i: Fsm)
  {
    && Awaiting(p, i) && i.expecting == Some(ServerHelloKind)
    && i.hs.transcript == Base(p, i.hs.retry.hello, i.hs.retry.done) + [Frame(Hello(i))]
    && i.hs.secrets.identity == LegI(Hello(i).staticCt)
    && !i.hs.secrets.resumed
    && i.hs.secrets.ticket == if p.ci.ticket.Some? then Some(p.ci.ticket.value.secret) else None
  }

  predicate AwaitingSf(p: Peers, i: Fsm, sh: Body)
  {
    && Awaiting(p, i) && i.expecting == Some(ServerFinishedKind)
    && sh.ServerHello?
    && i.hs.transcript == Base(p, i.hs.retry.hello, i.hs.retry.done) + [Frame(Hello(i)), Frame(sh)]
    && Agreed(i.hs, sh)
    && var secret := MasterI(p.ci, Hello(i), sh);
       && i.hs.secrets.shared == Some(secret)
       && i.hs.secrets.send == Some(HandshakeKey(secret, Initiator, sh.cipher))
       && i.hs.secrets.recv == Some(HandshakeKey(secret, Responder, sh.cipher))
  }

  /** The session parameters are those the ServerHello announced. */
  predicate Agreed(h: State, sh: Body)
  {
    && sh.ServerHello?
    && h.session.kemSuite == sh.suite
    && h.session.cipher == Some(sh.cipher)
    && h.session.sessionId == sh.sessionId
  }

  /** The responder before its flight. What a refused hello left behind can only
      be what the same configuration would leave again. */
  predicate Listening(p: Peers, r: Fsm, first: Option<Body>)
  {
    && Responding(r) && r.expecting == Some(ClientHelloKind) && r.hs.config == p.cr
    && r.hs.transcript == Base(p, first, r.hs.retry.done)
    && (r.hs.retry.done ==>
          && Retries(p) && Mutual(p).Some? && p.ci.version == p.cr.version
          && first.Some? && r.hs.retry.hello == first
          && r.cached == [Message(HelloRetryRequestKind, RetryBody(p))])
    && Leftovers(p, r.hs)
  }

  predicate Leftovers(p: Peers, h: State)
  {
    && (h.secrets.identity.Some? ==> p.ci.pinned.Some? && p.cr.identity.Some?)
    && (h.secrets.psk.Some? ==> ResponderPsk(p.cr, PskIdentity(p.ci)).Some? || p.cr.requirePsk)
    && (h.secrets.resumed ==> TicketSecret(p.cr, TicketId(p.ci)).Some?)
    && (if h.secrets.resumed then
          h.secrets.ticket == TicketSecret(p.cr, TicketId(p.ci)) && h.session.sessionId == ForTicket(p.ci.ticket.value.id)
        else h.session.sessionId == Own(p.idR))
  }

  /** A ServerHello this responder answers `ch` with. */
  predicate Answers(p: Peers, ch: Body, sh: Body)
  {
    && HelloFrom(p.ci, ch) && sh.ServerHello?
    && p.ci.version == p.cr.version == sh.version
    && ch.suite == sh.suite == Suite(p) && sh.suite in p.cr.kemSuites
    && sh.ct == Ciphertext(sh.suite, Encapsulation(ch.share.id, sh.random))
    && Cipher(p) == Some(sh.cipher)
    && !StaticLeg(p.cr, ch.staticCt).Refuse?
    && sh.sessionId == (if ch.ticket.Some? && OpensTicket(p.cr, ch.ticket.value) then ForTicket(ch.ticket.value)
                        else Own(p.idR))
  }

  /** The hello the responder's flight answered, as its ServerFinished records it. */
  function Answered(r: Fsm): Body
  {
    if Flown(r) && SfOf(r).Finished? then
      var t := SfOf(r).plain.verify.transcript;
      if |t| >= 2 && t[|t| - 2].Frame? then t[|t| - 2].body else Garbage
    else Garbage
  }

  predicate HasFlown(p: Peers, r: Fsm, first: Option<Body>)
  {
    && Responding(r) && r.hs.config == p.cr && Flown(r)
    && SfOf(r).Finished?
    && (r.hs.retry.done <==> Retries(p))
    && Answers(p, Answered(r), ShOf(r))
    && Agreed(r.hs, ShOf(r))
    && var secret := MasterR(p.cr, Answered(r), ShOf(r));
       var t := Base(p, first, r.hs.retry.done) + [Frame(Answered(r)), Frame(ShOf(r))];
       && SfOf(r) == Finished(HandshakeKey(secret, Responder, ShOf(r).cipher),
                              FinishedPlain(Responder, Verify(Responder, secret, t)))
       && (if r.expecting.Some? then
             && r.hs.transcript == t + [Plaintext(SfOf(r).plain)]
             && r.hs.secrets.shared == Some(secret)
             && r.hs.secrets.recv == Some(HandshakeKey(secret, Initiator, ShOf(r).cipher))
           else r.hs.session.keys == Some(DatagramSession.Established(Responder, secret)))
  }

  /** The ClientFinished that belongs to a server flight. */
  function CfFor(r: Fsm): Body
    requires Flown(r) && SfOf(r).Finished?
  {
    var sf := SfOf(r);
    Finished(HandshakeKey(sf.key.secret, Initiator, sf.key.cipher),
             FinishedPlain(Initiator, Verify(Initiator, sf.key.secret, sf.plain.verify.transcript + [Plaintext(sf.plain)])))
  }

  predicate Finishing(p: Peers, i: Fsm, r: Fsm)
  {
    && Initiating(i) && i.hs.config == p.ci && i.expecting.None?
    && Compatible(p)
    && HasFlown(p, r, i.hs.retry.hello)
    && Hello(i) == CfFor(r)
    && Agreed(i.hs, ShOf(r))
    && i.hs.session.keys == Some(DatagramSession.Established(Initiator, SfOf(r).key.secret))
  }

  predicate Unstarted(p: Peers, i: Fsm)
  {
    && i.hs.config == p.ci && i.hs.phase.Initial? && i.cached == [] && i.expecting.None? && i.prev.None? && i.early.None?
    && i.hs.session.keyPair == p.first && i.hs.session.kemSuite == p.first.suite
    && i.hs.transcript == [] && i.hs.retry == Retry(None, None, false)
    && !i.hs.secrets.resumed
    && i.hs.secrets.ticket == (if p.ci.ticket.Some? then Some(p.ci.ticket.value.secret) else None)
    && (p.ci.pinned.None? ==> i.hs.secrets.identity.None?)
    && (p.ci.psk.None? ==> i.hs.secrets.psk.None?)
  }

  predicate InitiatorSide(p: Peers, s: System)
  {
    || Unstarted(p, s.i)
    || AwaitingSh(p, s.i)
    || (Flown(s.r) && AwaitingSf(p, s.i, ShOf(s.r)))
    || Finishing(p, s.i, s.r)
  }

  predicate ResponderSide(p: Peers, s: System)
  {
    || Listening(p, s.r, s.i.hs.retry.hello)
    || HasFlown(p, s.r, s.i.hs.retry.hello)
  }

  /** Who can be where: the responder moves on hellos the initiator sent, the
      initiator on answers the responder sent. */
  predicate Joint(s: System)
  {
    && (s.i.hs.retry.done ==> s.r.hs.retry.done)
    && (s.i.cached == [] ==> !s.r.hs.retry.done && !Flown(s.r))
    && (Flown(s.r) && s.i.expecting.Some? ==> Answered(s.r) == Hello(s.i) && s.r.hs.retry.done == s.i.hs.retry.done)
    && (s.r.expecting.None? ==> s.i.hs.phase.Complete?)
  }

  ghost predicate Network(p: Peers, s: System)
  {
    && (forall b :: b in s.toR ==>
          || (b.ClientHello? && (s.i.expecting.Some? ==> b == Hello(s.i) || Some(b) == s.i.hs.retry.hello))
          || (b.Finished? && s.i.hs.phase.Complete? && b == Hello(s.i)))
    && (s.i.cached == [] ==> s.toR == {})
    && (s.i.cached != [] ==> Hello(s.i) in s.toR)
    && (forall b :: b in s.toI ==>
          || (b.HelloRetryRequest? && s.r.hs.retry.done && b == RetryBody(p))
          || (Flown(s.r) && (b == ShOf(s.r) || b == SfOf(s.r))))
    && (s.r.cached != [] ==> Bodies(s.r.cached) <= s.toI)
    && (s.i.early.Some? ==> s.i.early.value == Garbage || s.i.early.value in s.toI)
  }

  ghost predicate Inv(p: Peers, s: System)
  {
    Proper(p) && InitiatorSide(p, s) && ResponderSide(p, s) && Joint(s) && Network(p, s)
  }
}
