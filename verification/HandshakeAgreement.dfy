/** Every step of the handshake keeps the invariant of HandshakeRun: the lemmas
    follow the builders first, one per transition, then the network. */
module HandshakeAgreement {
  import opened Symbolic
  import opened Handshake
  import opened HandshakeFsm
  import opened HandshakeReplay
  import opened HandshakeRun

  // ---- the responder's steps ----

  /** Processing a hello of a known configuration in a suite the responder has. */
  lemma ProcessesHello(p: Peers, h: State, ch: Body, n: nat)
    requires HelloFrom(p.ci, ch) && ch.suite in p.cr.kemSuites
    requires h.config == p.cr && h.phase.Initial? && Leftovers(p, h)
    ensures var (g, ok) := ProcessCh(h, ch, n);
            && g.config == h.config && g.phase == h.phase && g.retry == h.retry
            && (Compatible(p) ==> ok)
            && (!ok ==> Leftovers(p, g) && g.transcript == h.transcript)
            && (ok ==>
                  && p.ci.version == p.cr.version && !StaticLeg(p.cr, ch.staticCt).Refuse?
                  && g.transcript == h.transcript + [Frame(ch)]
                  && g.session.kemSuite == ch.suite && g.session.remote == Some(ch.share)
                  && g.session.cipher == Cipher(p) && Cipher(p).Some?
                  && g.secrets.identity == LegR(p.cr, ch.staticCt)
                  && g.secrets.psk == ChosenPsk(p.cr, ch.identity, n)
                  && Resumption(g.secrets) == TicketSecret(p.cr, ch.ticket)
                  && g.session.sessionId == if TicketSecret(p.cr, ch.ticket).Some? then ForTicket(ch.ticket.value)
                                            else Own(p.idR))
  {}

  /** The flight that follows a processed hello. */
  lemma BuildsFlight(p: Peers, r: Fsm, h: State, first: Option<Body>, ch: Body, n: nat)
    requires p.cr.role.Responder? && HelloFrom(p.ci, ch) && ch.suite == Suite(p) && ch.suite in p.cr.kemSuites
    requires r.hs.retry.done == Retries(p) && r.hs.retry.pending.None?
    requires h.config == p.cr && h.retry == r.hs.retry
    requires p.ci.version == p.cr.version && !StaticLeg(p.cr, ch.staticCt).Refuse?
    requires h.transcript == Base(p, first, r.hs.retry.done) + [Frame(ch)]
    requires h.session.kemSuite == ch.suite && h.session.remote == Some(ch.share)
    requires h.session.cipher == Cipher(p) && Cipher(p).Some?
    requires h.secrets.identity == LegR(p.cr, ch.staticCt) && h.secrets.psk == ChosenPsk(p.cr, ch.identity, n)
    requires Resumption(h.secrets) == TicketSecret(p.cr, ch.ticket)
    requires h.session.sessionId == if TicketSecret(p.cr, ch.ticket).Some? then ForTicket(ch.ticket.value) else Own(p.idR)
    ensures var (h1, sh) := CreateSh(h, n);
            var (h2, sf) := CreateSf(h1);
            && sh.Some? && sf.Some?
            && var g := Committed(r, h2, ClientHelloKind,
                                  [Message(ServerHelloKind, sh.value), Message(ServerFinishedKind, sf.value)],
                                  Some(ClientFinishedKind));
               HasFlown(p, g, first) && Answered(g) == ch
  {}

  lemma AcceptsHello(p: Peers, r: Fsm, first: Option<Body>, ch: Body, n: nat)
    requires p.cr.role.Responder?
    requires Listening(p, r, first) && !RepeatsFirstHello(r, ch)
    requires HelloFrom(p.ci, ch) && ch.suite == Suite(p) && ch.suite in p.cr.kemSuites
    requires r.hs.retry.done == Retries(p)
    ensures var (g, reply) := OnClientHello(r, ch, n);
            && g.hs.retry == r.hs.retry
            && (Compatible(p) ==> Flown(g))
            && (if Flown(g) then HasFlown(p, g, first) && Answered(g) == ch && reply.out == g.cached && g.expecting.Some?
                else Listening(p, g, first) && reply.out == [] && g.cached == r.cached)
  {
    ProcessesHello(p, r.hs, ch, n);
    var (h, ok) := ProcessCh(r.hs, ch, n);
    if ok { BuildsFlight(p, r, h, first, ch, n); }
  }

  /** A hello in a suite the responder lacks: steered to the mutual suite, once. */
  lemma RetriesHello(p: Peers, r: Fsm, ch: Body, n: nat)
    requires p.cr.role.Responder?
    requires Listening(p, r, Some(ch)) && !r.hs.retry.done
    requires HelloFrom(p.ci, ch) && ch.suite == p.first.suite && Retries(p)
    ensures var (g, reply) := OnClientHello(r, ch, n);
            && Listening(p, g, Some(ch)) && !Flown(g)
            && reply.out == (if g.hs.retry.done then g.cached else [])
            && (Compatible(p) ==> g.hs.retry.done)
  {}

  /** The final step of the responder. */
  lemma VerifiesClientFinished(p: Peers, r: Fsm, first: Option<Body>, body: Body)
    requires p.cr.role.Responder?
    requires HasFlown(p, r, first) && r.expecting == Some(ClientFinishedKind)
    ensures var (g, reply) := OnClientFinished(r, body);
            && HasFlown(p, g, first) && g.cached == r.cached && g.hs.retry == r.hs.retry && reply.out == []
            && (g.expecting.None? <==> Verifies(r.hs, body))
            && (body == CfFor(r) ==> Verifies(r.hs, body))
  {
    hide Answers, MasterR, Base, Leftovers;
  }

  // ---- the initiator's steps ----

  lemma Greets(p: Peers, i: Fsm, n: nat)
    requires p.ci.role.Initiator?
    requires Unstarted(p, i)
    ensures var (g, reply) := Started(i, n);
            if CanGreet(p.ci) then AwaitingSh(p, g) && !g.hs.retry.done && g.early.None? && reply.out == g.cached
            else Unstarted(p, g) && reply.out == []
  {}

  lemma AdoptsSuite(p: Peers, i: Fsm, n: nat)
    requires p.ci.role.Initiator?
    requires AwaitingSh(p, i) && !i.hs.retry.done
    requires Retries(p) && Mutual(p).Some? && p.ci.version == p.cr.version
    ensures var (g, reply) := OnRetryRequest(i, RetryBody(p), n);
            && AwaitingSh(p, g) && g.hs.retry == i.hs.retry.(done := true) && g.early == i.early
            && reply.out == g.cached && Hello(g).share == PublicKey(Mutual(p).value, n)
  {}

  /** The initiator derives its master secret from the answer to its own hello. */
  lemma ProcessesServerHello(p: Peers, i: Fsm, sh: Body)
    requires p.ci.role.Initiator?
    requires AwaitingSh(p, i) && Answers(p, Hello(i), sh)
    ensures var (h, ok) := ProcessSh(i.hs, sh);
            && ok && h.retry == i.hs.retry
            && AwaitingSf(p, i.(hs := h, prev := Some(ServerHelloKind), expecting := Some(ServerFinishedKind),
                                early := None), sh)
  {
    var h := i.hs;
    assert Decapsulate(sh.ct.enc, h.session.keyPair.id) == Shared(Hello(i).share.id, sh.random);
  }

  /** The two master secrets are equal exactly when the folded inputs agree. */
  lemma MastersAgree(p: Peers, ch: Body, sh: Body)
    requires Answers(p, ch, sh)
    ensures MasterI(p.ci, ch, sh) == MasterR(p.cr, ch, sh) <==>
            StaticAgrees(p.ci, p.cr) && PskAgrees(p.ci, p.cr) && TicketAgrees(p.ci, p.cr)
  {
    var accepted := p.ci.ticket.Some? && sh.sessionId == ForTicket(p.ci.ticket.value.id);
    FoldInjective(Shared(ch.share.id, sh.random), if accepted then Some(p.ci.ticket.value.secret) else None,
                  LegI(ch.staticCt), OwnPsk(p.ci),
                  Shared(ch.share.id, sh.random), TicketSecret(p.cr, ch.ticket),
                  LegR(p.cr, ch.staticCt), ChosenPsk(p.cr, ch.identity, sh.random));
    LegsAgree(p, ch);
    PsksAgree(p, ch, sh.random);
    TicketsAgree(p, ch, sh);
  }

  lemma LegsAgree(p: Peers, ch: Body)
    requires HelloFrom(p.ci, ch) && !StaticLeg(p.cr, ch.staticCt).Refuse?
    ensures LegI(ch.staticCt) == LegR(p.cr, ch.staticCt) <==> StaticAgrees(p.ci, p.cr)
  {}

  /** Which PSK an identity gets is what the configuration lists for it. */
  lemma PskIsListed(c: Config, identity: string, key: nat)
    ensures ResponderPsk(c, identity) == Some(key) <==> Lists(c, identity, key)
  {}

  lemma PsksAgree(p: Peers, ch: Body, n: nat)
    requires HelloFrom(p.ci, ch)
    ensures OwnPsk(p.ci) == ChosenPsk(p.cr, ch.identity, n) <==> PskAgrees(p.ci, p.cr)
  {}

  lemma TicketsAgree(p: Peers, ch: Body, sh: Body)
    requires Answers(p, ch, sh)
    ensures var accepted := p.ci.ticket.Some? && sh.sessionId == ForTicket(p.ci.ticket.value.id);
            (if accepted then Some(p.ci.ticket.value.secret) else None) == TicketSecret(p.cr, ch.ticket)
            <==> TicketAgrees(p.ci, p.cr)
  {}

  /** The ServerFinished verifies exactly between compatible peers. */
  lemma VerifiesServerFinished(p: Peers, i: Fsm, r: Fsm)
    requires Proper(p)
    requires HasFlown(p, r, i.hs.retry.hello) && AwaitingSf(p, i, ShOf(r))
    requires Answered(r) == Hello(i) && r.hs.retry.done == i.hs.retry.done
    ensures Verifies(i.hs, SfOf(r)) <==> Compatible(p)
    ensures var (g, reply) := OnServerFinished(i, SfOf(r));
            if Compatible(p) then
              Finishing(p, g, r) && reply.out == g.cached && g.hs.retry == i.hs.retry && g.early == i.early
            else g == i && reply.out == []
  {
    MastersAgree(p, Hello(i), ShOf(r));
  }

  // ---- the invariant over every step ----

  lemma InitialInv(p: Peers)
    requires Proper(p)
    ensures Inv(p, HandshakeRun.Initial(p))
  {}

  lemma StartInv(p: Peers, s: System, n: nat)
    requires Inv(p, s)
    ensures Inv(p, Next(s, Start(n)))
  {
    if s.i.cached == [] { Greets(p, s.i, n); }
  }

  /** A machine that keeps its state and repeats its cached flight adds nothing. */
  lemma ResponderRepeats(s: System, kind: Kind, body: Body, n: nat)
    requires s.r.cached == [] || Bodies(s.r.cached) <= s.toI
    requires var (f, reply) := Received(s.r, kind, body, n); f == s.r && (reply.out == [] || reply.out == s.r.cached)
    ensures Next(s, ToResponder(kind, body, n)) == s
  {
    assert Next(s, ToResponder(kind, body, n)).toI == s.toI;
  }

  lemma InitiatorRepeats(s: System, kind: Kind, body: Body, n: nat)
    requires s.i.cached == [] || (|s.i.cached| == 1 && Hello(s.i) in s.toR)
    requires var (f, reply) := Received(s.i, kind, body, n); f == s.i && (reply.out == [] || reply.out == s.i.cached)
    ensures Next(s, ToInitiator(kind, body, n)) == s
  {
    if s.i.cached != [] { assert Bodies(s.i.cached) == {Hello(s.i)}; }
    assert Next(s, ToInitiator(kind, body, n)).toR == s.toR;
  }

  /** Replacing the responder by one further along keeps the invariant, once its
      new flight is in the network. */
  lemma ResponderMoves(p: Peers, s: System, g: Fsm, out: seq<Message>)
    requires Inv(p, s) && !Flown(s.r)
    requires out == [] || out == g.cached
    requires out == [] ==> g.cached == s.r.cached && g.hs.retry.done == s.r.hs.retry.done
    requires s.r.hs.retry.done ==> g.hs.retry.done
    requires s.i.cached != [] && g.expecting.Some?
    requires if Flown(g) then
               && HasFlown(p, g, s.i.hs.retry.hello) && Answered(g) == Hello(s.i)
               && g.hs.retry.done == s.r.hs.retry.done == s.i.hs.retry.done
             else Listening(p, g, s.i.hs.retry.hello)
    ensures Inv(p, s.(r := g, toI := s.toI + Bodies(out)))
  {
    hide HelloFrom, Answers, MasterR, Leftovers, Agreed, Base, Compatible, MasterI;
    assert AwaitingSh(p, s.i);
    if Flown(g) && out != [] {
      assert Bodies(out) == {ShOf(g), SfOf(g)};
    } else if out != [] {
      assert Bodies(out) == {g.cached[0].body};
    }
  }

  lemma HelloRefused(r: Fsm, body: Body, n: nat)
    requires Responding(r) && r.expecting == Some(ClientHelloKind)
    requires RepeatsFirstHello(r, body) || !body.ClientHello?
    ensures var (g, reply) := Received(r, ClientHelloKind, body, n); g == r && (reply.out == [] || reply.out == r.cached)
  {}

  lemma HelloInv(p: Peers, s: System, body: Body, n: nat)
    requires Inv(p, s) && (body in s.toR || body == Garbage)
    requires s.r.expecting == Some(ClientHelloKind)
    ensures Inv(p, Next(s, ToResponder(ClientHelloKind, body, n)))
  {
    hide HelloFrom, Answers, MasterR, Leftovers, Agreed, Base, Compatible, MasterI, OnClientHello;
    var (g, reply) := OnClientHello(s.r, body, n);
    if RepeatsFirstHello(s.r, body) || !body.ClientHello? {
      HelloRefused(s.r, body, n);
      ResponderRepeats(s, ClientHelloKind, body, n);
    } else {
      var first := s.i.hs.retry.hello;
      assert body == Hello(s.i) && AwaitingSh(p, s.i);
      if s.r.hs.retry.done || !Retries(p) {
        AcceptsHello(p, s.r, first, body, n);
      } else {
        RetriesHello(p, s.r, body, n);
      }
      ResponderMoves(p, s, g, reply.out);
    }
  }

  lemma ClientFinishedInv(p: Peers, s: System, body: Body, n: nat)
    requires Inv(p, s) && (body in s.toR || body == Garbage)
    requires s.r.expecting == Some(ClientFinishedKind)
    ensures Inv(p, Next(s, ToResponder(ClientFinishedKind, body, n)))
  {
    hide HelloFrom, Answers, MasterR, Leftovers, Agreed, Base, Compatible, MasterI, OnClientFinished, Awaiting;
    VerifiesClientFinished(p, s.r, s.i.hs.retry.hello, body);
    assert s.toI + Bodies([]) == s.toI;
    ResponderEnds(p, s, OnClientFinished(s.r, body).0);
  }

  /** The responder took a last flight: its own flight stays, and it is done only
      with the initiator's. */
  lemma ResponderEnds(p: Peers, s: System, g: Fsm)
    requires Inv(p, s) && Flown(s.r)
    requires HasFlown(p, g, s.i.hs.retry.hello) && g.cached == s.r.cached && g.hs.retry == s.r.hs.retry
    requires g.expecting.None? ==> s.i.hs.phase.Complete?
    ensures Inv(p, s.(r := g))
  {}

  lemma ToResponderInv(p: Peers, s: System, kind: Kind, body: Body, n: nat)
    requires Inv(p, s) && (body in s.toR || body == Garbage)
    ensures Inv(p, Next(s, ToResponder(kind, body, n)))
  {
    hide HelloFrom, Answers, MasterR, Leftovers, Agreed, Base, Compatible, MasterI, Received, Awaiting;
    if s.r.expecting == Some(kind) && kind == ClientHelloKind {
      HelloInv(p, s, body, n);
    } else if s.r.expecting == Some(kind) && kind == ClientFinishedKind {
      ClientFinishedInv(p, s, body, n);
    } else {
      ResponderIgnores(s.r, kind, body, n);
      ResponderRepeats(s, kind, body, n);
    }
  }

  lemma ResponderIgnores(r: Fsm, kind: Kind, body: Body, n: nat)
    requires Responding(r) && (r.expecting == Some(kind) ==> kind != ClientHelloKind && kind != ClientFinishedKind)
    ensures var (f, reply) := Received(r, kind, body, n); f == r && (reply.out == [] || reply.out == r.cached)
  {}

  /** The initiator took up the ServerHello. */
  lemma InitiatorDerives(p: Peers, s: System, g: Fsm)
    requires Inv(p, s) && s.i.expecting.Some? && Flown(s.r)
    requires g.hs.retry == s.i.hs.retry && (g.early.Some? ==> g.early == s.i.early)
    requires g.cached == s.i.cached && AwaitingSf(p, g, ShOf(s.r))
    ensures Inv(p, s.(i := g))
  {}

  /** The initiator took up the ServerFinished: its last flight is on its way. */
  lemma InitiatorFinishes(p: Peers, s: System, g: Fsm)
    requires Inv(p, s) && s.i.expecting.Some? && Flown(s.r)
    requires g.hs.retry == s.i.hs.retry && (g.early.Some? ==> g.early == s.i.early)
    requires Finishing(p, g, s.r)
    ensures Inv(p, s.(i := g, toR := s.toR + Bodies(g.cached)))
  {
    hide HelloFrom, Answers, MasterR, Leftovers, Agreed, Base, MasterI, Network;
    FinishesNetwork(p, s, g);
  }

  lemma FinishesNetwork(p: Peers, s: System, g: Fsm)
    requires Network(p, s) && s.i.expecting.Some? && !s.i.hs.phase.Complete?
    requires |g.cached| == 1 && Hello(g).Finished? && g.hs.phase.Complete? && g.expecting.None?
    requires g.early.Some? ==> g.early == s.i.early
    ensures Network(p, s.(i := g, toR := s.toR + Bodies(g.cached)))
  {
    assert Bodies(g.cached) == {Hello(g)};
  }

  lemma ServerFinishedStep(p: Peers, s: System, f: Fsm, body: Body)
    requires Inv(p, s) && s.i.expecting.Some? && Flown(s.r)
    requires AwaitingSf(p, f, ShOf(s.r)) && f.hs.retry == s.i.hs.retry && f.cached == s.i.cached
    requires f.early.None? || f.early == s.i.early
    requires body in s.toI || body == Garbage
    ensures var (g, reply) := OnServerFinished(f, body); Inv(p, s.(i := g, toR := s.toR + Bodies(reply.out)))
  {
    hide HelloFrom, Answers, MasterR, Leftovers, Agreed, Base, Compatible, MasterI;
    var (g, reply) := OnServerFinished(f, body);
    if body == SfOf(s.r) {
      VerifiesServerFinished(p, f, s.r);
    } else {
      assert !body.Finished?;
    }
    if reply.out == [] {
      assert s.toR + Bodies(reply.out) == s.toR;
      InitiatorDerives(p, s, g);
    } else {
      InitiatorFinishes(p, s, g);
    }
  }

  /** A ServerFinished held back is taken up right after its ServerHello. */
  lemma ServerHelloTaken(p: Peers, s: System, f: Fsm)
    requires Inv(p, s) && s.i.expecting.Some? && Flown(s.r) && AwaitingSf(p, f, ShOf(s.r))
    requires f.hs.retry == s.i.hs.retry && f.cached == s.i.cached && f.early.None?
    ensures var (g, reply) := if s.i.early.Some? then OnServerFinished(f, s.i.early.value) else (f, DROPPED);
            Inv(p, s.(i := g, toR := s.toR + Bodies(reply.out)))
  {
    if s.i.early.Some? {
      ServerFinishedStep(p, s, f, s.i.early.value);
    } else {
      assert s.toR + Bodies([]) == s.toR;
      InitiatorDerives(p, s, f);
    }
  }

  lemma AnswerRefused(i: Fsm, kind: Kind, body: Body, n: nat)
    requires Initiating(i) && i.expecting == Some(ServerHelloKind)
    requires (kind == ServerHelloKind && !body.ServerHello?) || (kind == HelloRetryRequestKind && !body.HelloRetryRequest?)
    ensures var (g, reply) := Received(i, kind, body, n); g == i && (reply.out == [] || reply.out == i.cached)
  {}

  /** A ServerHello on its way to a waiting initiator answers its hello. */
  lemma IsTheAnswer(p: Peers, s: System, body: Body)
    requires Inv(p, s) && body in s.toI && body.ServerHello? && s.i.expecting == Some(ServerHelloKind)
    ensures AwaitingSh(p, s.i) && Flown(s.r) && body == ShOf(s.r) && Answers(p, Hello(s.i), body)
  {
    hide HelloFrom, MasterR, Leftovers, Agreed, Base, Compatible, MasterI;
  }

  lemma ServerHelloInv(p: Peers, s: System, body: Body, n: nat)
    requires Inv(p, s) && (body in s.toI || body == Garbage)
    requires s.i.expecting == Some(ServerHelloKind)
    ensures Inv(p, Next(s, ToInitiator(ServerHelloKind, body, n)))
  {
    hide HelloFrom, Answers, MasterR, Leftovers, Agreed, Base, Compatible, MasterI, ProcessSh, OnServerFinished, HasKeys;
    if !body.ServerHello? {
      AnswerRefused(s.i, ServerHelloKind, body, n);
      InitiatorRepeats(s, ServerHelloKind, body, n);
    } else {
      IsTheAnswer(p, s, body);
      ProcessesServerHello(p, s.i, body);
      var h := ProcessSh(s.i.hs, body).0;
      var f := s.i.(hs := h, prev := Some(ServerHelloKind), expecting := Some(ServerFinishedKind), early := None);
      ServerHelloTaken(p, s, f);
    }
  }

  lemma RetryInv(p: Peers, s: System, body: Body, n: nat)
    requires Inv(p, s) && (body in s.toI || body == Garbage)
    requires s.i.expecting == Some(ServerHelloKind) && !s.i.hs.retry.done
    ensures Inv(p, Next(s, ToInitiator(HelloRetryRequestKind, body, n)))
  {
    hide HelloFrom, MasterR, Leftovers, Agreed, Compatible, MasterI, OnRetryRequest;
    if !body.HelloRetryRequest? {
      AnswerRefused(s.i, HelloRetryRequestKind, body, n);
      InitiatorRepeats(s, HelloRetryRequestKind, body, n);
    } else {
      assert Listening(p, s.r, s.i.hs.retry.hello);
      AdoptsSuite(p, s.i, n);
      InitiatorRetries(p, s, OnRetryRequest(s.i, body, n).0);
    }
  }

  /** The initiator took up the retry request: its second hello is on its way. */
  lemma InitiatorRetries(p: Peers, s: System, g: Fsm)
    requires Inv(p, s) && Listening(p, s.r, s.i.hs.retry.hello) && s.r.hs.retry.done
    requires s.i.expecting == Some(ServerHelloKind) && !s.i.hs.retry.done
    requires AwaitingSh(p, g) && g.hs.retry == s.i.hs.retry.(done := true) && g.early == s.i.early
    ensures Inv(p, s.(i := g, toR := s.toR + Bodies(g.cached)))
  {
    hide Answers, MasterR, Leftovers, Agreed, Compatible, MasterI, Base;
    assert Bodies(g.cached) == {Hello(g)};
  }

  lemma EarlyInv(p: Peers, s: System, body: Body, n: nat)
    requires Inv(p, s) && (body in s.toI || body == Garbage)
    requires s.i.expecting == Some(ServerHelloKind)
    ensures Inv(p, Next(s, ToInitiator(ServerFinishedKind, body, n)))
  {
    hide HelloFrom, Answers, MasterR, Leftovers, Agreed, Base, Compatible, MasterI, HasFlown;
    var s' := Next(s, ToInitiator(ServerFinishedKind, body, n));
    assert s'.toR == s.toR && s'.i == s.i.(early := Some(body));
    assert AwaitingSh(p, s'.i);
  }

  lemma InitiatorIgnores(i: Fsm, kind: Kind, body: Body, n: nat)
    requires i.hs.config.role.Initiator?
    requires i.expecting == Some(ServerHelloKind) ==>
             kind != ServerHelloKind && kind != ServerFinishedKind && (kind == HelloRetryRequestKind ==> i.hs.retry.done)
    requires i.expecting == Some(ServerFinishedKind) ==> kind != ServerFinishedKind
    requires i.expecting in {None, Some(ServerHelloKind), Some(ServerFinishedKind)}
    ensures var (f, reply) := Received(i, kind, body, n); f == i && (reply.out == [] || reply.out == i.cached)
  {}

  lemma IgnoredInv(p: Peers, s: System, kind: Kind, body: Body, n: nat)
    requires Inv(p, s)
    requires s.i.expecting == Some(ServerHelloKind) ==>
             kind != ServerHelloKind && kind != ServerFinishedKind && (kind == HelloRetryRequestKind ==> s.i.hs.retry.done)
    requires s.i.expecting == Some(ServerFinishedKind) ==> kind != ServerFinishedKind
    ensures Inv(p, Next(s, ToInitiator(kind, body, n)))
  {
    hide HelloFrom, Answers, MasterR, Leftovers, Agreed, Base, Compatible, MasterI, Received;
    InitiatorIgnores(s.i, kind, body, n);
    InitiatorRepeats(s, kind, body, n);
  }

  lemma AwaitingHelloInv(p: Peers, s: System, kind: Kind, body: Body, n: nat)
    requires Inv(p, s) && (body in s.toI || body == Garbage) && s.i.expecting == Some(ServerHelloKind)
    ensures Inv(p, Next(s, ToInitiator(kind, body, n)))
  {
    if kind == ServerHelloKind {
      ServerHelloInv(p, s, body, n);
    } else if kind == HelloRetryRequestKind && !s.i.hs.retry.done {
      RetryInv(p, s, body, n);
    } else if kind == ServerFinishedKind {
      EarlyInv(p, s, body, n);
    } else {
      IgnoredInv(p, s, kind, body, n);
    }
  }

  lemma ServerFinishedInv(p: Peers, s: System, body: Body, n: nat)
    requires Inv(p, s) && (body in s.toI || body == Garbage) && s.i.expecting == Some(ServerFinishedKind)
    ensures Inv(p, Next(s, ToInitiator(ServerFinishedKind, body, n)))
  {
    hide HelloFrom, Answers, MasterR, Leftovers, Agreed, Base, Compatible, MasterI, OnServerFinished, Network, Joint;
    ServerFinishedStep(p, s, s.i, body);
  }

  lemma ToInitiatorInv(p: Peers, s: System, kind: Kind, body: Body, n: nat)
    requires Inv(p, s) && (body in s.toI || body == Garbage)
    ensures Inv(p, Next(s, ToInitiator(kind, body, n)))
  {
    if s.i.expecting == Some(ServerHelloKind) {
      AwaitingHelloInv(p, s, kind, body, n);
    } else if s.i.expecting == Some(ServerFinishedKind) && kind == ServerFinishedKind {
      ServerFinishedInv(p, s, body, n);
    } else {
      IgnoredInv(p, s, kind, body, n);
    }
  }

  lemma OverrunInv(p: Peers, s: System, to: Role)
    requires Inv(p, s)
    ensures Inv(p, Next(s, Overrun(to)))
  {
    hide HelloFrom, Answers, MasterR, Leftovers, Agreed, Base, Compatible, MasterI, Awaiting;
  }

  lemma {:induction false} RunInv(p: Peers, s: System, steps: seq<Step>)
    requires Inv(p, s) && Run(s, steps)
    ensures Inv(p, End(s, steps))
    decreases |steps|
  {
    hide Inv, Next;
    if steps != [] {
      match steps[0] {
        case Start(n) => StartInv(p, s, n);
        case ToResponder(kind, body, n) => ToResponderInv(p, s, kind, body, n);
        case ToInitiator(kind, body, n) => ToInitiatorInv(p, s, kind, body, n);
        case Overrun(to) => OverrunInv(p, s, to);
      }
      RunInv(p, Next(s, steps[0]), steps[1..]);
    }
  }
}
