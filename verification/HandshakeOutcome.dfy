/** What every run of the handshake ends in: agreement whenever both peers
    complete, no completion at all between peers whose credentials or suites do
    not fit, and a way to completion from every point of a run between peers
    that do, exactly as long as no hello decoder has faulted. */
module HandshakeOutcome {
  import opened Symbolic
  import opened Handshake
  import opened HandshakeFsm
  import opened HandshakeReplay
  import opened HandshakeRun
  import opened HandshakeAgreement
  import DatagramSession
  import DatagramRekey

  predicate Complete(f: Fsm) { f.hs.phase.Complete? }

  /** What a completed initiator and the responder share: the flight the responder
      sent, and with it secret, suites, session id and transcript. */
  predicate Agree(p: Peers, s: System, master: Secret)
  {
    && Flown(s.r) && SfOf(s.r).Finished? && Hello(s.i).Finished?
    && s.i.hs.session.keys == Some(DatagramSession.Established(Initiator, master))
    && SfOf(s.r).plain.verify.secret == Hello(s.i).plain.verify.secret == master
    && Hello(s.i).plain.verify.transcript == SfOf(s.r).plain.verify.transcript + [Plaintext(SfOf(s.r).plain)]
    && s.i.hs.session.kemSuite == s.r.hs.session.kemSuite == Suite(p)
    && s.i.hs.session.cipher == s.r.hs.session.cipher == Cipher(p)
    && s.i.hs.session.sessionId == s.r.hs.session.sessionId
  }

  /** Agreement, over every run: a completed initiator agrees with the responder,
      a completed responder has a completed initiator, and two completed peers
      hold the sessions the rekey protocol starts from. */
  lemma Agreement(p: Peers, steps: seq<Step>) returns (master: Secret)
    requires Proper(p) && Run(HandshakeRun.Initial(p), steps)
    ensures var s := End(HandshakeRun.Initial(p), steps);
            && (Complete(s.i) ==> Agree(p, s, master))
            && (Complete(s.r) ==> Complete(s.i))
            && (Complete(s.i) && Complete(s.r) ==>
                  && s.i.hs.session.keys == Some(DatagramRekey.Initial(master).i)
                  && s.r.hs.session.keys == Some(DatagramRekey.Initial(master).r))
  {
    hide HelloFrom, MasterR, Leftovers, Base, Compatible, MasterI;
    InitialInv(p);
    RunInv(p, HandshakeRun.Initial(p), steps);
    var s := End(HandshakeRun.Initial(p), steps);
    master := if Flown(s.r) && SfOf(s.r).Finished? then SfOf(s.r).key.secret else Shared(0, 0);
    if Complete(s.i) { assert Finishing(p, s.i, s.r); }
    if Complete(s.r) { assert HasFlown(p, s.r, s.i.hs.retry.hello); }
  }

  /** Fail closed, over every run: when what the two sides fold in differs (a pin
      without or beside the matching identity, a PSK only one side has or that
      differs, a dummy PSK, a ticket opening to another secret), or no version or
      suite is shared, neither side ever completes. */
  lemma FailsClosed(p: Peers, steps: seq<Step>)
    requires Proper(p) && !Compatible(p) && Run(HandshakeRun.Initial(p), steps)
    ensures var s := End(HandshakeRun.Initial(p), steps); !Complete(s.i) && !Complete(s.r)
  {
    InitialInv(p);
    RunInv(p, HandshakeRun.Initial(p), steps);
  }

  /** Every hello in the network while the initiator waits is one its configuration
      makes, and a retried one carries the random of the first. */
  lemma HellosOfOneRandom(p: Peers, steps: seq<Step>, b: Body)
    requires Proper(p) && Run(HandshakeRun.Initial(p), steps)
    ensures var s := End(HandshakeRun.Initial(p), steps);
            b in s.toR && b.ClientHello? && s.i.expecting.Some? ==>
              && HelloFrom(p.ci, b) && Hello(s.i).ClientHello? && b.random == Hello(s.i).random
              && (b.suite == p.first.suite || (Retries(p) && Mutual(p) == Some(b.suite)))
  {
    InitialInv(p);
    RunInv(p, HandshakeRun.Initial(p), steps);
    WaitingHellos(p, End(HandshakeRun.Initial(p), steps), b);
  }

  lemma WaitingHellos(p: Peers, s: System, b: Body)
    requires Inv(p, s)
    ensures b in s.toR && b.ClientHello? && s.i.expecting.Some? ==>
              && HelloFrom(p.ci, b) && Hello(s.i).ClientHello? && b.random == Hello(s.i).random
              && (b.suite == p.first.suite || (Retries(p) && Mutual(p) == Some(b.suite)))
  {
    hide Answers, MasterR, Leftovers, Agreed, Base, MasterI, Compatible;
  }

  /** Over every run, a peer that has completed keeps its session and none of the
      handshake's secrets: no shared secret, no handshake keys, no random and no
      transcript. */
  lemma SecretsErased(p: Peers, steps: seq<Step>)
    requires Proper(p) && Run(HandshakeRun.Initial(p), steps)
    ensures var s := End(HandshakeRun.Initial(p), steps);
            (Complete(s.i) ==> Erased(s.i.hs)) && (Complete(s.r) ==> Erased(s.r.hs))
  {
    ErasedRun(HandshakeRun.Initial(p), steps);
  }

  predicate Erased(h: State)
  {
    && h.session.keys.Some? && h.secrets.shared.None? && h.secrets.identity.None?
    && h.secrets.send.None? && h.secrets.recv.None? && h.secrets.clientRandom.None? && h.transcript == []
  }

  /** The static secret is gone once the keys are derived; a completed machine
      holds nothing. */
  predicate Tidy(f: Fsm)
  {
    && (f.hs.phase.Complete? ==> Erased(f.hs) && f.expecting.None?)
    && (f.hs.phase in {ServerHelloSent, ServerFinishedSent, ServerHelloReceived, ServerFinishedReceived} ==>
          f.hs.secrets.identity.None?)
  }

  lemma TidyServerFinished(f: Fsm, body: Body)
    requires Tidy(f)
    ensures Tidy(OnServerFinished(f, body).0)
  {}

  lemma TidyServerHello(f: Fsm, body: Body)
    requires Tidy(f)
    ensures Tidy(OnServerHello(f, body).0)
  {
    hide OnServerFinished;
    if f.early.Some? && ProcessSh(f.hs, body).1 {
      var f1 := f.(hs := ProcessSh(f.hs, body).0, prev := Some(ServerHelloKind), expecting := Some(ServerFinishedKind),
                   early := None);
      TidyServerFinished(f1, f.early.value);
    }
  }

  lemma TidyRetryRequest(f: Fsm, body: Body, n: nat)
    requires Tidy(f)
    ensures Tidy(OnRetryRequest(f, body, n).0)
  {}

  lemma TidyClientHello(f: Fsm, body: Body, n: nat)
    requires Tidy(f)
    ensures Tidy(OnClientHello(f, body, n).0)
  {}

  lemma TidyClientFinished(f: Fsm, body: Body)
    requires Tidy(f)
    ensures Tidy(OnClientFinished(f, body).0)
  {}

  lemma TidyReceived(f: Fsm, kind: Kind, body: Body, n: nat)
    requires Tidy(f)
    ensures Tidy(Received(f, kind, body, n).0)
  {
    hide OnServerFinished, OnServerHello, OnRetryRequest, OnClientHello, OnClientFinished;
    TidyServerFinished(f, body);
    TidyServerHello(f, body);
    TidyRetryRequest(f, body, n);
    TidyClientHello(f, body, n);
    TidyClientFinished(f, body);
  }

  lemma {:induction false} ErasedRun(s: System, steps: seq<Step>)
    requires Tidy(s.i) && Tidy(s.r) && Run(s, steps)
    ensures Tidy(End(s, steps).i) && Tidy(End(s, steps).r)
    decreases |steps|
  {
    hide Received, Tidy;
    if steps != [] {
      TidyStep(s, steps[0]);
      ErasedRun(Next(s, steps[0]), steps[1..]);
    }
  }

  lemma TidyStep(s: System, step: Step)
    requires Tidy(s.i) && Tidy(s.r)
    ensures Tidy(Next(s, step).i) && Tidy(Next(s, step).r)
  {
    hide Received, Tidy;
    match step
    case Start(n) => TidyStarted(s.i, n);
    case ToResponder(kind, body, n) => TidyReceived(s.r, kind, body, n);
    case ToInitiator(kind, body, n) => TidyReceived(s.i, kind, body, n);
    case Overrun(_) =>
  }

  lemma TidyStarted(f: Fsm, n: nat)
    requires Tidy(f)
    ensures Tidy(Started(f, n).0)
  {}

  // ---- recovery ----

  /** Messages still needed, from whatever point the peers are at. */
  function Missing(s: System): nat
  {
    if s.i.cached == [] then 7
    else if Complete(s.r) then 0
    else if Complete(s.i) then 1
    else if s.i.expecting == Some(ServerFinishedKind) then 2
    else if Flown(s.r) then 3
    else if s.i.hs.retry.done then 4
    else if s.r.hs.retry.done then 5
    else 6
  }

  lemma StartProgress(p: Peers, s: System)
    requires Inv(p, s) && Compatible(p) && s.i.cached == []
    ensures Missing(Next(s, Start(0))) < Missing(s)
  {
    hide HelloFrom, Answers, MasterR, Leftovers, Agreed, Base, MasterI, Started;
    Greets(p, s.i, 0);
  }

  lemma HelloProgress(p: Peers, s: System)
    requires Inv(p, s) && Compatible(p) && Missing(s) in {4, 6}
    ensures Hello(s.i) in s.toR && Missing(Next(s, ToResponder(ClientHelloKind, Hello(s.i), 0))) < Missing(s)
  {
    hide HelloFrom, Answers, MasterR, Leftovers, Agreed, Base, MasterI, OnClientHello;
    assert AwaitingSh(p, s.i) && Listening(p, s.r, s.i.hs.retry.hello);
    if s.r.hs.retry.done || !Retries(p) {
      AcceptsHello(p, s.r, s.i.hs.retry.hello, Hello(s.i), 0);
    } else {
      RetriesHello(p, s.r, Hello(s.i), 0);
    }
  }

  lemma RetryProgress(p: Peers, s: System)
    requires Inv(p, s) && Compatible(p) && Missing(s) == 5
    ensures RetryBody(p) in s.toI && Missing(Next(s, ToInitiator(HelloRetryRequestKind, RetryBody(p), 0))) < Missing(s)
  {
    hide HelloFrom, Answers, MasterR, Leftovers, Agreed, Base, MasterI, OnRetryRequest;
    assert AwaitingSh(p, s.i) && Listening(p, s.r, s.i.hs.retry.hello);
    assert s.r.cached[0] in s.r.cached;
    AdoptsSuite(p, s.i, 0);
  }

  lemma AnswerTaken(i: Fsm, sh: Body, n: nat)
    requires i.hs.config.role.Initiator? && i.expecting == Some(ServerHelloKind) && i.cached != []
    requires ProcessSh(i.hs, sh).1
    ensures var g := Received(i, ServerHelloKind, sh, n).0;
            g.cached != [] && (Complete(g) || g.expecting == Some(ServerFinishedKind))
  {
    hide ProcessSh;
  }

  lemma ServerHelloProgress(p: Peers, s: System)
    requires Inv(p, s) && Compatible(p) && Missing(s) == 3
    ensures ShOf(s.r) in s.toI && Missing(Next(s, ToInitiator(ServerHelloKind, ShOf(s.r), 0))) < Missing(s)
  {
    hide HelloFrom, MasterR, Leftovers, Agreed, Base, MasterI, ProcessSh, Received;
    assert AwaitingSh(p, s.i);
    assert s.r.cached[0] in s.r.cached;
    ProcessesServerHello(p, s.i, ShOf(s.r));
    AnswerTaken(s.i, ShOf(s.r), 0);
  }

  lemma ServerFinishedProgress(p: Peers, s: System)
    requires Inv(p, s) && Compatible(p) && Missing(s) == 2
    ensures Flown(s.r) && SfOf(s.r) in s.toI
    ensures Missing(Next(s, ToInitiator(ServerFinishedKind, SfOf(s.r), 0))) < Missing(s)
  {
    hide HelloFrom, Answers, MasterR, Leftovers, Agreed, Base, MasterI, OnServerFinished;
    assert s.r.cached[1] in s.r.cached;
    VerifiesServerFinished(p, s.i, s.r);
  }

  lemma ClientFinishedProgress(p: Peers, s: System)
    requires Inv(p, s) && Compatible(p) && Missing(s) == 1
    ensures Hello(s.i) in s.toR && Missing(Next(s, ToResponder(ClientFinishedKind, Hello(s.i), 0))) < Missing(s)
  {
    hide HelloFrom, Answers, MasterR, Leftovers, Agreed, Base, MasterI, OnClientFinished;
    assert Finishing(p, s.i, s.r);
    VerifiesClientFinished(p, s.r, s.i.hs.retry.hello, Hello(s.i));
  }

  lemma Progress(p: Peers, s: System) returns (step: Step)
    requires Inv(p, s) && Compatible(p) && Missing(s) > 0 && s.gone == {}
    ensures Enabled(s, step) && Missing(Next(s, step)) < Missing(s) && Next(s, step).gone == {}
  {
    match Missing(s) {
      case 7 => step := Start(0); StartProgress(p, s);
      case 5 => step := ToInitiator(HelloRetryRequestKind, RetryBody(p), 0); RetryProgress(p, s);
      case 3 => step := ToInitiator(ServerHelloKind, ShOf(s.r), 0); ServerHelloProgress(p, s);
      case 2 => ServerFinishedProgress(p, s); step := ToInitiator(ServerFinishedKind, SfOf(s.r), 0);
      case 1 => step := ToResponder(ClientFinishedKind, Hello(s.i), 0); ClientFinishedProgress(p, s);
      case _ => step := ToResponder(ClientHelloKind, Hello(s.i), 0); HelloProgress(p, s);
    }
  }

  lemma BothDone(p: Peers, s: System)
    requires Inv(p, s) && Missing(s) == 0
    ensures Complete(s.i) && Complete(s.r)
  {}

  lemma {:induction false} Finishes(p: Peers, s: System) returns (more: seq<Step>)
    requires Inv(p, s) && Compatible(p) && s.gone == {}
    ensures Run(s, more) && |more| <= Missing(s)
    ensures Complete(End(s, more).i) && Complete(End(s, more).r)
    decreases Missing(s)
  {
    hide Inv, Next, Enabled, Compatible;
    if Missing(s) == 0 {
      more := [];
      BothDone(p, s);
    } else {
      var step := Progress(p, s);
      var t := Next(s, step);
      assert Run(s, [step]);
      RunInv(p, s, [step]);
      assert End(s, [step]) == End(t, []) == t;
      var rest := Finishes(p, t);
      more := [step] + rest;
      assert more[1..] == rest;
    }
  }

  // ---- and what is beyond it ----

  /** No hello decoder is given bytes it faults on. */
  predicate Intact(steps: seq<Step>) { forall k :: 0 <= k < |steps| ==> !steps[k].Overrun? }

  /** A peer is gone exactly when its decoder has faulted. */
  lemma {:induction false} GoneExactly(s: System, steps: seq<Step>)
    requires Run(s, steps)
    ensures End(s, steps).gone == {} <==> s.gone == {} && Intact(steps)
    decreases |steps|
  {
    hide Received, Started;
    if steps != [] {
      var t := Next(s, steps[0]);
      GoneExactly(t, steps[1..]);
      assert t.gone == {} <==> s.gone == {} && !steps[0].Overrun? by {
        if steps[0].Overrun? { assert steps[0].to in t.gone; }
      }
      assert Intact(steps) <==> !steps[0].Overrun? && Intact(steps[1..]) by {
        assert forall k :: 0 < k < |steps| ==> steps[k] == steps[1..][k - 1];
      }
    }
  }

  /** Nothing a lossy, duplicating, reordering network did so far can strand two
      compatible peers unless a hello decoder has faulted: at most seven
      deliveries complete both. */
  lemma Recoverable(p: Peers, steps: seq<Step>) returns (more: seq<Step>)
    requires Proper(p) && Compatible(p) && Run(HandshakeRun.Initial(p), steps)
    ensures var s := End(HandshakeRun.Initial(p), steps);
            Intact(steps) ==>
              && Run(s, more) && |more| <= 7
              && Complete(End(s, more).i) && Complete(End(s, more).r)
  {
    hide Inv, Next, Compatible;
    InitialInv(p);
    RunInv(p, HandshakeRun.Initial(p), steps);
    GoneExactly(HandshakeRun.Initial(p), steps);
    more := [];
    if Intact(steps) {
      more := Finishes(p, End(HandshakeRun.Initial(p), steps));
    }
  }

  /** A peer that is gone still waits for a hello. */
  predicate Halted(s: System) { forall who :: who in s.gone ==> DecodesHello(s, who) }

  lemma HaltedStep(s: System, step: Step)
    requires Halted(s) && Enabled(s, step)
    ensures Halted(Next(s, step)) && s.gone <= Next(s, step).gone
    ensures Responder in s.gone ==> Next(s, step).r == s.r
    ensures Initiator in s.gone ==> Next(s, step).i == s.i
  {
    hide Received, Started;
  }

  lemma {:induction false} HaltedRun(s: System, steps: seq<Step>)
    requires Halted(s) && Run(s, steps)
    ensures Halted(End(s, steps)) && s.gone <= End(s, steps).gone
    ensures Responder in s.gone ==> End(s, steps).r == s.r
    ensures Initiator in s.gone ==> End(s, steps).i == s.i
    decreases |steps|
  {
    hide Next, Enabled, Halted;
    if steps != [] {
      HaltedStep(s, steps[0]);
      HaltedRun(Next(s, steps[0]), steps[1..]);
    }
  }

  lemma HaltedIncomplete(p: Peers, s: System)
    requires Inv(p, s) && Halted(s)
    ensures Responder in s.gone ==> !Complete(s.r)
    ensures Initiator in s.gone ==> !Complete(s.i) && !Complete(s.r)
  {
    hide HelloFrom, Answers, MasterR, Leftovers, Agreed, Base, MasterI, Compatible;
  }

  /** The condition is exact: once a decoder has faulted, its peer stays where it
      was in every continuation, and the handshake never completes. */
  lemma OverrunIsFinal(p: Peers, steps: seq<Step>, more: seq<Step>)
    requires Proper(p) && Run(HandshakeRun.Initial(p), steps) && !Intact(steps)
    requires Run(End(HandshakeRun.Initial(p), steps), more)
    ensures var s := End(HandshakeRun.Initial(p), steps);
            var t := End(s, more);
            && (Responder in s.gone || Initiator in s.gone)
            && (Responder in s.gone ==> t.r == s.r)
            && (Initiator in s.gone ==> t.i == s.i)
            && !Complete(t.r) && (Initiator in s.gone ==> !Complete(t.i))
  {
    hide Inv, Next, Enabled;
    var s := End(HandshakeRun.Initial(p), steps);
    InitialInv(p);
    RunInv(p, HandshakeRun.Initial(p), steps);
    RunInv(p, s, more);
    GoneExactly(HandshakeRun.Initial(p), steps);
    var who :| who in s.gone;
    assert who == Responder || who == Initiator;
    HaltedRun(HandshakeRun.Initial(p), steps);
    HaltedRun(s, more);
    HaltedIncomplete(p, End(s, more));
  }

  /** And it can fail from the start: a new responder decodes the first hello it is
      given. */
  lemma OverrunReachable(p: Peers)
    requires Proper(p)
    ensures Run(HandshakeRun.Initial(p), [Overrun(Responder)]) && !Intact([Overrun(Responder)])
  {
    assert [Overrun(Responder)][0] == Overrun(Responder);
    assert Run(Next(HandshakeRun.Initial(p), Overrun(Responder)), []);
  }
}
