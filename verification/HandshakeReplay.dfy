/** What the machine sends over every sequence of inbound messages, forged and
    malformed ones included: one flight per stage, byte for byte the same on
    every repeat, and completion reported at most once. */
module HandshakeReplay {
  import opened Symbolic
  import opened Handshake
  import opened HandshakeFsm

  datatype Input = Input(kind: Kind, body: Body, n: nat)

  function Step(f: Fsm, x: Input): (Fsm, Reply) { Received(f, x.kind, x.body, x.n) }

  function After(f: Fsm, inputs: seq<Input>): Fsm
    decreases |inputs|
  {
    if inputs == [] then f else After(Step(f, inputs[0]).0, inputs[1..])
  }

  function Replies(f: Fsm, inputs: seq<Input>): (r: seq<Reply>)
    ensures |r| == |inputs|
    decreases |inputs|
  {
    if inputs == [] then [] else var (g, reply) := Step(f, inputs[0]); [reply] + Replies(g, inputs[1..])
  }

  // ---- the reachable shapes ----

  predicate IsOne(out: seq<Message>, kind: Kind) { |out| == 1 && out[0].kind == kind }

  predicate IsServerFlight(out: seq<Message>)
  {
    |out| == 2 && out[0].kind == ServerHelloKind && out[1].kind == ServerFinishedKind
  }

  predicate HasKeys(h: State) { h.secrets.shared.Some? && h.secrets.send.Some? && h.secrets.recv.Some? }

  predicate Responding(f: Fsm)
  {
    && f.hs.config.role.Responder?
    && f.hs.retry.pending.None?
    && match f.expecting
       case Some(ClientHelloKind) =>
         && f.hs.phase.Initial? && f.prev in {None, Some(ClientHelloKind)}
         && (if f.hs.retry.done then IsOne(f.cached, HelloRetryRequestKind) else f.cached == [])
       case Some(ClientFinishedKind) =>
         f.hs.phase.ServerFinishedSent? && f.prev == Some(ClientHelloKind) && IsServerFlight(f.cached) && HasKeys(f.hs)
       case None => f.hs.phase.Complete? && f.prev == Some(ClientFinishedKind) && IsServerFlight(f.cached)
       case _ => false
  }

  /** A hello can be built: it was built once, and the configuration is fixed. */
  predicate CanGreet(c: Config)
  {
    c.ciphers != [] && (c.pinned.Some? ==> c.pinned.value.suite in c.kemSuites)
  }

  predicate Initiating(f: Fsm)
  {
    && f.hs.config.role.Initiator?
    && CanGreet(f.hs.config)
    && match f.expecting
       case Some(ServerHelloKind) =>
         && f.hs.phase.ClientHelloSent? && IsOne(f.cached, ClientHelloKind)
         && f.prev == if f.hs.retry.done then Some(HelloRetryRequestKind) else None
       case Some(ServerFinishedKind) =>
         && f.hs.phase.ServerHelloReceived? && f.prev == Some(ServerHelloKind)
         && IsOne(f.cached, ClientHelloKind) && HasKeys(f.hs)
       case None => f.hs.phase.Complete? && f.prev == Some(ServerFinishedKind) && IsOne(f.cached, ClientFinishedKind)
       case _ => false
  }

  predicate Live(f: Fsm) { Initiating(f) || Responding(f) }

  /** How far the flights have got: nothing sent in reply, then the retry, then
      the last flight. */
  function Stage(f: Fsm): nat
  {
    if IsOne(f.cached, ClientFinishedKind) || IsServerFlight(f.cached) then 2 else if f.hs.retry.done then 1 else 0
  }

  function StageOf(out: seq<Message>): nat
  {
    if IsOne(out, ClientFinishedKind) || IsServerFlight(out) then 2
    else if IsOne(out, HelloRetryRequestKind) || IsOne(out, ClientHelloKind) then 1 else 0
  }

  /** What one inbound message does to the sending side. */
  ghost predicate Sends(f: Fsm, g: Fsm, r: Reply)
  {
    && Live(g)
    && g.hs.config == f.hs.config
    && Stage(f) <= Stage(g)
    && (Stage(f) == Stage(g) > 0 ==> g.cached == f.cached)
    && (if r.out == [] then g.cached == f.cached else r.out == g.cached && StageOf(r.out) == Stage(g) > 0)
    && (f.hs.phase.Complete? ==> g.hs.phase.Complete? && !r.complete)
    && (r.complete ==> g.hs.phase.Complete?)
  }

  /** What processing a hello can leave behind: nothing to send, a retry to send
      (once), or all a ServerHello needs. */
  lemma HelloOutcome(h: State, body: Body, n: nat)
    requires h.phase.Initial? && h.retry.pending.None?
    ensures var (h1, ok) := ProcessCh(h, body, n);
            && h1.config == h.config && h1.phase.Initial? && h1.retry.done == h.retry.done
            && (!ok ==> h1.retry == h.retry)
            && (ok && h1.retry.pending.None? ==> h1.session.remote.Some? && h1.session.cipher.Some?)
            && (ok && h1.retry.pending.Some? ==> !h.retry.done)
  {}

  lemma ServerFlightBuilds(h: State, n: nat)
    requires h.session.remote.Some? && h.session.cipher.Some?
    ensures var (h1, hello) := CreateSh(h, n);
            var (h2, finished) := CreateSf(h1);
            && hello.Some? && finished.Some?
            && h2.config == h.config && h2.phase.ServerFinishedSent? && h2.retry == h.retry && HasKeys(h2)
  {}

  lemma ClientHelloSends(f: Fsm, body: Body, n: nat)
    requires Responding(f) && f.expecting == Some(ClientHelloKind)
    ensures var (g, r) := OnClientHello(f, body, n); Responding(g) && Sends(f, g, r)
  {
    if !RepeatsFirstHello(f, body) {
      HelloOutcome(f.hs, body, n);
      var (h1, ok) := ProcessCh(f.hs, body, n);
      if ok && h1.retry.pending.None? { ServerFlightBuilds(h1, n); }
    }
  }

  lemma RespondingSends(f: Fsm, x: Input)
    requires Responding(f)
    ensures var (g, r) := Step(f, x); Responding(g) && Sends(f, g, r)
  {
    if f.expecting == Some(ClientHelloKind) && x.kind == ClientHelloKind { ClientHelloSends(f, x.body, x.n); }
  }

  lemma ServerFinishedSends(f: Fsm, body: Body)
    requires Initiating(f) && f.expecting == Some(ServerFinishedKind)
    ensures var (g, r) := OnServerFinished(f, body); Initiating(g) && Sends(f, g, r)
  {}

  lemma ServerHelloSends(f: Fsm, body: Body)
    requires Initiating(f) && f.expecting == Some(ServerHelloKind)
    ensures var (g, r) := OnServerHello(f, body); Initiating(g) && Sends(f, g, r)
  {
    var (h, ok) := ProcessSh(f.hs, body);
    var f1 := f.(hs := h, prev := Some(ServerHelloKind), expecting := Some(ServerFinishedKind), early := None);
    if ok && f.early.Some? { ServerFinishedSends(f1, f.early.value); }
  }

  lemma RetrySends(f: Fsm, body: Body, n: nat)
    requires Initiating(f) && f.expecting == Some(ServerHelloKind) && !f.hs.retry.done
    ensures var (g, r) := OnRetryRequest(f, body, n); Initiating(g) && Sends(f, g, r)
  {}

  lemma InitiatingSends(f: Fsm, x: Input)
    requires Initiating(f)
    ensures var (g, r) := Step(f, x); Initiating(g) && Sends(f, g, r)
  {
    hide OnServerHello, OnServerFinished, OnRetryRequest, CanGreet, HasKeys;
    if f.expecting == Some(ServerHelloKind) && x.kind == ServerHelloKind { ServerHelloSends(f, x.body); }
    if f.expecting == Some(ServerFinishedKind) && x.kind == ServerFinishedKind { ServerFinishedSends(f, x.body); }
    if f.expecting == Some(ServerHelloKind) && !f.hs.retry.done { RetrySends(f, x.body, x.n); }
  }

  lemma StepSends(f: Fsm, x: Input)
    requires Live(f)
    ensures var (g, r) := Step(f, x); Sends(f, g, r)
  {
    hide Step;
    if Responding(f) { RespondingSends(f, x); } else { InitiatingSends(f, x); }
  }

  /** Every machine that can run at all: a new responder, and an initiator whose
      first hello went out. */
  lemma Starts(config: Config, keyPair: PublicKey, ownId: nat, n: nat)
    ensures config.role.Responder? ==> Live(NewFsm(config, keyPair, ownId))
    ensures config.role.Initiator? && Started(NewFsm(config, keyPair, ownId), n).1 != DROPPED ==>
            Live(Started(NewFsm(config, keyPair, ownId), n).0)
  {}

  // ---- whole runs ----

  lemma {:induction false} LaterReplies(f: Fsm, inputs: seq<Input>, k: nat)
    requires Live(f) && k < |inputs|
    ensures var out := Replies(f, inputs)[k].out;
            out != [] ==> StageOf(out) >= Stage(f) && StageOf(out) > 0 && (StageOf(out) == Stage(f) ==> out == f.cached)
    ensures f.hs.phase.Complete? ==> !Replies(f, inputs)[k].complete
    decreases k
  {
    hide Step, Live, Stage;
    StepSends(f, inputs[0]);
    if k > 0 { LaterReplies(Step(f, inputs[0]).0, inputs[1..], k - 1); }
  }

  /** Two replies of the same kind are the same messages, however the inputs
      between them look, and completion is reported at most once. */
  lemma {:induction false} RepliesRepeat(f: Fsm, inputs: seq<Input>, j: nat, k: nat)
    requires Live(f) && j < k < |inputs|
    ensures var rs := Replies(f, inputs);
            && (rs[j].out != [] && rs[k].out != [] && rs[j].out[0].kind == rs[k].out[0].kind ==> rs[j].out == rs[k].out)
            && !(rs[j].complete && rs[k].complete)
    decreases j
  {
    hide Step, Live, Stage;
    StepSends(f, inputs[0]);
    var g := Step(f, inputs[0]).0;
    if j > 0 {
      RepliesRepeat(g, inputs[1..], j - 1, k - 1);
    } else {
      LaterReplies(g, inputs[1..], k - 1);
    }
  }

  /** Every reply is one of the flights: a responder sends a HelloRetryRequest or
      ServerHello with ServerFinished, an initiator a ClientHello or ClientFinished. */
  lemma {:induction false} RepliesAreFlights(f: Fsm, inputs: seq<Input>, k: nat)
    requires Live(f) && k < |inputs|
    ensures var out := Replies(f, inputs)[k].out;
            out == [] || (if f.hs.config.role.Responder? then IsOne(out, HelloRetryRequestKind) || IsServerFlight(out)
                          else IsOne(out, ClientHelloKind) || IsOne(out, ClientFinishedKind))
    decreases k
  {
    StepSends(f, inputs[0]);
    if k > 0 { RepliesAreFlights(Step(f, inputs[0]).0, inputs[1..], k - 1); }
  }

  // ---- repeats ----

  /** The last flight handed out, `last` if none was. */
  function LastFlight(f: Fsm, inputs: seq<Input>, last: seq<Message>): seq<Message>
    decreases |inputs|
  {
    if inputs == [] then last
    else
      var (g, r) := Step(f, inputs[0]);
      LastFlight(g, inputs[1..], if r.out != [] then r.out else last)
  }

  lemma {:induction false} CachedIsLast(f: Fsm, inputs: seq<Input>)
    requires Live(f)
    ensures After(f, inputs).cached == LastFlight(f, inputs, f.cached) && Live(After(f, inputs))
    ensures After(f, inputs).hs.config == f.hs.config
    decreases |inputs|
  {
    hide Step, Live, Stage;
    if inputs != [] {
      StepSends(f, inputs[0]);
      CachedIsLast(Step(f, inputs[0]).0, inputs[1..]);
    }
  }

  lemma RepeatIsReplayed(f: Fsm, x: Input)
    requires Live(f)
    ensures f.prev == Some(x.kind) && f.expecting != Some(x.kind) ==>
            Step(f, x) == (f, if f.hs.config.role.Initiator? && x.kind == ServerHelloKind then DROPPED
                              else Reply(f.cached, false))
    ensures x.kind == ClientHelloKind && f.expecting == Some(x.kind)
            && f.hs.retry.done && f.hs.retry.hello == Some(x.body) ==>
            Step(f, x) == (f, Reply(f.cached, false)) && IsOne(f.cached, HelloRetryRequestKind)
  {
    hide ProcessCh, ProcessSh, ProcessSf, ProcessHrr, ProcessCf, CreateSh, CreateSf, CreateHrr, CreateCf, CreateHello;
  }

  /** A repeat of the message processed last is answered with the last flight
      handed out, after any inputs, and changes nothing; the one exception is an
      initiator's repeated ServerHello, which is dropped. So is the hello that was
      answered with a HelloRetryRequest, while its retried one is awaited. */
  lemma RepeatsAreReplayed(f: Fsm, inputs: seq<Input>, x: Input)
    requires Live(f)
    ensures var g := After(f, inputs);
            var last := LastFlight(f, inputs, f.cached);
            && (g.prev == Some(x.kind) && g.expecting != Some(x.kind) ==>
                  Step(g, x) == (g, if g.hs.config.role.Initiator? && x.kind == ServerHelloKind then DROPPED
                                    else Reply(last, false)))
            && (x.kind == ClientHelloKind && g.expecting == Some(x.kind)
                && g.hs.retry.done && g.hs.retry.hello == Some(x.body) ==>
                  Step(g, x) == (g, Reply(last, false)))
  {
    hide Step, Live;
    CachedIsLast(f, inputs);
    RepeatIsReplayed(After(f, inputs), x);
  }

  // ---- failed transitions ----

  /** All builder calls of the transition for `kind` succeed. */
  predicate Builds(h: State, kind: Kind, body: Body, n: nat)
  {
    match kind
    case ServerHelloKind => ProcessSh(h, body).1
    case ServerFinishedKind => var (h1, ok) := ProcessSf(h, body); ok && CreateCf(h1).1.Some?
    case HelloRetryRequestKind => var (h1, ok) := ProcessHrr(h, body, n); ok && CreateHello(h1, n).1.Some?
    case ClientHelloKind =>
      var (h1, ok) := ProcessCh(h, body, n);
      ok && (if h1.retry.pending.Some? then CreateHrr(h1).1.Some?
             else var (h2, hello) := CreateSh(h1, n); hello.Some? && CreateSf(h2).1.Some?)
    case ClientFinishedKind => ProcessCf(h, body).1
    case OtherKind => false
  }

  /** When a transition is taken, in terms of the message and the machine's own
      configuration. A hello must have this version and a suite that was offered;
      a share, a ciphertext and an announced cipher must fit it. */
  lemma BuildsExactly(f: Fsm, kind: Kind, body: Body, n: nat)
    requires Live(f) && f.expecting == Some(kind)
    ensures var c, h := f.hs.config, f.hs;
            Builds(h, kind, body, n) <==>
            match kind
            case ServerHelloKind =>
              && body.ServerHello? && body.version == c.version && body.suite == h.session.kemSuite
              && body.ct.suite == body.suite && body.cipher in c.ciphers
            case ClientHelloKind =>
              && body.ClientHello? && body.version == c.version
              && if body.suite in c.kemSuites then
                   && body.share.suite == body.suite && !StaticLeg(c, body.staticCt).Refuse?
                   && exists cipher :: cipher in body.ciphers && cipher in c.ciphers
                 else !h.retry.done && exists suite :: suite in body.suites && suite in c.kemSuites
            case _ => Verifies(h, body)
  {
    hide Fold;
    if body.ClientHello? {
      FirstInExists(body.ciphers, f.hs.config.ciphers);
      FirstInExists(f.hs.config.kemSuites, body.suites);
    }
  }

  lemma FirstInExists<T(!new)>(preferred: seq<T>, allowed: seq<T>)
    ensures FirstIn(preferred, allowed).Some? <==> exists x :: x in preferred && x in allowed
  {
    if exists x :: x in preferred && x in allowed {
      var x :| x in preferred && x in allowed;
      var k :| 0 <= k < |preferred| && preferred[k] == x;
      FirstInIsFirst(preferred, allowed, k);
    }
  }

  lemma RetryBuildsExactly(f: Fsm, body: Body, n: nat)
    requires Live(f) && f.expecting == Some(ServerHelloKind)
    ensures Builds(f.hs, HelloRetryRequestKind, body, n) <==>
            && !f.hs.retry.done && body.HelloRetryRequest?
            && body.version == f.hs.config.version && body.suite in f.hs.config.kemSuites
  {}

  /** A ServerFinished that overtakes its ServerHello is not lost: when the
      ServerHello is good, the two orders end in the same machine with the same
      reply. */
  lemma OvertakingCommutes(f: Fsm, sh: Input, sf: Input)
    requires Live(f) && f.expecting == Some(ServerHelloKind) && f.early.None?
    requires sh.kind == ServerHelloKind && sf.kind == ServerFinishedKind && Builds(f.hs, ServerHelloKind, sh.body, sh.n)
    ensures Step(Step(f, sf).0, sh) == Step(Step(f, sh).0, sf)
    ensures Step(f, sf).1 == DROPPED && Step(f, sh).1 == DROPPED
  {
    hide ProcessSf, CreateCf;
  }

  /** A message whose builders do not all succeed is dropped or answered from the
      cache, and what the machine waits for and would replay stays as it was. In
      a reachable state a builder pair never fails halfway: the phase stays too. */
  lemma FailureKeepsTransition(f: Fsm, x: Input)
    requires Live(f) && !Builds(f.hs, x.kind, x.body, x.n)
    ensures var (g, r) := Step(f, x);
            && g.expecting == f.expecting && g.prev == f.prev && g.cached == f.cached && g.hs.phase == f.hs.phase
            && !r.complete && (r.out == [] || r.out == f.cached)
  {
    FailedClientHello(f, x);
  }

  lemma FailedClientHello(f: Fsm, x: Input)
    requires Live(f) && !Builds(f.hs, x.kind, x.body, x.n)
    ensures x.kind == ClientHelloKind && f.expecting == Some(ClientHelloKind) ==>
            var (g, r) := Step(f, x);
            && g.expecting == f.expecting && g.prev == f.prev && g.cached == f.cached && g.hs.phase == f.hs.phase
            && !r.complete && (r.out == [] || r.out == f.cached)
  {}

  /** A Finished message that does not verify changes nothing at all, except that a
      ServerFinished is held back while its ServerHello is still under way. */
  lemma BadFinishedIsNoStep(f: Fsm, x: Input)
    requires Live(f) && !Verifies(f.hs, x.body) && x.kind in {ServerFinishedKind, ClientFinishedKind}
    ensures var waits := f.expecting == Some(ServerHelloKind) && x.kind == ServerFinishedKind;
            && Step(f, x).0 == (if waits then f.(early := Some(x.body)) else f)
            && !Step(f, x).1.complete && (waits ==> Step(f, x).1.out == [])
  {}
}
