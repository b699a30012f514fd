/** The datagram rekey protocol: two sessions and a network that may lose,
    duplicate and reorder the request and the response of every exchange.

    Whatever has been sent stays deliverable, any number of times and in any
    order; never delivering it is loss. Retransmissions repeat bytes already in
    the network. Each message carries, for the statement of the invariant only,
    the number of the epoch it was sealed in (`at`); the wire carries that number
    modulo 256. */
module DatagramRekey {
  import opened Words
  import opened Symbolic
  import opened DatagramSession

  datatype Request = Request(at: nat, epoch: uint8, body: ControlBody)
  datatype Response = Response(at: nat, epoch: uint8, body: ControlBody)

  /** One call of Rekey on the initiator, waiting for its response. */
  datatype Attempt = Attempt(keyPair: nat, epoch: uint8)

  /** The responder's stored answer, keyed by the epoch it left. */
  datatype Cache = Cache(from: uint8, response: Response)

  datatype System = System(
    i: State,
    r: State,
    attempt: Option<Attempt>,
    cache: Option<Cache>,
    requests: set<Request>,
    responses: seq<Response>,   // every one sent, repeats included
    nextKeyPair: nat,
    nextCoins: nat,
    // history
    epochI: nat,
    secrets: seq<Secret>,
    asked: map<nat, nat>)

  datatype Step =
    | Start
    | Abandon
    | DeliverRequest(request: Request, at: int)
    | DeliverResponse(response: Response, at: int)
    | DrawI
    | DrawR

  predicate Enabled(s: System, step: Step)
  {
    match step
    case Start => s.attempt.None?
    case Abandon => s.attempt.Some?
    case DeliverRequest(m, _) => m in s.requests
    case DeliverResponse(m, _) => m in s.responses && s.attempt.Some?
    case _ => true
  }

  /** Rekey up to its wait: a new key pair, sealed under the current epoch. */
  function Started(s: System): System
  {
    var (i, body) := SealControl(s.i, false, PublicKey(s.nextKeyPair));
    s.(i := i,
       attempt := Some(Attempt(s.nextKeyPair, s.i.cur.epoch)),
       requests := s.requests + {Request(s.epochI, s.i.cur.epoch, body)},
       nextKeyPair := s.nextKeyPair + 1,
       asked := s.asked[s.epochI := s.nextKeyPair])
  }

  /** The responder's handler: replay the cached answer, ignore what is not from
      the current epoch, or answer once. */
  function Answered(s: System, m: Request, now: int): System
  {
    if s.cache.Some? && s.cache.value.from == m.epoch then
      s.(responses := s.responses + [s.cache.value.response])
    else if m.epoch != s.r.cur.epoch then s
    else
      match Respond(s.r, m.epoch, m.body, s.nextCoins, now)
      case None => s
      case Some((r, body)) =>
        var reply := Response(EpochR(s), s.r.cur.epoch, body);
        s.(r := r,
           cache := Some(Cache(m.epoch, reply)),
           responses := s.responses + [reply],
           nextCoins := s.nextCoins + 1,
           secrets := s.secrets + [r.master])
  }

  function Completed(s: System, m: Response, now: int): System
  {
    if s.attempt.None? then s
    else
      match Complete(s.i, s.attempt.value.epoch, m.body, s.attempt.value.keyPair, now)
      case None => s
      case Some(i) => s.(i := i, attempt := None, epochI := s.epochI + 1)
  }

  function Next(s: System, step: Step): System
  {
    match step
    case Start => Started(s)
    case Abandon => s.(attempt := None)
    case DeliverRequest(m, now) => Answered(s, m, now)
    case DeliverResponse(m, now) => Completed(s, m, now)
    case DrawI => s.(i := Drawn(s.i))
    case DrawR => s.(r := Drawn(s.r))
  }

  function Initial(secret: Secret): System
  {
    System(Established(Initiator, secret), Established(Responder, secret), None, None, {}, [], 0, 0, 0, [secret], map[])
  }

  /** The number of epochs the responder has entered. */
  function EpochR(s: System): nat { if s.secrets == [] then 0 else |s.secrets| - 1 }

  /** No request has been sealed yet in the epoch the initiator is in: the
      condition under which starting an exchange is safe. */
  predicate FreshStart(s: System)
  {
    s.epochI !in s.asked
  }

  // ---- invariant ----

  ghost predicate Side(st: State, role: Role, e: nat, secrets: seq<Secret>)
    requires e < |secrets|
  {
    && st.role == role
    && st.master == secrets[e]
    && st.prefix == secrets[0]
    && st.cur.epoch == Wire(e)
    && st.cur.sendKey == TrafficKey(secrets[e], role)
    && st.cur.recvKey == TrafficKey(secrets[e], Peer(role))
    && (if e == 0 then st.prev.None?
        else
          && st.prev.Some?
          && st.prev.value.epoch == Wire(e - 1)
          && st.prev.value.recvKey == TrafficKey(secrets[e - 1], Peer(role)))
  }

  ghost predicate GoodRequest(s: System, m: Request)
  {
    && m.at in s.asked
    && m.at < |s.secrets|
    && m.epoch == Wire(m.at)
    && m.body.box == Sealed(TrafficKey(s.secrets[m.at], Initiator), Nonce(s.secrets[0], Initiator, m.body.n),
                            Control(false, m.epoch, m.body.n), PublicKey(s.asked[m.at]))
  }

  ghost predicate GoodResponse(s: System, m: Response)
  {
    && m.at in s.asked
    && m.at + 1 < |s.secrets|
    && m.epoch == Wire(m.at)
    && m.body.box.key == TrafficKey(s.secrets[m.at], Responder)
    && m.body.box.nonce == Nonce(s.secrets[0], Responder, m.body.n)
    && m.body.box.aad == Control(true, m.epoch, m.body.n)
    && m.body.box.plain.Ciphertext?
    && m.body.box.plain.ct.pk == s.asked[m.at]
    && s.secrets[m.at + 1] == Rekeyed(s.secrets[m.at], Encapsulated(m.body.box.plain.ct))
  }

  ghost predicate Inv(s: System)
  {
    && Ratchet(s.secrets)
    && s.epochI <= EpochR(s) <= s.epochI + 1
    && Side(s.i, Initiator, s.epochI, s.secrets)
    && Side(s.r, Responder, EpochR(s), s.secrets)
    && (forall k :: k in s.asked ==> k <= s.epochI && s.asked[k] < s.nextKeyPair)
    && (EpochR(s) > s.epochI ==> s.epochI in s.asked)
    && (forall m :: m in s.requests ==> GoodRequest(s, m))
    && (forall m :: m in s.responses ==> GoodResponse(s, m))
    && (s.cache.Some? <==> EpochR(s) > 0)
    && (s.cache.Some? ==>
          && s.cache.value.from == Wire(EpochR(s) - 1)
          && s.cache.value.response.at == EpochR(s) - 1
          && s.cache.value.response in s.responses)
    && (s.attempt.Some? ==>
          && s.attempt.value.epoch == Wire(s.epochI)
          && s.epochI in s.asked
          && s.attempt.value.keyPair == s.asked[s.epochI])
    && (s.epochI in s.asked ==> exists m :: m in s.requests && m.at == s.epochI)
  }

  lemma InitialInv(secret: Secret)
    ensures Inv(Initial(secret))
  {}

  /** A control message sealed in epoch k opens in epoch e exactly when k == e,
      even if the two share their epoch byte. */
  lemma SealedElsewhere(secrets: seq<Secret>, k: nat, e: nat, role: Role)
    requires Ratchet(secrets) && k < |secrets| && e < |secrets|
    ensures TrafficKey(secrets[k], role) == TrafficKey(secrets[e], role) <==> k == e
  {
    if secrets[k] == secrets[e] { RatchetDistinct(secrets, k, e); }
  }

  /** Messages stay good when the history only grows. */
  lemma MessagesKept(s: System, t: System)
    requires Ratchet(s.secrets)
    requires forall m :: m in s.requests ==> GoodRequest(s, m)
    requires forall m :: m in s.responses ==> GoodResponse(s, m)
    requires |s.secrets| <= |t.secrets| && s.secrets == t.secrets[..|s.secrets|]
    requires forall k :: k in s.asked ==> k in t.asked && t.asked[k] == s.asked[k]
    ensures forall m :: m in s.requests ==> GoodRequest(t, m)
    ensures forall m :: m in s.responses ==> GoodResponse(t, m)
  {
    forall m | m in s.requests ensures GoodRequest(t, m) { assert GoodRequest(s, m); }
    forall m | m in s.responses ensures GoodResponse(t, m) { assert GoodResponse(s, m); }
  }

  lemma StartPreserves(s: System)
    requires Inv(s) && s.attempt.None? && FreshStart(s)
    ensures Inv(Started(s))
  {
    var t := Started(s);
    MessagesKept(s, t);
    var (_, body) := SealControl(s.i, false, PublicKey(s.nextKeyPair));
    assert Request(s.epochI, s.i.cur.epoch, body) in t.requests;
  }

  /** Advancing keeps a side in step with the chain of secrets. */
  lemma AdvanceSide(st: State, role: Role, e: nat, secrets: seq<Secret>, longer: seq<Secret>, now: int)
    requires e < |secrets| && e + 1 < |longer| && longer[0] == secrets[0] && longer[e] == secrets[e]
    requires Side(st, role, e, secrets)
    ensures Side(Advanced(st, longer[e + 1], now), role, e + 1, longer)
  {}

  /** The epoch bytes of neighbouring epochs differ. */
  lemma EpochBytesDiffer(e: nat)
    ensures Wire(e) != Wire(e + 1)
  {}

  /** A request is answered afresh only in the epoch it was sealed in, which is
      then the epoch of both sides. */
  lemma AnsweredInPlace(s: System, m: Request, now: int)
    requires Inv(s) && m in s.requests
    requires m.epoch == s.r.cur.epoch
    ensures Respond(s.r, m.epoch, m.body, s.nextCoins, now).Some? <==> m.at == EpochR(s) == s.epochI
  {
    assert GoodRequest(s, m);
    SealedElsewhere(s.secrets, m.at, EpochR(s), Initiator);
  }

  /** What a fresh answer to a request for key pair pk does to the responder. */
  function AnswerTo(s: System, m: Request, pk: nat, now: int): System
  {
    var ct := Encapsulation(pk, s.nextCoins);
    var (r1, body) := SealControl(s.r, true, Ciphertext(ct));
    var secret := Rekeyed(s.r.master, Encapsulated(ct));
    var reply := Response(EpochR(s), s.r.cur.epoch, body);
    s.(r := Advanced(r1, secret, now), cache := Some(Cache(m.epoch, reply)), responses := s.responses + [reply],
       nextCoins := s.nextCoins + 1, secrets := s.secrets + [secret])
  }

  lemma AnsweredBy(s: System, m: Request, pk: nat, now: int)
    requires !(s.cache.Some? && s.cache.value.from == m.epoch) && m.epoch == s.r.cur.epoch
    requires OpenControl(s.r, false, m.epoch, m.body, now) == Some(PublicKey(pk))
    ensures Answered(s, m, now) == AnswerTo(s, m, pk, now)
  {}

  /** A request of the responder's own epoch opens to its key pair. */
  lemma RequestOpens(s: System, m: Request, now: int)
    requires Inv(s) && m in s.requests && m.at == EpochR(s)
    ensures m.at in s.asked && OpenControl(s.r, false, m.epoch, m.body, now) == Some(PublicKey(s.asked[m.at]))
  {
    assert GoodRequest(s, m);
  }

  lemma AnswerIsGood(s: System, m: Request, now: int)
    requires Inv(s) && m in s.requests && m.at == EpochR(s) && m.at in s.asked
    ensures var t := AnswerTo(s, m, s.asked[m.at], now);
            && GoodResponse(t, t.cache.value.response)
            && Side(t.r, Responder, EpochR(s) + 1, t.secrets)
  {
    var t := AnswerTo(s, m, s.asked[m.at], now);
    var (r1, _) := SealControl(s.r, true, Ciphertext(Encapsulation(s.asked[m.at], s.nextCoins)));
    AdvanceSide(r1, Responder, EpochR(s), s.secrets, t.secrets, now);
  }

  lemma AnswerPreserves(s: System, m: Request, now: int)
    requires Inv(s) && m in s.requests && m.at == EpochR(s) == s.epochI
    requires !(s.cache.Some? && s.cache.value.from == m.epoch) && m.epoch == s.r.cur.epoch
    ensures Inv(Answered(s, m, now))
  {
    hide Answered, Advanced, SealControl, OpenControl, GoodRequest, GoodResponse;
    RequestOpens(s, m, now);
    AnsweredBy(s, m, s.asked[m.at], now);
    var t := AnswerTo(s, m, s.asked[m.at], now);
    RatchetExtend(s.secrets, Shared(s.asked[m.at], s.nextCoins));
    AnswerIsGood(s, m, now);
    MessagesKept(s, t);
    SideKept(s.i, Initiator, s.epochI, s.secrets, t.secrets);
  }

  lemma SideKept(st: State, role: Role, e: nat, secrets: seq<Secret>, longer: seq<Secret>)
    requires e < |secrets| <= |longer| && secrets == longer[..|secrets|]
    requires Side(st, role, e, secrets)
    ensures Side(st, role, e, longer)
  {}

  lemma RequestPreserves(s: System, m: Request, now: int)
    requires Inv(s) && m in s.requests
    ensures Inv(Answered(s, m, now))
  {
    hide Side, GoodRequest, GoodResponse;
    if s.cache.Some? && s.cache.value.from == m.epoch {
      MessagesKept(s, Answered(s, m, now));
    } else if m.epoch == s.r.cur.epoch {
      AnsweredInPlace(s, m, now);
      if m.at == EpochR(s) == s.epochI {
        AnswerPreserves(s, m, now);
      }
    }
  }

  /** A response is taken only in the epoch it was sealed in, and then leads to
      the secret the responder moved to. */
  lemma CompletedInPlace(s: System, m: Response, now: int)
    requires Inv(s) && m in s.responses && s.attempt.Some?
    ensures Complete(s.i, s.attempt.value.epoch, m.body, s.attempt.value.keyPair, now)
         == if m.at == s.epochI then Some(Advanced(s.i, s.secrets[s.epochI + 1], now)) else None
  {
    assert GoodResponse(s, m);
    SealedElsewhere(s.secrets, m.at, s.epochI, Responder);
  }

  lemma ResponsePreserves(s: System, m: Response, now: int)
    requires Inv(s) && m in s.responses && s.attempt.Some?
    ensures Inv(Completed(s, m, now))
  {
    var t := Completed(s, m, now);
    CompletedInPlace(s, m, now);
    if m.at == s.epochI {
      assert GoodResponse(s, m);
      AdvanceSide(s.i, Initiator, s.epochI, s.secrets, s.secrets, now);
      MessagesKept(s, t);
    }
  }

  lemma QuietPreserves(s: System, step: Step)
    requires Inv(s) && (step.Abandon? || step.DrawI? || step.DrawR?)
    ensures Inv(Next(s, step))
  {
    hide Side, GoodRequest, GoodResponse;
    MessagesKept(s, Next(s, step));
    DrawnSide(s.i, Initiator, s.epochI, s.secrets);
    DrawnSide(s.r, Responder, EpochR(s), s.secrets);
  }

  lemma DrawnSide(st: State, role: Role, e: nat, secrets: seq<Secret>)
    requires e < |secrets| && Side(st, role, e, secrets)
    ensures Side(Drawn(st), role, e, secrets)
  {}

  lemma StepPreserves(s: System, step: Step)
    requires Inv(s) && Enabled(s, step) && (step.Start? ==> FreshStart(s))
    ensures Inv(Next(s, step))
  {
    match step
    case Start => StartPreserves(s);
    case DeliverRequest(m, now) => RequestPreserves(s, m, now);
    case DeliverResponse(m, now) => ResponsePreserves(s, m, now);
    case _ => QuietPreserves(s, step);
  }

  // ---- runs ----

  /** Every step enabled, and no exchange restarted in an epoch that already has
      a request. */
  predicate FreshRun(s: System, steps: seq<Step>)
    decreases |steps|
  {
    steps == [] ||
    (Enabled(s, steps[0]) && (steps[0].Start? ==> FreshStart(s)) && FreshRun(Next(s, steps[0]), steps[1..]))
  }

  function Run(s: System, steps: seq<Step>): System
    decreases |steps|
  {
    if steps == [] then s else Run(Next(s, steps[0]), steps[1..])
  }

  lemma {:induction false} RunInv(s: System, steps: seq<Step>)
    requires Inv(s) && FreshRun(s, steps)
    ensures Inv(Run(s, steps))
    decreases |steps|
  {
    if steps != [] {
      StepPreserves(s, steps[0]);
      RunInv(Next(s, steps[0]), steps[1..]);
    }
  }

  // ---- what the protocol promises ----

  /** Same master secret, and each side receives with the key the other sends
      with. */
  predicate Agree(s: System)
  {
    && s.i.master == s.r.master
    && s.i.cur.epoch == s.r.cur.epoch
    && s.i.cur.sendKey == s.r.cur.recvKey
    && s.i.cur.recvKey == s.r.cur.sendKey
  }

  /** For every loss, duplication and reordering: the responder is zero or one
      epoch ahead, and when both are in the same epoch they agree. */
  lemma Agreement(secret: Secret, steps: seq<Step>)
    requires FreshRun(Initial(secret), steps)
    ensures var s := Run(Initial(secret), steps);
            && s.epochI <= EpochR(s) <= s.epochI + 1
            && (EpochR(s) == s.epochI ==> Agree(s))
            && (Agree(s) ==> EpochR(s) == s.epochI)
  {
    InitialInv(secret);
    RunInv(Initial(secret), steps);
    var s := Run(Initial(secret), steps);
    if Agree(s) { RatchetDistinct(s.secrets, s.epochI, EpochR(s)); }
  }

  /** While the responder is ahead and the exchange is waiting, the cached answer
      is still in reach, opens at the initiator, and brings it level. */
  lemma CachedAnswerCompletes(secret: Secret, steps: seq<Step>, now: int)
    requires FreshRun(Initial(secret), steps)
    ensures var s := Run(Initial(secret), steps);
            EpochR(s) == s.epochI + 1 && s.attempt.Some? ==>
              && (exists m :: m in s.requests && s.cache.Some? && s.cache.value.from == m.epoch && m.at == s.epochI)
              && Agree(Completed(s, s.cache.value.response, now))
  {
    hide Completed, Inv;
    InitialInv(secret);
    RunInv(Initial(secret), steps);
    CachedCompletes(Run(Initial(secret), steps), now);
  }

  lemma CachedCompletes(s: System, now: int)
    requires Inv(s)
    ensures EpochR(s) == s.epochI + 1 && s.attempt.Some? ==>
              && (exists m :: m in s.requests && s.cache.Some? && s.cache.value.from == m.epoch && m.at == s.epochI)
              && Agree(Completed(s, s.cache.value.response, now))
  {
    hide GoodResponse, Complete;
    if EpochR(s) == s.epochI + 1 && s.attempt.Some? {
      var m :| m in s.requests && m.at == s.epochI;
      assert GoodRequest(s, m);
      CompletedInPlace(s, s.cache.value.response, now);
    }
  }

  /** Frames the initiator seals open at the responder, in every reachable state,
      exactly when the two are level or, the responder being ahead, its retained
      epoch has not retired. */
  lemma InitiatorFramesOpen(secret: Secret, steps: seq<Step>, now: int)
    requires FreshRun(Initial(secret), steps)
    ensures var s := Run(Initial(secret), steps);
            RecvKey(s.r, s.i.cur.epoch, now) == Some(s.i.cur.sendKey) <==>
            EpochR(s) == s.epochI || (s.r.prev.Some? && now < s.r.prev.value.retireAfter)
  {
    InitialInv(secret);
    RunInv(Initial(secret), steps);
    EpochBytesDiffer(Run(Initial(secret), steps).epochI);
  }

  /** Frames the responder seals open at the initiator, in every reachable state,
      exactly when the two are level: after its answer the responder seals in an
      epoch the initiator enters only with that answer. */
  lemma ResponderFramesOpen(secret: Secret, steps: seq<Step>, now: int)
    requires FreshRun(Initial(secret), steps)
    ensures var s := Run(Initial(secret), steps);
            RecvKey(s.i, s.r.cur.epoch, now) == Some(s.r.cur.sendKey) <==> EpochR(s) == s.epochI
  {
    InitialInv(secret);
    RunInv(Initial(secret), steps);
    EpochBytesDiffer(Run(Initial(secret), steps).epochI);
  }

  // ---- repeated requests ----

  /** The last answer made afresh. */
  function LastAnswer(s: System, steps: seq<Step>, last: Option<Response>): Option<Response>
    decreases |steps|
  {
    if steps == [] then last
    else LastAnswer(Next(s, steps[0]), steps[1..], NewAnswer(s, steps[0], last))
  }

  function NewAnswer(s: System, step: Step, last: Option<Response>): Option<Response>
  {
    var t := Next(s, step);
    if |t.secrets| > |s.secrets| && t.responses != [] then Some(t.responses[|t.responses| - 1]) else last
  }

  predicate Caches(s: System, last: Option<Response>)
  {
    s.cache.Some? == last.Some? && (s.cache.Some? ==> s.cache.value.response == last.value)
  }

  lemma {:induction false} CachesLast(s: System, steps: seq<Step>, last: Option<Response>)
    requires Caches(s, last)
    ensures Caches(Run(s, steps), LastAnswer(s, steps, last))
    decreases |steps|
  {
    if steps != [] {
      CachesNew(s, steps[0], last);
      CachesLast(Next(s, steps[0]), steps[1..], NewAnswer(s, steps[0], last));
    }
  }

  lemma CachesNew(s: System, step: Step, last: Option<Response>)
    requires Caches(s, last)
    ensures Caches(Next(s, step), NewAnswer(s, step, last))
  {}

  /** Any request that was ever sent, delivered to the responder after any run:
      in the epoch it was sealed in it is answered afresh, once; with the epoch byte
      of the epoch before, it gets the bytes of the last answer again and no key
      moves; otherwise nothing happens. */
  lemma AnswersExactly(secret: Secret, steps: seq<Step>, m: Request, now: int)
    requires FreshRun(Initial(secret), steps) && m in Run(Initial(secret), steps).requests
    ensures var s := Run(Initial(secret), steps);
            var t := Answered(s, m, now);
            if m.at == EpochR(s) then
              && EpochR(t) == EpochR(s) + 1 && |t.responses| == |s.responses| + 1
              && t.responses[..|s.responses|] == s.responses && t.responses[|s.responses|].at == m.at
            else if EpochR(s) > 0 && m.epoch == Wire(EpochR(s) - 1) then
              LastAnswer(Initial(secret), steps, None).Some?
              && t == s.(responses := s.responses + [LastAnswer(Initial(secret), steps, None).value])
            else t == s
  {
    hide Next;
    InitialInv(secret);
    RunInv(Initial(secret), steps);
    CachesLast(Initial(secret), steps, None);
    AnswersInPlace(Run(Initial(secret), steps), m, now);
  }

  lemma AnswersInPlace(s: System, m: Request, now: int)
    requires Inv(s) && m in s.requests
    ensures var t := Answered(s, m, now);
            if m.at == EpochR(s) then
              && EpochR(t) == EpochR(s) + 1 && |t.responses| == |s.responses| + 1
              && t.responses[..|s.responses|] == s.responses && t.responses[|s.responses|].at == m.at
            else if EpochR(s) > 0 && m.epoch == Wire(EpochR(s) - 1) then
              s.cache.Some? && t == s.(responses := s.responses + [s.cache.value.response])
            else t == s
  {
    hide Wire;
    assert GoodRequest(s, m);
    if EpochR(s) > 0 { EpochBytesDiffer(EpochR(s) - 1); }
    if m.at == EpochR(s) {
      RequestOpens(s, m, now);
      AnsweredBy(s, m, s.asked[m.at], now);
    } else if m.epoch == s.r.cur.epoch {
      AnsweredInPlace(s, m, now);
    }
  }

  // ---- data frames ----

  /** A frame of epoch e, at a side that is in epoch k: it opens in that epoch and,
      until the retained one retires, in the next; nowhere else, whatever epoch
      bytes coincide. */
  lemma OpensAt(st: State, role: Role, k: nat, secrets: seq<Secret>, e: nat, aad: Aad, n: uint64, plain: Plain, now: int)
    requires Ratchet(secrets) && k < |secrets| && e < |secrets| && Side(st, role, k, secrets)
    ensures var box := Sealed(TrafficKey(secrets[e], Peer(role)), Nonce(secrets[0], Peer(role), n), aad, plain);
            OpenFrame(st, Wire(e), n, box, aad, now) ==
            if e == k || (e + 1 == k && now < st.prev.value.retireAfter) then Some(plain) else None
  {
    hide Wire;
    SealedElsewhere(secrets, e, k, Peer(role));
    if k > 0 { SealedElsewhere(secrets, e, k - 1, Peer(role)); }
    EpochBytesDiffer(e);
  }

  /** When the responder last answered afresh, and the initiator last completed. */
  function AnsweredAt(s: System, steps: seq<Step>, at: int): int
    decreases |steps|
  {
    if steps == [] then at
    else
      var t := Next(s, steps[0]);
      AnsweredAt(t, steps[1..], if steps[0].DeliverRequest? && |t.secrets| > |s.secrets| then steps[0].at else at)
  }

  function CompletedAt(s: System, steps: seq<Step>, at: int): int
    decreases |steps|
  {
    if steps == [] then at
    else
      var t := Next(s, steps[0]);
      CompletedAt(t, steps[1..], if steps[0].DeliverResponse? && t.epochI > s.epochI then steps[0].at else at)
  }

  predicate Retains(st: State, at: int) { st.prev.Some? ==> st.prev.value.retireAfter == at + 30 }

  /** Every step keeps the chain of secrets and the dates of retirement. */
  lemma HistoryStep(s: System, step: Step, answered: int, completed: int)
    requires Retains(s.r, answered) && Retains(s.i, completed)
    ensures var t := Next(s, step);
            && s.secrets <= t.secrets
            && Retains(t.r, if step.DeliverRequest? && |t.secrets| > |s.secrets| then step.at else answered)
            && Retains(t.i, if step.DeliverResponse? && t.epochI > s.epochI then step.at else completed)
  {}

  lemma {:induction false} HistoryRun(s: System, steps: seq<Step>, answered: int, completed: int)
    requires Retains(s.r, answered) && Retains(s.i, completed)
    ensures var t := Run(s, steps);
            && s.secrets <= t.secrets
            && Retains(t.r, AnsweredAt(s, steps, answered)) && Retains(t.i, CompletedAt(s, steps, completed))
    decreases |steps|
  {
    hide Next, Retains;
    if steps != [] {
      HistoryStep(s, steps[0], answered, completed);
      var t := Next(s, steps[0]);
      HistoryRun(t, steps[1..],
                 if steps[0].DeliverRequest? && |t.secrets| > |s.secrets| then steps[0].at else answered,
                 if steps[0].DeliverResponse? && t.epochI > s.epochI then steps[0].at else completed);
    }
  }

  /** Both directions at once: what either side seals at one point of a run, opened
      at any later point. */
  lemma FramesOpen(s: System, t: System, answered: int, completed: int, aad: Aad, n: uint64, plain: Plain, now: int)
    requires Inv(s) && Inv(t) && s.secrets <= t.secrets && Retains(t.r, answered) && Retains(t.i, completed)
    ensures Seal(s.i, aad, n, plain).Some? ==>
            OpenFrame(t.r, s.i.cur.epoch, n, Seal(s.i, aad, n, plain).value, aad, now) ==
            if s.epochI == EpochR(t) || (s.epochI + 1 == EpochR(t) && now < answered + 30) then Some(plain) else None
    ensures Seal(s.r, aad, n, plain).Some? ==>
            OpenFrame(t.i, s.r.cur.epoch, n, Seal(s.r, aad, n, plain).value, aad, now) ==
            if EpochR(s) == t.epochI || (EpochR(s) + 1 == t.epochI && now < completed + 30) then Some(plain) else None
  {
    hide OpenFrame, GoodRequest, GoodResponse, Wire;
    OpensAt(t.r, Responder, EpochR(t), t.secrets, s.epochI, aad, n, plain, now);
    OpensAt(t.i, Initiator, t.epochI, t.secrets, EpochR(s), aad, n, plain, now);
  }

  /** Data over every run. A frame sealed at one point and opened at any later one
      gives its payload exactly when the receiver is in the epoch it was sealed in
      or, until 30 seconds after its own advance, in the next one. */
  lemma DataOpensExactly(secret: Secret, steps: seq<Step>, more: seq<Step>, aad: Aad, n: uint64, plain: Plain, now: int)
    requires FreshRun(Initial(secret), steps) && FreshRun(Run(Initial(secret), steps), more)
    ensures var s := Run(Initial(secret), steps);
            var t := Run(s, more);
            var answered := AnsweredAt(s, more, AnsweredAt(Initial(secret), steps, 0));
            var completed := CompletedAt(s, more, CompletedAt(Initial(secret), steps, 0));
            && (Seal(s.i, aad, n, plain).Some? ==>
                  OpenFrame(t.r, s.i.cur.epoch, n, Seal(s.i, aad, n, plain).value, aad, now) ==
                  if s.epochI == EpochR(t) || (s.epochI + 1 == EpochR(t) && now < answered + 30) then Some(plain) else None)
            && (Seal(s.r, aad, n, plain).Some? ==>
                  OpenFrame(t.i, s.r.cur.epoch, n, Seal(s.r, aad, n, plain).value, aad, now) ==
                  if EpochR(s) == t.epochI || (EpochR(s) + 1 == t.epochI && now < completed + 30) then Some(plain) else None)
  {
    hide Inv, Next, Seal, OpenFrame;
    var y := Initial(secret);
    var s := Run(y, steps);
    InitialInv(secret);
    RunInv(y, steps);
    RunInv(s, more);
    HistoryRun(y, steps, 0, 0);
    HistoryRun(s, more, AnsweredAt(y, steps, 0), CompletedAt(y, steps, 0));
    FramesOpen(s, Run(s, more), AnsweredAt(s, more, AnsweredAt(y, steps, 0)),
               CompletedAt(s, more, CompletedAt(y, steps, 0)), aad, n, plain, now);
  }

  // ---- the condition is exact ----

  /** Starting again in an epoch whose first exchange was abandoned can always
      end with both sides in the same epoch holding different secrets: whatever
      reachable state the restart happens in, three steps lead there. The answer
      cache is keyed by epoch alone, so the second request is answered with the
      ciphertext made for the first key pair. */
  lemma RestartDiverges(s: System, now: int) returns (steps: seq<Step>)
    requires Inv(s) && s.attempt.None? && !FreshStart(s)
    ensures |steps| == 3 && steps[0] == Start
    ensures Enabled(s, steps[0]) && Enabled(Run(s, steps[..1]), steps[1]) && Enabled(Run(s, steps[..2]), steps[2])
    ensures var t := Run(s, steps); EpochR(t) == t.epochI && t.i.cur.epoch == t.r.cur.epoch && t.i.master != t.r.master
  {
    var m :| m in s.requests && m.at == s.epochI;
    var s2 := Answered(Started(s), m, now);
    DeliverOldRequest(s, m, now);
    TakeOldAnswer(s, s2, now);
    var reply := s2.cache.value.response;
    steps := [Start, DeliverRequest(m, now), DeliverResponse(reply, now)];
    ThreeSteps(s, steps);
  }

  /** Such a state is two steps from the start: one exchange begun and given up. */
  lemma RestartReachable(secret: Secret)
    ensures var steps := [Start, Abandon];
            && FreshRun(Initial(secret), steps)
            && var s := Run(Initial(secret), steps); Inv(s) && s.attempt.None? && !FreshStart(s)
  {
    var steps := [Start, Abandon];
    var s1 := Next(Initial(secret), Start);
    assert steps[1..] == [Abandon] && [Abandon][1..] == [];
    assert FreshRun(Next(s1, Abandon), []) && FreshRun(s1, steps[1..]);
    assert Run(s1, steps[1..]) == Next(s1, Abandon);
    InitialInv(secret);
    RunInv(Initial(secret), steps);
  }

  lemma ThreeSteps(s: System, steps: seq<Step>)
    requires |steps| == 3
    ensures Run(s, steps[..1]) == Next(s, steps[0])
    ensures Run(s, steps[..2]) == Next(Next(s, steps[0]), steps[1])
    ensures Run(s, steps) == Next(Next(Next(s, steps[0]), steps[1]), steps[2])
  {
    var s1 := Next(s, steps[0]);
    var s2 := Next(s1, steps[1]);
    assert steps[..1][1..] == [];
    assert steps[..2][1..] == [steps[1]];
    assert Run(s1, [steps[1]]) == Run(s2, [steps[1]][1..]);
    assert steps[1..] == [steps[1], steps[2]];
    assert [steps[1], steps[2]][1..] == [steps[2]];
    assert Run(s2, [steps[2]]) == Run(Next(s2, steps[2]), [steps[2]][1..]);
  }

  /** Whether or not it had answered before, the responder ends up one epoch
      ahead on the key pair of the abandoned exchange. */
  lemma DeliverOldRequest(s: System, m: Request, now: int)
    requires Inv(s) && s.attempt.None? && m in s.requests && m.at == s.epochI
    ensures OldAnswer(s, Answered(Started(s), m, now))
  {
    if EpochR(s) == s.epochI + 1 { OldReplayed(s, m, now); } else { OldAnswered(s, m, now); }
  }

  lemma OldReplayed(s: System, m: Request, now: int)
    requires Inv(s) && s.attempt.None? && m in s.requests && m.at == s.epochI && EpochR(s) == s.epochI + 1
    ensures OldAnswer(s, Answered(Started(s), m, now))
  {
    hide Respond, Wire;
    assert GoodRequest(s, m);
    assert GoodResponse(s, s.cache.value.response);
  }

  lemma OldAnswered(s: System, m: Request, now: int)
    requires Inv(s) && s.attempt.None? && m in s.requests && m.at == s.epochI == EpochR(s)
    ensures OldAnswer(s, Answered(Started(s), m, now))
  {
    hide Answered;
    assert GoodRequest(s, m);
    EpochBytesDiffer(EpochR(s) - if EpochR(s) > 0 then 1 else 0);
    RequestOpens(s, m, now);
    AnsweredBy(Started(s), m, s.asked[m.at], now);
  }

  /** The restarted exchange waits with a new key pair while the only answer for
      its epoch is one made for the old one. */
  ghost predicate OldAnswer(s: System, t: System)
  {
    && t.i == Started(s).i
    && t.epochI == s.epochI && EpochR(t) == t.epochI + 1
    && t.attempt == Some(Attempt(s.nextKeyPair, s.i.cur.epoch))
    && t.r.cur.epoch == Wire(t.epochI + 1)
    && t.cache.Some? && t.cache.value.response in t.responses
    && var body := t.cache.value.response.body;
       && body.box.key == s.i.cur.recvKey
       && body.box.nonce == RecvNonce(s.i, body.n)
       && body.box.aad == Control(true, s.i.cur.epoch, body.n)
       && body.box.plain.Ciphertext?
       && body.box.plain.ct.pk < s.nextKeyPair
       && t.r.master == Rekeyed(s.i.master, Encapsulated(body.box.plain.ct))
  }

  lemma TakeOldAnswer(s: System, t: System, now: int)
    requires Inv(s) && OldAnswer(s, t)
    ensures var u := Completed(t, t.cache.value.response, now);
            EpochR(u) == u.epochI && u.i.cur.epoch == u.r.cur.epoch && u.i.master != u.r.master
  {
    hide GoodRequest, GoodResponse;
  }
}
