/** Key wear on the stream transport. A send key counts from the number at which
    it took over, on both sides and over every run of the rekey protocol: it seals
    every number below 2^28 after that one and refuses the rest. A number drawn
    under the old key and sealed under the new one comes on top, at most one. */
module StreamWear {
  import opened Words
  import opened Symbolic
  import opened StreamSession
  import opened StreamRekey
  import opened StreamLinks
  import opened StreamTransparency
  import StreamLateResponse

  const BUDGET: nat := 0x1000_0000

  // ---- one step either leaves the send key or switches it ----

  predicate SameKey(p: Party, q: Party)
  {
    q.s.sendKey == p.s.sendKey && q.s.epochStart == p.s.epochStart
  }

  /** The new key takes over at the next number; no rekey record is half sent. */
  predicate TakesOver(p: Party, q: Party)
  {
    && q.s.sendKey != p.s.sendKey
    && q.s.epochStart == q.s.sendSeq == p.s.sendSeq
    && q.data == p.data && q.control.NoControl?
  }

  lemma ActivateTakesOver(y: System)
    requires Enabled(y, Activate)
    requires Inv(y)
    ensures TakesOver(y.r, Next(y, Activate).r)
  {
    hide Link;
    ActivateStatus(y);
    NeighboursDiffer(y.secrets, y.r.gen);
  }

  lemma ResponseTakesOver(y: System)
    requires Enabled(y, Deliver(Initiator)) && y.r.out[0].rec.rekey
    requires Inv(y)
    ensures TakesOver(y.i, Next(y, Deliver(Initiator)).i)
  {
    hide Link, Opened;
    ResponseIsNext(y);
    ResponseLinks(y);
    ResponseTaken(y);
    SendHalfKept(y.i, y.r.out[0].rec);
    NeighboursDiffer(y.secrets, y.i.gen);
  }

  /** Receiving anything else leaves the sending half alone. */
  lemma DeliveryKeepsKey(y: System, to: Role)
    requires Enabled(y, Deliver(to)) && (to.Initiator? ==> !y.r.out[0].rec.rekey)
    ensures var p, q := Who(y, to), Who(Next(y, Deliver(to)), to);
            && SameKey(p, q) && q.s.sendSeq == p.s.sendSeq && q.data == p.data
            && (q.control == p.control || q.control.Wanted?)
  {
    hide Opened;
    SendHalfKept(Who(y, to), Who(y, Peer(to)).out[0].rec);
  }

  lemma KeyStep(y: System, step: Step, who: Role)
    requires Enabled(y, step) && Punctual(y, step)
    requires Inv(y)
    ensures var p, q := Who(y, who), Who(Next(y, step), who);
            if q.s.sendKey != p.s.sendKey then TakesOver(p, q) else SameKey(p, q)
  {
    hide Inv, Opened;
    match step
    case Activate => ActivateTakesOver(y);
    case Deliver(to) =>
      if to.Initiator? && y.r.out[0].rec.rekey { ResponseTakesOver(y); } else { DeliveryKeepsKey(y, to); }
    case _ =>
  }

  // ---- when a key is worn ----

  /** The number at which the current send key took over. */
  function KeySince(y: System, steps: seq<Step>, who: Role, since: nat): nat
    requires PunctualRun(y, steps)
    decreases |steps|
  {
    if steps == [] then since
    else
      var z := Next(y, steps[0]);
      KeySince(z, steps[1..], who,
               if Who(z, who).s.sendKey != Who(y, who).s.sendKey then Who(z, who).s.sendSeq else since)
  }

  lemma {:induction false} StartIsSince(y: System, steps: seq<Step>, who: Role)
    requires PunctualRun(y, steps) && Inv(y)
    ensures Who(Run(y, steps), who).s.epochStart == KeySince(y, steps, who, Who(y, who).s.epochStart)
    decreases |steps|
  {
    hide Inv, Next;
    if steps != [] {
      KeyStep(y, steps[0], who);
      StepInv(y, steps[0]);
      StartIsSince(Next(y, steps[0]), steps[1..], who);
    }
  }

  /** Over every run and on either side, a number is sealed exactly when it lies
      less than 2^28 after the number at which the current send key took over. */
  lemma WornExactly(secret: Secret, steps: seq<Step>, who: Role, n: nat, plain: Plain)
    requires PunctualRun(Initial(secret), steps)
    ensures SealRecord(Who(Run(Initial(secret), steps), who).s, n, plain).Some? <==>
            n < KeySince(Initial(secret), steps, who, 0) + BUDGET
  {
    hide Inv, Next;
    InitialInv(secret);
    StartIsSince(Initial(secret), steps, who);
  }

  // ---- how much one key seals ----

  /** What one step seals. */
  function SealedBy(p: Party, q: Party): set<nat>
  {
    (if p.data.Numbered? && q.data.Ready? then {q.data.e.rec.n} else {})
    + (if p.control.Drawn? && q.control.Boxed? then {q.control.e.rec.n} else {})
  }

  /** The numbers sealed under the current send key. */
  function SealedUnder(y: System, steps: seq<Step>, who: Role, before: set<nat>): set<nat>
    requires PunctualRun(y, steps)
    decreases |steps|
  {
    if steps == [] then before
    else
      var z := Next(y, steps[0]);
      var p, q := Who(y, who), Who(z, who);
      SealedUnder(z, steps[1..], who, if q.s.sendKey != p.s.sendKey then {} else before + SealedBy(p, q))
  }

  /** Numbers drawn before the key took over, sealed under it or still to be. */
  function Strays(p: Party, under: set<nat>): set<nat>
  {
    (set n | n in under && n < p.s.epochStart)
    + (if p.data.Numbered? && p.data.n < p.s.epochStart then {p.data.n} else {})
    + (if p.control.Drawn? && p.control.n < p.s.epochStart then {p.control.n} else {})
  }

  ghost predicate Wear(p: Party, under: set<nat>)
  {
    && p.s.epochStart <= p.s.sendSeq
    && (forall n :: n in under ==> n < p.s.sendSeq && n < p.s.epochStart + BUDGET)
    && (p.data.Numbered? ==> p.data.n < p.s.sendSeq && p.data.n !in under)
    && (p.control.Drawn? ==> p.control.n < p.s.sendSeq && p.control.n !in under)
    && (p.data.Numbered? && p.control.Drawn? ==> p.data.n != p.control.n)
    && |Strays(p, under)| <= 1
  }

  lemma Fewer(a: set<nat>, b: set<nat>)
    requires a <= b && |b| <= 1
    ensures |a| <= 1
  {
    if a != {} {
      var x :| x in a;
      assert |b - {x}| == 0;
      assert b == {x};
      assert a == {x};
    }
  }

  lemma WearTakesOver(p: Party, q: Party, under: set<nat>)
    requires Wear(p, under) && TakesOver(p, q)
    ensures Wear(q, {})
  {
    if q.data.Numbered? { Fewer(Strays(q, {}), {q.data.n}); } else { assert Strays(q, {}) == {}; }
  }

  /** A drawn number is not a stray, and sealing one only moves it. */
  lemma WearStays(p: Party, q: Party, under: set<nat>)
    requires Wear(p, under) && SameKey(p, q) && q.s.sendSeq == p.s.sendSeq
    requires q.data.Numbered? ==> q.data == p.data
    requires q.control.Drawn? ==> q.control == p.control
    requires p.data.Numbered? && q.data.Ready? ==> q.data.e.rec.n == p.data.n && p.data.n < p.s.epochStart + BUDGET
    requires p.control.Drawn? && q.control.Boxed? ==>
               q.control.e.rec.n == p.control.n && p.control.n < p.s.epochStart + BUDGET
    ensures Wear(q, under + SealedBy(p, q))
  {
    hide Strays;
    StraysMove(p, q, under);
    Fewer(Strays(q, under + SealedBy(p, q)), Strays(p, under));
  }

  lemma StraysMove(p: Party, q: Party, under: set<nat>)
    requires q.s.epochStart == p.s.epochStart
    requires q.data.Numbered? ==> q.data == p.data
    requires q.control.Drawn? ==> q.control == p.control
    requires p.data.Numbered? && q.data.Ready? ==> q.data.e.rec.n == p.data.n
    requires p.control.Drawn? && q.control.Boxed? ==> q.control.e.rec.n == p.control.n
    ensures Strays(q, under + SealedBy(p, q)) <= Strays(p, under)
  {}

  lemma WearDraws(p: Party, q: Party, under: set<nat>)
    requires Wear(p, under) && SameKey(p, q) && q.s.sendSeq == p.s.sendSeq + 1
    requires || (q.data.Numbered? && q.data.n == p.s.sendSeq && q.control == p.control)
             || (q.control.Drawn? && q.control.n == p.s.sendSeq && q.data == p.data && !p.control.Drawn?)
    ensures SealedBy(p, q) == {} && Wear(q, under)
  {
    Fewer(Strays(q, under), Strays(p, under));
  }

  lemma WearStep(y: System, step: Step, who: Role, under: set<nat>)
    requires Enabled(y, step) && Punctual(y, step)
    requires Inv(y) && Wear(Who(y, who), under)
    ensures var p, q := Who(y, who), Who(Next(y, step), who);
            Wear(q, if q.s.sendKey != p.s.sendKey then {} else under + SealedBy(p, q))
  {
    hide Inv, Wear, Opened;
    var p, q := Who(y, who), Who(Next(y, step), who);
    KeyStep(y, step, who);
    if q.s.sendKey != p.s.sendKey {
      WearTakesOver(p, q, under);
    } else if (step.DrawData? || step.DrawControl?) && step.who == who {
      WearDraws(p, q, under);
      assert under + {} == under;
    } else {
      if step.Deliver? && step.to == who && !(who.Initiator? && y.r.out[0].rec.rekey) { DeliveryKeepsKey(y, who); }
      if step.Deliver? && who.Initiator? && step.to == who && y.r.out[0].rec.rekey { ResponseTakesOver(y); }
      WearStays(p, q, under);
    }
  }

  lemma {:induction false} WearRun(y: System, steps: seq<Step>, who: Role, under: set<nat>)
    requires PunctualRun(y, steps) && Inv(y) && Wear(Who(y, who), under)
    ensures Wear(Who(Run(y, steps), who), SealedUnder(y, steps, who, under))
    decreases |steps|
  {
    hide Inv, Next, Wear;
    if steps != [] {
      WearStep(y, steps[0], who, under);
      StepInv(y, steps[0]);
      var z := Next(y, steps[0]);
      var p, q := Who(y, who), Who(z, who);
      WearRun(z, steps[1..], who, if q.s.sendKey != p.s.sendKey then {} else under + SealedBy(p, q));
    }
  }

  lemma WearBounds(p: Party, under: set<nat>)
    requires Wear(p, under)
    ensures |under| <= BUDGET + 1
    ensures (forall n :: n in under ==> n >= p.s.epochStart) ==> |under| <= BUDGET
  {
    var early, rest := set n | n in under && n < p.s.epochStart, set n | n in under && n >= p.s.epochStart;
    assert under == early + rest && early !! rest;
    Fewer(early, Strays(p, under));
    IntervalSize(rest, p.s.epochStart, p.s.epochStart + BUDGET);
    if forall n :: n in under ==> n >= p.s.epochStart { assert early == {}; }
  }

  /** Over every run and on either side, a send key seals at most 2^28 records, plus
      one if a number drawn before it took over was sealed under it. */
  lemma KeyBudget(secret: Secret, steps: seq<Step>, who: Role)
    requires PunctualRun(Initial(secret), steps)
    ensures var under := SealedUnder(Initial(secret), steps, who, {});
            && |under| <= BUDGET + 1
            && ((forall n :: n in under ==> n >= KeySince(Initial(secret), steps, who, 0)) ==> |under| <= BUDGET)
  {
    hide Inv, Next;
    InitialInv(secret);
    assert Strays(Who(Initial(secret), who), {}) == {};
    WearRun(Initial(secret), steps, who, {});
    StartIsSince(Initial(secret), steps, who);
    WearBounds(Who(Run(Initial(secret), steps), who), SealedUnder(Initial(secret), steps, who, {}));
  }

  // ---- the one on top can happen ----

  lemma {:induction false} UnderTwice(y: System, steps: seq<Step>, more: seq<Step>, who: Role, before: set<nat>)
    requires PunctualRun(y, steps) && PunctualRun(Run(y, steps), more)
    ensures PunctualRun(y, steps + more) && Run(y, steps + more) == Run(Run(y, steps), more)
    ensures SealedUnder(y, steps + more, who, before) ==
            SealedUnder(Run(y, steps), more, who, SealedUnder(y, steps, who, before))
    decreases |steps|
  {
    hide Next, Enabled;
    if steps == [] {
      assert steps + more == more;
    } else {
      assert (steps + more)[0] == steps[0] && (steps + more)[1..] == steps[1..] + more;
      var z := Next(y, steps[0]);
      var p, q := Who(y, who), Who(z, who);
      UnderTwice(z, steps[1..], more, who, if q.s.sendKey != p.s.sendKey then {} else before + SealedBy(p, q));
    }
  }

  /** One step more in front of a run. */
  lemma UnderChain(y: System, step: Step, rest: seq<Step>, who: Role, before: set<nat>)
    requires Enabled(y, step) && Punctual(y, step) && PunctualRun(Next(y, step), rest)
    ensures PunctualRun(y, [step] + rest) && Run(y, [step] + rest) == Run(Next(y, step), rest)
    ensures var p, q := Who(y, who), Who(Next(y, step), who);
            SealedUnder(y, [step] + rest, who, before) ==
            SealedUnder(Next(y, step), rest, who, if q.s.sendKey != p.s.sendKey then {} else before + SealedBy(p, q))
  {
    hide Next, Enabled;
    assert ([step] + rest)[1..] == rest;
  }

  /** One data record, start to finish. */
  lemma SealOne(y: System, who: Role, before: set<nat>) returns (steps: seq<Step>)
    requires var p := Who(y, who); p.data.Free? && p.s.sendSeq < p.s.epochStart + BUDGET
    ensures PunctualRun(y, steps)
    ensures var p, q := Who(y, who), Who(Run(y, steps), who);
            && q.data.Free? && q.s == DrawNumber(p.s)
            && SealedUnder(y, steps, who, before) == before + {p.s.sendSeq}
  {
    var n := Who(y, who).s.sendSeq;
    var y1 := Next(y, DrawData(who, ""));
    var y2 := Next(y1, SealData(who));
    var y3 := Next(y2, WriteData(who));
    assert SealedBy(Who(y, who), Who(y1, who)) == {} && before + {} == before;
    assert SealedBy(Who(y1, who), Who(y2, who)) == {n};
    assert SealedBy(Who(y2, who), Who(y3, who)) == {} && before + {n} + {} == before + {n};
    var last := [WriteData(who)] + [];
    UnderChain(y2, WriteData(who), [], who, before + {n});
    UnderChain(y1, SealData(who), last, who, before);
    UnderChain(y, DrawData(who, ""), [SealData(who)] + last, who, before);
    steps := [DrawData(who, "")] + ([SealData(who)] + last);
  }

  lemma {:induction false} SealMany(y: System, who: Role, k: nat, before: set<nat>) returns (steps: seq<Step>)
    requires var p := Who(y, who); p.data.Free? && p.s.sendSeq + k <= p.s.epochStart + BUDGET
    requires forall n :: n in before ==> n < Who(y, who).s.sendSeq
    ensures PunctualRun(y, steps)
    ensures before <= SealedUnder(y, steps, who, before) && |SealedUnder(y, steps, who, before)| == |before| + k
    decreases k
  {
    hide Next, Enabled;
    if k == 0 {
      steps := [];
    } else {
      var first := SealOne(y, who, before);
      var y1 := Run(y, first);
      var rest := SealMany(y1, who, k - 1, before + {Who(y, who).s.sendSeq});
      UnderTwice(y, first, rest, who, before);
      steps := first + rest;
    }
  }

  /** A number held over a switch is sealed under the new key. */
  lemma StrayTail(y: System, under: set<nat>) returns (steps: seq<Step>)
    requires Enabled(y, Activate) && y.r.data.Numbered? && y.r.data.n < y.r.s.sendSeq
    requires Inv(y)
    ensures PunctualRun(y, steps)
    ensures var z := Run(y, steps);
            z.r.data.Free? && z.r.s.sendSeq == z.r.s.epochStart == y.r.s.sendSeq
    ensures SealedUnder(y, steps, Responder, under) == {y.r.data.n}
  {
    hide Inv;
    ActivateTakesOver(y);
    var n := y.r.data.n;
    var y1 := Next(y, Activate);
    var y2 := Next(y1, SealData(Responder));
    var y3 := Next(y2, WriteData(Responder));
    assert SealedBy(y1.r, y2.r) == {n} && {} + {n} == {n};
    assert SealedBy(y2.r, y3.r) == {} && {n} + {} == {n};
    var last := [WriteData(Responder)] + [];
    UnderChain(y2, WriteData(Responder), [], Responder, {n});
    UnderChain(y1, SealData(Responder), last, Responder, {});
    UnderChain(y, Activate, [SealData(Responder)] + last, Responder, under);
    steps := [Activate] + ([SealData(Responder)] + last);
  }

  lemma StrayHead(y: System, under: set<nat>) returns (steps: seq<Step>)
    requires Enabled(y, WriteControl(Responder)) && !TooLate(y.r) && y.r.s.role.Responder?
    requires Inv(y)
    ensures PunctualRun(y, steps)
    ensures var z := Run(y, steps);
            z.r.data.Free? && z.r.s.sendSeq == z.r.s.epochStart == y.r.s.sendSeq + 1
    ensures SealedUnder(y, steps, Responder, under) == {y.r.s.sendSeq}
  {
    hide Inv;
    var draw := DrawData(Responder, "");
    var y1 := Next(y, WriteControl(Responder));
    StepInv(y, WriteControl(Responder));
    var y2 := Next(y1, draw);
    StepInv(y1, draw);
    var tail := StrayTail(y2, under + SealedBy(y.r, y1.r) + SealedBy(y1.r, y2.r));
    UnderChain(y1, draw, tail, Responder, under + SealedBy(y.r, y1.r));
    UnderChain(y, WriteControl(Responder), [draw] + tail, Responder, under);
    steps := [WriteControl(Responder)] + ([draw] + tail);
  }

  /** The responder answers, draws the next number, switches, and only then seals it. */
  lemma StraySealed(secret: Secret) returns (steps: seq<Step>)
    ensures PunctualRun(Initial(secret), steps)
    ensures var y := Run(Initial(secret), steps);
            y.r.data.Free? && y.r.s.sendSeq == y.r.s.epochStart == 2
    ensures SealedUnder(Initial(secret), steps, Responder, {}) == {1}
  {
    hide Next, Link;
    var first := StreamLateResponse.AnswerSealed(secret);
    var y := Run(Initial(secret), first);
    InitialInv(secret);
    RunInv(Initial(secret), first);
    NotLate(y);
    var more := StrayHead(y, SealedUnder(Initial(secret), first, Responder, {}));
    UnderTwice(Initial(secret), first, more, Responder, {});
    steps := first + more;
  }

  /** A first number cannot have been overtaken by 1024 when only it was drawn. */
  lemma NotLate(y: System)
    requires Inv(y) && y.r.control.Boxed? && y.r.s.sendSeq == 1
    ensures !TooLate(y.r)
  {
    hide HasKeys, Status;
  }

  /** A run in which a key seals 2^28 + 1 records. */
  lemma OneOnTop(secret: Secret) returns (steps: seq<Step>)
    ensures PunctualRun(Initial(secret), steps)
    ensures |SealedUnder(Initial(secret), steps, Responder, {})| == BUDGET + 1
  {
    hide Next, Enabled;
    var first := StraySealed(secret);
    var y := Run(Initial(secret), first);
    var rest := SealMany(y, Responder, BUDGET, {1});
    UnderTwice(Initial(secret), first, rest, Responder, {});
    steps := first + rest;
  }
}
