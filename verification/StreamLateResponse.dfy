/** The exception to stream transparency is exact. A rekey response written after
    1024 later numbers is refused by the initiator's replay window; the responder
    switches its send key regardless; and no record it seals under the new key is
    ever opened, whatever happens next. A request written that late costs less: the
    data goes on, but no rekey ever completes or starts again. */
module StreamLateResponse {
  import opened Symbolic
  import opened StreamSession
  import opened StreamRekey
  import opened StreamLinks
  import opened StreamTransparency

  /** The responder seals with the newest key, or has only to switch to it, and
      the initiator neither holds that key nor can still learn it. */
  ghost predicate Severed(y: System)
  {
    var n := Newest(y);
    && n > 0 && Ratchet(y.secrets)
    && HasKeys(y.i, Initiator, y.secrets)
    && y.i.recvGen < n && (y.i.s.pendingRecv.Some? ==> y.i.recvGen + 1 < n)
    && y.i.s.inProgress && y.i.control.NoControl? && Rekeys(y.i.out) == []
    && y.r.s.role.Responder? && y.r.s.prefix == y.secrets[0]
    && (y.r.gen == n || y.r.gen == n - 1) && y.r.s.sendKey == TrafficKey(y.secrets[y.r.gen], Responder)
    && (if y.r.gen == n then y.r.control.NoControl? else AboutToSwitch(y.r, y.secrets[n]))
    && (y.i.data.Ready? ==> !y.i.data.e.rec.rekey)
    && Sound(y.r, y.i, y.secrets)
    && AllLate(y.r.out)
  }

  ghost predicate AboutToSwitch(p: Party, secret: Secret)
  {
    p.control.Written? && p.s.pendingSend == Some(TrafficKey(secret, Responder))
  }

  predicate AllLate(es: seq<Entry>)
  {
    forall k :: 0 <= k < |es| && es[k].rec.rekey ==> es[k].late
  }

  /** No key the initiator holds opens a record of the newest generation. */
  lemma NewestUnopened(y: System, e: Entry)
    requires Severed(y) && Good(e, Responder, y.secrets) && e.gen == Newest(y)
    ensures Opened(y.i, e.rec).1 == None
  {
    if y.secrets[e.gen] == y.secrets[y.i.recvGen] { RatchetDistinct(y.secrets, e.gen, y.i.recvGen); }
    if y.i.s.pendingRecv.Some? && y.secrets[e.gen] == y.secrets[y.i.recvGen + 1] {
      RatchetDistinct(y.secrets, e.gen, y.i.recvGen + 1);
    }
  }

  lemma SoundFrame(x: Party, x2: Party, y: Party, y2: Party, secrets: seq<Secret>)
    requires Sound(x, y, secrets)
    requires y2.s.window == y.s.window && y2.accepted == y.accepted
    requires x2.s.role == x.s.role && x2.s.sendSeq == x.s.sendSeq && x2.gen == x.gen
    requires x2.data == x.data && x2.out == x.out && x2.top == x.top && x2.control == x.control
    ensures Sound(x2, y2, secrets)
  {
    hide AllGood, Sequenced;
    GoodFrame(x, x2, secrets);
    SequenceFrame(x, x2, y, y2);
  }

  /** Opening a record keeps the keys the initiator holds below the newest. */
  lemma StillBehind(p: Party, rec: Record, secrets: seq<Secret>, newest: nat)
    requires Ratchet(secrets) && HasKeys(p, Initiator, secrets)
    requires p.recvGen < newest && (p.s.pendingRecv.Some? ==> p.recvGen + 1 < newest)
    ensures var q := Opened(p, rec).0;
            && HasKeys(q, Initiator, secrets)
            && q.recvGen < newest && (q.s.pendingRecv.Some? ==> q.recvGen + 1 < newest)
  {
    hide Opened;
    KeptOrPromoted(p, rec);
    if p.s.pendingRecv.Some? { NeighboursDiffer(secrets, p.recvGen); }
  }

  /** Opening a record leaves the receive key, or puts the pending one in its place. */
  lemma KeptOrPromoted(p: Party, rec: Record)
    ensures var q := Opened(p, rec).0;
            && q.gen == p.gen && q.s.role == p.s.role && q.s.prefix == p.s.prefix
            && q.s.master == p.s.master && q.s.sendKey == p.s.sendKey
            && q.recvGen == (if q.s.recvKey != p.s.recvKey then p.recvGen + 1 else p.recvGen)
            && (|| (q.s.recvKey == p.s.recvKey && q.s.pendingRecv == p.s.pendingRecv)
                || (p.s.pendingRecv == Some(q.s.recvKey) && q.s.pendingRecv.None?))
  {}

  /** Whatever the head is, taking it neither completes the rekey nor loses
      track of the numbers. */
  lemma HeadTaken(y: System)
    requires Severed(y) && y.r.out != []
    ensures var z := Next(y, Deliver(Initiator));
            && z.r == Rest(y.r) && z.secrets == y.secrets
            && z.i.s == Opened(y.i, y.r.out[0].rec).0.s
            && z.i == Opened(y.i, y.r.out[0].rec).0.(got := z.i.got)
  {
    var e := y.r.out[0];
    assert Good(e, Responder, y.secrets);
    HeadChecked(y.r, y.i);
  }

  lemma SeveredByInitiator(y: System)
    requires Severed(y) && y.r.out != []
    ensures Severed(Next(y, Deliver(Initiator)))
  {
    hide Sound, HasKeys, Opened;
    var z := Next(y, Deliver(Initiator));
    hide Sound, HasKeys, Next, Opened;
    HeadTaken(y);
    SendHalfKept(y.i, y.r.out[0].rec);
    HeadSound(y.r, y.i, y.secrets);
    SoundFrame(z.r, z.r, Opened(y.i, y.r.out[0].rec).0, z.i, y.secrets);
    StillBehind(y.i, y.r.out[0].rec, y.secrets, Newest(y));
    KeysFrame(Opened(y.i, y.r.out[0].rec).0, z.i, Initiator, y.secrets);
  }

  lemma HeadSound(x: Party, y: Party, secrets: seq<Secret>)
    requires Sound(x, y, secrets) && x.out != []
    ensures Sound(Rest(x), Opened(y, x.out[0].rec).0, secrets)
  {
    HeadChecked(x, y);
    HeadNumbers(x, y, Opened(y, x.out[0].rec).0);
  }

  lemma SeveredByResponder(y: System)
    requires Severed(y) && Enabled(y, Deliver(Responder))
    ensures Severed(Next(y, Deliver(Responder)))
  {
    hide Sound;
    var z := Next(y, Deliver(Responder));
    SendHalfKept(y.r, y.i.out[0].rec);
    assert z.i == Rest(y.i);
    SoundFrame(y.r, z.r, y.i, z.i, y.secrets);
  }

  lemma SeveredByOwnData(y: System, step: Step)
    requires Severed(y) && Enabled(y, step) && (step.DrawData? || step.SealData? || step.WriteData?) && step.who.Initiator?
    ensures Severed(Next(y, step))
  {
    hide Sound;
    var z := Next(y, step);
    if step.WriteData? { RekeysAppend(y.i.out, y.i.data.e); }
    SoundFrame(y.r, y.r, y.i, z.i, y.secrets);
  }

  lemma ReadyIsData(x: Party, y: Party, secrets: seq<Secret>)
    requires Sound(x, y, secrets) && x.data.Ready?
    ensures !x.data.e.rec.rekey
  {}

  lemma SeveredByPeerData(y: System, step: Step)
    requires Severed(y) && Enabled(y, step) && (step.DrawData? || step.SealData? || step.WriteData?) && step.who.Responder?
    ensures Severed(Next(y, step))
  {
    hide Sound, HasKeys;
    match step
    case DrawData(_, bytes) => DrawDataSound(y.r, y.i, y.secrets, bytes);
    case SealData(_) => SealDataSound(y.r, y.i, y.secrets);
    case WriteData(_) => WriteDataSound(y.r, y.i, y.secrets); ReadyIsData(y.r, y.i, y.secrets);
  }

  lemma SeveredByData(y: System, step: Step)
    requires Severed(y) && Enabled(y, step) && (step.DrawData? || step.SealData? || step.WriteData?)
    ensures Severed(Next(y, step))
  {
    if step.who.Initiator? { SeveredByOwnData(y, step); } else { SeveredByPeerData(y, step); }
  }

  lemma SeveredByActivate(y: System)
    requires Severed(y) && Enabled(y, Activate)
    ensures Severed(Next(y, Activate))
  {
    hide Sound, HasKeys;
    SoundAfterSwitch(y.r, ActivateOf(y.r), y.i, y.secrets);
  }

  lemma SoundAfterSwitch(x: Party, x2: Party, y: Party, secrets: seq<Secret>)
    requires Sound(x, y, secrets) && x.control.Written?
    requires x2.s.role == x.s.role && x2.s.sendSeq == x.s.sendSeq && x2.control.NoControl?
    requires x2.data == x.data && x2.out == x.out && x2.top == x.top
    ensures Sound(x2, y, secrets)
  {
    hide AllGood, Sequenced;
    GoodFrame(x, x2, secrets);
    SequenceFrame(x, x2, y, y);
  }

  lemma SeveredStep(y: System, step: Step)
    requires Severed(y) && Enabled(y, step)
    ensures Severed(Next(y, step))
  {
    hide Sound, HasKeys, Next;
    match step
    case DrawData(_, _) => SeveredByData(y, step);
    case SealData(_) => SeveredByData(y, step);
    case WriteData(_) => SeveredByData(y, step);
    case Activate => SeveredByActivate(y);
    case Deliver(w) => if w.Initiator? { SeveredByInitiator(y); } else { SeveredByResponder(y); }
    case _ => assert false;
  }

  predicate AnyRun(y: System, steps: seq<Step>)
    decreases |steps|
  {
    steps == [] || (Enabled(y, steps[0]) && AnyRun(Next(y, steps[0]), steps[1..]))
  }

  function End(y: System, steps: seq<Step>): System
    requires AnyRun(y, steps)
    decreases |steps|
  {
    if steps == [] then y else End(Next(y, steps[0]), steps[1..])
  }

  /** No rekey completes: no new secret comes up and the initiator keeps its own. */
  lemma SecretsKept(y: System, step: Step)
    requires Severed(y) && Enabled(y, step)
    ensures Next(y, step).secrets == y.secrets && Next(y, step).i.gen == y.i.gen
  {
    if step.Deliver? && step.to.Responder? { NoRekeysIn(y.i.out); }
    if step.Deliver? && step.to.Initiator? { HeadTaken(y); }
  }

  lemma {:induction false} SeveredRun(y: System, steps: seq<Step>)
    requires Severed(y) && AnyRun(y, steps)
    ensures Severed(End(y, steps)) && End(y, steps).secrets == y.secrets && End(y, steps).i.gen == y.i.gen
    decreases |steps|
  {
    if steps != [] {
      SeveredStep(y, steps[0]);
      SecretsKept(y, steps[0]);
      SeveredRun(Next(y, steps[0]), steps[1..]);
    }
  }

  lemma {:induction false} WalkClimbs(r: nat, p: bool, es: seq<Entry>)
    requires Walk(r, p, es).Some?
    ensures var (r1, p1) := Walk(r, p, es).value; r <= r1 && (r == r1 && p ==> p1)
    decreases |es|
  {
    if es != [] {
      if es[0].late {
        WalkClimbs(r, p, es[1..]);
      } else {
        var (r1, p1) := Step1(r, p, es[0]).value;
        WalkClimbs(r1, p1, es[1..]);
      }
    }
  }

  lemma {:induction false} NoRekeysIn(es: seq<Entry>)
    requires Rekeys(es) == []
    ensures forall k :: 0 <= k < |es| ==> !es[k].rec.rekey
  {
    if es != [] { NoRekeysIn(es[1..]); }
  }

  /** Where the two sides stand when a response is about to be written. */
  lemma AboutToAnswer(y: System)
    requires Inv(y) && y.r.control.Boxed?
    ensures Waiting(y) && y.r.s.inProgress && Newest(y) > 0
    ensures y.r.gen + 1 == Newest(y) && Rekeys(y.r.out) == []
    ensures y.i.recvGen < Newest(y) && (y.i.s.pendingRecv.Some? ==> y.i.recvGen + 1 < Newest(y))
  {
    hide Link, HasKeys;
    assert Waiting(y);
    ReceiverBehind(y.r, y.i, y.secrets);
  }

  /** A receiver that is not armed for more is at most at its sender's generation. */
  lemma ReceiverBehind(x: Party, y: Party, secrets: seq<Secret>)
    requires Link(x, y, secrets, false)
    ensures y.recvGen <= x.gen && (y.s.pendingRecv.Some? ==> y.recvGen < x.gen)
  {
    hide AllGood, Sequenced, DataOf;
    WalkClimbs(y.recvGen, y.s.pendingRecv.Some?, Flow(x));
  }

  lemma LinkIsSound(x: Party, y: Party, secrets: seq<Secret>, primed: bool)
    requires Link(x, y, secrets, primed)
    ensures Sound(x, y, secrets)
  {}

  /** Writing it late severs the direction, in every reachable state. */
  lemma LateResponseSevers(y: System)
    requires Enabled(y, WriteControl(Responder)) && TooLate(y.r)
    requires Inv(y)
    ensures Severed(Next(y, WriteControl(Responder)))
    ensures Next(y, WriteControl(Responder)).secrets == y.secrets && Next(y, WriteControl(Responder)).i.gen == y.i.gen
  {
    hide Link, Sound;
    AboutToAnswer(y);
    var z := Next(y, WriteControl(Responder));
    HeldIsTyped(y.i, y.r, y.secrets, PrimedI(y));
    LinkIsSound(y.r, y.i, y.secrets, y.r.control.Written?);
    WriteControlSound(y.r, y.i, y.secrets);
    NoRekeysIn(y.r.out);
    assert AllLate(z.r.out);
  }

  /** From any reachable state in which the responder writes its response too late,
      over every continuation: the responder goes on to seal under the new key, with
      nothing but its own switch before it; the initiator opens no record sealed
      under that key; and no rekey ever completes or starts again. */
  lemma LateResponseIsFatal(y: System, steps: seq<Step>)
    requires Enabled(y, WriteControl(Responder)) && TooLate(y.r) && Inv(y)
    requires AnyRun(Next(y, WriteControl(Responder)), steps)
    ensures var z := End(Next(y, WriteControl(Responder)), steps);
            var newest := TrafficKey(y.secrets[Newest(y)], Responder);
            && (if Enabled(z, Activate) then Next(z, Activate).r.s.sendKey == newest else z.r.s.sendKey == newest)
            && (forall k :: 0 <= k < |z.r.out| && z.r.out[k].rec.box.key == newest ==>
                  Opened(z.i, z.r.out[k].rec).1 == None)
            && z.i.gen == y.i.gen && !Enabled(z, Initiate)
  {
    hide Severed, Next, Inv;
    LateResponseSevers(y);
    var z0 := Next(y, WriteControl(Responder));
    SeveredRun(z0, steps);
    SeveredUnread(End(z0, steps));
  }

  lemma SeveredUnread(z: System)
    requires Severed(z)
    ensures var newest := TrafficKey(z.secrets[Newest(z)], Responder);
            && (if Enabled(z, Activate) then Next(z, Activate).r.s.sendKey == newest else z.r.s.sendKey == newest)
            && !Enabled(z, Initiate)
            && forall k :: 0 <= k < |z.r.out| && z.r.out[k].rec.box.key == newest ==>
                 Opened(z.i, z.r.out[k].rec).1 == None
  {
    forall k | 0 <= k < |z.r.out| && z.r.out[k].rec.box.key == TrafficKey(z.secrets[Newest(z)], Responder)
      ensures Opened(z.i, z.r.out[k].rec).1 == None
    {
      var e := z.r.out[k];
      assert Good(e, Responder, z.secrets);
      RatchetDistinct(z.secrets, e.gen, Newest(z));
      NewestUnopened(z, e);
    }
  }

  // ---- a late request ----

  /** The request is lost and nothing of an earlier exchange is left. */
  ghost predicate Stalled(y: System)
  {
    Inv(y) && Quiet(y) && Lost(y)
  }

  lemma StalledStep(y: System, step: Step)
    requires Enabled(y, step)
    requires Stalled(y)
    ensures Stalled(Next(y, step)) && Next(y, step).i.gen == y.i.gen
  {
    hide Link, HasKeys, Status, Next;
    LostStep(y, step);
    StepInv(y, step);
  }

  lemma LostStep(y: System, step: Step)
    requires Enabled(y, step)
    requires Stalled(y)
    ensures Punctual(y, step)
    ensures Quiet(Next(y, step)) && Lost(Next(y, step)) && Next(y, step).i.gen == y.i.gen
  {
    hide Link, HasKeys;
    match step
    case DrawData(_, _) => LostData(y, step);
    case SealData(_) => LostData(y, step);
    case WriteData(_) => LostData(y, step);
    case Activate =>
    case Deliver(w) => LostDelivery(y, w);
    case _ => assert false;
  }

  lemma LostData(y: System, step: Step)
    requires Enabled(y, step) && (step.DrawData? || step.SealData? || step.WriteData?)
    requires Stalled(y)
    ensures Quiet(Next(y, step)) && Lost(Next(y, step)) && Next(y, step).i.gen == y.i.gen
  {
    hide Link, HasKeys;
    if step.WriteData? {
      HeldIsTyped(y.i, y.r, y.secrets, PrimedI(y));
      HeldIsTyped(y.r, y.i, y.secrets, y.r.control.Written?);
      RekeysAppend(Who(y, step.who).out, Who(y, step.who).data.e);
    }
  }

  lemma LostDelivery(y: System, w: Role)
    requires Enabled(y, Deliver(w))
    requires Stalled(y)
    ensures Quiet(Next(y, Deliver(w))) && Lost(Next(y, Deliver(w))) && Next(y, Deliver(w)).i.gen == y.i.gen
  {
    hide Link, Opened;
    if w.Initiator? {
      NoRekeysIn(y.r.out);
      SendHalfKept(y.i, y.r.out[0].rec);
      DataHead(y.r, y.i, y.secrets, y.r.control.Written?);
    } else if y.i.out[0].rec.rekey {
      LateHead(y.i, y.r, y.secrets, PrimedI(y));
    } else {
      SendHalfKept(y.r, y.i.out[0].rec);
      DataHead(y.i, y.r, y.secrets, PrimedI(y));
    }
  }

  lemma {:induction false} StalledRun(y: System, steps: seq<Step>)
    requires Stalled(y) && AnyRun(y, steps)
    ensures Stalled(End(y, steps)) && End(y, steps).i.gen == y.i.gen
    decreases |steps|
  {
    if steps != [] {
      StalledStep(y, steps[0]);
      StalledRun(Next(y, steps[0]), steps[1..]);
    }
  }

  /** From any reachable state in which the initiator writes its request too late,
      over every continuation: everything sent is still read, in order and once,
      but the initiator's generation never changes and it can never ask again. */
  lemma LateRequestStalls(y: System, steps: seq<Step>)
    requires Enabled(y, WriteControl(Initiator)) && TooLate(y.i) && Inv(y)
    requires AnyRun(Next(y, WriteControl(Initiator)), steps)
    ensures var z := End(Next(y, WriteControl(Initiator)), steps);
            && z.i.sent == z.r.got + DataOf(z.i.out) && z.r.sent == z.i.got + DataOf(z.r.out)
            && z.i.gen == y.i.gen && !Enabled(z, Initiate)
  {
    hide Next, Stalled, Inv;
    LateRequestLost(y);
    var z0 := Next(y, WriteControl(Initiator));
    StalledRun(z0, steps);
    StillRead(End(z0, steps));
  }

  lemma StillRead(z: System)
    requires Stalled(z)
    ensures z.i.sent == z.r.got + DataOf(z.i.out) && z.r.sent == z.i.got + DataOf(z.r.out) && !Enabled(z, Initiate)
  {
    hide Link, HasKeys;
    SentIsRead(z);
  }

  lemma LateRequestLost(y: System)
    requires Enabled(y, WriteControl(Initiator)) && TooLate(y.i)
    requires Inv(y)
    ensures Stalled(Next(y, WriteControl(Initiator))) && Next(y, WriteControl(Initiator)).i.gen == y.i.gen
  {
    hide Link, HasKeys;
    RequestWritten(y);
    HeldIsTyped(y.i, y.r, y.secrets, PrimedI(y));
    assert Quiet(y) && Asking(y);
    RekeysAppend(y.i.out, y.i.control.e.(late := TooLate(y.i)));
  }

  // ---- it can happen ----

  lemma {:induction false} RunTwice(y: System, steps: seq<Step>, more: seq<Step>)
    requires PunctualRun(y, steps) && PunctualRun(StreamTransparency.Run(y, steps), more)
    ensures PunctualRun(y, steps + more)
    ensures StreamTransparency.Run(y, steps + more) == StreamTransparency.Run(StreamTransparency.Run(y, steps), more)
    decreases |steps|
  {
    if steps == [] {
      assert steps + more == more;
    } else {
      assert (steps + more)[0] == steps[0] && (steps + more)[1..] == steps[1..] + more;
      RunTwice(Next(y, steps[0]), steps[1..], more);
    }
  }

  /** One data record, start to finish. */
  lemma SendOne(y: System, who: Role) returns (steps: seq<Step>)
    requires var p := Who(y, who); p.data.Free? && p.s.sendSeq < p.s.epochStart + MAX_PACKETS_BEFORE_REKEY
    ensures PunctualRun(y, steps)
    ensures var p, q := Who(y, who), Who(StreamTransparency.Run(y, steps), who);
            && q.data.Free? && q.control == p.control
            && q.s == DrawNumber(p.s) && q.top >= p.s.sendSeq && q.top >= p.top
  {
    steps := [DrawData(who, ""), SealData(who), WriteData(who)];
    var y1 := Next(y, steps[0]);
    var y2 := Next(y1, steps[1]);
    var y3 := Next(y2, steps[2]);
    assert steps[1..] == [SealData(who), WriteData(who)];
    assert steps[1..][1..] == [WriteData(who)];
    assert steps[1..][1..][1..] == [];
    assert PunctualRun(y3, []) && StreamTransparency.Run(y3, []) == y3;
    assert PunctualRun(y2, steps[1..][1..]) && StreamTransparency.Run(y2, steps[1..][1..]) == y3;
    assert PunctualRun(y1, steps[1..]) && StreamTransparency.Run(y1, steps[1..]) == y3;
  }

  lemma {:induction false} SendMany(y: System, who: Role, k: nat) returns (steps: seq<Step>)
    requires var p := Who(y, who); p.data.Free? && p.s.sendSeq + k <= p.s.epochStart + MAX_PACKETS_BEFORE_REKEY
    ensures PunctualRun(y, steps)
    ensures var p, q := Who(y, who), Who(StreamTransparency.Run(y, steps), who);
            && q.data.Free? && q.control == p.control
            && (k > 0 ==> q.top >= p.s.sendSeq + k - 1) && q.top >= p.top
    decreases k
  {
    if k == 0 {
      steps := [];
    } else {
      var first := SendOne(y, who);
      var rest := SendMany(StreamTransparency.Run(y, first), who, k - 1);
      RunTwice(y, first, rest);
      steps := first + rest;
    }
  }

  /** A run of the protocol in which the response has been sealed and 1024 data
      records then overtake it: nothing forbids it. */
  lemma LateResponseReachable(secret: Secret) returns (steps: seq<Step>)
    ensures PunctualRun(Initial(secret), steps)
    ensures var y := StreamTransparency.Run(Initial(secret), steps);
            Enabled(y, WriteControl(Responder)) && TooLate(y.r) && Inv(y)
  {
    hide Inv;
    var first := AnswerSealed(secret);
    var y := StreamTransparency.Run(Initial(secret), first);
    var rest := SendMany(y, Responder, 1024);
    RunTwice(Initial(secret), first, rest);
    steps := first + rest;
    InitialInv(secret);
    RunInv(Initial(secret), steps);
  }

  /** The same for a request. */
  lemma LateRequestReachable(secret: Secret) returns (steps: seq<Step>)
    ensures PunctualRun(Initial(secret), steps)
    ensures var y := StreamTransparency.Run(Initial(secret), steps);
            Enabled(y, WriteControl(Initiator)) && TooLate(y.i) && Inv(y)
  {
    hide Inv;
    var first := RequestReady(secret);
    var y := StreamTransparency.Run(Initial(secret), first);
    var rest := SendMany(y, Initiator, 1024);
    RunTwice(Initial(secret), first, rest);
    steps := first + rest;
    InitialInv(secret);
    RunInv(Initial(secret), steps);
  }

  lemma RequestReady(secret: Secret) returns (steps: seq<Step>)
    ensures PunctualRun(Initial(secret), steps)
    ensures var y := StreamTransparency.Run(Initial(secret), steps);
            && y.i.control.Boxed? && y.i.control.e.rec.n == 0 && y.i.data.Free?
            && y.i.s.sendSeq == 1 && y.i.s.epochStart == 0
  {
    var y0 := Initial(secret);
    var y1 := Next(y0, Initiate);
    var y2 := Next(y1, DrawControl(Initiator));
    var y3 := Next(y2, SealControl(Initiator));
    steps := Chain(y2, SealControl(Initiator), y3, []);
    steps := Chain(y1, DrawControl(Initiator), y2, steps);
    steps := Chain(y0, Initiate, y1, steps);
  }

  lemma AnswerSealed(secret: Secret) returns (steps: seq<Step>)
    ensures PunctualRun(Initial(secret), steps)
    ensures var y := StreamTransparency.Run(Initial(secret), steps);
            && y.r.control.Boxed? && y.r.control.e.rec.n == 0 && y.r.data.Free?
            && y.r.s.sendSeq == 1 && y.r.s.epochStart == 0
  {
    var y0, y4 := Initial(secret), RequestInChannel(secret);
    var y5 := Next(y4, Deliver(Responder));
    assert y5.r.control.Wanted?;
    var y6 := Next(y5, DrawControl(Responder));
    var y7 := Next(y6, SealControl(Responder));
    steps := Chain(y6, SealControl(Responder), y7, []);
    steps := Chain(y5, DrawControl(Responder), y6, steps);
    steps := Chain(y4, Deliver(Responder), y5, steps);
    steps := AskFirst(secret, steps);
  }

  function RequestInChannel(secret: Secret): System
  {
    var y0 := Initial(secret);
    var box := Sealed(TrafficKey(secret, Initiator), Nonce(secret, Initiator, 0), 0, RekeyPayload(PublicKey(0), 16));
    var rec := Record(true, 0, box);
    y0.(i := y0.i.(s := y0.i.s.(sendSeq := 1, inProgress := true, pendingKeyPair := Some(0), established := false),
                   out := [Entry(rec, 0, false)], top := 0),
        nextKeyPair := 1)
  }

  lemma AskFirst(secret: Secret, rest: seq<Step>) returns (steps: seq<Step>)
    requires PunctualRun(RequestInChannel(secret), rest)
    ensures PunctualRun(Initial(secret), steps)
    ensures StreamTransparency.Run(Initial(secret), steps) == StreamTransparency.Run(RequestInChannel(secret), rest)
  {
    var y0 := Initial(secret);
    var y1 := Next(y0, Initiate);
    var y2 := Next(y1, DrawControl(Initiator));
    var y3 := Next(y2, SealControl(Initiator));
    assert Next(y3, WriteControl(Initiator)) == RequestInChannel(secret);
    steps := Chain(y3, WriteControl(Initiator), RequestInChannel(secret), rest);
    steps := Chain(y2, SealControl(Initiator), y3, steps);
    steps := Chain(y1, DrawControl(Initiator), y2, steps);
    steps := Chain(y0, Initiate, y1, steps);
  }

  lemma Chain(y: System, step: Step, z: System, rest: seq<Step>) returns (steps: seq<Step>)
    requires Enabled(y, step) && Punctual(y, step) && z == Next(y, step) && PunctualRun(z, rest)
    ensures PunctualRun(y, steps) && StreamTransparency.Run(y, steps) == StreamTransparency.Run(z, rest)
  {
    steps := [step] + rest;
    assert steps[1..] == rest;
  }
}
