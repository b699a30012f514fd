/** Stream rekey is transparent: whatever the interleaving, every data record
    opens and the peer reads exactly the bytes sent, in order, across any number
    of rekeys. The one exception is exact and proved as such: a response written
    after 1024 later numbers. */
module StreamTransparency {
  import ReplayWindow
  import opened Symbolic
  import opened StreamSession
  import opened StreamRekey
  import opened StreamLinks

  // ---- where a rekey stands ----

  /** The newest generation there is a secret for. */
  function Newest(y: System): nat { if y.secrets == [] then 0 else |y.secrets| - 1 }

  /** The rekey records of a stretch of channel. */
  function Rekeys(es: seq<Entry>): seq<Entry>
  {
    if es == [] then [] else (if es[0].rec.rekey then [es[0]] else []) + Rekeys(es[1..])
  }

  lemma {:induction false} RekeysAppend(es: seq<Entry>, e: Entry)
    ensures Rekeys(es + [e]) == Rekeys(es) + if e.rec.rekey then [e] else []
  {
    if es == [] {
      assert es + [e] == [e] && [e][1..] == [];
    } else {
      var rest, last := Rekeys(es[1..]), if e.rec.rekey then [e] else [];
      var first := if es[0].rec.rekey then [es[0]] else [];
      assert (es + [e])[0] == es[0] && (es + [e])[1..] == es[1..] + [e];
      RekeysAppend(es[1..], e);
      assert first + (rest + last) == (first + rest) + last;
    }
  }

  predicate Sending(c: Control) { c.Wanted? || c.Drawn? || c.Boxed? }

  /** The body a rekey record carries, at whatever stage of sending it is. */
  function BodyOf(c: Control): Option<Body>
  {
    match c
    case Wanted(b, _) => Some(b)
    case Drawn(_, b, _) => Some(b)
    case Boxed(e) => if e.rec.box.plain.RekeyPayload? then Some(e.rec.box.plain.body) else None
    case _ => None
  }

  function BodyIn(e: Entry): Option<Body>
  {
    if e.rec.box.plain.RekeyPayload? then Some(e.rec.box.plain.body) else None
  }

  /** A response that takes the initiator to the newest secret. */
  ghost predicate Answers(y: System, b: Option<Body>)
  {
    && Newest(y) > 0
    && b.Some? && b.value.Ciphertext?
    && y.i.s.pendingKeyPair == Some(b.value.ct.pk)
    && y.secrets[Newest(y)] == Rekeyed(y.secrets[Newest(y) - 1], Encapsulated(b.value.ct))
  }

  ghost predicate ResponderStatus(y: System)
  {
    && y.secrets != []
    && if y.r.s.inProgress then
         && y.r.gen + 1 == Newest(y)
         && y.r.s.pendingSend == Some(TrafficKey(y.secrets[Newest(y)], Responder))
         && y.r.s.pendingSecret == Some(y.secrets[Newest(y)])
       else
         && y.r.gen == Newest(y) && y.r.control.NoControl?
         && y.r.s.pendingSend.None? && y.r.s.pendingSecret.None?
  }

  /** No rekey under way at the initiator. */
  ghost predicate Idle(y: System)
  {
    !y.i.s.inProgress && y.i.s.pendingKeyPair.None? && y.i.control.NoControl? && Rekeys(y.i.out) == []
  }

  /** A request is being numbered, sealed or is ready to write. */
  ghost predicate Asking(y: System)
  {
    && y.i.s.inProgress && y.i.s.pendingKeyPair.Some? && Sending(y.i.control) && Rekeys(y.i.out) == []
    && BodyOf(y.i.control) == Some(PublicKey(y.i.s.pendingKeyPair.value))
  }

  /** A request is in the channel and will be taken. */
  ghost predicate Asked(y: System)
  {
    && y.i.s.inProgress && y.i.s.pendingKeyPair.Some? && y.i.control.NoControl?
    && |Rekeys(y.i.out)| == 1
    && var e := Rekeys(y.i.out)[0];
       !e.late && e.gen == y.i.gen && BodyIn(e) == Some(PublicKey(y.i.s.pendingKeyPair.value))
  }

  /** The request never reaches the responder: refused seal, or written too late. */
  ghost predicate Lost(y: System)
  {
    && y.i.s.inProgress && y.i.control.NoControl?
    && (Rekeys(y.i.out) == [] || (|Rekeys(y.i.out)| == 1 && Rekeys(y.i.out)[0].late))
  }

  /** The responder has the request. Its answer is on its way, in the channel, or
      was refused by a worn key. */
  ghost predicate Waiting(y: System)
  {
    && y.i.s.inProgress && y.i.s.pendingKeyPair.Some? && y.i.control.NoControl? && Rekeys(y.i.out) == []
    && y.i.gen + 1 == Newest(y)
    && (|| (y.r.s.inProgress && Sending(y.r.control) && Rekeys(y.r.out) == [] && Answers(y, BodyOf(y.r.control)))
        || (y.r.s.inProgress && y.r.control.NoControl? && Rekeys(y.r.out) == [])
        || ((y.r.s.inProgress ==> y.r.control.Written?) && AnswerInChannel(y)))
  }

  ghost predicate AnswerInChannel(y: System)
  {
    && |Rekeys(y.r.out)| == 1
    && var e := Rekeys(y.r.out)[0];
       !e.late && e.gen + 1 == Newest(y) && Answers(y, BodyIn(e))
  }

  /** Nothing of an earlier exchange is left except the responder's send switch. */
  ghost predicate Quiet(y: System)
  {
    y.i.gen == Newest(y) && Rekeys(y.r.out) == [] && (y.r.s.inProgress ==> y.r.control.Written?)
  }

  ghost predicate Status(y: System)
  {
    && ResponderStatus(y)
    && y.i.s.pendingSecret.None? && y.i.s.pendingSend.None? && !y.i.control.Written?
    && (y.i.s.established <==> !y.i.s.inProgress)
    && (|| (Quiet(y) && Idle(y))
        || (Quiet(y) && Asking(y))
        || (Quiet(y) && Asked(y))
        || (Quiet(y) && Lost(y))
        || Waiting(y))
  }

  ghost predicate PrimedI(y: System)
  {
    y.i.gen + 1 == Newest(y) || (|Rekeys(y.i.out)| == 1 && !Rekeys(y.i.out)[0].late)
  }

  ghost predicate Inv(y: System)
  {
    && Ratchet(y.secrets)
    && HasKeys(y.i, Initiator, y.secrets)
    && HasKeys(y.r, Responder, y.secrets)
    && Link(y.i, y.r, y.secrets, PrimedI(y))
    && Link(y.r, y.i, y.secrets, y.r.control.Written?)
    && Status(y)
  }

  lemma FreshLink(role: Role, secret: Secret)
    ensures Link(NewParty(role, secret), NewParty(Peer(role), secret), [secret], false)
  {
    hide Sequenced;
    FreshSequence(NewParty(role, secret), NewParty(Peer(role), secret));
  }

  lemma FreshSequence(x: Party, y: Party)
    requires x.out == [] && x.data.Free? && x.control.NoControl? && x.top == -1
    requires y.s.window == ReplayWindow.Empty(STREAM_REPLAY_WINDOW_SIZE) && y.accepted == {}
    ensures Sequenced(x, y)
  {}

  lemma InitialInv(secret: Secret)
    ensures Inv(Initial(secret))
  {
    hide Link;
    FreshLink(Initiator, secret);
    FreshLink(Responder, secret);
  }

  // ---- putting a changed party back ----

  lemma WithInitiator(y: System, x: Party)
    requires Inv(y) && HasKeys(x, Initiator, y.secrets)
    requires x.s.window == y.i.s.window && x.accepted == y.i.accepted && x.got == y.i.got
    requires x.recvGen == y.i.recvGen && x.s.pendingRecv == y.i.s.pendingRecv
    requires Link(x, y.r, y.secrets, PrimedI(y.(i := x))) && Status(y.(i := x))
    ensures Inv(y.(i := x))
  {
    hide Link, Status, HasKeys;
    ReceiverFrame(y.r, y.i, x, y.secrets, y.r.control.Written?);
  }

  lemma WithResponder(y: System, x: Party)
    requires Inv(y) && HasKeys(x, Responder, y.secrets)
    requires x.s.window == y.r.s.window && x.accepted == y.r.accepted && x.got == y.r.got
    requires x.recvGen == y.r.recvGen && x.s.pendingRecv == y.r.s.pendingRecv
    requires Link(x, y.i, y.secrets, x.control.Written?) && Status(y.(r := x))
    ensures Inv(y.(r := x))
  {
    hide Link, Status, HasKeys;
    ReceiverFrame(y.i, y.r, x, y.secrets, PrimedI(y));
  }

  // ---- data ----

  predicate SameRekey(s: State, t: State)
  {
    && t.inProgress == s.inProgress && t.established == s.established
    && t.pendingKeyPair == s.pendingKeyPair && t.pendingSecret == s.pendingSecret && t.pendingSend == s.pendingSend
  }

  /** Sending data does not touch the rekey. */
  lemma StatusFrame(y: System, z: System)
    requires Status(y) && z.secrets == y.secrets
    requires SameRekey(y.i.s, z.i.s) && SameRekey(y.r.s, z.r.s)
    requires z.i.gen == y.i.gen && z.r.gen == y.r.gen && z.i.control == y.i.control && z.r.control == y.r.control
    requires Rekeys(y.i.out) == Rekeys(z.i.out) && Rekeys(y.r.out) == Rekeys(z.r.out)
    ensures Status(z) && (PrimedI(z) <==> PrimedI(y))
  {}

  /** What the lock holder has sealed is data; what waits for the lock is a rekey
      record of its sender's generation. */
  lemma HeldIsTyped(x: Party, y: Party, secrets: seq<Secret>, primed: bool)
    requires Link(x, y, secrets, primed)
    ensures x.data.Ready? ==> !x.data.e.rec.rekey
    ensures x.control.Boxed? ==> x.control.e.rec.rekey && x.control.e.gen == x.gen
  {}

  lemma {:induction false} DataSent(x: Party, y: Party, secrets: seq<Secret>, primed: bool, step: Step) returns (z: Party)
    requires HasKeys(x, x.s.role, secrets) && Link(x, y, secrets, primed)
    requires match step
             case DrawData(_, _) => x.data.Free?
             case SealData(_) => x.data.Numbered?
             case WriteData(_) => x.data.Ready?
             case _ => false
    ensures z == match step
                 case DrawData(_, bytes) => DrawDataOf(x, bytes)
                 case SealData(_) => SealDataOf(x)
                 case _ => WriteDataOf(x)
    ensures Link(z, y, secrets, primed) && HasKeys(z, x.s.role, secrets) && OnlyData(x, z)
  {
    hide Link;
    match step
    case DrawData(_, bytes) => z := DrawDataOf(x, bytes); DrawDataLink(x, y, secrets, primed, bytes);
    case SealData(_) => z := SealDataOf(x); SealDataLink(x, y, secrets, primed);
    case WriteData(_) =>
      z := WriteDataOf(x);
      WriteDataLink(x, y, secrets, primed);
      HeldIsTyped(x, y, secrets, primed);
      RekeysAppend(x.out, x.data.e);
  }

  /** Data leaves everything else of its sender alone. */
  predicate OnlyData(x: Party, z: Party)
  {
    && z.control == x.control && z.gen == x.gen && Rekeys(z.out) == Rekeys(x.out)
    && SameRekey(x.s, z.s) && z.s.window == x.s.window && z.s.pendingRecv == x.s.pendingRecv
    && z.accepted == x.accepted && z.got == x.got && z.recvGen == x.recvGen
  }

  lemma DataByInitiator(y: System, x: Party)
    requires Inv(y) && HasKeys(x, Initiator, y.secrets) && Link(x, y.r, y.secrets, PrimedI(y)) && OnlyData(y.i, x)
    ensures Inv(y.(i := x))
  {
    hide Link, HasKeys;
    StatusFrame(y, y.(i := x));
    assert PrimedI(y.(i := x)) == PrimedI(y);
    WithInitiator(y, x);
  }

  lemma DataByResponder(y: System, x: Party)
    requires Inv(y) && HasKeys(x, Responder, y.secrets) && Link(x, y.i, y.secrets, y.r.control.Written?) && OnlyData(y.r, x)
    ensures Inv(y.(r := x))
  {
    hide Link, HasKeys;
    StatusFrame(y, y.(r := x));
    WithResponder(y, x);
  }

  lemma DataStep(y: System, step: Step)
    requires Inv(y) && Enabled(y, step) && (step.DrawData? || step.SealData? || step.WriteData?)
    ensures Inv(Next(y, step))
  {
    hide Link, Status;
    var w := step.who;
    if w.Initiator? {
      var x := DataSent(y.i, y.r, y.secrets, PrimedI(y), step);
      DataByInitiator(y, x);
    } else {
      var x := DataSent(y.r, y.i, y.secrets, y.r.control.Written?, step);
      DataByResponder(y, x);
    }
  }

  // ---- the request: where it stands after each step ----

  lemma InitiateStatus(y: System)
    requires Status(y) && Enabled(y, Initiate)
    ensures Status(Next(y, Initiate)) && !PrimedI(y) && !PrimedI(Next(y, Initiate)) && y.i.control.NoControl?
  {
    assert Quiet(y) && Idle(y);
    assert Quiet(Next(y, Initiate)) && Asking(Next(y, Initiate));
  }

  lemma RequestDrawnStatus(y: System)
    requires Status(y) && Enabled(y, DrawControl(Initiator))
    ensures Status(Next(y, DrawControl(Initiator))) && !PrimedI(y) && !PrimedI(Next(y, DrawControl(Initiator)))
  {
    assert Quiet(y) && Asking(y);
    assert Asking(Next(y, DrawControl(Initiator)));
  }

  lemma RequestSealedStatus(y: System)
    requires Status(y) && Enabled(y, SealControl(Initiator))
    ensures Status(Next(y, SealControl(Initiator))) && !PrimedI(y) && !PrimedI(Next(y, SealControl(Initiator)))
  {
    var z := Next(y, SealControl(Initiator));
    assert Quiet(y) && Asking(y);
    assert Quiet(z) && (Asking(z) || Lost(z));
  }

  lemma RequestWrittenStatus(y: System)
    requires Status(y) && Enabled(y, WriteControl(Initiator))
    requires y.i.control.e.rec.rekey && y.i.control.e.gen == y.i.gen && y.i.s.role.Initiator?
    ensures Status(Next(y, WriteControl(Initiator))) && !PrimedI(y)
    ensures PrimedI(Next(y, WriteControl(Initiator))) <==> !TooLate(y.i)
  {
    var z := Next(y, WriteControl(Initiator));
    assert Quiet(y) && Asking(y);
    RekeysAppend(y.i.out, y.i.control.e.(late := TooLate(y.i)));
    assert Quiet(z) && (if TooLate(y.i) then Lost(z) else Asked(z));
  }

  // ---- the response ----

  lemma ResponseDrawnStatus(y: System)
    requires Status(y) && Enabled(y, DrawControl(Responder))
    ensures Status(Next(y, DrawControl(Responder)))
  {
    assert Waiting(y);
    assert Waiting(Next(y, DrawControl(Responder)));
  }

  lemma ResponseSealedStatus(y: System)
    requires Status(y) && Enabled(y, SealControl(Responder))
    ensures Status(Next(y, SealControl(Responder)))
  {
    assert Waiting(y);
    assert Waiting(Next(y, SealControl(Responder)));
  }

  lemma ResponseWrittenStatus(y: System)
    requires Status(y) && Enabled(y, WriteControl(Responder)) && !TooLate(y.r)
    requires y.r.control.e.rec.rekey && y.r.control.e.gen == y.r.gen && y.r.s.role.Responder?
    ensures Status(Next(y, WriteControl(Responder)))
  {
    assert Waiting(y);
    RekeysAppend(y.r.out, y.r.control.e.(late := false));
    assert AnswerInChannel(Next(y, WriteControl(Responder)));
    assert Waiting(Next(y, WriteControl(Responder)));
  }

  lemma ActivateStatus(y: System)
    requires Status(y) && Enabled(y, Activate)
    ensures Status(Next(y, Activate)) && y.r.s.inProgress
    ensures Next(y, Activate).r.s.sendKey == TrafficKey(y.secrets[Newest(y)], Responder)
    ensures Next(y, Activate).r.s.master == y.secrets[Newest(y)] && y.r.gen + 1 == Newest(y)
  {
    var z := Next(y, Activate);
    assert ResponderStatus(z);
    if Waiting(y) {
      assert AnswerInChannel(y);
      assert AnswerInChannel(z);
      assert Waiting(z);
    } else {
      assert Quiet(z);
    }
  }

  // ---- the steps themselves ----

  lemma InitiateStep(y: System)
    requires Inv(y) && Enabled(y, Initiate)
    ensures Inv(Next(y, Initiate))
  {
    hide Link;
    var z := Next(y, Initiate);
    InitiateStatus(y);
    SenderFrame(y.i, z.i, y.r, y.secrets, false);
    WithInitiator(y.(nextKeyPair := z.nextKeyPair), z.i);
  }

  lemma RequestDrawn(y: System)
    requires Inv(y) && Enabled(y, DrawControl(Initiator))
    ensures Inv(Next(y, DrawControl(Initiator)))
  {
    hide Link, Status;
    RequestDrawnStatus(y);
    assert Next(y, DrawControl(Initiator)) == y.(i := DrawControlOf(y.i));
    DrawControlLink(y.i, y.r, y.secrets, false);
    WithInitiator(y, DrawControlOf(y.i));
  }

  lemma RequestSealed(y: System)
    requires Inv(y) && Enabled(y, SealControl(Initiator))
    ensures Inv(Next(y, SealControl(Initiator)))
  {
    hide Link, Status;
    RequestSealedStatus(y);
    SealControlLink(y.i, y.r, y.secrets, false);
    KeysFrame(y.i, SealControlOf(y.i), Initiator, y.secrets);
    WithInitiator(y, SealControlOf(y.i));
  }

  lemma RequestWritten(y: System)
    requires Inv(y) && Enabled(y, WriteControl(Initiator))
    ensures Inv(Next(y, WriteControl(Initiator)))
  {
    hide Link, Status;
    HeldIsTyped(y.i, y.r, y.secrets, PrimedI(y));
    RequestWrittenStatus(y);
    WriteControlLink(y.i, y.r, y.secrets);
    WithInitiator(y, WriteControlOf(y.i));
  }

  lemma ResponseDrawn(y: System)
    requires Inv(y) && Enabled(y, DrawControl(Responder))
    ensures Inv(Next(y, DrawControl(Responder)))
  {
    hide Link, Status;
    ResponseDrawnStatus(y);
    DrawControlLink(y.r, y.i, y.secrets, false);
    WithResponder(y, DrawControlOf(y.r));
  }

  lemma ResponseSealed(y: System)
    requires Inv(y) && Enabled(y, SealControl(Responder))
    ensures Inv(Next(y, SealControl(Responder)))
  {
    hide Link, Status;
    ResponseSealedStatus(y);
    SealControlLink(y.r, y.i, y.secrets, false);
    KeysFrame(y.r, SealControlOf(y.r), Responder, y.secrets);
    WithResponder(y, SealControlOf(y.r));
  }

  lemma ResponseWritten(y: System)
    requires Enabled(y, WriteControl(Responder)) && !TooLate(y.r)
    requires Inv(y)
    ensures Inv(Next(y, WriteControl(Responder)))
  {
    hide Link, Status;
    HeldIsTyped(y.r, y.i, y.secrets, y.r.control.Written?);
    ResponseWrittenStatus(y);
    WriteControlLink(y.r, y.i, y.secrets);
    WithResponder(y, WriteControlOf(y.r));
  }

  /** Once a receiver is armed, its sender may move on. */
  lemma SwitchLink(x: Party, x2: Party, y: Party, secrets: seq<Secret>)
    requires Link(x, y, secrets, true)
    requires x2.s.role == x.s.role && x2.s.sendSeq == x.s.sendSeq && x2.gen == x.gen + 1
    requires x2.data == x.data && x2.out == x.out && x2.top == x.top && x2.sent == x.sent
    requires ControlNumber(x2) == ControlNumber(x) && !x2.control.Boxed?
    ensures Link(x2, y, secrets, false)
  {
    hide AllGood, Sequenced, Walk;
    GoodFrame(x, x2, secrets);
    SequenceFrame(x, x2, y, y);
    assert Flow(x2) == Flow(x);
  }

  lemma ActivateStep(y: System)
    requires Inv(y) && Enabled(y, Activate)
    ensures Inv(Next(y, Activate))
  {
    hide Link, Status;
    ActivateStatus(y);
    SwitchLink(y.r, ActivateOf(y.r), y.i, y.secrets);
    WithResponder(y, ActivateOf(y.r));
  }

  // ---- receiving ----

  /** Receiving touches the sending half of a party only through a rekey. */
  lemma SendHalfKept(x: Party, rec: Record)
    ensures var x1 := Opened(x, rec).0;
            && x1.s == x.s.(window := x1.s.window, recvKey := x1.s.recvKey, pendingRecv := x1.s.pendingRecv)
            && x1 == x.(s := x1.s, recvGen := x1.recvGen, accepted := x1.accepted)
  {}

  /** A data record taken in by its receiver leaves both directions linked. */
  lemma DataLinks(x: Party, y: Party, y2: Party, secrets: seq<Secret>, primed: bool, back: bool)
    requires x.out != [] && !x.out[0].rec.rekey
    requires Ratchet(secrets) && HasKeys(y, Peer(x.s.role), secrets)
    requires Link(x, y, secrets, primed) && Link(y, x, secrets, back)
    requires var (y1, plain) := Opened(y, x.out[0].rec);
             plain.Some? && plain.value.Data? ==> y2 == y1.(got := y1.got + [plain.value.bytes])
    ensures HasKeys(y2, Peer(x.s.role), secrets) && SameRekey(y.s, y2.s)
    ensures y2.gen == y.gen && y2.control == y.control && y2.out == y.out
    ensures Link(Rest(x), y2, secrets, primed) && Link(y2, Rest(x), secrets, back)
  {
    hide Link;
    DataHead(x, y, secrets, primed);
    SendHalfKept(y, x.out[0].rec);
    ReceiverFrame(y, x, Rest(x), secrets, back);
    SenderFrame(y, y2, Rest(x), secrets, back);
  }

  lemma DataTaken(y: System, w: Role)
    requires Enabled(y, Deliver(w)) && !Who(y, Peer(w)).out[0].rec.rekey
    requires var plain := Opened(Who(y, w), Who(y, Peer(w)).out[0].rec).1; plain.Some? && plain.value.Data?
    ensures var (p, plain) := Opened(Who(y, w), Who(y, Peer(w)).out[0].rec);
            Next(y, Deliver(w)) ==
            Put(Put(y, Peer(w), Rest(Who(y, Peer(w)))), w, p.(got := p.got + [plain.value.bytes]))
  {}

  lemma DataToResponder(y: System, z: System)
    requires Enabled(y, Deliver(Responder)) && !y.i.out[0].rec.rekey && z == Next(y, Deliver(Responder))
    requires Inv(y)
    ensures Inv(z)
  {
    hide Link, Status, Opened, Next;
    DataHead(y.i, y.r, y.secrets, PrimedI(y));
    DataTaken(y, Responder);
    KeysFrame(y.i, z.i, Initiator, y.secrets);
    DataLinks(y.i, y.r, z.r, y.secrets, PrimedI(y), y.r.control.Written?);
    StatusFrame(y, z);
  }

  lemma DataToInitiator(y: System, z: System)
    requires Enabled(y, Deliver(Initiator)) && !y.r.out[0].rec.rekey && z == Next(y, Deliver(Initiator))
    requires Inv(y)
    ensures Inv(z)
  {
    hide Link, Status, Opened, Next;
    DataHead(y.r, y.i, y.secrets, y.r.control.Written?);
    DataTaken(y, Initiator);
    KeysFrame(y.r, z.r, Responder, y.secrets);
    DataLinks(y.r, y.i, z.i, y.secrets, y.r.control.Written?, PrimedI(y));
    StatusFrame(y, z);
  }

  lemma LateToResponder(y: System)
    requires Enabled(y, Deliver(Responder)) && y.i.out[0].late
    requires Inv(y)
    ensures Inv(Next(y, Deliver(Responder)))
  {
    hide Link, Status;
    var z := Next(y, Deliver(Responder));
    LateHead(y.i, y.r, y.secrets, PrimedI(y));
    assert z.i == Rest(y.i) && z.r == y.r;
    ReceiverFrame(y.r, y.i, z.i, y.secrets, y.r.control.Written?);
    LateStatus(y, z);
  }

  lemma LateStatus(y: System, z: System)
    requires Status(y) && y.i.out != [] && y.i.out[0].late && y.i.out[0].rec.rekey && z == y.(i := Rest(y.i))
    ensures Status(z) && !PrimedI(y) && !PrimedI(z)
  {
    assert Rekeys(y.i.out) == [y.i.out[0]] + Rekeys(z.i.out);
    assert Quiet(y) && Lost(y);
    assert Quiet(z) && Lost(z);
  }

  /** Where the rekey stands once the responder has taken the request. */
  lemma RequestTakenStatus(y: System, z: System)
    requires Status(y) && Enabled(y, Deliver(Responder)) && y.i.out[0].rec.rekey && !y.i.out[0].late
    requires HasKeys(y.r, Responder, y.secrets)
    requires z.i == Rest(y.i) && z.r.out == y.r.out && z.r.gen == y.r.gen
    requires var ct := Encapsulation(y.i.s.pendingKeyPair.GetOr(0), y.nextCoins);
             var secret := Rekeyed(y.r.s.master, Encapsulated(ct));
             && z.secrets == y.secrets + [secret]
             && z.r.control.Wanted? && z.r.control.body == Ciphertext(ct)
             && z.r.s.inProgress && z.r.s.pendingSecret == Some(secret)
             && z.r.s.pendingSend == Some(TrafficKey(secret, Responder))
    ensures Status(z) && PrimedI(y) && PrimedI(z) && !y.r.control.Written?
    ensures y.i.gen == y.r.gen == Newest(y) && y.r.s.master == y.secrets[Newest(y)]
    ensures y.i.out[0].gen == y.i.gen && BodyIn(y.i.out[0]) == Some(PublicKey(y.i.s.pendingKeyPair.GetOr(0)))
  {
    assert Rekeys(y.i.out) == [y.i.out[0]] + Rekeys(z.i.out);
    assert Quiet(y) && Asked(y);
    assert Waiting(z);
  }

  /** What the responder becomes on taking the request. */
  ghost function Prepared(y: System, kp: nat): Party
    requires y.i.out != [] && y.i.out[0].rec.box.plain.RekeyPayload?
  {
    var y1 := Opened(y.r, y.i.out[0].rec).0;
    var ct := Encapsulation(kp, y.nextCoins);
    var secret := Rekeyed(y.r.s.master, Encapsulated(ct));
    y1.(s := y1.s.(inProgress := true, pendingRecv := Some(TrafficKey(secret, Initiator)),
                   pendingSend := Some(TrafficKey(secret, Responder)), pendingSecret := Some(secret),
                   established := false),
        control := Wanted(Ciphertext(ct), y.i.out[0].rec.box.plain.activation))
  }

  lemma RequestTaken(y: System, kp: nat)
    requires y.i.out != [] && y.r.control.NoControl? && !y.r.s.inProgress
    requires var (_, plain) := Opened(y.r, y.i.out[0].rec);
             && y.i.out[0].rec.rekey && plain == Some(y.i.out[0].rec.box.plain)
             && BodyIn(y.i.out[0]) == Some(PublicKey(kp))
    ensures y.i.out[0].rec.box.plain.RekeyPayload?
    ensures var ct := Encapsulation(kp, y.nextCoins);
            var secret := Rekeyed(y.r.s.master, Encapsulated(ct));
            Next(y, Deliver(Responder)) ==
              y.(i := Rest(y.i), r := Prepared(y, kp), nextCoins := y.nextCoins + 1, secrets := y.secrets + [secret])
  {
    SendHalfKept(y.r, y.i.out[0].rec);
  }

  lemma RequestLinks(y: System, kp: nat)
    requires Enabled(y, Deliver(Responder)) && y.i.out[0].rec.rekey && !y.i.out[0].late
    requires Ratchet(y.secrets) && HasKeys(y.r, Responder, y.secrets) && HasKeys(y.i, Initiator, y.secrets)
    requires Link(y.i, y.r, y.secrets, true) && Link(y.r, y.i, y.secrets, false)
    requires y.i.out[0].gen == Newest(y) && BodyIn(y.i.out[0]) == Some(PublicKey(kp))
    ensures var secret := Rekeyed(y.r.s.master, Shared(kp, y.nextCoins));
            var longer := y.secrets + [secret];
            && Opened(y.r, y.i.out[0].rec).1 == Some(y.i.out[0].rec.box.plain)
            && Link(Rest(y.i), Prepared(y, kp), longer, true)
            && Link(Prepared(y, kp), Rest(y.i), longer, false)
            && HasKeys(Prepared(y, kp), Responder, longer)
  {
    hide Link;
    var p := Prepared(y, kp);
    var secret := Rekeyed(y.r.s.master, Shared(kp, y.nextCoins));
    SendHalfKept(y.r, y.i.out[0].rec);
    RekeyHead(y.i, y.r, y.secrets, true, p);
    SecretsGrow(Rest(y.i), p, y.secrets, secret, true);
    ReceiverFrame(y.r, y.i, Rest(y.i), y.secrets, false);
    SenderFrame(y.r, p, Rest(y.i), y.secrets, false);
    SecretsGrow(p, Rest(y.i), y.secrets, secret, false);
  }

  lemma RequestToResponder(y: System)
    requires Enabled(y, Deliver(Responder)) && y.i.out[0].rec.rekey && !y.i.out[0].late
    requires Inv(y)
    ensures Inv(Next(y, Deliver(Responder)))
  {
    hide Link, Status, HasKeys, Opened, Next;
    var kp := y.i.s.pendingKeyPair.GetOr(0);
    RequestIsNext(y);
    RequestLinks(y, kp);
    RequestTaken(y, kp);
    var z := Next(y, Deliver(Responder));
    SendHalfKept(y.r, y.i.out[0].rec);
    RequestTakenStatus(y, z);
    KeysFrame(y.i, z.i, Initiator, y.secrets);
    KeysGrow(z.i, Initiator, y.secrets, z.secrets[|y.secrets|]);
    RatchetExtend(y.secrets, Shared(kp, y.nextCoins));
  }

  /** A request in the channel is the one asked for, and finds the responder free. */
  lemma RequestIsNext(y: System)
    requires Status(y) && Enabled(y, Deliver(Responder)) && y.i.out[0].rec.rekey && !y.i.out[0].late
    ensures PrimedI(y) && !y.r.control.Written? && !y.r.s.inProgress
    ensures y.i.gen == y.r.gen == Newest(y) && y.i.out[0].gen == y.i.gen
    ensures BodyIn(y.i.out[0]) == Some(PublicKey(y.i.s.pendingKeyPair.GetOr(0)))
  {
    assert Rekeys(y.i.out) == [y.i.out[0]] + Rekeys(y.i.out[1..]);
    assert Quiet(y) && Asked(y);
  }

  /** A rekey record in the responder's channel is the answer waited for. */
  lemma ResponseIsNext(y: System)
    requires Status(y) && Enabled(y, Deliver(Initiator)) && y.r.out[0].rec.rekey
    ensures !y.r.out[0].late && PrimedI(y) && y.i.s.inProgress && y.i.control.NoControl?
    ensures Newest(y) > 0 && y.i.gen == y.r.out[0].gen == Newest(y) - 1
    ensures Answers(y, BodyIn(y.r.out[0]))
    ensures Rekeys(y.i.out) == [] && Rekeys(y.r.out[1..]) == []
    ensures y.r.s.inProgress ==> y.r.control.Written?
  {
    assert Rekeys(y.r.out) == [y.r.out[0]] + Rekeys(y.r.out[1..]);
    assert Waiting(y) && AnswerInChannel(y);
  }

  /** What the initiator becomes on taking the response. */
  ghost function Switched(y: System): Party
    requires y.r.out != [] && y.secrets != []
  {
    var y1 := Opened(y.i, y.r.out[0].rec).0;
    var secret := y.secrets[Newest(y)];
    y1.(s := y1.s.(inProgress := false, established := true, master := secret, epochStart := y1.s.sendSeq,
                   sendKey := TrafficKey(secret, Initiator), pendingRecv := Some(TrafficKey(secret, Responder)),
                   pendingSecret := None, pendingKeyPair := None),
        gen := y1.gen + 1)
  }

  lemma ResponseTaken(y: System)
    requires y.r.out != [] && y.r.out[0].rec.rekey && y.secrets != [] && y.i.s.inProgress && y.i.s.pendingKeyPair.Some?
    requires Opened(y.i, y.r.out[0].rec).1 == Some(y.r.out[0].rec.box.plain)
    requires Answers(y, BodyIn(y.r.out[0])) && y.i.s.master == y.secrets[Newest(y) - 1]
    ensures Next(y, Deliver(Initiator)) == y.(i := Switched(y), r := Rest(y.r))
  {
    SendHalfKept(y.i, y.r.out[0].rec);
  }

  lemma ResponseLinks(y: System)
    requires Enabled(y, Deliver(Initiator)) && y.r.out[0].rec.rekey && !y.r.out[0].late
    requires Ratchet(y.secrets) && HasKeys(y.i, Initiator, y.secrets) && y.r.s.role.Responder?
    requires Link(y.r, y.i, y.secrets, y.r.control.Written?) && Link(y.i, y.r, y.secrets, true)
    requires y.i.control.NoControl? && Newest(y) > 0 && y.i.gen == y.r.out[0].gen == Newest(y) - 1
    ensures Opened(y.i, y.r.out[0].rec).1 == Some(y.r.out[0].rec.box.plain)
    ensures Link(Rest(y.r), Switched(y), y.secrets, y.r.control.Written?)
    ensures Link(Switched(y), Rest(y.r), y.secrets, false)
    ensures HasKeys(Switched(y), Initiator, y.secrets)
  {
    hide Link;
    SendHalfKept(y.i, y.r.out[0].rec);
    RekeyHead(y.r, y.i, y.secrets, y.r.control.Written?, Switched(y));
    ReceiverFrame(y.i, y.r, Rest(y.r), y.secrets, true);
    SwitchLink(y.i, Switched(y), Rest(y.r), y.secrets);
  }

  lemma ResponseTakenStatus(y: System)
    requires y.r.out != [] && Status(y)
    requires Newest(y) > 0 && y.i.gen + 1 == Newest(y) && y.i.control.NoControl?
    requires Rekeys(y.i.out) == [] && Rekeys(y.r.out[1..]) == [] && (y.r.s.inProgress ==> y.r.control.Written?)
    ensures var z := y.(i := Switched(y), r := Rest(y.r)); Status(z) && !PrimedI(z)
  {
    SendHalfKept(y.i, y.r.out[0].rec);
    var z := y.(i := Switched(y), r := Rest(y.r));
    assert Quiet(z) && Idle(z);
  }

  lemma ResponseToInitiator(y: System)
    requires Enabled(y, Deliver(Initiator)) && y.r.out[0].rec.rekey
    requires Inv(y)
    ensures Inv(Next(y, Deliver(Initiator)))
  {
    hide Link, Status;
    ResponseIsNext(y);
    ResponseLinks(y);
    ResponseTaken(y);
    ResponseTakenStatus(y);
  }

  // ---- every run ----

  /** The responder never writes a response that 1024 later numbers have passed. */
  predicate Punctual(y: System, step: Step)
  {
    step == WriteControl(Responder) && y.r.control.Boxed? ==> !TooLate(y.r)
  }

  lemma StepInv(y: System, step: Step)
    requires Enabled(y, step) && Punctual(y, step)
    requires Inv(y)
    ensures Inv(Next(y, step))
  {
    hide Inv, Next;
    match step
    case DrawData(_, _) => DataStep(y, step);
    case SealData(_) => DataStep(y, step);
    case WriteData(_) => DataStep(y, step);
    case Initiate => InitiateStep(y);
    case DrawControl(w) => if w.Initiator? { RequestDrawn(y); } else { ResponseDrawn(y); }
    case SealControl(w) => if w.Initiator? { RequestSealed(y); } else { ResponseSealed(y); }
    case WriteControl(w) => if w.Initiator? { RequestWritten(y); } else { ResponseWritten(y); }
    case Activate => ActivateStep(y);
    case Deliver(w) => DeliverInv(y, w);
  }

  lemma DeliverInv(y: System, w: Role)
    requires Enabled(y, Deliver(w))
    requires Inv(y)
    ensures Inv(Next(y, Deliver(w)))
  {
    hide Inv, Next;
    if w.Initiator? {
      if y.r.out[0].rec.rekey { ResponseToInitiator(y); } else { DataToInitiator(y, Next(y, Deliver(w))); }
    } else if y.i.out[0].late {
      LateToResponder(y);
    } else if y.i.out[0].rec.rekey {
      RequestToResponder(y);
    } else {
      DataToResponder(y, Next(y, Deliver(w)));
    }
  }

  predicate PunctualRun(y: System, steps: seq<Step>)
    decreases |steps|
  {
    steps == [] ||
    (Enabled(y, steps[0]) && Punctual(y, steps[0]) && PunctualRun(Next(y, steps[0]), steps[1..]))
  }

  function Run(y: System, steps: seq<Step>): System
    requires PunctualRun(y, steps)
    decreases |steps|
  {
    if steps == [] then y else Run(Next(y, steps[0]), steps[1..])
  }

  lemma {:induction false} RunInv(y: System, steps: seq<Step>)
    requires PunctualRun(y, steps) && Inv(y)
    ensures Inv(Run(y, steps))
    decreases |steps|
  {
    if steps != [] {
      StepInv(y, steps[0]);
      RunInv(Next(y, steps[0]), steps[1..]);
    }
  }

  /** In every reachable state, in both directions: what has been read is what
      was written, in order, less exactly what is still in the channel. */
  lemma Transparent(secret: Secret, steps: seq<Step>)
    requires PunctualRun(Initial(secret), steps)
    ensures var y := Run(Initial(secret), steps);
            && y.i.sent == y.r.got + DataOf(y.i.out)
            && y.r.sent == y.i.got + DataOf(y.r.out)
  {
    InitialInv(secret);
    RunInv(Initial(secret), steps);
    SentIsRead(Run(Initial(secret), steps));
  }

  lemma SentIsRead(y: System)
    requires Inv(y)
    ensures y.i.sent == y.r.got + DataOf(y.i.out) && y.r.sent == y.i.got + DataOf(y.r.out)
  {}

  /** And the next record of either channel opens to what was sealed, unless it is
      a request that 1024 later numbers have passed. */
  lemma NextRecordOpens(secret: Secret, steps: seq<Step>, to: Role)
    requires PunctualRun(Initial(secret), steps)
    requires Who(Run(Initial(secret), steps), Peer(to)).out != []
    ensures var y := Run(Initial(secret), steps);
            var e := Who(y, Peer(to)).out[0];
            Opened(Who(y, to), e.rec).1 == if e.late then None else Some(e.rec.box.plain)
    ensures var y := Run(Initial(secret), steps);
            var e := Who(y, Peer(to)).out[0];
            e.late ==> e.rec.rekey && to.Responder?
  {
    InitialInv(secret);
    RunInv(Initial(secret), steps);
    HeadOfEither(Run(Initial(secret), steps), to);
  }

  lemma HeadOfEither(y: System, to: Role)
    requires Who(y, Peer(to)).out != []
    requires Inv(y)
    ensures var e := Who(y, Peer(to)).out[0];
            && Opened(Who(y, to), e.rec).1 == (if e.late then None else Some(e.rec.box.plain))
            && (e.late ==> e.rec.rekey && to.Responder?)
  {
    if to.Initiator? {
      if y.r.out[0].rec.rekey { ResponseIsNext(y); }
      HeadOpens(y.r, y.i, y.secrets, y.r.control.Written?);
    } else if y.i.out[0].late {
      LateHead(y.i, y.r, y.secrets, PrimedI(y));
    } else {
      HeadOpens(y.i, y.r, y.secrets, PrimedI(y));
    }
  }
}
