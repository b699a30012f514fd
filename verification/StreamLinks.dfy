/** One direction of the stream transport: what ties the records a sender has
    sealed to what its receiver can accept and open, and how each sending step and
    the receipt of one record keep that tie. */
module StreamLinks {
  import opened Symbolic
  import opened ReplayWindow
  import opened StreamSession
  import opened StreamRekey

  // ---- one direction: sender x, receiver y ----

  ghost predicate HasKeys(p: Party, role: Role, secrets: seq<Secret>)
  {
    && p.gen < |secrets| && p.recvGen < |secrets|
    && p.s.role == role
    && p.s.prefix == secrets[0]
    && p.s.master == secrets[p.gen]
    && p.s.sendKey == TrafficKey(secrets[p.gen], role)
    && p.s.recvKey == TrafficKey(secrets[p.recvGen], Peer(role))
    && (p.s.pendingRecv.Some? ==>
          && p.recvGen + 1 < |secrets|
          && p.s.pendingRecv.value == TrafficKey(secrets[p.recvGen + 1], Peer(role)))
  }

  ghost predicate Good(e: Entry, role: Role, secrets: seq<Secret>)
  {
    && e.gen < |secrets|
    && e.rec.box.key == TrafficKey(secrets[e.gen], role)
    && e.rec.box.nonce == Nonce(secrets[0], role, e.rec.n)
    && e.rec.box.aad == e.rec.n
    && (e.rec.rekey <==> e.rec.box.plain.RekeyPayload?)
  }

  ghost predicate AllGood(x: Party, secrets: seq<Secret>)
  {
    && (forall k :: 0 <= k < |x.out| ==> Good(x.out[k], x.s.role, secrets))
    && (x.data.Ready? ==> Good(x.data.e, x.s.role, secrets) && !x.data.e.rec.rekey && !x.data.e.late)
    && (x.control.Boxed? ==> Good(x.control.e, x.s.role, secrets) && x.control.e.rec.rekey && x.control.e.gen == x.gen)
  }

  function High(y: Party): int { if y.s.window.seen then y.s.window.high else -1 }

  /** The number a sender holds, whether sealed yet or not. */
  function DataNumber(x: Party): int
  {
    match x.data
    case Free => -1
    case Numbered(n, _) => n
    case Ready(e) => e.rec.n
  }

  function ControlNumber(x: Party): int
  {
    match x.control
    case Drawn(n, _, _) => n
    case Boxed(e) => e.rec.n
    case _ => -1
  }

  ghost predicate Sequenced(x: Party, y: Party)
  {
    && y.s.window.size == STREAM_REPLAY_WINDOW_SIZE
    && Represents(y.s.window, y.accepted)
    && Ordered(High(y), x.out)
    && x.top == Top(High(y), x.out)
    && x.top < x.s.sendSeq && DataNumber(x) < x.s.sendSeq && ControlNumber(x) < x.s.sendSeq
    && (!x.data.Free? ==> DataNumber(x) > x.top)
    && (forall k :: 0 <= k < |x.out| ==>
          && x.out[k].rec.n !in y.accepted
          && x.out[k].rec.n <= x.top
          && x.out[k].rec.n != ControlNumber(x))
    && (forall j, k :: 0 <= j < k < |x.out| ==> x.out[j].rec.n != x.out[k].rec.n)
    && (ControlNumber(x) >= 0 ==> ControlNumber(x) !in y.accepted && ControlNumber(x) != DataNumber(x))
  }

  /** The receiver can follow everything sealed so far and what comes next. With
      `primed` a rekey record has armed it for the generation after this one. */
  ghost predicate Follows(x: Party, y: Party, primed: bool)
  {
    var end := Walk(y.recvGen, y.s.pendingRecv.Some?, Flow(x));
    && end.Some?
    && if primed then end.value == (x.gen, true)
       else end.value == (x.gen, false) || (x.gen > 0 && end.value == (x.gen - 1, true))
  }

  ghost predicate Link(x: Party, y: Party, secrets: seq<Secret>, primed: bool)
  {
    && AllGood(x, secrets)
    && Sequenced(x, y)
    && Follows(x, y, primed)
    && x.sent == y.got + DataOf(x.out)
  }

  // ---- sending steps keep a link ----

  /** The part of a link that does not depend on keys being followed. */
  ghost predicate Sound(x: Party, y: Party, secrets: seq<Secret>)
  {
    AllGood(x, secrets) && Sequenced(x, y)
  }

  lemma DrawDataSound(x: Party, y: Party, secrets: seq<Secret>, bytes: seq<char>)
    requires Sound(x, y, secrets) && x.data.Free?
    ensures Sound(DrawDataOf(x, bytes), y, secrets)
  {}

  lemma SealDataSound(x: Party, y: Party, secrets: seq<Secret>)
    requires Sound(x, y, secrets) && x.data.Numbered?
    requires x.gen < |secrets| && x.s.sendKey == TrafficKey(secrets[x.gen], x.s.role) && x.s.prefix == secrets[0]
    ensures Sound(SealDataOf(x), y, secrets)
  {}

  lemma WriteDataSound(x: Party, y: Party, secrets: seq<Secret>)
    requires Sound(x, y, secrets) && x.data.Ready?
    ensures Sound(WriteDataOf(x), y, secrets)
  {
    hide AllGood, Sequenced;
    WriteDataGood(x, secrets);
    WriteDataSequence(x, y);
  }

  lemma WriteDataGood(x: Party, secrets: seq<Secret>)
    requires AllGood(x, secrets) && x.data.Ready?
    ensures AllGood(WriteDataOf(x), secrets) && !x.data.e.rec.rekey && !x.data.e.late
  {}

  lemma WriteDataSequence(x: Party, y: Party)
    requires Sequenced(x, y) && x.data.Ready? && !x.data.e.rec.rekey && !x.data.e.late
    ensures Sequenced(WriteDataOf(x), y)
  {
    OrderedAppend(High(y), x.out, x.data.e);
    assert Ordered(x.top, [x.data.e]);
    TopBounds(High(y), x.out);
  }

  lemma DrawDataLink(x: Party, y: Party, secrets: seq<Secret>, primed: bool, bytes: seq<char>)
    requires Link(x, y, secrets, primed) && x.data.Free?
    ensures Link(DrawDataOf(x, bytes), y, secrets, primed)
  {
    hide AllGood, Sequenced;
    DrawDataSound(x, y, secrets, bytes);
  }

  lemma SealDataLink(x: Party, y: Party, secrets: seq<Secret>, primed: bool)
    requires HasKeys(x, x.s.role, secrets) && Link(x, y, secrets, primed) && x.data.Numbered?
    ensures Link(SealDataOf(x), y, secrets, primed)
  {
    hide AllGood, Sequenced;
    var z := SealDataOf(x);
    SealDataSound(x, y, secrets);
    assert Flow(x) == x.out;
    if z.data.Ready? {
      assert Flow(z) == x.out + [z.data.e];
      WalkAppend(y.recvGen, y.s.pendingRecv.Some?, x.out, z.data.e);
    }
  }

  lemma WriteDataLink(x: Party, y: Party, secrets: seq<Secret>, primed: bool)
    requires Link(x, y, secrets, primed) && x.data.Ready?
    ensures Link(WriteDataOf(x), y, secrets, primed)
  {
    hide AllGood, Sequenced;
    var z := WriteDataOf(x);
    WriteDataSound(x, y, secrets);
    assert Flow(z) == Flow(x);
    DataAppend(x.out, x.data.e);
    assert y.got + DataOf(x.out) + DataOf([x.data.e]) == y.got + DataOf(z.out);
  }

  lemma {:induction false} TopBounds(h: int, es: seq<Entry>)
    ensures h <= Top(h, es)
    decreases |es|
  {
    if es != [] { TopBounds(Max(h, es[0].rec.n), es[1..]); }
  }

  lemma DrawControlLink(x: Party, y: Party, secrets: seq<Secret>, primed: bool)
    requires Link(x, y, secrets, primed) && x.control.Wanted?
    ensures Link(DrawControlOf(x), y, secrets, primed)
  {
    TopBounds(High(y), x.out);
    assert x.s.sendSeq !in y.accepted;
    assert Flow(DrawControlOf(x)) == Flow(x);
  }

  lemma SealControlSound(x: Party, y: Party, secrets: seq<Secret>)
    requires HasKeys(x, x.s.role, secrets) && Sound(x, y, secrets) && x.control.Drawn?
    ensures Sound(SealControlOf(x), y, secrets)
  {}

  lemma SealControlLink(x: Party, y: Party, secrets: seq<Secret>, primed: bool)
    requires HasKeys(x, x.s.role, secrets) && Link(x, y, secrets, primed) && x.control.Drawn?
    ensures Link(SealControlOf(x), y, secrets, primed)
  {
    hide AllGood, Sequenced;
    SealControlSound(x, y, secrets);
    assert Flow(SealControlOf(x)) == Flow(x);
  }

  lemma WriteControlSound(x: Party, y: Party, secrets: seq<Secret>)
    requires Sound(x, y, secrets) && x.control.Boxed? && x.data.Free?
    ensures Sound(WriteControlOf(x), y, secrets)
  {
    var e := x.control.e.(late := TooLate(x));
    OrderedAppend(High(y), x.out, e);
    assert Ordered(x.top, [e]);
    TopBounds(High(y), x.out);
  }

  lemma BoxedIsRekey(x: Party, secrets: seq<Secret>)
    requires AllGood(x, secrets) && x.control.Boxed?
    ensures var e := x.control.e; e.rec.rekey && e.rec.box.plain.RekeyPayload? && e.gen == x.gen
  {}

  /** Writing a rekey record arms the receiver, unless it is too late. */
  lemma WriteControlLink(x: Party, y: Party, secrets: seq<Secret>)
    requires Link(x, y, secrets, false) && x.control.Boxed? && x.data.Free?
    ensures Link(WriteControlOf(x), y, secrets, !TooLate(x))
  {
    hide AllGood, Sequenced;
    var z, e := WriteControlOf(x), x.control.e.(late := TooLate(x));
    WriteControlSound(x, y, secrets);
    BoxedIsRekey(x, secrets);
    assert Flow(x) == x.out && Flow(z) == x.out + [e];
    WalkAppend(y.recvGen, y.s.pendingRecv.Some?, x.out, e);
    DataAppend(x.out, e);
    assert DataOf([e]) == [] by { assert [e][1..] == []; }
  }

  // ---- receiving the head of the channel ----

  /** The window takes the head exactly when it is not late. */
  lemma HeadChecked(x: Party, y: Party)
    requires Sequenced(x, y) && x.out != []
    ensures Checked(y.s.window, x.out[0].rec.n).1 <==> !x.out[0].late
  {
    var n := x.out[0].rec.n;
    CheckRefines(y.s.window, y.accepted, n);
    assert n !in y.accepted;
    if x.out[0].late {
      assert High(y) in y.accepted;
    }
  }

  lemma HeadGood(x: Party, secrets: seq<Secret>)
    requires AllGood(x, secrets) && x.out != []
    ensures Good(x.out[0], x.s.role, secrets) && AllGood(Rest(x), secrets)
  {}

  lemma DataIsPunctual(x: Party, y: Party)
    requires Sequenced(x, y) && x.out != [] && !x.out[0].rec.rekey
    ensures !x.out[0].late
  {}

  lemma LateIsRekey(x: Party, y: Party)
    requires Sequenced(x, y) && x.out != [] && x.out[0].late
    ensures x.out[0].rec.rekey
  {}

  /** A head that is not late opens to what was sealed, under the current key or
      by promoting the pending one. */
  lemma HeadOpens(x: Party, y: Party, secrets: seq<Secret>, primed: bool)
    requires Ratchet(secrets) && HasKeys(y, Peer(x.s.role), secrets) && Link(x, y, secrets, primed)
    requires x.out != [] && !x.out[0].late
    ensures var e := x.out[0];
            var (y1, plain) := Opened(y, e.rec);
            && plain == Some(e.rec.box.plain)
            && y1.s.window == Checked(y.s.window, e.rec.n).0
            && y1.accepted == y.accepted + {e.rec.n}
            && if e.gen == y.recvGen then
                 y1 == y.(s := y.s.(window := y1.s.window), accepted := y1.accepted)
               else
                 && y.s.pendingRecv.Some? && e.gen == y.recvGen + 1
                 && y1 == y.(s := y.s.(window := y1.s.window, recvKey := y.s.pendingRecv.value, pendingRecv := None),
                             recvGen := y.recvGen + 1, accepted := y1.accepted)
  {
    hide AllGood, Sequenced;
    var e := x.out[0];
    HeadChecked(x, y);
    HeadGood(x, secrets);
    assert Flow(x)[0] == e;
    assert Step1(y.recvGen, y.s.pendingRecv.Some?, e).Some?;
    if e.gen != y.recvGen {
      if secrets[e.gen] == secrets[y.recvGen] { RatchetDistinct(secrets, e.gen, y.recvGen); }
    }
  }

  /** Numbers after the head is received. */
  lemma HeadNumbers(x: Party, y: Party, y1: Party)
    requires Sequenced(x, y) && x.out != []
    requires y1.s.window == Checked(y.s.window, x.out[0].rec.n).0
    requires y1.accepted == if x.out[0].late then y.accepted else y.accepted + {x.out[0].rec.n}
    ensures Sequenced(x.(out := x.out[1..]), y1)
  {
    var n := x.out[0].rec.n;
    HeadChecked(x, y);
    CheckRefines(y.s.window, y.accepted, n);
    assert High(y1) == Max(High(y), n);
  }

  /** A link depends on its receiver only through what receiving changes. */
  lemma ReceiverFrame(x: Party, y: Party, y2: Party, secrets: seq<Secret>, primed: bool)
    requires Link(x, y, secrets, primed)
    requires y2.s.window == y.s.window && y2.accepted == y.accepted && y2.got == y.got
    requires y2.recvGen == y.recvGen && y2.s.pendingRecv == y.s.pendingRecv
    ensures Link(x, y2, secrets, primed)
  {}

  lemma GoodFrame(x: Party, x2: Party, secrets: seq<Secret>)
    requires AllGood(x, secrets) && x2.s.role == x.s.role && x2.out == x.out && x2.data == x.data
    requires x2.control.Boxed? ==> x2.control == x.control && x2.gen == x.gen
    ensures AllGood(x2, secrets)
  {}

  lemma SequenceFrame(x: Party, x2: Party, y: Party, y2: Party)
    requires Sequenced(x, y)
    requires x2.s.sendSeq == x.s.sendSeq && x2.data == x.data && x2.out == x.out && x2.top == x.top
    requires ControlNumber(x2) == ControlNumber(x)
    requires y2.s.window == y.s.window && y2.accepted == y.accepted
    ensures Sequenced(x2, y2)
  {}

  /** And on its sender only through what sending changes. */
  lemma SenderFrame(x: Party, x2: Party, y: Party, secrets: seq<Secret>, primed: bool)
    requires Link(x, y, secrets, primed)
    requires x2.s.role == x.s.role && x2.s.sendSeq == x.s.sendSeq && x2.gen == x.gen
    requires x2.data == x.data && x2.out == x.out && x2.top == x.top && x2.sent == x.sent
    requires ControlNumber(x2) == ControlNumber(x) && (x2.control.Boxed? ==> x2.control == x.control)
    ensures Link(x2, y, secrets, primed)
  {
    hide Walk, AllGood, Sequenced;
    GoodFrame(x, x2, secrets);
    SequenceFrame(x, x2, y, y);
    assert Flow(x2) == Flow(x);
  }

  lemma SecretsGrow(x: Party, y: Party, secrets: seq<Secret>, secret: Secret, primed: bool)
    requires |secrets| > 0 && Link(x, y, secrets, primed)
    ensures Link(x, y, secrets + [secret], primed)
  {
    hide Walk;
    var longer := secrets + [secret];
    forall k | 0 <= k < |x.out| ensures Good(x.out[k], x.s.role, longer) {
      assert Good(x.out[k], x.s.role, secrets);
    }
  }

  /** Keys depend on the key fields alone. */
  lemma KeysFrame(p: Party, q: Party, role: Role, secrets: seq<Secret>)
    requires HasKeys(p, role, secrets)
    requires q.gen == p.gen && q.recvGen == p.recvGen
    requires q.s.role == p.s.role && q.s.prefix == p.s.prefix && q.s.master == p.s.master
    requires q.s.sendKey == p.s.sendKey && q.s.recvKey == p.s.recvKey && q.s.pendingRecv == p.s.pendingRecv
    ensures HasKeys(q, role, secrets)
  {}

  lemma KeysGrow(p: Party, role: Role, secrets: seq<Secret>, secret: Secret)
    requires |secrets| > 0 && HasKeys(p, role, secrets)
    ensures HasKeys(p, role, secrets + [secret])
  {}

  /** What receiving the head leaves in the channel. */
  function Rest(x: Party): Party
    requires x.out != []
  {
    x.(out := x.out[1..])
  }

  /** A receiver that can follow can take the head. */
  lemma HeadStep(x: Party, y: Party, primed: bool)
    requires Follows(x, y, primed) && x.out != [] && !x.out[0].late
    ensures Step1(y.recvGen, y.s.pendingRecv.Some?, x.out[0]).Some?
  {
    assert Flow(x)[0] == x.out[0];
  }

  /** The walk over the rest starts where the head leaves the receiver. */
  lemma RestFollows(x: Party, y: Party, z: Party, primed: bool)
    requires Follows(x, y, primed) && x.out != []
    requires var e := x.out[0];
             if e.late then (z.recvGen, z.s.pendingRecv.Some?) == (y.recvGen, y.s.pendingRecv.Some?)
             else Step1(y.recvGen, y.s.pendingRecv.Some?, e) == Some((z.recvGen, z.s.pendingRecv.Some?))
    ensures Follows(Rest(x), z, primed)
  {
    assert Flow(x)[0] == x.out[0] && Flow(x)[1..] == Flow(Rest(x));
  }

  /** A late rekey record is refused and changes nothing at the receiver. */
  lemma LateHead(x: Party, y: Party, secrets: seq<Secret>, primed: bool)
    requires Link(x, y, secrets, primed) && x.out != [] && x.out[0].late
    ensures Opened(y, x.out[0].rec) == (y, None)
    ensures x.out[0].rec.rekey && Link(Rest(x), y, secrets, primed)
  {
    HeadChecked(x, y);
    LateRest(x, y, secrets, primed);
  }

  lemma LateRest(x: Party, y: Party, secrets: seq<Secret>, primed: bool)
    requires Link(x, y, secrets, primed) && x.out != [] && x.out[0].late
    ensures x.out[0].rec.rekey && Link(Rest(x), y, secrets, primed)
  {
    hide AllGood, Sequenced, Follows, DataOf;
    NextBytes(x.sent, y.got, x.out);
    LateIsRekey(x, y);
    HeadChecked(x, y);
    HeadNumbers(x, y, y);
    RestFollows(x, y, y, primed);
    HeadGood(x, secrets);
  }

  lemma Regrouped<T>(a: seq<T>, b: seq<T>, c: seq<T>)
    ensures a + (b + c) == (a + b) + c
  {}

  /** A data record opens and its bytes are the next ones read. */
  lemma DataHead(x: Party, y: Party, secrets: seq<Secret>, primed: bool)
    requires Ratchet(secrets) && HasKeys(y, Peer(x.s.role), secrets) && Link(x, y, secrets, primed)
    requires x.out != [] && !x.out[0].rec.rekey
    ensures var (y1, plain) := Opened(y, x.out[0].rec);
            && plain.Some? && plain.value.Data?
            && HasKeys(y1, Peer(x.s.role), secrets)
            && Link(Rest(x), y1.(got := y1.got + [plain.value.bytes]), secrets, primed)
  {
    hide AllGood, Sequenced, Follows, Opened, DataOf;
    var e := x.out[0];
    var (y1, plain) := Opened(y, e.rec);
    DataIsPunctual(x, y);
    HeadOpens(x, y, secrets, primed);
    HeadStep(x, y, primed);
    HeadGood(x, secrets);
    var y2 := y1.(got := y1.got + [plain.value.bytes]);
    HeadNumbers(x, y, y2);
    RestFollows(x, y, y2, primed);
    NextBytes(x.sent, y.got, x.out);
  }

  lemma NextBytes(sent: seq<seq<char>>, got: seq<seq<char>>, es: seq<Entry>)
    requires es != [] && sent == got + DataOf(es)
    ensures es[0].rec.box.plain.Data? ==> sent == (got + [es[0].rec.box.plain.bytes]) + DataOf(es[1..])
    ensures es[0].rec.box.plain.RekeyPayload? ==> sent == got + DataOf(es[1..])
  {
    if es[0].rec.box.plain.Data? {
      Regrouped(got, [es[0].rec.box.plain.bytes], DataOf(es[1..]));
    } else {
      assert [] + DataOf(es[1..]) == DataOf(es[1..]);
    }
  }

  /** A rekey record that is not late opens, leaves no key pending, and its
      receiver then arms itself for the next generation. */
  lemma RekeyHead(x: Party, y: Party, secrets: seq<Secret>, primed: bool, z: Party)
    requires Ratchet(secrets) && HasKeys(y, Peer(x.s.role), secrets) && Link(x, y, secrets, primed)
    requires x.out != [] && x.out[0].rec.rekey && !x.out[0].late
    requires var y1 := Opened(y, x.out[0].rec).0;
             && z.s.window == y1.s.window && z.accepted == y1.accepted && z.got == y1.got
             && z.recvGen == y1.recvGen && z.s.pendingRecv.Some?
    ensures var (y1, plain) := Opened(y, x.out[0].rec);
            && plain == Some(x.out[0].rec.box.plain) && plain.value.RekeyPayload?
            && y1.s.pendingRecv.None? && y1.recvGen == x.out[0].gen
            && HasKeys(y1, Peer(x.s.role), secrets)
    ensures Link(Rest(x), z, secrets, primed)
  {
    hide AllGood, Sequenced, Follows, Opened, DataOf;
    NextBytes(x.sent, y.got, x.out);
    var e := x.out[0];
    HeadOpens(x, y, secrets, primed);
    HeadStep(x, y, primed);
    HeadGood(x, secrets);
    HeadNumbers(x, y, z);
    RestFollows(x, y, z, primed);
  }
}
