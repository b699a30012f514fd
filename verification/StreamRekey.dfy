/** Stream rekey over two in-order channels, with every lock boundary of the
    transport kept as a step boundary. A data record is numbered, sealed and
    written while its sender holds the write lock; a rekey record is numbered and
    sealed without it and only written under it, so data may overtake it. The
    receiver switches keys by trial decryption.

    History carried for the statements only: the chain of master secrets, the
    generation each record was sealed in, and whether a rekey record was written
    so late that the peer's replay window will refuse it. */
module StreamRekey {
  import opened Symbolic
  import opened ReplayWindow
  import opened StreamSession

  datatype Entry = Entry(rec: Record, gen: nat, late: bool)

  /** The sender holding the write lock. */
  datatype Slot = Free | Numbered(n: nat, bytes: seq<char>) | Ready(e: Entry)

  /** The rekey record on its way out; `Written` is the responder between writing
      its response and switching its send key. */
  datatype Control =
    | NoControl
    | Wanted(body: Body, activation: nat)
    | Drawn(n: nat, body: Body, activation: nat)
    | Boxed(e: Entry)
    | Written

  datatype Party = Party(
    s: State,
    data: Slot,
    control: Control,
    out: seq<Entry>,        // written, not yet received by the peer
    // history
    gen: nat,
    recvGen: nat,
    top: int,               // highest number written, -1 if none
    accepted: set<nat>,     // numbers the replay window has accepted
    sent: seq<seq<char>>,
    got: seq<seq<char>>)

  datatype System = System(i: Party, r: Party, nextKeyPair: nat, nextCoins: nat, secrets: seq<Secret>)

  datatype Step =
    | DrawData(who: Role, bytes: seq<char>)
    | SealData(who: Role)
    | WriteData(who: Role)
    | Initiate
    | DrawControl(who: Role)
    | SealControl(who: Role)
    | WriteControl(who: Role)
    | Activate
    | Deliver(to: Role)

  function Who(y: System, who: Role): Party { if who.Initiator? then y.i else y.r }

  function Put(y: System, who: Role, p: Party): System
  {
    if who.Initiator? then y.(i := p) else y.(r := p)
  }

  function Max(a: int, b: int): int { if a < b then b else a }

  // ---- one party's steps ----

  function DrawDataOf(p: Party, bytes: seq<char>): Party
  {
    p.(s := DrawNumber(p.s), data := Slot.Numbered(p.s.sendSeq, bytes))
  }

  /** A worn key refuses: the send fails, its number is spent. */
  function SealDataOf(p: Party): Party
    requires p.data.Numbered?
  {
    match SealRecord(p.s, p.data.n, Data(p.data.bytes))
    case Some(rec) => p.(data := Ready(Entry(rec, p.gen, false)))
    case None => p.(data := Free)
  }

  function WriteDataOf(p: Party): Party
    requires p.data.Ready?
  {
    var e := p.data.e;
    p.(data := Free, out := p.out + [e], top := Max(p.top, e.rec.n), sent := p.sent + DataOf([e]))
  }

  function DrawControlOf(p: Party): Party
    requires p.control.Wanted?
  {
    p.(s := DrawNumber(p.s), control := Drawn(p.s.sendSeq, p.control.body, p.control.activation))
  }

  function SealControlOf(p: Party): Party
    requires p.control.Drawn?
  {
    match SealRecord(p.s, p.control.n, RekeyPayload(p.control.body, p.control.activation))
    case Some(rec) => p.(control := Boxed(Entry(rec, p.gen, false)))
    case None => p.(control := NoControl)
  }

  /** The peer's window refuses a number 1024 or more behind the highest. */
  predicate TooLate(p: Party)
    requires p.control.Boxed?
  {
    p.top >= p.control.e.rec.n + STREAM_REPLAY_WINDOW_SIZE
  }

  function WriteControlOf(p: Party): Party
    requires p.control.Boxed?
  {
    var e := p.control.e.(late := TooLate(p));
    p.(control := if p.s.role.Initiator? then NoControl else Written,
       out := p.out + [e], top := Max(p.top, e.rec.n))
  }

  function ActivateOf(p: Party): Party
  {
    p.(s := ActivateRekeySend(p.s), control := NoControl, gen := p.gen + 1)
  }

  // ---- receiving ----

  /** Decrypt, with the history of what it did. */
  function Opened(p: Party, rec: Record): (Party, Option<Plain>)
  {
    var (s, plain) := Decrypted(p.s, rec);
    (p.(s := s,
        recvGen := if s.recvKey != p.s.recvKey then p.recvGen + 1 else p.recvGen,
        accepted := if Checked(p.s.window, rec.n).1 then p.accepted + {rec.n} else p.accepted), plain)
  }

  function DeliverTo(y: System, to: Role): System
    requires Who(y, Peer(to)).out != []
  {
    var from := Who(y, Peer(to));
    var rec := from.out[0].rec;
    var y1 := Put(y, Peer(to), from.(out := from.out[1..]));
    var (p, plain) := Opened(Who(y, to), rec);
    match plain
    case None => Put(y1, to, p)
    case Some(Data(bytes)) => Put(y1, to, if rec.rekey then p else p.(got := p.got + [bytes]))
    case Some(RekeyPayload(body, activation)) =>
      if !rec.rekey then Put(y1, to, p)
      else if to.Responder? && !p.s.inProgress then
        match PrepareRekeyResponse(p.s, body, y.nextCoins)
        case None => Put(y1, to, p)
        case Some((s, ct)) =>
          Put(y1, to, p.(s := s, control := Wanted(Ciphertext(ct), activation)))
            .(nextCoins := y.nextCoins + 1, secrets := y.secrets + [s.pendingSecret.value])
      else if to.Initiator? && p.s.inProgress then
        match ProcessRekeyResponse(p.s, body)
        case None => Put(y1, to, p)
        case Some(s) => Put(y1, to, p.(s := s, gen := p.gen + 1))
      else Put(y1, to, p)
  }

  // ---- the system ----

  predicate Enabled(y: System, step: Step)
  {
    match step
    case DrawData(w, _) => Who(y, w).data.Free?
    case SealData(w) => Who(y, w).data.Numbered?
    case WriteData(w) => Who(y, w).data.Ready?
    case Initiate => InitiateRekey(y.i.s, y.nextKeyPair).Some?
    case DrawControl(w) => Who(y, w).control.Wanted?
    case SealControl(w) => Who(y, w).control.Drawn?
    case WriteControl(w) => Who(y, w).control.Boxed? && Who(y, w).data.Free?
    case Activate => y.r.control.Written?
    // the responder's one reader is busy until its send switch is done
    case Deliver(w) => Who(y, Peer(w)).out != [] && (w.Responder? ==> y.r.control.NoControl?)
  }

  function Next(y: System, step: Step): System
    requires Enabled(y, step)
  {
    match step
    case DrawData(w, bytes) => Put(y, w, DrawDataOf(Who(y, w), bytes))
    case SealData(w) => Put(y, w, SealDataOf(Who(y, w)))
    case WriteData(w) => Put(y, w, WriteDataOf(Who(y, w)))
    case Initiate =>
      y.(i := y.i.(s := InitiateRekey(y.i.s, y.nextKeyPair).value,
                   control := Wanted(PublicKey(y.nextKeyPair), y.i.s.sendSeq + 16)),
         nextKeyPair := y.nextKeyPair + 1)
    case DrawControl(w) => Put(y, w, DrawControlOf(Who(y, w)))
    case SealControl(w) => Put(y, w, SealControlOf(Who(y, w)))
    case WriteControl(w) => Put(y, w, WriteControlOf(Who(y, w)))
    case Activate => y.(r := ActivateOf(y.r))
    case Deliver(w) => DeliverTo(y, w)
  }

  function NewParty(role: Role, secret: Secret): Party
  {
    Party(Keyed(role, secret), Free, NoControl, [], 0, 0, -1, {}, [], [])
  }

  function Initial(secret: Secret): System
  {
    System(NewParty(Initiator, secret), NewParty(Responder, secret), 0, 0, [secret])
  }

  /** The application bytes of the data records in a stretch of channel. */
  function DataOf(es: seq<Entry>): seq<seq<char>>
  {
    if es == [] then []
    else (if es[0].rec.box.plain.Data? then [es[0].rec.box.plain.bytes] else []) + DataOf(es[1..])
  }

  // ---- what the receiver's keys can follow ----

  /** Runs a receiver at generation r, with or without the next key pending, over
      a stretch of channel: each record must be of generation r, or of r + 1 with
      that key pending; a rekey record leaves the following key pending. None
      when some record would not open. Late records are refused unopened. */
  function Walk(r: nat, p: bool, es: seq<Entry>): Option<(nat, bool)>
    decreases |es|
  {
    if es == [] then Some((r, p))
    else if es[0].late then Walk(r, p, es[1..])
    else
      match Step1(r, p, es[0])
      case None => None
      case Some((r1, p1)) => Walk(r1, p1, es[1..])
  }

  function Step1(r: nat, p: bool, e: Entry): Option<(nat, bool)>
  {
    var seen := if e.gen == r then Some((r, p)) else if e.gen == r + 1 && p then Some((r + 1, false)) else None;
    if seen.None? || !e.rec.rekey then seen
    else if seen.value.1 then None
    else Some((seen.value.0, true))
  }

  lemma {:induction false} WalkAppend(r: nat, p: bool, es: seq<Entry>, e: Entry)
    ensures Walk(r, p, es + [e]) ==
      match Walk(r, p, es)
      case None => None
      case Some((r1, p1)) => if e.late then Some((r1, p1)) else Step1(r1, p1, e)
    decreases |es|
  {
    if es == [] {
      assert es + [e] == [e] && [e][1..] == [];
    } else {
      assert (es + [e])[0] == es[0] && (es + [e])[1..] == es[1..] + [e];
      if es[0].late {
        WalkAppend(r, p, es[1..], e);
      } else if Step1(r, p, es[0]).Some? {
        WalkAppend(Step1(r, p, es[0]).value.0, Step1(r, p, es[0]).value.1, es[1..], e);
      }
    }
  }

  /** Everything sealed in writing order: the channel, then the lock holder. */
  function Flow(x: Party): seq<Entry>
  {
    x.out + if x.data.Ready? then [x.data.e] else []
  }

  // ---- numbers ----

  /** Highest number once these entries have been received after high h. */
  function Top(h: int, es: seq<Entry>): int
    decreases |es|
  {
    if es == [] then h else Top(Max(h, es[0].rec.n), es[1..])
  }

  /** Data records arrive in increasing order; a rekey record is late exactly when
      1024 numbers have passed it. */
  predicate Ordered(h: int, es: seq<Entry>)
    decreases |es|
  {
    es == [] ||
    (&& (if es[0].rec.rekey then es[0].late <==> h >= es[0].rec.n + STREAM_REPLAY_WINDOW_SIZE
         else !es[0].late && es[0].rec.n > h)
     && Ordered(Max(h, es[0].rec.n), es[1..]))
  }

  lemma {:induction false} OrderedAppend(h: int, es: seq<Entry>, e: Entry)
    ensures Ordered(h, es + [e]) <==> Ordered(h, es) && Ordered(Top(h, es), [e])
    ensures Top(h, es + [e]) == Max(Top(h, es), e.rec.n)
    decreases |es|
  {
    if es == [] {
      assert es + [e] == [e] && [e][1..] == [];
    } else {
      assert (es + [e])[0] == es[0] && (es + [e])[1..] == es[1..] + [e];
      OrderedAppend(Max(h, es[0].rec.n), es[1..], e);
    }
  }

  lemma {:induction false} DataAppend(es: seq<Entry>, e: Entry)
    ensures DataOf(es + [e]) == DataOf(es) + DataOf([e])
  {
    if es == [] {
      assert es + [e] == [e];
    } else {
      var first := if es[0].rec.box.plain.Data? then [es[0].rec.box.plain.bytes] else [];
      assert (es + [e])[0] == es[0] && (es + [e])[1..] == es[1..] + [e];
      DataAppend(es[1..], e);
      assert first + (DataOf(es[1..]) + DataOf([e])) == (first + DataOf(es[1..])) + DataOf([e]);
    }
  }
}
