/** At-most-once delivery on the datagram receive path. Several receive loops
    take arbitrary frames, forged ones included, through peek, authenticate and
    commit; any number of loops may stand between any two of these stages, and
    the epoch may advance at any point. */
module Delivery {
  import opened Words
  import opened Symbolic
  import opened DatagramSession
  import opened ReplayWindow

  /** A DATA or CLOSE frame as received: its clear header and its body. */
  datatype Frame = Frame(close: bool, epoch: uint8, recvIndex: nat, n: uint64, box: Box)

  function HeaderOf(f: Frame): Aad { Header(f.close, f.epoch, f.recvIndex, f.n) }

  datatype Stage = Idle | Peeked(f: Frame) | Opened(f: Frame, plain: Plain)

  datatype Delivered = Delivered(f: Frame, plain: Plain)

  datatype System = System(
    s: State,
    window: Window,
    loops: seq<Stage>,
    log: seq<Delivered>,   // payloads handed to the reader, and closes acted on
    keys: set<Key>)        // history: every receive key the session has held

  datatype Step =
    | Peek(loop: nat, f: Frame)
    | Authenticate(loop: nat, now: int)
    | Commit(loop: nat)
    | Advance(secret: Secret, now: int)

  predicate Enabled(y: System, step: Step)
  {
    match step
    case Peek(l, _) => l < |y.loops| && y.loops[l].Idle?
    case Authenticate(l, _) => l < |y.loops| && y.loops[l].Peeked?
    case Commit(l) => l < |y.loops| && y.loops[l].Opened?
    case Advance(_, _) => true
  }

  function Next(y: System, step: Step): System
    requires Enabled(y, step)
  {
    match step
    case Peek(l, f) =>
      if Admits(y.window, f.n) then y.(loops := y.loops[l := Peeked(f)]) else y
    case Authenticate(l, now) =>
      var f := y.loops[l].f;
      (match OpenFrame(y.s, f.epoch, f.n, f.box, HeaderOf(f), now)
       case Some(plain) => y.(loops := y.loops[l := Opened(f, plain)])
       case None => y.(loops := y.loops[l := Idle]))
    case Commit(l) =>
      var Opened(f, plain) := y.loops[l];
      var (w, ok) := Checked(y.window, f.n);
      y.(window := w,
         loops := y.loops[l := Idle],
         log := if ok then y.log + [Delivered(f, plain)] else y.log)
    case Advance(secret, now) =>
      var s := Advanced(y.s, secret, now);
      y.(s := s, keys := y.keys + {s.cur.recvKey})
  }

  function Initial(role: Role, secret: Secret, loops: nat): System
  {
    var s := Established(role, secret);
    System(s, Empty(1024), seq(loops, _ => Idle), [], {s.cur.recvKey})
  }

  predicate ValidRun(y: System, steps: seq<Step>)
    decreases |steps|
  {
    steps == [] || (Enabled(y, steps[0]) && ValidRun(Next(y, steps[0]), steps[1..]))
  }

  function Run(y: System, steps: seq<Step>): System
    requires ValidRun(y, steps)
    decreases |steps|
  {
    if steps == [] then y else Run(Next(y, steps[0]), steps[1..])
  }

  function Numbers(log: seq<Delivered>): set<nat>
  {
    set i | 0 <= i < |log| :: log[i].f.n
  }

  /** The peer sealed this payload for exactly this header and number, under a
      key the session has held. */
  predicate Authentic(y: System, f: Frame, plain: Plain)
  {
    && f.box.key in y.keys
    && f.box.nonce == RecvNonce(y.s, f.n)
    && f.box.aad == HeaderOf(f)
    && f.box.plain == plain
  }

  ghost predicate Inv(y: System)
  {
    && y.window.size == 1024
    && Represents(y.window, Numbers(y.log))
    && (forall i, j :: 0 <= i < j < |y.log| ==> y.log[i].f.n != y.log[j].f.n)
    && (forall i :: 0 <= i < |y.log| ==> Authentic(y, y.log[i].f, y.log[i].plain))
    && (forall l :: 0 <= l < |y.loops| && y.loops[l].Opened? ==> Authentic(y, y.loops[l].f, y.loops[l].plain))
    && y.s.cur.recvKey in y.keys
    && (y.s.prev.Some? ==> y.s.prev.value.recvKey in y.keys)
  }

  lemma NumbersAppend(log: seq<Delivered>, d: Delivered)
    ensures Numbers(log + [d]) == Numbers(log) + {d.f.n}
  {
    assert (log + [d])[|log|].f.n == d.f.n;
    forall n | n in Numbers(log) ensures n in Numbers(log + [d]) {
      var i :| 0 <= i < |log| && log[i].f.n == n;
      assert (log + [d])[i].f.n == n;
    }
  }

  lemma CommitPreserves(y: System, l: nat)
    requires Inv(y) && Enabled(y, Commit(l))
    ensures Inv(Next(y, Commit(l)))
  {
    hide Represents;
    var z := Next(y, Commit(l));
    var Opened(f, plain) := y.loops[l];
    CheckRefines(y.window, Numbers(y.log), f.n);
    assert Authentic(y, f, plain);
    if Checked(y.window, f.n).1 {
      NumbersAppend(y.log, Delivered(f, plain));
      forall i | 0 <= i < |y.log| ensures y.log[i].f.n != f.n {}
    }
  }

  lemma StepPreserves(y: System, step: Step)
    requires Inv(y) && Enabled(y, step)
    ensures Inv(Next(y, step))
  {
    if step.Commit? { CommitPreserves(y, step.loop); }
  }

  lemma {:induction false} RunInv(y: System, steps: seq<Step>)
    requires Inv(y) && ValidRun(y, steps)
    ensures Inv(Run(y, steps))
    decreases |steps|
  {
    if steps != [] {
      StepPreserves(y, steps[0]);
      RunInv(Next(y, steps[0]), steps[1..]);
    }
  }

  lemma InitialInv(role: Role, secret: Secret, loops: nat)
    ensures Inv(Initial(role, secret, loops))
  {}

  /** Each sequence number yields at most one delivered payload or close, and
      everything delivered was sealed by the peer for that header. */
  lemma AtMostOnce(role: Role, secret: Secret, loops: nat, steps: seq<Step>)
    requires ValidRun(Initial(role, secret, loops), steps)
    ensures var y := Run(Initial(role, secret, loops), steps);
            && (forall i, j :: 0 <= i < j < |y.log| ==> y.log[i].f.n != y.log[j].f.n)
            && (forall i :: 0 <= i < |y.log| ==> Authentic(y, y.log[i].f, y.log[i].plain))
  {
    InitialInv(role, secret, loops);
    RunInv(Initial(role, secret, loops), steps);
  }

  /** The window holds the delivered numbers and nothing else: a frame that is
      refused, fails authentication or loses the race leaves no trace in it. */
  lemma WindowIsDeliveries(role: Role, secret: Secret, loops: nat, steps: seq<Step>)
    requires ValidRun(Initial(role, secret, loops), steps)
    ensures var y := Run(Initial(role, secret, loops), steps);
            Represents(y.window, Numbers(y.log))
  {
    InitialInv(role, secret, loops);
    RunInv(Initial(role, secret, loops), steps);
  }

  /** Anything else is dropped before it is opened: in every reachable state a frame
      whose number was delivered, or lies 1024 or more behind one that was, changes
      nothing. */
  lemma StaleIsDropped(role: Role, secret: Secret, loops: nat, steps: seq<Step>, l: nat, f: Frame)
    requires ValidRun(Initial(role, secret, loops), steps)
    requires var y := Run(Initial(role, secret, loops), steps);
             l < |y.loops| && y.loops[l].Idle? && !Fresh(1024, Numbers(y.log), f.n)
    ensures var y := Run(Initial(role, secret, loops), steps);
            Next(y, Peek(l, f)) == y
  {
    InitialInv(role, secret, loops);
    RunInv(Initial(role, secret, loops), steps);
    var y := Run(Initial(role, secret, loops), steps);
    AdmissiblePredictsCheck(y.window, Numbers(y.log), f.n);
  }

  /** Nothing fresh is refused: in every reachable state an idle loop delivers an
      authentic frame of the current epoch, or of the retained one until it
      retires, whose number is new and in range. */
  lemma FreshIsDelivered(role: Role, secret: Secret, loops: nat, steps: seq<Step>, l: nat, f: Frame, now: int)
    requires ValidRun(Initial(role, secret, loops), steps)
    requires var y := Run(Initial(role, secret, loops), steps);
             && l < |y.loops| && y.loops[l].Idle?
             && RecvKey(y.s, f.epoch, now) == Some(f.box.key)
             && f.box.nonce == RecvNonce(y.s, f.n) && f.box.aad == HeaderOf(f)
    ensures var y := Run(Initial(role, secret, loops), steps);
            var three := [Peek(l, f), Authenticate(l, now), Commit(l)];
            Fresh(1024, Numbers(y.log), f.n) ==>
              ValidRun(y, three) && Run(y, three).log == y.log + [Delivered(f, f.box.plain)]
  {
    InitialInv(role, secret, loops);
    RunInv(Initial(role, secret, loops), steps);
    var y := Run(Initial(role, secret, loops), steps);
    if Fresh(1024, Numbers(y.log), f.n) {
      AdmissiblePredictsCheck(y.window, Numbers(y.log), f.n);
      var y1 := Next(y, Peek(l, f));
      var y2 := Next(y1, Authenticate(l, now));
      var y3 := Next(y2, Commit(l));
      var three := [Peek(l, f), Authenticate(l, now), Commit(l)];
      assert three[1..] == [Authenticate(l, now), Commit(l)];
      assert three[1..][1..] == [Commit(l)];
      assert three[1..][1..][1..] == [];
      assert ValidRun(y3, []) && Run(y3, []) == y3;
      assert ValidRun(y2, [Commit(l)]) && Run(y2, [Commit(l)]) == y3;
      assert ValidRun(y1, three[1..]) && Run(y1, three[1..]) == y3;
    }
  }
}
