/** Nonce uniqueness and key wear on one direction of a datagram session. Any
    number of senders draw a sequence number and seal later, under whatever epoch
    is current by then; Send, SendBatch and Close go through the budget check,
    rekey control messages do not; the epoch may advance between any two steps. */
module NonceBudget {
  import opened Words
  import opened Symbolic
  import opened DatagramSession

  /** One seal: the epoch it was made in, the sequence number drawn for it, whether
      it was a DATA or CLOSE frame, and what came out. */
  datatype Event = Event(epoch: nat, n: uint64, frame: bool, box: Box)

  datatype System = System(
    s: State,
    held: map<nat, uint64>,  // drawn by a sender, not yet sealed
    draws: nat,
    epoch: nat,
    starts: seq<nat>,        // draws made when each epoch began
    log: seq<Event>)

  datatype Step =
    | Draw(sender: nat)
    | SealFrame(sender: nat, aad: Aad, plain: Plain)
    | SealControlMessage(sender: nat, response: bool, plain: Plain)
    | SealControlAtOnce(response: bool, plain: Plain)
    | Advance(secret: Secret, now: int)

  predicate Enabled(y: System, step: Step)
  {
    match step
    case Draw(t) => t !in y.held
    case SealFrame(t, _, _) => t in y.held
    case SealControlMessage(t, _, _) => t in y.held
    case SealControlAtOnce(_, _) => true
    case Advance(_, _) => true
  }

  function Next(y: System, step: Step): System
    requires Enabled(y, step)
  {
    match step
    case Draw(t) => y.(s := Drawn(y.s), held := y.held[t := y.s.sendSeq], draws := y.draws + 1)
    case SealFrame(t, aad, plain) =>
      var n := y.held[t];
      var box := Seal(y.s, aad, n, plain);
      y.(held := y.held - {t}, log := y.log + if box.Some? then [Event(y.epoch, n, true, box.value)] else [])
    case SealControlMessage(t, response, plain) =>
      var n := y.held[t];
      var box := SealControl(y.s.(sendSeq := n), response, plain).1.box;
      y.(held := y.held - {t}, log := y.log + [Event(y.epoch, n, false, box)])
    case SealControlAtOnce(response, plain) =>
      var (s, body) := SealControl(y.s, response, plain);
      y.(s := s, draws := y.draws + 1, log := y.log + [Event(y.epoch, body.n, false, body.box)])
    case Advance(secret, now) =>
      y.(s := Advanced(y.s, secret, now), epoch := y.epoch + 1, starts := y.starts + [y.draws])
  }

  function Initial(role: Role, secret: Secret): System
  {
    System(Established(role, secret), map[], 0, 0, [0], [])
  }

  predicate ValidRun(y: System, steps: seq<Step>)
    decreases |steps|
  {
    steps == [] || (Enabled(y, steps[0]) && ValidRun(Next(y, steps[0]), steps[1..]))
  }

  function Run(y: System, steps: seq<Step>): System
    requires ValidRun(y, steps)
    decreases |steps|
  {
    if steps == [] then y else Run(Next(y, steps[0]), steps[1..])
  }

  /** Every number handed out is in one place: held by one sender or used by one
      seal. */
  ghost predicate Distinct(y: System)
  {
    && y.draws <= TWO_64
    && y.s.sendSeq == (if y.draws == TWO_64 then 0 else y.draws)
    && (forall t :: t in y.held ==> y.held[t] < y.draws)
    && (forall t, u :: t in y.held && u in y.held && t != u ==> y.held[t] != y.held[u])
    && (forall i :: 0 <= i < |y.log| ==> y.log[i].n < y.draws)
    && (forall i, t :: 0 <= i < |y.log| && t in y.held ==> y.log[i].n != y.held[t])
    && (forall i, j :: 0 <= i < j < |y.log| ==> y.log[i].n != y.log[j].n)
  }

  lemma DistinctDraw(y: System, t: nat)
    requires Distinct(y) && t !in y.held && y.draws < TWO_64
    ensures Distinct(Next(y, Draw(t)))
  {}

  /** Moving a held number into the log, or dropping it, keeps numbers apart. */
  lemma DistinctSeal(y: System, t: nat, log: seq<Event>)
    requires Distinct(y) && t in y.held
    requires log == y.log || (|log| == |y.log| + 1 && log[..|y.log|] == y.log && log[|y.log|].n == y.held[t])
    ensures Distinct(y.(held := y.held - {t}, log := log))
  {
    assert forall i :: 0 <= i < |y.log| ==> log[i] == y.log[i];
  }

  lemma DistinctAtOnce(y: System, step: Step)
    requires Distinct(y) && step.SealControlAtOnce? && y.draws < TWO_64
    ensures Distinct(Next(y, step))
  {
    var z := Next(y, step);
    assert forall i :: 0 <= i < |y.log| ==> z.log[i] == y.log[i];
  }

  lemma DistinctStep(y: System, step: Step)
    requires Distinct(y) && Enabled(y, step) && Next(y, step).draws <= TWO_64
    ensures Distinct(Next(y, step))
  {
    match step
    case Draw(t) => DistinctDraw(y, t);
    case SealFrame(t, _, _) => DistinctSeal(y, t, Next(y, step).log);
    case SealControlMessage(t, _, _) => DistinctSeal(y, t, Next(y, step).log);
    case SealControlAtOnce(_, _) => DistinctAtOnce(y, step);
    case Advance(_, _) =>
  }

  lemma {:induction false} DistinctRun(y: System, steps: seq<Step>)
    requires Distinct(y) && ValidRun(y, steps) && Run(y, steps).draws <= TWO_64
    ensures Distinct(Run(y, steps))
    decreases |steps|
  {
    if steps != [] {
      DrawsGrow(Next(y, steps[0]), steps[1..]);
      DistinctStep(y, steps[0]);
      DistinctRun(Next(y, steps[0]), steps[1..]);
    }
  }

  lemma {:induction false} DrawsGrow(y: System, steps: seq<Step>)
    requires ValidRun(y, steps)
    ensures y.draws <= Run(y, steps).draws
    decreases |steps|
  {
    if steps != [] { DrawsGrow(Next(y, steps[0]), steps[1..]); }
  }

  /** The nonce of every seal is made of the fixed prefix, the role and the number
      drawn for it. */
  ghost predicate Nonced(y: System, prefix: Secret, role: Role)
  {
    && y.s.prefix == prefix && y.s.role == role
    && forall i :: 0 <= i < |y.log| ==> y.log[i].box.nonce == Nonce(prefix, role, y.log[i].n)
  }

  lemma {:induction false} NoncedRun(y: System, steps: seq<Step>, prefix: Secret, role: Role)
    requires Nonced(y, prefix, role) && ValidRun(y, steps)
    ensures Nonced(Run(y, steps), prefix, role)
    decreases |steps|
  {
    if steps != [] { NoncedRun(Next(y, steps[0]), steps[1..], prefix, role); }
  }

  /** No two seals of one direction share a nonce, in any run of at most 2^64
      draws, whichever epochs they fall in. */
  lemma NoncesUnique(role: Role, secret: Secret, steps: seq<Step>, i: nat, j: nat)
    requires ValidRun(Initial(role, secret), steps)
    requires Run(Initial(role, secret), steps).draws <= TWO_64
    requires i < j < |Run(Initial(role, secret), steps).log|
    ensures var y := Run(Initial(role, secret), steps);
            && y.log[i].box.nonce != y.log[j].box.nonce
            && y.log[i].box.nonce == Nonce(secret, role, y.log[i].n)
  {
    DistinctRun(Initial(role, secret), steps);
    NoncedRun(Initial(role, secret), steps, secret, role);
  }

  // ---- key wear ----

  /** The budget, as the wrapping subtraction of the source decides it: a number
      drawn before the epoch began is refused exactly while the epoch began no
      more than 2^64 - 2^28 draws after it. */
  lemma BudgetExact(s: State, aad: Aad, n: uint64, plain: Plain)
    ensures n >= s.cur.startSeq ==> (Seal(s, aad, n, plain).Some? <==> n < s.cur.startSeq + 0x1000_0000)
    ensures n < s.cur.startSeq ==> (Seal(s, aad, n, plain).Some? <==> s.cur.startSeq - n > TWO_64 - 0x1000_0000)
  {}

  /** The number the counter stands at after so many draws, up to 2^64. */
  function CounterAt(draws: nat): uint64
    requires draws <= TWO_64
  {
    if draws == TWO_64 then 0 else draws
  }

  ghost predicate Worn(y: System)
  {
    && |y.starts| == y.epoch + 1
    && (forall e :: 0 <= e <= y.epoch ==> y.starts[e] <= TWO_64)
    && y.s.cur.startSeq == CounterAt(y.starts[y.epoch])
    && forall i :: 0 <= i < |y.log| ==>
         && y.log[i].epoch <= y.epoch
         && (y.log[i].frame ==> Minus(y.log[i].n, CounterAt(y.starts[y.log[i].epoch])) < MAX_PACKETS_BEFORE_REKEY)
  }

  lemma WornStep(y: System, step: Step)
    requires Distinct(y) && Worn(y) && Enabled(y, step)
    ensures Worn(Next(y, step))
  {
    hide Minus;
    assert step.Advance? ==> Next(y, step).s.cur.startSeq == y.s.sendSeq;
  }

  lemma {:induction false} WornRun(y: System, steps: seq<Step>)
    requires Distinct(y) && Worn(y) && ValidRun(y, steps)
    requires Run(y, steps).draws <= TWO_64
    ensures Worn(Run(y, steps))
    decreases |steps|
  {
    if steps != [] {
      DrawsGrow(Next(y, steps[0]), steps[1..]);
      DistinctStep(y, steps[0]);
      WornStep(y, steps[0]);
      WornRun(Next(y, steps[0]), steps[1..]);
    }
  }

  function FramesOf(log: seq<Event>, e: nat): nat
  {
    if log == [] then 0
    else FramesOf(log[..|log| - 1], e) + if log[|log| - 1].epoch == e && log[|log| - 1].frame then 1 else 0
  }

  function NumbersOf(log: seq<Event>, e: nat): set<int>
  {
    set i | 0 <= i < |log| && log[i].epoch == e && log[i].frame :: log[i].n
  }

  lemma {:induction false} CountNumbers(log: seq<Event>, e: nat)
    requires forall i, j :: 0 <= i < j < |log| ==> log[i].n != log[j].n
    ensures |NumbersOf(log, e)| == FramesOf(log, e)
  {
    if log != [] {
      var front, last := log[..|log| - 1], log[|log| - 1];
      CountNumbers(front, e);
      NumbersGrow(log, e);
    }
  }

  lemma NumbersGrow(log: seq<Event>, e: nat)
    requires log != [] && forall i, j :: 0 <= i < j < |log| ==> log[i].n != log[j].n
    ensures var front, last := log[..|log| - 1], log[|log| - 1];
            if last.epoch == e && last.frame then
              NumbersOf(log, e) == NumbersOf(front, e) + {last.n} && last.n !in NumbersOf(front, e)
            else NumbersOf(log, e) == NumbersOf(front, e)
  {
    var front, last := log[..|log| - 1], log[|log| - 1];
    forall k | k in NumbersOf(log, e) && k != last.n ensures k in NumbersOf(front, e) {
      var i :| 0 <= i < |log| && log[i].epoch == e && log[i].frame && log[i].n == k;
      assert front[i] == log[i];
    }
  }

  /** The numbers an epoch lets through lie on a circle of 2^64, 2^28 of them. */
  lemma CircleSize(s: set<int>, start: uint64)
    requires forall x :: x in s ==> 0 <= x < TWO_64 && Minus(x, start) < MAX_PACKETS_BEFORE_REKEY
    ensures |s| <= MAX_PACKETS_BEFORE_REKEY
  {
    var after, before := set x | x in s && x >= start, set x | x in s && x < start;
    assert s == after + before && after !! before;
    var end := start + MAX_PACKETS_BEFORE_REKEY;
    if end <= TWO_64 {
      IntervalSize(after, start, end);
      IntervalSize(before, 0, 0);
    } else {
      IntervalSize(after, start, TWO_64);
      IntervalSize(before, 0, end - TWO_64);
    }
  }

  /** Each epoch's key seals at most 2^28 DATA and CLOSE frames, over any run of
      at most 2^64 draws and any interleaving with epoch advances. */
  lemma KeyBudget(role: Role, secret: Secret, steps: seq<Step>, e: nat)
    requires ValidRun(Initial(role, secret), steps)
    requires Run(Initial(role, secret), steps).draws <= TWO_64
    ensures FramesOf(Run(Initial(role, secret), steps).log, e) <= MAX_PACKETS_BEFORE_REKEY
  {
    var y := Run(Initial(role, secret), steps);
    DistinctRun(Initial(role, secret), steps);
    WornRun(Initial(role, secret), steps);
    CountNumbers(y.log, e);
    CircleSize(NumbersOf(y.log, e), if e <= y.epoch then CounterAt(y.starts[e]) else 0);
  }

  /** And it seals every number of those 2^28: in any such run a held number is
      refused exactly when it is not among them. */
  lemma SealsExactly(role: Role, secret: Secret, steps: seq<Step>, aad: Aad, n: uint64, plain: Plain)
    requires ValidRun(Initial(role, secret), steps)
    requires Run(Initial(role, secret), steps).draws <= TWO_64
    ensures var y := Run(Initial(role, secret), steps);
            && y.epoch < |y.starts| && y.starts[y.epoch] <= TWO_64
            && (Seal(y.s, aad, n, plain).Some? <==> Minus(n, CounterAt(y.starts[y.epoch])) < 0x1000_0000)
  {
    DistinctRun(Initial(role, secret), steps);
    WornRun(Initial(role, secret), steps);
  }

  // ---- one draw more ----

  lemma {:induction false} RunTwice(y: System, steps: seq<Step>, more: seq<Step>)
    requires ValidRun(y, steps) && ValidRun(Run(y, steps), more)
    ensures ValidRun(y, steps + more) && Run(y, steps + more) == Run(Run(y, steps), more)
    decreases |steps|
  {
    if steps == [] {
      assert steps + more == more;
    } else {
      assert (steps + more)[0] == steps[0] && (steps + more)[1..] == steps[1..] + more;
      RunTwice(Next(y, steps[0]), steps[1..], more);
    }
  }

  /** One number drawn and sealed at once, as a frame or as a control message. */
  lemma SealOne(y: System, frame: bool) returns (steps: seq<Step>)
    requires 0 !in y.held && (frame ==> WithinBudget(y.s, y.s.sendSeq))
    ensures ValidRun(y, steps)
    ensures var z := Run(y, steps);
            && |z.log| == |y.log| + 1 && z == y.(s := Drawn(y.s), draws := y.draws + 1, log := y.log + [z.log[|y.log|]])
            && z.log[|y.log|] == Event(y.epoch, y.s.sendSeq, frame, z.log[|y.log|].box)
            && z.log[|y.log|].box.nonce == SendNonce(y.s, y.s.sendSeq) && z.log[|y.log|].box.key == y.s.cur.sendKey
  {
    var plain := PublicKey(0);
    var second := if frame then SealFrame(0, Control(false, 0, 0), plain) else SealControlMessage(0, false, plain);
    steps := [Draw(0), second];
    var y1 := Next(y, Draw(0));
    var y2 := Next(y1, second);
    assert y1.held - {0} == y.held;
    assert steps[1..] == [second] && [second][1..] == [];
    assert ValidRun(y2, []) && ValidRun(y1, [second]);
    assert Run(y1, [second]) == Run(y2, []) == y2;
  }

  /** k numbers drawn and sealed one after the other. */
  lemma {:induction false} SealMany(y: System, k: nat, frame: bool) returns (steps: seq<Step>)
    requires 0 !in y.held && y.s.sendSeq + k <= TWO_64
    requires frame ==> y.s.cur.startSeq == 0 && y.s.sendSeq + k <= MAX_PACKETS_BEFORE_REKEY
    ensures ValidRun(y, steps)
    ensures var z := Run(y, steps);
            && z.s == y.s.(sendSeq := CounterAt(y.s.sendSeq + k)) && z.draws == y.draws + k
            && z.held == y.held && z.epoch == y.epoch
            && y.log <= z.log && |z.log| == |y.log| + k
            && FramesOf(z.log, y.epoch) == FramesOf(y.log, y.epoch) + (if frame then k else 0)
            && (k > 0 ==> z.log[|y.log|].box.nonce == SendNonce(y.s, y.s.sendSeq) &&
                          z.log[|y.log|].box.key == y.s.cur.sendKey)
    decreases k
  {
    hide Next, SendNonce;
    if k == 0 {
      steps := [];
    } else {
      var first := SealOne(y, frame);
      var y1 := Run(y, first);
      assert y1.log[..|y1.log| - 1] == y.log;
      if k == 1 {
        steps := first;
      } else {
        var rest := SealMany(y1, k - 1, frame);
        RunTwice(y, first, rest);
        steps := first + rest;
      }
    }
  }

  /** The bound is exact for both: with one draw more the counter comes round, the
      first number is sealed again under the same key, and the key has sealed one
      frame too many. */
  lemma OneDrawTooMany(role: Role, secret: Secret) returns (steps: seq<Step>)
    ensures ValidRun(Initial(role, secret), steps)
    ensures var y := Run(Initial(role, secret), steps);
            && y.draws == TWO_64 + 1 && y.epoch == 0
            && FramesOf(y.log, 0) == MAX_PACKETS_BEFORE_REKEY + 1
            && |y.log| == TWO_64 + 1
            && y.log[0].box.nonce == y.log[TWO_64].box.nonce && y.log[0].box.key == y.log[TWO_64].box.key
  {
    var y0 := Initial(role, secret);
    var frames := SealMany(y0, MAX_PACKETS_BEFORE_REKEY, true);
    var y1 := Run(y0, frames);
    var others := SealMany(y1, TWO_64 - MAX_PACKETS_BEFORE_REKEY, false);
    var y2 := Run(y1, others);
    var last := SealOne(y2, true);
    RunTwice(y1, others, last);
    RunTwice(y0, frames, others + last);
    steps := frames + (others + last);
    var y3 := Run(y2, last);
    assert y3.log[..|y3.log| - 1] == y2.log;
  }
}
