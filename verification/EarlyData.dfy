/** Data that arrives before its session is keyed. Receive loops read the session
    pointer, buffer under a lock when it is unset, and look again when told that
    the buffer was flushed; the handshake publishes the session, then takes the
    buffer under the same lock and routes it. All of these interleave freely. */
module EarlyData {
  import opened DatagramCodec

  const EARLY_CAP: nat := 4

  datatype Datagram = Datagram(id: nat, size: nat)

  datatype Buffer = Buffer(early: seq<Datagram>, done: bool)

  /** Whether a datagram is consumed, and the buffer after that. */
  function Stashed(b: Buffer, d: Datagram): (Buffer, bool)
  {
    if b.done then (b, false)
    else if |b.early| < EARLY_CAP && d.size <= MTU then (b.(early := b.early + [d]), true)
    else (b, true)
  }

  function Flushed(b: Buffer): Buffer { Buffer([], true) }

  class DatagramSession {
    var early: seq<Datagram>
    var earlyDone: bool

    function Value(): Buffer
      reads this
    {
      Buffer(early, earlyDone)
    }

    constructor ()
      ensures Value() == Buffer([], false)
    {
      early, earlyDone := [], false;
    }

    method StashEarly(d: Datagram) returns (consumed: bool)
      modifies this
      ensures (Value(), consumed) == Stashed(old(Value()), d)
      ensures |old(early)| <= EARLY_CAP ==> |early| <= EARLY_CAP
    {
      if earlyDone {
        return false;
      }
      if |early| < EARLY_CAP && d.size <= MTU {
        early := early + [d];
      }
      return true;
    }

    /** The locked part of a flush; the caller routes what it returns. */
    method TakeEarly() returns (pending: seq<Datagram>)
      modifies this
      ensures pending == old(early) && Value() == Flushed(old(Value()))
    {
      pending := early;
      early := [];
      earlyDone := true;
    }
  }

  // ---- interleavings ----

  /** Where a receive loop is with its datagram. */
  datatype Loop = Idle | Unkeyed(d: Datagram) | Told(d: Datagram)

  /** The session pointer, the buffer, what a flush has taken and not yet routed,
      and the receive loops; the rest is history: what arrived, what was buffered,
      and how each datagram ended. */
  datatype System = System(
    keyed: bool,
    buffer: Buffer,
    taken: seq<Datagram>,
    loops: map<nat, Loop>,
    arrived: multiset<Datagram>,
    stored: seq<Datagram>,
    replayed: seq<Datagram>,
    direct: multiset<Datagram>,
    overflow: multiset<Datagram>,
    stranded: multiset<Datagram>)

  datatype Step =
    | Arrive(loop: nat, d: Datagram)
    | Stash(loop: nat)
    | LookAgain(loop: nat)
    | Publish
    | Flush
    | RouteTaken

  function LoopAt(s: System, k: nat): Loop { if k in s.loops then s.loops[k] else Idle }

  predicate Enabled(s: System, step: Step)
  {
    match step
    case Arrive(k, _) => LoopAt(s, k).Idle?
    case Stash(k) => LoopAt(s, k).Unkeyed?
    case LookAgain(k) => LoopAt(s, k).Told?
    case Publish => !s.keyed
    case Flush => s.keyed && !s.buffer.done
    case RouteTaken => s.taken != []
  }

  function Next(s: System, step: Step): System
    requires Enabled(s, step)
  {
    match step
    case Arrive(k, d) =>
      var t := s.(arrived := s.arrived + multiset{d});
      if s.keyed then t.(direct := s.direct + multiset{d}) else t.(loops := s.loops[k := Unkeyed(d)])
    case Stash(k) =>
      var d := LoopAt(s, k).d;
      var (b, consumed) := Stashed(s.buffer, d);
      if !consumed then s.(loops := s.loops[k := Told(d)])
      else if b == s.buffer then s.(loops := s.loops[k := Idle], overflow := s.overflow + multiset{d})
      else s.(loops := s.loops[k := Idle], buffer := b, stored := s.stored + [d])
    case LookAgain(k) =>
      var d := LoopAt(s, k).d;
      var t := s.(loops := s.loops[k := Idle]);
      if s.keyed then t.(direct := s.direct + multiset{d}) else t.(stranded := s.stranded + multiset{d})
    case Publish => s.(keyed := true)
    case Flush => s.(taken := s.buffer.early, buffer := Flushed(s.buffer))
    case RouteTaken => s.(taken := s.taken[1..], replayed := s.replayed + [s.taken[0]])
  }

  function Initial(): System
  {
    System(false, Buffer([], false), [], map[], multiset{}, [], [], multiset{}, multiset{}, multiset{})
  }

  predicate Run(s: System, steps: seq<Step>)
    decreases |steps|
  {
    steps != [] ==> Enabled(s, steps[0]) && Run(Next(s, steps[0]), steps[1..])
  }

  function End(s: System, steps: seq<Step>): System
    requires Run(s, steps)
    decreases |steps|
  {
    if steps == [] then s else End(Next(s, steps[0]), steps[1..])
  }

  ghost predicate Inv(s: System)
  {
    && (s.buffer.done ==> s.keyed && s.buffer.early == [])
    && (!s.buffer.done ==> s.taken == [] && s.replayed == [])
    && s.stored == s.replayed + s.taken + s.buffer.early
    && |s.stored| <= EARLY_CAP
    && (forall k :: k in s.loops && s.loops[k].Told? ==> s.buffer.done)
    && (forall d :: d in s.overflow ==> d.size > MTU || |s.stored| == EARLY_CAP)
    && (forall d :: d in s.stored ==> d.size <= MTU)
    && s.stranded == multiset{}
  }

  lemma StashInv(s: System, k: nat)
    requires Inv(s) && LoopAt(s, k).Unkeyed?
    ensures Inv(Next(s, Stash(k)))
  {}

  lemma LoopInv(s: System, step: Step)
    requires Inv(s) && Enabled(s, step) && (step.Arrive? || step.LookAgain?)
    ensures Inv(Next(s, step))
  {}

  lemma StepInv(s: System, step: Step)
    requires Inv(s) && Enabled(s, step)
    ensures Inv(Next(s, step))
  {
    if step.Stash? {
      StashInv(s, step.loop);
    } else if step.Arrive? || step.LookAgain? {
      LoopInv(s, step);
    } else if step.RouteTaken? {
      assert s.taken == [s.taken[0]] + s.taken[1..];
    }
  }

  lemma {:induction false} RunInv(s: System, steps: seq<Step>)
    requires Inv(s) && Run(s, steps)
    ensures Inv(End(s, steps))
    decreases |steps|
  {
    if steps != [] {
      StepInv(s, steps[0]);
      RunInv(Next(s, steps[0]), steps[1..]);
    }
  }

  /** Early data is never stranded, over every interleaving: at most four datagrams
      are ever held; what was buffered is what has been replayed, is being
      replayed, or is still held, once each and in order; replays begin only after
      the session is visible; and a loop told that the buffer was flushed finds
      the session, so none drops its datagram there. */
  lemma NeverStranded(steps: seq<Step>, k: nat)
    requires Run(Initial(), steps)
    ensures var s := End(Initial(), steps);
            && |s.buffer.early| <= EARLY_CAP
            && s.stored == s.replayed + s.taken + s.buffer.early
            && (s.replayed != [] || s.taken != [] ==> s.keyed)
            && (LoopAt(s, k).Told? ==> s.keyed)
            && s.stranded == multiset{}
            && (s.buffer.done && s.taken == [] ==> s.replayed == s.stored)
  {
    RunInv(Initial(), steps);
    var s := End(Initial(), steps);
    assert s.replayed + [] == s.replayed && s.replayed + [] + [] == s.replayed;
  }

  /** A datagram is dropped only when it is larger than the MTU or four were
      buffered before the flush, and nothing larger is ever buffered. */
  lemma DroppedForWantOfRoom(steps: seq<Step>, d: Datagram)
    requires Run(Initial(), steps)
    ensures var s := End(Initial(), steps);
            && (d in s.overflow ==> d.size > 1200 || |s.stored| == 4)
            && (d in s.stored ==> d.size <= 1200)
  {
    RunInv(Initial(), steps);
  }

  // ---- every datagram is accounted for ----

  function Carries(l: Loop, d: Datagram): nat { if !l.Idle? && l.d == d then 1 else 0 }

  /** How often d is in the hands of the first n loops. */
  function InLoops(s: System, n: nat, d: Datagram): nat
  {
    if n == 0 then 0 else InLoops(s, n - 1, d) + Carries(LoopAt(s, n - 1), d)
  }

  lemma {:induction false} InLoopsSame(s: System, t: System, n: nat, d: Datagram)
    requires forall j :: 0 <= j < n ==> LoopAt(s, j) == LoopAt(t, j)
    ensures InLoops(s, n, d) == InLoops(t, n, d)
  {
    if n > 0 { InLoopsSame(s, t, n - 1, d); }
  }

  lemma {:induction false} InLoopsPut(s: System, t: System, k: nat, n: nat, d: Datagram)
    requires k < n && forall j :: 0 <= j < n && j != k ==> LoopAt(s, j) == LoopAt(t, j)
    ensures InLoops(t, n, d) == InLoops(s, n, d) - Carries(LoopAt(s, k), d) + Carries(LoopAt(t, k), d)
  {
    if k == n - 1 { InLoopsSame(s, t, n - 1, d); } else { InLoopsPut(s, t, k, n - 1, d); }
  }

  ghost predicate Within(s: System, n: nat) { forall k :: k in s.loops ==> k < n }

  predicate Below(steps: seq<Step>, n: nat) { forall i :: 0 <= i < |steps| && steps[i].Arrive? ==> steps[i].loop < n }

  ghost predicate Balanced(s: System, n: nat, d: Datagram)
  {
    s.arrived[d] == s.direct[d] + multiset(s.stored)[d] + s.overflow[d] + s.stranded[d] + InLoops(s, n, d)
  }

  lemma ArriveBalanced(s: System, k: nat, x: Datagram, n: nat, d: Datagram)
    requires k < n && LoopAt(s, k).Idle? && Balanced(s, n, d)
    ensures Balanced(Next(s, Arrive(k, x)), n, d)
  {
    var t := Next(s, Arrive(k, x));
    if s.keyed { InLoopsSame(s, t, n, d); } else { InLoopsPut(s, t, k, n, d); }
  }

  lemma StashBalanced(s: System, k: nat, n: nat, d: Datagram)
    requires k < n && LoopAt(s, k).Unkeyed? && Balanced(s, n, d)
    ensures Balanced(Next(s, Stash(k)), n, d)
  {
    InLoopsPut(s, Next(s, Stash(k)), k, n, d);
  }

  lemma LookBalanced(s: System, k: nat, n: nat, d: Datagram)
    requires k < n && LoopAt(s, k).Told? && Balanced(s, n, d)
    ensures Balanced(Next(s, LookAgain(k)), n, d)
  {
    InLoopsPut(s, Next(s, LookAgain(k)), k, n, d);
  }

  lemma StepBalanced(s: System, step: Step, n: nat, d: Datagram)
    requires Enabled(s, step) && Within(s, n) && Balanced(s, n, d) && (step.Arrive? ==> step.loop < n)
    ensures Within(Next(s, step), n) && Balanced(Next(s, step), n, d)
  {
    hide InLoops;
    match step {
      case Arrive(k, x) => ArriveBalanced(s, k, x, n, d);
      case Stash(k) => StashBalanced(s, k, n, d);
      case LookAgain(k) => LookBalanced(s, k, n, d);
      case _ => InLoopsSame(s, Next(s, step), n, d);
    }
  }

  lemma {:induction false} ConservedFrom(s: System, steps: seq<Step>, n: nat, d: Datagram)
    requires Inv(s) && Run(s, steps) && Within(s, n) && Balanced(s, n, d) && Below(steps, n)
    ensures var t := End(s, steps);
            t.arrived[d] == t.direct[d] + multiset(t.stored)[d] + t.overflow[d] + InLoops(t, n, d)
    decreases |steps|
  {
    if steps != [] {
      StepInv(s, steps[0]);
      StepBalanced(s, steps[0], n, d);
      ConservedFrom(Next(s, steps[0]), steps[1..], n, d);
    }
  }

  lemma {:induction false} NobodyCarries(n: nat, d: Datagram)
    ensures InLoops(Initial(), n, d) == 0
  {
    if n > 0 { NobodyCarries(n - 1, d); }
  }

  /** Conservation over every run: with n receive loops, every datagram that
      arrived was routed directly, buffered, dropped for want of room, or is still
      with its loop, as often as it arrived. */
  lemma Conserved(steps: seq<Step>, n: nat, d: Datagram)
    requires Run(Initial(), steps) && Below(steps, n)
    ensures var t := End(Initial(), steps);
            t.arrived[d] == t.direct[d] + multiset(t.stored)[d] + t.overflow[d] + InLoops(t, n, d)
  {
    NobodyCarries(n, d);
    ConservedFrom(Initial(), steps, n, d);
  }
}
