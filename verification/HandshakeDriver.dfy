/** The retransmission driver around the datagram handshake machine: timers with
    doubling, capped backoff, a retry ceiling, and the initiator's linger after
    completion. Time is an argument; an absent time is a disarmed timer. */
module HandshakeDriver {
  import opened Words
  import opened Symbolic
  import opened Handshake
  import opened HandshakeFsm
  import opened HandshakeReplay

  const LINGER_REPLAYS: nat := 16

  datatype Status = Running | Established | Failed

  datatype Driver = Driver(
    fsm: Fsm,
    rtoInitial: nat,
    rtoMax: nat,
    maxRetries: nat,
    rto: nat,
    retries: nat,
    retransmitAt: Option<int>,
    lingerAt: Option<int>,
    replaysLeft: nat,
    status: Status)

  function NewDriver(fsm: Fsm, rtoInitial: nat, rtoMax: nat, maxRetries: nat): Driver
  {
    Driver(fsm, rtoInitial, rtoMax, maxRetries, rtoInitial, 0, None, None, 0, Running)
  }

  predicate Lingering(d: Driver)
  {
    d.status.Established? && d.fsm.hs.config.role.Initiator? && d.lingerAt.Some?
  }

  function Armed(d: Driver, now: int): Driver { d.(retransmitAt := Some(now + d.rto)) }

  /** The first hello and its timer; nothing when no hello can be built. */
  function Launched(d: Driver, n: nat, now: int): (Driver, seq<Message>)
  {
    var (f, reply) := Started(d.fsm, n);
    if reply == DROPPED then (d.(fsm := f), []) else (Armed(d.(fsm := f), now), reply.out)
  }

  function Concluded(d: Driver, now: int): Driver
  {
    var done := d.(status := Established, retransmitAt := None);
    if d.fsm.hs.config.role.Responder? then done
    else done.(lingerAt := Some(now + d.maxRetries * d.rtoMax), replaysLeft := LINGER_REPLAYS)
  }

  /** What the driver makes of the machine's reply: completion, an advance that
      restores backoff and retries, or a replay, charged to the linger cap. */
  function Applied(d: Driver, reply: Reply, advanced: bool, now: int): (Driver, seq<Message>)
  {
    if reply.complete then (Concluded(d, now), reply.out)
    else if advanced then (Armed(d.(rto := d.rtoInitial, retries := 0), now), reply.out)
    else if reply.out == [] || !Lingering(d) then (d, reply.out)
    else if d.replaysLeft == 0 then (d, [])
    else (d.(replaysLeft := d.replaysLeft - 1), reply.out)
  }

  predicate Deaf(d: Driver) { d.status.Failed? || (d.status.Established? && !Lingering(d)) }

  function Fed(d: Driver, kind: Kind, body: Body, n: nat, now: int): (Driver, seq<Message>)
  {
    if Deaf(d) then (d, [])
    else
      var (f, reply) := Received(d.fsm, kind, body, n);
      Applied(d.(fsm := f), reply, f.hs.phase != d.fsm.hs.phase, now)
  }

  /** The retransmit timer is running out at `now`. */
  predicate Elapses(d: Driver, now: int)
  {
    d.status.Running? && d.retransmitAt.Some? && d.retransmitAt.value <= now
  }

  function Ticked(d: Driver, now: int): (Driver, seq<Message>)
  {
    if Lingering(d) && d.lingerAt.value <= now then (d.(lingerAt := None), [])
    else if !Elapses(d, now) then (d, [])
    else if d.retries + 1 > d.maxRetries then
      (d.(retries := d.retries + 1, status := Failed, retransmitAt := None), [])
    else
      (Armed(d.(retries := d.retries + 1, rto := Min(d.rto * 2, d.rtoMax)), now), d.fsm.cached)
  }

  function NextWake(d: Driver): Option<int>
  {
    if d.status.Running? then d.retransmitAt else if Lingering(d) then d.lingerAt else None
  }

  // ---- the object ----

  class DgramDriver {
    const fsm: DgramHandshake
    const rtoInitial: nat
    const rtoMax: nat
    const maxRetries: nat
    var rto: nat
    var retries: nat
    var retransmitAt: Option<int>
    var lingerAt: Option<int>
    var replaysLeft: nat
    var status: Status

    function Value(): Driver
      reads this, fsm, fsm.hs
    {
      Driver(fsm.Value(), rtoInitial, rtoMax, maxRetries, rto, retries, retransmitAt, lingerAt, replaysLeft, status)
    }

    constructor (machine: DgramHandshake, rtoInitial: nat, rtoMax: nat, maxRetries: nat)
      ensures Value() == NewDriver(machine.Value(), rtoInitial, rtoMax, maxRetries) && fsm == machine
    {
      fsm := machine;
      this.rtoInitial, this.rtoMax, this.maxRetries := rtoInitial, rtoMax, maxRetries;
      rto, retries, replaysLeft := rtoInitial, 0, 0;
      retransmitAt, lingerAt, status := None, None, Running;
    }

    method Start(n: nat, now: int) returns (out: seq<Message>)
      modifies this, fsm, fsm.hs
      ensures (Value(), out) == Launched(old(Value()), n, now)
    {
      var reply := fsm.Start(n);
      if reply == DROPPED {
        return [];
      }
      retransmitAt := Some(now + rto);
      return reply.out;
    }

    method OnComplete(now: int)
      modifies this
      ensures Value() == Concluded(old(Value()), now)
    {
      status := Established;
      retransmitAt := None;
      if fsm.hs.config.role.Initiator? {
        lingerAt := Some(now + maxRetries * rtoMax);
        replaysLeft := LINGER_REPLAYS;
      }
    }

    method Apply(reply: Reply, advanced: bool, now: int) returns (out: seq<Message>)
      modifies this
      ensures (Value(), out) == Applied(old(Value()), reply, advanced, now)
    {
      if reply.out == [] && !reply.complete && !advanced {
        return [];
      }
      if reply.complete {
        OnComplete(now);
        return reply.out;
      }
      if advanced {
        rto := rtoInitial;
        retries := 0;
        retransmitAt := Some(now + rto);
        return reply.out;
      }
      if status == Established && fsm.hs.config.role.Initiator? && lingerAt.Some? {
        if replaysLeft == 0 {
          return [];
        }
        replaysLeft := replaysLeft - 1;
      }
      return reply.out;
    }

    method OnInbound(kind: Kind, body: Body, n: nat, now: int) returns (out: seq<Message>)
      modifies this, fsm, fsm.hs
      ensures (Value(), out) == Fed(old(Value()), kind, body, n, now)
    {
      if Deaf(Value()) {
        return [];
      }
      var before := fsm.hs.phase;
      var reply := fsm.OnMessage(kind, body, n);
      out := Apply(reply, fsm.hs.phase != before, now);
    }

    method OnTimeout(now: int) returns (out: seq<Message>)
      modifies this
      ensures (Value(), out) == Ticked(old(Value()), now)
    {
      if status == Established && fsm.hs.config.role.Initiator? && lingerAt.Some? && lingerAt.value <= now {
        lingerAt := None;
        return [];
      }
      if status == Running && retransmitAt.Some? && retransmitAt.value <= now {
        retries := retries + 1;
        if retries > maxRetries {
          status := Failed;
          retransmitAt := None;
          return [];
        }
        rto := if rto * 2 <= rtoMax then rto * 2 else rtoMax;
        retransmitAt := Some(now + rto);
        return fsm.cached;
      }
      return [];
    }
  }

  // ---- runs ----

  datatype Event = Inbound(kind: Kind, body: Body, n: nat, at: int) | Tick(at: int)

  function Handled(d: Driver, e: Event): (Driver, seq<Message>)
  {
    match e
    case Inbound(kind, body, n, at) => Fed(d, kind, body, n, at)
    case Tick(at) => Ticked(d, at)
  }

  function Final(d: Driver, events: seq<Event>): Driver
    decreases |events|
  {
    if events == [] then d else Final(Handled(d, events[0]).0, events[1..])
  }

  /** How many retransmit timers elapse. */
  function Elapsed(d: Driver, events: seq<Event>): nat
    decreases |events|
  {
    if events == [] then 0
    else (if events[0].Tick? && Elapses(d, events[0].at) then 1 else 0) + Elapsed(Handled(d, events[0]).0, events[1..])
  }

  /** How many inbound messages are answered after establishment. */
  function Replays(d: Driver, events: seq<Event>): nat
    decreases |events|
  {
    if events == [] then 0
    else
      var (g, out) := Handled(d, events[0]);
      (if events[0].Inbound? && d.status.Established? && out != [] then 1 else 0) + Replays(g, events[1..])
  }

  /** The driver's state fits the machine's, and whoever waits for an answer has
      its timer armed. */
  predicate Sound(d: Driver)
  {
    && Live(d.fsm) && d.replaysLeft <= LINGER_REPLAYS
    && match d.status
       case Running =>
         && d.fsm.expecting.Some? && d.lingerAt.None? && d.retries <= d.maxRetries
         && (if d.fsm.hs.phase.Initial? then d.retransmitAt.None? && d.retries == 0 else d.retransmitAt.Some?)
       case Established => d.fsm.expecting.None? && d.retransmitAt.None?
       case Failed => d.retransmitAt.None?
  }

  /** Timers that may still elapse: a new phase restores the retries once. */
  function Budget(d: Driver): int
  {
    if !d.status.Running? then 0
    else if d.fsm.hs.phase.ClientHelloSent? then 2 * d.maxRetries + 1 - d.retries
    else d.maxRetries + 1 - d.retries
  }

  function ReplayBudget(d: Driver): nat
  {
    if d.fsm.hs.config.role.Responder? || d.status.Failed? then 0
    else if d.status.Running? then LINGER_REPLAYS
    else d.replaysLeft
  }

  /** The only phase changes short of completion: the initiator's ServerHello, the
      responder's flight. */
  ghost predicate Moves(f: Fsm, g: Fsm, complete: bool)
  {
    && Live(g) && g.hs.config == f.hs.config
    && (complete <==> f.expecting.Some? && g.expecting.None?)
    && (f.expecting.None? ==> g.expecting.None? && g.hs.phase == f.hs.phase)
    && (!complete && g.hs.phase != f.hs.phase ==>
          || (f.hs.phase.ClientHelloSent? && g.hs.phase.ServerHelloReceived?)
          || (f.hs.phase.Initial? && g.hs.phase.ServerFinishedSent?))
  }

  lemma ResponderPhaseMoves(f: Fsm, kind: Kind, body: Body, n: nat)
    requires Responding(f)
    ensures var (g, r) := Received(f, kind, body, n); Moves(f, g, r.complete)
  {
    if f.expecting == Some(ClientHelloKind) && kind == ClientHelloKind { ClientHelloSends(f, body, n); }
  }

  lemma InitiatorPhaseMoves(f: Fsm, kind: Kind, body: Body, n: nat)
    requires Initiating(f)
    ensures var (g, r) := Received(f, kind, body, n); Moves(f, g, r.complete)
  {
    if f.expecting == Some(ServerHelloKind) && kind == ServerHelloKind { ServerHelloSends(f, body); }
  }

  lemma PhaseMoves(f: Fsm, kind: Kind, body: Body, n: nat)
    requires Live(f)
    ensures var (g, r) := Received(f, kind, body, n); Moves(f, g, r.complete)
  {
    if Responding(f) { ResponderPhaseMoves(f, kind, body, n); } else { InitiatorPhaseMoves(f, kind, body, n); }
  }

  lemma FedSound(d: Driver, kind: Kind, body: Body, n: nat, now: int)
    requires Sound(d)
    ensures var (g, out) := Fed(d, kind, body, n, now);
            && Sound(g) && g.maxRetries == d.maxRetries && g.fsm.hs.config == d.fsm.hs.config
            && Budget(g) <= Budget(d)
            && ReplayBudget(g) + (if d.status.Established? && out != [] then 1 else 0) <= ReplayBudget(d)
  {
    PhaseMoves(d.fsm, kind, body, n);
  }

  lemma TickedSound(d: Driver, now: int)
    requires Sound(d)
    ensures var (g, _) := Ticked(d, now);
            && Sound(g) && g.maxRetries == d.maxRetries && g.fsm == d.fsm
            && Budget(g) + (if Elapses(d, now) then 1 else 0) <= Budget(d)
            && ReplayBudget(g) <= ReplayBudget(d)
  {}

  lemma {:induction false} BudgetsHold(d: Driver, events: seq<Event>)
    requires Sound(d)
    ensures Sound(Final(d, events)) && Final(d, events).maxRetries == d.maxRetries
    ensures Final(d, events).fsm.hs.config == d.fsm.hs.config
    ensures Elapsed(d, events) + Budget(Final(d, events)) <= Budget(d)
    ensures Replays(d, events) + ReplayBudget(Final(d, events)) <= ReplayBudget(d)
    decreases |events|
  {
    if events != [] {
      match events[0] {
        case Inbound(kind, body, n, at) => FedSound(d, kind, body, n, at);
        case Tick(at) => TickedSound(d, at);
      }
      BudgetsHold(Handled(d, events[0]).0, events[1..]);
    }
  }

  /** Termination of the initiator: whatever arrives, at most 2 * maxRetries + 1
      retransmit timers elapse, and by then it is established or has failed.
      Until then a timer is armed, and a tick that is due makes it elapse. After
      establishment at most sixteen messages are answered. */
  lemma InitiatorTerminates(f: Fsm, n: nat, rtoInitial: nat, rtoMax: nat, maxRetries: nat, t0: int, events: seq<Event>)
    requires f.hs.config.role.Initiator? && f.cached == [] && Initiating(Started(f, n).0) && Started(f, n).1 != DROPPED
    ensures var d0 := Launched(NewDriver(f, rtoInitial, rtoMax, maxRetries), n, t0).0;
            var d := Final(d0, events);
            && Elapsed(d0, events) <= 2 * maxRetries + 1
            && (Elapsed(d0, events) == 2 * maxRetries + 1 ==> !d.status.Running?)
            && (d.status.Running? ==> NextWake(d).Some? && forall now :: NextWake(d).value <= now ==> Elapses(d, now))
            && Replays(d0, events) <= LINGER_REPLAYS
  {
    var d0 := Launched(NewDriver(f, rtoInitial, rtoMax, maxRetries), n, t0).0;
    assert Sound(d0);
    BudgetsHold(d0, events);
    assert Final(d0, events).status.Running? ==> Budget(Final(d0, events)) >= 1;
  }

  /** The responder, which has no timer before its flight: at most maxRetries + 1
      timers elapse, and once the flight is out one is armed until it is done.
      After completion it answers nothing. */
  lemma ResponderTerminates(f: Fsm, rtoInitial: nat, rtoMax: nat, maxRetries: nat, events: seq<Event>)
    requires Responding(f) && f.hs.phase.Initial?
    ensures var d0 := NewDriver(f, rtoInitial, rtoMax, maxRetries);
            var d := Final(d0, events);
            && Elapsed(d0, events) <= maxRetries + 1
            && (Elapsed(d0, events) == maxRetries + 1 ==> !d.status.Running?)
            && (d.status.Running? && !d.fsm.hs.phase.Initial? ==>
                  NextWake(d).Some? && forall now :: NextWake(d).value <= now ==> Elapses(d, now))
            && Replays(d0, events) == 0
  {
    var d0 := NewDriver(f, rtoInitial, rtoMax, maxRetries);
    BudgetsHold(d0, events);
    assert Final(d0, events).status.Running? ==> Budget(Final(d0, events)) >= 1;
  }

  // ---- backoff ----

  /** The timeout after k retries: the initial one, doubled k times and capped from
      the first doubling on. */
  function Timeout(rtoInitial: nat, rtoMax: nat, k: nat): nat
  {
    if k == 0 then rtoInitial else Min(rtoInitial * Pow2(k), rtoMax)
  }

  predicate Paced(d: Driver) { d.rto == Timeout(d.rtoInitial, d.rtoMax, d.retries) }

  lemma {:induction false} PacedRun(d: Driver, events: seq<Event>)
    requires Sound(d) && Paced(d)
    ensures var g := Final(d, events);
            g.status.Running? ==> Paced(g) && g.rtoInitial == d.rtoInitial && g.rtoMax == d.rtoMax
    decreases |events|
  {
    if events != [] && d.status.Running? {
      var g := Handled(d, events[0]).0;
      match events[0] {
        case Inbound(kind, body, n, at) => FedSound(d, kind, body, n, at);
        case Tick(at) => TickedSound(d, at);
      }
      PacedStep(d, events[0]);
      if g.status.Running? { PacedRun(g, events[1..]); } else { StaysEnded(g, events[1..]); }
    } else if events != [] {
      StaysEnded(d, events);
    }
  }

  lemma PacedStep(d: Driver, e: Event)
    requires Paced(d) && d.status.Running?
    ensures var g := Handled(d, e).0;
            g.status.Running? ==> Paced(g) && g.rtoInitial == d.rtoInitial && g.rtoMax == d.rtoMax
  {
    hide Received;
    assert Pow2(0) == 1;
    assert d.rtoInitial * Pow2(d.retries + 1) == 2 * (d.rtoInitial * Pow2(d.retries));
  }

  lemma {:induction false} StaysEnded(d: Driver, events: seq<Event>)
    requires !d.status.Running?
    ensures !Final(d, events).status.Running?
    decreases |events|
  {
    if events != [] { StaysEnded(Handled(d, events[0]).0, events[1..]); }
  }

  /** Over every run the timeout is the initial one, doubled once for every retry
      of the current phase and capped. */
  lemma BackoffDoubles(f: Fsm, rtoInitial: nat, rtoMax: nat, maxRetries: nat, n: nat, t0: int, events: seq<Event>)
    requires Started(f, n).1 != DROPPED && Initiating(Started(f, n).0)
    ensures var d := Final(Launched(NewDriver(f, rtoInitial, rtoMax, maxRetries), n, t0).0, events);
            d.status.Running? ==> d.rto == Timeout(rtoInitial, rtoMax, d.retries)
  {
    PacedRun(Launched(NewDriver(f, rtoInitial, rtoMax, maxRetries), n, t0).0, events);
  }

  /** The same on the responder, which is created without a flight of its own. */
  lemma ResponderBackoffDoubles(f: Fsm, rtoInitial: nat, rtoMax: nat, maxRetries: nat, events: seq<Event>)
    requires Responding(f) && f.hs.phase.Initial?
    ensures var d := Final(NewDriver(f, rtoInitial, rtoMax, maxRetries), events);
            d.status.Running? ==> d.rto == Timeout(rtoInitial, rtoMax, d.retries)
  {
    PacedRun(NewDriver(f, rtoInitial, rtoMax, maxRetries), events);
  }

  // ---- what a timer sends, and when ----

  /** What an observer of the driver has seen: the last flight handed out, how many
      timers have run out since the machine last moved on, and when the timer was
      last set. */
  datatype Seen = Seen(last: seq<Message>, elapsed: nat, since: int)

  /** The timer's date, as the observer would compute it. */
  function Date(d: Driver, h: Seen): int { h.since + Timeout(d.rtoInitial, d.rtoMax, h.elapsed) }

  /** A driver that has sent something and waits for an answer. */
  predicate Waits(d: Driver) { d.status.Running? && !d.fsm.hs.phase.Initial? }

  function Noted(d: Driver, h: Seen, e: Event): Seen
  {
    var (g, out) := Handled(d, e);
    var last := if out != [] then out else h.last;
    match e
    case Inbound(_, _, _, at) => if g.fsm.hs.phase != d.fsm.hs.phase then Seen(last, 0, at) else h.(last := last)
    case Tick(at) => if Waits(d) && Date(d, h) <= at then Seen(last, h.elapsed + 1, at) else h.(last := last)
  }

  function SeenAfter(d: Driver, h: Seen, events: seq<Event>): Seen
    decreases |events|
  {
    if events == [] then h else SeenAfter(Handled(d, events[0]).0, Noted(d, h, events[0]), events[1..])
  }

  /** The driver's fields are what the observer has seen. */
  predicate Matches(d: Driver, h: Seen)
  {
    && d.fsm.cached == h.last
    && (d.status.Running? ==> d.retries == h.elapsed && Paced(d))
    && (Waits(d) ==> d.retransmitAt == Some(Date(d, h)))
  }

  lemma InboundMatches(d: Driver, h: Seen, e: Event)
    requires Sound(d) && Matches(d, h) && e.Inbound?
    ensures var g := Handled(d, e).0;
            Sound(g) && Matches(g, Noted(d, h, e)) && g.rtoInitial == d.rtoInitial && g.rtoMax == d.rtoMax
  {
    hide Received;
    StepSends(d.fsm, Input(e.kind, e.body, e.n));
    PhaseMoves(d.fsm, e.kind, e.body, e.n);
    FedSound(d, e.kind, e.body, e.n, e.at);
    assert Pow2(0) == 1;
  }

  lemma TickMatches(d: Driver, h: Seen, at: int)
    requires Sound(d) && Matches(d, h)
    ensures var (g, out) := Ticked(d, at);
            && Sound(g) && Matches(g, Noted(d, h, Tick(at))) && g.rtoInitial == d.rtoInitial && g.rtoMax == d.rtoMax
            && out == (if Waits(d) && Date(d, h) <= at && h.elapsed < d.maxRetries then h.last else [])
  {
    TickedSound(d, at);
    if d.status.Running? { PacedStep(d, Tick(at)); }
  }

  lemma {:induction false} SeenRun(d: Driver, h: Seen, events: seq<Event>)
    requires Sound(d) && Matches(d, h)
    ensures var g := Final(d, events);
            Sound(g) && Matches(g, SeenAfter(d, h, events)) && g.rtoInitial == d.rtoInitial && g.rtoMax == d.rtoMax
    decreases |events|
  {
    hide Sound, Matches, Noted, Handled;
    if events != [] {
      StepMatches(d, h, events[0]);
      SeenRun(Handled(d, events[0]).0, Noted(d, h, events[0]), events[1..]);
    }
  }

  lemma StepMatches(d: Driver, h: Seen, e: Event)
    requires Sound(d) && Matches(d, h)
    ensures var g := Handled(d, e).0;
            Sound(g) && Matches(g, Noted(d, h, e)) && g.rtoInitial == d.rtoInitial && g.rtoMax == d.rtoMax
  {
    hide Sound, Matches, Noted, Fed, Ticked;
    match e
    case Inbound(_, _, _, _) => InboundMatches(d, h, e);
    case Tick(at) => TickMatches(d, h, at);
  }

  /** What a tick does in a state that an observer has followed: it sends exactly
      when the machine waits, the date has come and fewer than the allowed timers
      have run out, and then the last flight handed out; one timer more fails. */
  lemma TickExactly(d: Driver, h: Seen, at: int)
    requires Sound(d) && Matches(d, h)
    ensures var (g, out) := Ticked(d, at);
            var due := Waits(d) && Date(d, h) <= at;
            && out == (if due && h.elapsed < d.maxRetries then h.last else [])
            && (due ==> h.last != [])
            && (g.status.Failed? <==> d.status.Failed? || (due && h.elapsed == d.maxRetries))
  {
    TickMatches(d, h, at);
  }

  /** Over every run of an initiator, whatever arrives: see TickExactly. */
  lemma InitiatorResends(f: Fsm, rtoInitial: nat, rtoMax: nat, maxRetries: nat, n: nat, t0: int, events: seq<Event>, at: int)
    requires Started(f, n).1 != DROPPED && Initiating(Started(f, n).0)
    ensures var (d0, hello) := Launched(NewDriver(f, rtoInitial, rtoMax, maxRetries), n, t0);
            var d, h := Final(d0, events), SeenAfter(d0, Seen(hello, 0, t0), events);
            && IsOne(hello, ClientHelloKind)
            && d.rtoInitial == rtoInitial && d.rtoMax == rtoMax && d.maxRetries == maxRetries
            && Matches(d, h)
            && var due := Waits(d) && Date(d, h) <= at;
               && Ticked(d, at).1 == (if due && h.elapsed < maxRetries then h.last else [])
               && (due ==> h.last != [])
               && (Ticked(d, at).0.status.Failed? <==> d.status.Failed? || (due && h.elapsed == maxRetries))
  {
    hide Received;
    var (d0, hello) := Launched(NewDriver(f, rtoInitial, rtoMax, maxRetries), n, t0);
    assert Pow2(0) == 1;
    SeenRun(d0, Seen(hello, 0, t0), events);
    BudgetsHold(d0, events);
    TickExactly(Final(d0, events), SeenAfter(d0, Seen(hello, 0, t0), events), at);
  }

  /** And of a responder, which starts with nothing sent. */
  lemma ResponderResends(f: Fsm, rtoInitial: nat, rtoMax: nat, maxRetries: nat, t0: int, events: seq<Event>, at: int)
    requires Responding(f) && f.hs.phase.Initial? && f.cached == []
    ensures var d0 := NewDriver(f, rtoInitial, rtoMax, maxRetries);
            var d, h := Final(d0, events), SeenAfter(d0, Seen([], 0, t0), events);
            && d.rtoInitial == rtoInitial && d.rtoMax == rtoMax && d.maxRetries == maxRetries
            && Matches(d, h)
            && var due := Waits(d) && Date(d, h) <= at;
               && Ticked(d, at).1 == (if due && h.elapsed < maxRetries then h.last else [])
               && (due ==> h.last != [])
               && (Ticked(d, at).0.status.Failed? <==> d.status.Failed? || (due && h.elapsed == maxRetries))
  {
    hide Received;
    var d0 := NewDriver(f, rtoInitial, rtoMax, maxRetries);
    assert Pow2(0) == 1;
    SeenRun(d0, Seen([], 0, t0), events);
    BudgetsHold(d0, events);
    TickExactly(Final(d0, events), SeenAfter(d0, Seen([], 0, t0), events), at);
  }

  // ---- linger ----

  /** Ticks come exactly when the driver asks for them. */
  predicate Punctual(d: Driver, events: seq<Event>)
    decreases |events|
  {
    events != [] ==>
    && (events[0].Tick? ==> NextWake(d) == Some(events[0].at))
    && Punctual(Handled(d, events[0]).0, events[1..])
  }

  /** Nothing is retransmitted after the deadline. */
  predicate RetransmitsBy(d: Driver, events: seq<Event>, deadline: int)
    decreases |events|
  {
    events != [] ==>
    var (g, out) := Handled(d, events[0]);
    && (events[0].Tick? && out != [] ==> events[0].at <= deadline)
    && RetransmitsBy(g, events[1..], deadline)
  }

  /** The clock of a responder whose flight went out at `t0`: the k-th timer runs
      out within k times the backoff cap. */
  predicate FlightClock(d: Driver, t0: int)
  {
    && Sound(d) && Responding(d.fsm) && !d.fsm.hs.phase.Initial?
    && d.rto <= d.rtoMax
    && (d.status.Running? ==> d.retransmitAt.value <= t0 + (d.retries + 1) * d.rtoMax)
  }

  lemma FlightClockTicks(d: Driver, t0: int, e: Event)
    requires FlightClock(d, t0)
    requires e.Tick? ==> NextWake(d) == Some(e.at)
    ensures var (g, out) := Handled(d, e);
            && FlightClock(g, t0) && g.maxRetries == d.maxRetries && g.rtoMax == d.rtoMax
            && (e.Tick? && out != [] ==> e.at <= t0 + d.maxRetries * d.rtoMax)
  {
    match e {
      case Inbound(kind, body, n, at) =>
        FedSound(d, kind, body, n, at);
        PhaseMoves(d.fsm, kind, body, n);
      case Tick(at) =>
        TickedSound(d, at);
        assert (d.retries + 2) * d.rtoMax == (d.retries + 1) * d.rtoMax + d.rtoMax;
        if d.retries + 1 <= d.maxRetries { Times(d.retries + 1, d.maxRetries, d.rtoMax); }
    }
  }

  lemma Times(a: nat, b: nat, c: nat)
    requires a <= b
    ensures a * c <= b * c
  {}

  lemma {:induction false} FlightClockRuns(d: Driver, t0: int, events: seq<Event>, deadline: int)
    requires FlightClock(d, t0) && t0 + d.maxRetries * d.rtoMax <= deadline
    requires Punctual(d, events)
    ensures RetransmitsBy(d, events, deadline)
    decreases |events|
  {
    if events != [] {
      FlightClockTicks(d, t0, events[0]);
      FlightClockRuns(Handled(d, events[0]).0, t0, events[1..], deadline);
    }
  }

  /** A message at `t0` makes the responder send its flight. */
  ghost predicate FlightAt(r: Driver, flown: Driver, t0: int)
  {
    && Sound(r) && Responding(r.fsm) && r.status.Running? && r.fsm.hs.phase.Initial?
    && flown.fsm.hs.phase.ServerFinishedSent?
    && exists kind, body, n :: Fed(r, kind, body, n, t0).0 == flown
  }

  /** A message at `tc` completes the initiator. */
  ghost predicate CompletesAt(i: Driver, done: Driver, tc: int)
  {
    && Sound(i) && Initiating(i.fsm) && i.status.Running?
    && done.status.Established?
    && exists kind, body, n :: Fed(i, kind, body, n, tc).0 == done
  }

  lemma FlightStarts(r: Driver, flown: Driver, t0: int)
    requires FlightAt(r, flown, t0) && r.rtoInitial <= r.rtoMax
    ensures FlightClock(flown, t0) && flown.maxRetries == r.maxRetries && flown.rtoMax == r.rtoMax
  {
    var kind, body, n :| Fed(r, kind, body, n, t0).0 == flown;
    FedSound(r, kind, body, n, t0);
    PhaseMoves(r.fsm, kind, body, n);
  }

  lemma LingerStarts(i: Driver, done: Driver, tc: int)
    requires CompletesAt(i, done, tc)
    ensures Lingering(done) && done.lingerAt.value == tc + i.maxRetries * i.rtoMax && done.replaysLeft == 16
  {
    var kind, body, n :| Fed(i, kind, body, n, tc).0 == done;
    PhaseMoves(i.fsm, kind, body, n);
  }

  /** Linger covers recovery: the responder's flight goes out at `t0` (its machine
      leaves the initial phase), the initiator completes no earlier, with the same
      retry settings. Then every retransmission of the flight, for every later
      course of events with punctual timers, comes no later than the end of the
      initiator's linger. */
  lemma LingerCoversRecovery(r: Driver, flown: Driver, t0: int, events: seq<Event>, i: Driver, done: Driver, tc: int)
    requires FlightAt(r, flown, t0) && CompletesAt(i, done, tc) && t0 <= tc
    requires Punctual(flown, events)
    requires i.maxRetries == r.maxRetries && i.rtoMax == r.rtoMax && r.rtoInitial <= r.rtoMax
    ensures Lingering(done) && RetransmitsBy(flown, events, done.lingerAt.value)
  {
    FlightStarts(r, flown, t0);
    LingerStarts(i, done, tc);
    FlightClockRuns(flown, t0, events, done.lingerAt.value);
  }

  /** While it lingers and has replays left, the initiator answers a repeated
      ServerFinished with the ClientFinished it sent, and stays as it is. */
  lemma LingerAnswers(i: Driver, body: Body, n: nat, now: int)
    requires Sound(i) && Lingering(i) && i.replaysLeft > 0
    ensures Fed(i, ServerFinishedKind, body, n, now) == (i.(replaysLeft := i.replaysLeft - 1), i.fsm.cached)
    ensures IsOne(i.fsm.cached, ClientFinishedKind)
  {}

  /** Of the repeated ServerFinished that reach a lingering initiator the first
      sixteen are answered, whatever their bodies. */
  lemma {:induction false} SixteenAnswers(i: Driver, repeats: seq<Event>)
    requires Sound(i) && Lingering(i)
    requires forall k :: 0 <= k < |repeats| ==> repeats[k].Inbound? && repeats[k].kind == ServerFinishedKind
    ensures Replays(i, repeats) == Min(|repeats|, i.replaysLeft)
    decreases |repeats|
  {
    if repeats != [] {
      var e := repeats[0];
      FedSound(i, e.kind, e.body, e.n, e.at);
      if i.replaysLeft > 0 { LingerAnswers(i, e.body, e.n, e.at); }
      SixteenAnswers(Handled(i, e).0, repeats[1..]);
    }
  }

  /** The linger ends with the first tick at or after its date and not before, and
      from then on nothing is answered. */
  lemma LingerEnds(i: Driver, at: int, events: seq<Event>)
    requires Sound(i) && Lingering(i)
    ensures var g := Ticked(i, at).0;
            if at < i.lingerAt.value then g == i else Outputs(g, events) == [] && !Lingering(g)
  {
    if at >= i.lingerAt.value { DeafRun(Ticked(i, at).0, events); }
  }

  function Outputs(d: Driver, events: seq<Event>): seq<Message>
    decreases |events|
  {
    if events == [] then [] else Handled(d, events[0]).1 + Outputs(Handled(d, events[0]).0, events[1..])
  }

  lemma {:induction false} DeafRun(d: Driver, events: seq<Event>)
    requires Deaf(d) && d.retransmitAt.None?
    ensures Outputs(d, events) == [] && Final(d, events) == d
    decreases |events|
  {
    if events != [] { DeafRun(Handled(d, events[0]).0, events[1..]); }
  }

  /** A failed driver, and a responder that is done, answer and send nothing. */
  lemma EndedIsSilent(d: Driver, events: seq<Event>)
    requires Sound(d) && (d.status.Failed? || (d.status.Established? && d.fsm.hs.config.role.Responder?))
    ensures Outputs(d, events) == [] && Final(d, events) == d
  {
    DeafRun(d, events);
  }
}
