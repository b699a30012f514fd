/** The datagram handshake machine: each reassembled inbound message advances the
    handshake, replays the cached flight, or is dropped. The class mutates its
    fields and the wrapped handshake; the theorems are about every sequence of
    inbound messages, whatever their bodies. */
module HandshakeFsm {
  import opened Symbolic
  import opened Handshake

  /** Message types; OtherKind stands for every type that is no handshake message. */
  datatype Kind =
    | ClientHelloKind
    | HelloRetryRequestKind
    | ServerHelloKind
    | ServerFinishedKind
    | ClientFinishedKind
    | OtherKind

  datatype Message = Message(kind: Kind, body: Body)

  /** The machine: `expecting` is the type that advances it (None once complete),
      `prev` the last type it processed, `cached` its last flight, and `early` a
      ServerFinished that overtook its ServerHello. */
  datatype Fsm = Fsm(
    hs: State,
    expecting: Option<Kind>,
    prev: Option<Kind>,
    cached: seq<Message>,
    early: Option<Body>)

  datatype Reply = Reply(out: seq<Message>, complete: bool)

  const DROPPED := Reply([], false)

  function NewFsm(config: Config, keyPair: PublicKey, ownId: nat): Fsm
  {
    Fsm(Fresh(config, keyPair, ownId), if config.role.Responder? then Some(ClientHelloKind) else None, None, [], None)
  }

  function Started(f: Fsm, n: nat): (Fsm, Reply)
  {
    var (h, hello) := CreateHello(f.hs, n);
    if hello.None? then (f.(hs := h), DROPPED)
    else
      var flight := [Message(ClientHelloKind, hello.value)];
      (f.(hs := h, cached := flight, expecting := Some(ServerHelloKind)), Reply(flight, false))
  }

  function Committed(f: Fsm, h: State, processed: Kind, out: seq<Message>, next: Option<Kind>): Fsm
  {
    f.(hs := h, prev := Some(processed), cached := out, expecting := next)
  }

  function OnServerFinished(f: Fsm, body: Body): (Fsm, Reply)
  {
    var (h1, ok) := ProcessSf(f.hs, body);
    if !ok then (f.(hs := h1), DROPPED)
    else
      var (h2, reply) := CreateCf(h1);
      if reply.None? then (f.(hs := h2), DROPPED)
      else
        var flight := [Message(ClientFinishedKind, reply.value)];
        (Committed(f, h2, ServerFinishedKind, flight, None), Reply(flight, true))
  }

  function OnServerHello(f: Fsm, body: Body): (Fsm, Reply)
  {
    var (h, ok) := ProcessSh(f.hs, body);
    if !ok then (f.(hs := h), DROPPED)
    else
      var f1 := f.(hs := h, prev := Some(ServerHelloKind), expecting := Some(ServerFinishedKind), early := None);
      if f.early.Some? then OnServerFinished(f1, f.early.value) else (f1, DROPPED)
  }

  function OnRetryRequest(f: Fsm, body: Body, n: nat): (Fsm, Reply)
  {
    var (h1, ok) := ProcessHrr(f.hs, body, n);
    if !ok then (f.(hs := h1), DROPPED)
    else
      var (h2, hello) := CreateHello(h1, n);
      if hello.None? then (f.(hs := h2), DROPPED)
      else
        var flight := [Message(ClientHelloKind, hello.value)];
        (Committed(f, h2, HelloRetryRequestKind, flight, Some(ServerHelloKind)), Reply(flight, false))
  }

  /** A repeat of the hello that was answered with a HelloRetryRequest: the retried
      hello has the same type, so only its content tells them apart. */
  predicate RepeatsFirstHello(f: Fsm, body: Body)
  {
    && f.hs.retry.done
    && |f.cached| == 1 && f.cached[0].kind == HelloRetryRequestKind
    && f.hs.retry.hello == Some(body)
  }

  function OnClientHello(f: Fsm, body: Body, n: nat): (Fsm, Reply)
  {
    if RepeatsFirstHello(f, body) then (f, Reply(f.cached, false))
    else
      var (h1, ok) := ProcessCh(f.hs, body, n);
      if !ok then (f.(hs := h1), DROPPED)
      else if h1.retry.pending.Some? then
        var (h2, hrr) := CreateHrr(h1);
        if hrr.None? then (f.(hs := h2), DROPPED)
        else
          var flight := [Message(HelloRetryRequestKind, hrr.value)];
          (Committed(f, h2, ClientHelloKind, flight, Some(ClientHelloKind)), Reply(flight, false))
      else
        var (h2, hello) := CreateSh(h1, n);
        if hello.None? then (f.(hs := h2), DROPPED)
        else
          var (h3, finished) := CreateSf(h2);
          if finished.None? then (f.(hs := h3), DROPPED)
          else
            var flight := [Message(ServerHelloKind, hello.value), Message(ServerFinishedKind, finished.value)];
            (Committed(f, h3, ClientHelloKind, flight, Some(ClientFinishedKind)), Reply(flight, false))
  }

  function OnClientFinished(f: Fsm, body: Body): (Fsm, Reply)
  {
    var (h, ok) := ProcessCf(f.hs, body);
    if !ok then (f.(hs := h), DROPPED)
    else (f.(hs := h, prev := Some(ClientFinishedKind), expecting := None), Reply([], true))
  }

  function Advanced(f: Fsm, kind: Kind, body: Body, n: nat): (Fsm, Reply)
  {
    match (f.hs.config.role, kind)
    case (Initiator, ServerHelloKind) => OnServerHello(f, body)
    case (Initiator, ServerFinishedKind) => OnServerFinished(f, body)
    case (Initiator, HelloRetryRequestKind) => OnRetryRequest(f, body, n)
    case (Responder, ClientHelloKind) => OnClientHello(f, body, n)
    case (Responder, ClientFinishedKind) => OnClientFinished(f, body)
    case _ => (f, DROPPED)
  }

  function Received(f: Fsm, kind: Kind, body: Body, n: nat): (Fsm, Reply)
  {
    var initiator := f.hs.config.role.Initiator?;
    if f.expecting == Some(kind) then Advanced(f, kind, body, n)
    else if initiator && kind == HelloRetryRequestKind && f.expecting == Some(ServerHelloKind) && !f.hs.retry.done then
      Advanced(f, kind, body, n)
    else if initiator && kind == ServerFinishedKind && f.expecting == Some(ServerHelloKind) then
      (f.(early := Some(body)), DROPPED)
    else if initiator && kind == ServerHelloKind && f.prev == Some(kind) then (f, DROPPED)
    else if f.prev == Some(kind) then (f, Reply(f.cached, false))
    else (f, DROPPED)
  }

  // ---- the object ----

  class DgramHandshake {
    const hs: Handshake
    var expecting: Option<Kind>
    var prev: Option<Kind>
    var cached: seq<Message>
    var early: Option<Body>

    function Value(): Fsm
      reads this, hs
    {
      Fsm(hs.Value(), expecting, prev, cached, early)
    }

    constructor (config: Config, keyPair: PublicKey, ownId: nat)
      ensures Value() == NewFsm(config, keyPair, ownId) && fresh(hs)
    {
      hs := new Handshake(config, keyPair, ownId);
      expecting := if config.role.Responder? then Some(ClientHelloKind) else None;
      prev, cached, early := None, [], None;
    }

    method Start(n: nat) returns (r: Reply)
      modifies this, hs
      ensures (Value(), r) == Started(old(Value()), n)
    {
      var hello := hs.CreateClientHello(n);
      if hello.None? {
        return DROPPED;
      }
      cached := [Message(ClientHelloKind, hello.value)];
      expecting := Some(ServerHelloKind);
      return Reply(cached, false);
    }

    method Commit(processed: Kind, out: seq<Message>, next: Option<Kind>)
      modifies this
      ensures Value() == Committed(old(Value()), hs.Value(), processed, out, next)
    {
      prev := Some(processed);
      cached := out;
      expecting := next;
    }

    method AdvanceServerFinished(body: Body) returns (r: Reply)
      modifies this, hs
      ensures (Value(), r) == OnServerFinished(old(Value()), body)
    {
      var ok := hs.ProcessServerFinished(body);
      if !ok {
        return DROPPED;
      }
      var reply := hs.CreateClientFinished();
      if reply.None? {
        return DROPPED;
      }
      Commit(ServerFinishedKind, [Message(ClientFinishedKind, reply.value)], None);
      return Reply(cached, true);
    }

    method AdvanceServerHello(body: Body) returns (r: Reply)
      modifies this, hs
      ensures (Value(), r) == OnServerHello(old(Value()), body)
    {
      var ok := hs.ProcessServerHello(body);
      if !ok {
        return DROPPED;
      }
      prev := Some(ServerHelloKind);
      expecting := Some(ServerFinishedKind);
      if early.Some? {
        var held := early.value;
        early := None;
        r := AdvanceServerFinished(held);
        return;
      }
      return DROPPED;
    }

    method AdvanceRetryRequest(body: Body, n: nat) returns (r: Reply)
      modifies this, hs
      ensures (Value(), r) == OnRetryRequest(old(Value()), body, n)
    {
      var ok := hs.ProcessHelloRetryRequest(body, n);
      if !ok {
        return DROPPED;
      }
      var hello := hs.CreateClientHello(n);
      if hello.None? {
        return DROPPED;
      }
      Commit(HelloRetryRequestKind, [Message(ClientHelloKind, hello.value)], Some(ServerHelloKind));
      return Reply(cached, false);
    }

    method AdvanceClientHello(body: Body, n: nat) returns (r: Reply)
      modifies this, hs
      ensures (Value(), r) == OnClientHello(old(Value()), body, n)
    {
      hide ProcessCh, CreateHrr, CreateSh, CreateSf;
      if hs.retry.done && |cached| == 1 && cached[0].kind == HelloRetryRequestKind && hs.retry.hello == Some(body) {
        return Reply(cached, false);
      }
      var ok := hs.ProcessClientHello(body, n);
      if !ok {
        return DROPPED;
      }
      if hs.retry.pending.Some? {
        var hrr := hs.CreateHelloRetryRequest();
        if hrr.None? {
          return DROPPED;
        }
        Commit(ClientHelloKind, [Message(HelloRetryRequestKind, hrr.value)], Some(ClientHelloKind));
        return Reply(cached, false);
      }
      var hello := hs.CreateServerHello(n);
      if hello.None? {
        return DROPPED;
      }
      var finished := hs.CreateServerFinished();
      if finished.None? {
        return DROPPED;
      }
      Commit(ClientHelloKind, [Message(ServerHelloKind, hello.value), Message(ServerFinishedKind, finished.value)],
             Some(ClientFinishedKind));
      return Reply(cached, false);
    }

    method Advance(kind: Kind, body: Body, n: nat) returns (r: Reply)
      modifies this, hs
      ensures (Value(), r) == Advanced(old(Value()), kind, body, n)
    {
      if hs.config.role.Initiator? && kind == ServerHelloKind {
        r := AdvanceServerHello(body);
      } else if hs.config.role.Initiator? && kind == ServerFinishedKind {
        r := AdvanceServerFinished(body);
      } else if hs.config.role.Initiator? && kind == HelloRetryRequestKind {
        r := AdvanceRetryRequest(body, n);
      } else if hs.config.role.Responder? && kind == ClientHelloKind {
        r := AdvanceClientHello(body, n);
      } else if hs.config.role.Responder? && kind == ClientFinishedKind {
        var ok := hs.ProcessClientFinished(body);
        if !ok {
          return DROPPED;
        }
        prev := Some(ClientFinishedKind);
        expecting := None;
        return Reply([], true);
      } else {
        return DROPPED;
      }
    }

    method OnMessage(kind: Kind, body: Body, n: nat) returns (r: Reply)
      modifies this, hs
      ensures (Value(), r) == Received(old(Value()), kind, body, n)
    {
      var initiator := hs.config.role.Initiator?;
      if expecting == Some(kind) {
        r := Advance(kind, body, n);
      } else if initiator && kind == HelloRetryRequestKind && expecting == Some(ServerHelloKind) && !hs.retry.done {
        r := Advance(kind, body, n);
      } else if initiator && kind == ServerFinishedKind && expecting == Some(ServerHelloKind) {
        early := Some(body);
        return DROPPED;
      } else if initiator && kind == ServerHelloKind && prev == Some(kind) {
        return DROPPED;
      } else if prev == Some(kind) && cached != [] {
        return Reply(cached, false);
      } else {
        return DROPPED;
      }
    }
  }
}
