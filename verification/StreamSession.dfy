/** Whole runs of the stream protocol: callers, shared state, handlers and the swarm's dials. */
module StreamSession {
  import opened Words
  import opened Streams

  /** Dropping the behaviour takes two moves, and callers may act between them. */
  datatype Phase = Running | Closed | Cleared

  datatype World = World(
    shared: Shared,
    wires: Wires,
    handlers: map<ConnId, Handler>,
    target: map<ReqId, PeerId>,          // every request made, and the peer it asks for
    callers: map<ReqId, ChanId>,         // callers that hold a sender and have not used it yet
    issued: multiset<PeerId>,            // dials handed to the swarm
    inFlight: multiset<PeerId>,          // dials the swarm has started, ours or not
    building: Option<(ConnId, PeerId)>,  // a connection between its handler and its event
    phase: Phase)

  datatype Origin = Issued | Flying | Foreign

  datatype Step =
    | Ask(req: ReqId, peer: PeerId, pick: Option<ConnId>)
    | Submit(req: ReqId)
    | PollDial
    | DialStarts(peer: PeerId)
    | ForeignDial(peer: PeerId)
    | DialSkipped(peer: PeerId, pick: Option<ConnId>, own: bool)
    | DialFailed(peer: PeerId, origin: Origin)
    | Build(conn: ConnId, peer: PeerId, dialed: bool)
    | Establish
    | Deny(dialed: bool)
    | Close(conn: ConnId)
    | Drop(conn: ConnId)
    | Poll(conn: ConnId)
    | Negotiated(conn: ConnId)
    | UpgradeFailed(conn: ConnId, error: Answer)
    | CloseDials
    | ClearPending

  function Start(): World {
    World(Shared(map[], map[], map[]), Wires(map[], 0, map[], [], true),
          map[], map[], map[], multiset{}, multiset{}, None, Running)
  }

  /** Swarm events come one at a time, and only while the behaviour lives. */
  predicate SwarmFree(w: World) { w.phase == Running && w.building.None? }

  /** What callers, connection tasks and the swarm may do. */
  predicate Allowed(w: World, s: Step) {
    match s
    case Ask(req, peer, pick) => req !in w.target && ValidPick(w.shared, peer, pick)
    case Submit(req) => req in w.callers
    case PollDial => SwarmFree(w) && w.wires.dialQueue != []
    case DialStarts(peer) => SwarmFree(w) && peer in w.issued && !Connected(w.shared, peer) && peer !in w.inFlight
    case ForeignDial(_) => SwarmFree(w)
    case DialSkipped(peer, pick, own) =>
      && SwarmFree(w) && (own ==> peer in w.issued) && ValidPick(w.shared, peer, pick)
      && (Connected(w.shared, peer) || peer in w.inFlight)
    case DialFailed(peer, origin) =>
      SwarmFree(w) && (origin.Issued? ==> peer in w.issued) && (origin.Flying? ==> peer in w.inFlight)
    case Build(conn, peer, dialed) =>
      && SwarmFree(w) && (dialed ==> peer in w.inFlight)
      && conn !in w.handlers && conn !in w.shared.connections && conn !in w.shared.senders
    case Establish => w.phase == Running && w.building.Some?
    case Deny(_) => w.phase == Running && w.building.Some?
    case Close(conn) => SwarmFree(w) && conn in w.shared.connections
    case Drop(conn) => conn in w.handlers
    case Poll(conn) => conn in w.handlers
    case Negotiated(conn) => conn in w.handlers
    case UpgradeFailed(conn, error) =>
      conn in w.handlers && (error.TimedOut? || error.UnsupportedProtocol? || error.OtherIo?)
    case CloseDials => SwarmFree(w)
    case ClearPending => w.phase == Closed
  }

  function Next(w: World, s: Step): World
    requires Allowed(w, s) && PendingLive(w)
  {
    match s
    case Ask(req, peer, pick) =>
      var (sh, x, r) := Sender(w.shared, w.wires, peer, pick);
      var w1 := w.(shared := sh, target := w.target[req := peer]);
      if r.Ok? then w1.(wires := x, callers := w.callers[req := r.value]) else w1.(wires := Reply(x, req, r.error))
    case Submit(req) => w.(wires := Send(w.wires, w.callers[req], req), callers := w.callers - {req})
    case PollDial =>
      w.(wires := w.wires.(dialQueue := w.wires.dialQueue[1..]), issued := w.issued + multiset{w.wires.dialQueue[0]})
    case DialStarts(peer) => w.(issued := w.issued - multiset{peer}, inFlight := w.inFlight + multiset{peer})
    case ForeignDial(peer) => w.(inFlight := w.inFlight + multiset{peer})
    case DialSkipped(peer, pick, own) =>
      var (sh, x) := OnDialSkipped(w.shared, w.wires, peer, pick);
      w.(shared := sh, wires := x, issued := if own then w.issued - multiset{peer} else w.issued)
    case DialFailed(peer, origin) =>
      var (sh, x) := OnDialFailure(w.shared, w.wires, peer);
      w.(shared := sh, wires := x,
         issued := if origin.Issued? then w.issued - multiset{peer} else w.issued,
         inFlight := if origin.Flying? then w.inFlight - multiset{peer} else w.inFlight)
    case Build(conn, peer, dialed) =>
      var (sh, x, chan) := Receiver(w.shared, w.wires, peer, conn);
      w.(shared := sh, wires := x, handlers := w.handlers[conn := Handler(peer, chan, None)],
         building := Some((conn, peer)),
         inFlight := if dialed then w.inFlight - multiset{peer} else w.inFlight)
    case Establish =>
      w.(shared := OnConnectionEstablished(w.shared, w.building.value.0, w.building.value.1), building := None)
    case Deny(dialed) =>
      if !dialed then w.(building := None) else
      var (sh, x) := OnDialFailure(w.shared, w.wires, w.building.value.1);
      w.(shared := sh, wires := x, building := None)
    case Close(conn) => w.(shared := OnConnectionClosed(w.shared, conn))
    case Drop(conn) => w.(wires := DropHandler(w.handlers[conn], w.wires), handlers := w.handlers - {conn})
    case Poll(conn) =>
      var (h, x) := PollHandler(w.handlers[conn], w.wires);
      w.(wires := x, handlers := w.handlers[conn := h])
    case Negotiated(conn) =>
      var (h, x) := EndUpgrade(w.handlers[conn], w.wires, Opened(w.handlers[conn].remote));
      w.(wires := x, handlers := w.handlers[conn := h])
    case UpgradeFailed(conn, error) =>
      var (h, x) := EndUpgrade(w.handlers[conn], w.wires, error);
      w.(wires := x, handlers := w.handlers[conn := h])
    case CloseDials => w.(wires := w.wires.(dialOpen := false), phase := Closed)
    case ClearPending =>
      var (sh, x) := OnBehaviourDropped(w.shared, w.wires);
      w.(shared := sh, wires := x, phase := Cleared)
  }

  predicate PendingLive(w: World) { forall p :: p in w.shared.pending ==> w.shared.pending[p] in w.wires.live }
}
