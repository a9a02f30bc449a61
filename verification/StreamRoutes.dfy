/** Every live channel has one receiver, and requests only travel towards the peer they ask for. */
module StreamRoutes {
  import opened Words
  import opened Streams
  import opened StreamSession

  /** Who holds the receiving end of a channel. */
  datatype Owner = ToPeer(peer: PeerId) | ToConn(conn: ConnId)

  type Owners = map<ChanId, Owner>

  predicate Owns(pending: map<PeerId, ChanId>, handlers: map<ConnId, Handler>, o: Owner, c: ChanId) {
    match o
    case ToPeer(p) => p in pending && pending[p] == c
    case ToConn(h) => h in handlers && handlers[h].chan == c
  }

  predicate Owned(pending: map<PeerId, ChanId>, handlers: map<ConnId, Handler>, x: Wires, owner: Owners) {
    && owner.Keys == x.live.Keys
    && (forall c :: c in owner ==> c < x.nextChan && Owns(pending, handlers, owner[c], c))
    && (forall p :: p in pending ==> pending[p] in owner && owner[pending[p]] == ToPeer(p))
    && (forall h :: h in handlers ==> handlers[h].chan in owner && owner[handlers[h].chan] == ToConn(h))
  }

  /** The peer a channel leads to. */
  function Leads(handlers: map<ConnId, Handler>, o: Owner): Option<PeerId> {
    match o
    case ToPeer(p) => Some(p)
    case ToConn(h) => if h in handlers then Some(handlers[h].remote) else None
  }

  predicate AllFor(q: seq<ReqId>, target: map<ReqId, PeerId>, p: Option<PeerId>) {
    forall r :: r in q ==> r in target && Some(target[r]) == p
  }

  predicate QueuesLead(
    live: map<ChanId, seq<ReqId>>, handlers: map<ConnId, Handler>, target: map<ReqId, PeerId>, owner: Owners)
  {
    forall c :: c in live && c in owner ==> AllFor(live[c], target, Leads(handlers, owner[c]))
  }

  predicate UpgradesLead(handlers: map<ConnId, Handler>, target: map<ReqId, PeerId>) {
    forall h :: h in handlers && handlers[h].upgrade.Some? ==>
      handlers[h].upgrade.value in target && target[handlers[h].upgrade.value] == handlers[h].remote
  }

  predicate CallersLead(
    callers: map<ReqId, ChanId>, handlers: map<ConnId, Handler>, target: map<ReqId, PeerId>,
    next: ChanId, owner: Owners)
  {
    forall r :: r in callers ==>
      && r in target && callers[r] < next
      && (callers[r] in owner ==> Leads(handlers, owner[callers[r]]) == Some(target[r]))
  }

  predicate SendersLead(senders: map<ConnId, ChanId>, next: ChanId, owner: Owners) {
    forall c :: c in senders ==> senders[c] < next && (senders[c] in owner ==> owner[senders[c]] == ToConn(c))
  }

  /** A connection belongs to the peer of its handler, and always has a sender. */
  predicate Matches(c: ConnId, p: PeerId, senders: map<ConnId, ChanId>, handlers: map<ConnId, Handler>) {
    c in senders && (c in handlers ==> handlers[c].remote == p)
  }

  predicate ConnsMatch(s: Shared, handlers: map<ConnId, Handler>, building: Option<(ConnId, PeerId)>) {
    && (forall c :: c in s.connections ==> Matches(c, s.connections[c], s.senders, handlers))
    && (building.Some? ==> Matches(building.value.0, building.value.1, s.senders, handlers))
  }

  /** Streams come from the peer that was asked for. */
  predicate AnswersMatch(answers: map<ReqId, Answer>, target: map<ReqId, PeerId>) {
    forall r :: r in answers && answers[r].Opened? ==> r in target && target[r] == answers[r].remote
  }

  predicate Routed(w: World, owner: Owners) {
    && Owned(w.shared.pending, w.handlers, w.wires, owner)
    && QueuesLead(w.wires.live, w.handlers, w.target, owner)
    && UpgradesLead(w.handlers, w.target)
    && CallersLead(w.callers, w.handlers, w.target, w.wires.nextChan, owner)
    && SendersLead(w.shared.senders, w.wires.nextChan, owner)
    && ConnsMatch(w.shared, w.handlers, w.building)
    && AnswersMatch(w.wires.answers, w.target)
  }

  // ----- a new request -----

  lemma TargetGrows(w: World, req: ReqId, peer: PeerId, owner: Owners)
    requires Routed(w, owner) && req !in w.target
    ensures Routed(w.(target := w.target[req := peer]), owner)
  {
  }

  lemma {:induction false} AskKnown(w: World, req: ReqId, peer: PeerId, chan: ChanId, owner: Owners)
    requires Routed(w, owner) && req !in w.target && chan < w.wires.nextChan
    requires chan in owner ==> Leads(w.handlers, owner[chan]) == Some(peer)
    ensures Routed(w.(target := w.target[req := peer], callers := w.callers[req := chan]), owner)
  {
    TargetGrows(w, req, peer, owner);
  }

  lemma {:induction false} AskRefused(w: World, req: ReqId, peer: PeerId, owner: Owners)
    requires Routed(w, owner) && req !in w.target
    ensures Routed(w.(target := w.target[req := peer], wires := Reply(w.wires, req, NotConnected)), owner)
  {
    TargetGrows(w, req, peer, owner);
  }

  /** A channel nobody has a sender to yet. */
  lemma FreshChannel(w: World, o: Owner, owner: Owners)
    requires Routed(w, owner)
    ensures var x, owner1 := NewChannel(w.wires), owner[w.wires.nextChan := o];
            && QueuesLead(x.live, w.handlers, w.target, owner1)
            && CallersLead(w.callers, w.handlers, w.target, x.nextChan, owner1)
            && SendersLead(w.shared.senders, x.nextChan, owner1)
  {
  }

  lemma FreshOwned(pending: map<PeerId, ChanId>, handlers: map<ConnId, Handler>, x: Wires, p: PeerId, owner: Owners)
    requires Owned(pending, handlers, x, owner) && p !in pending
    ensures Owned(pending[p := x.nextChan], handlers, NewChannel(x), owner[x.nextChan := ToPeer(p)])
  {
  }

  lemma {:induction false} ChannelForPeer(w: World, p: PeerId, owner: Owners)
    requires Routed(w, owner) && p !in w.shared.pending
    ensures Routed(w.(shared := w.shared.(pending := w.shared.pending[p := w.wires.nextChan]),
                      wires := NewChannel(w.wires)),
                   owner[w.wires.nextChan := ToPeer(p)])
  {
    FreshChannel(w, ToPeer(p), owner);
    FreshOwned(w.shared.pending, w.handlers, w.wires, p, owner);
  }

  /** The channel a caller is given leads to the peer it asked for, if it still leads anywhere. */
  lemma SenderLeads(w: World, p: PeerId, pick: Option<ConnId>, owner: Owners)
    requires Routed(w, owner) && ValidPick(w.shared, p, pick)
    ensures ConnectedSender(w.shared, pick).Some? <==> Connected(w.shared, p)
    ensures ConnectedSender(w.shared, pick).Some? ==>
              var c := ConnectedSender(w.shared, pick).value;
              && c < w.wires.nextChan
              && (c in owner ==> owner[c].ToConn? && Leads(w.handlers, owner[c]) == Some(p))
  {
  }

  function AskOwner(w: World, p: PeerId, pick: Option<ConnId>, owner: Owners): Owners {
    if ConnectedSender(w.shared, pick).Some? || p in w.shared.pending || !w.wires.dialOpen then owner
    else owner[w.wires.nextChan := ToPeer(p)]
  }

  lemma {:induction false} AskRouted(w: World, req: ReqId, p: PeerId, pick: Option<ConnId>, owner: Owners)
    requires Routed(w, owner) && Allowed(w, Ask(req, p, pick)) && PendingLive(w)
    ensures Routed(Next(w, Ask(req, p, pick)), AskOwner(w, p, pick, owner))
  {
    SenderLeads(w, p, pick, owner);
    match ConnectedSender(w.shared, pick)
    case Some(c) => AskKnown(w, req, p, c, owner);
    case None =>
      if p in w.shared.pending {
        AskKnown(w, req, p, w.shared.pending[p], owner);
      } else if !w.wires.dialOpen {
        AskRefused(w, req, p, owner);
      } else {
        var w0 := w.(wires := w.wires.(dialQueue := w.wires.dialQueue + [p]));
        ChannelForPeer(w0, p, owner);
        var w1 := w0.(shared := w.shared.(pending := w.shared.pending[p := w.wires.nextChan]),
                      wires := NewChannel(w0.wires));
        AskKnown(w1, req, p, w.wires.nextChan, owner[w.wires.nextChan := ToPeer(p)]);
      }
  }

  lemma SubmitRouted(w: World, req: ReqId, owner: Owners)
    requires Routed(w, owner) && req in w.callers
    ensures Routed(w.(wires := Send(w.wires, w.callers[req], req), callers := w.callers - {req}), owner)
  {
  }

  // ----- the end of a pending channel -----

  lemma CutOwned(w: World, peers: set<PeerId>, chans: set<ChanId>, a: Answer, owner: Owners)
    requires Owned(w.shared.pending, w.handlers, w.wires, owner)
    requires forall c :: c in chans <==> exists p :: p in peers && p in w.shared.pending && w.shared.pending[p] == c
    ensures Owned(w.shared.pending - peers, w.handlers, Cut(w.wires, chans, a), owner - chans)
  {
  }

  lemma {:induction false} CutRouted(w: World, peers: set<PeerId>, chans: set<ChanId>, a: Answer, owner: Owners)
    requires Routed(w, owner) && !a.Opened?
    requires forall c :: c in chans <==> exists p :: p in peers && p in w.shared.pending && w.shared.pending[p] == c
    ensures Routed(w.(shared := w.shared.(pending := w.shared.pending - peers), wires := Cut(w.wires, chans, a)),
                   owner - chans)
  {
    CutOwned(w, peers, chans, a, owner);
  }

  lemma {:induction false} FailureRouted(w: World, p: PeerId, owner: Owners)
    requires Routed(w, owner)
    ensures var (sh, x) := OnDialFailure(w.shared, w.wires, p);
            Routed(w.(shared := sh, wires := x), if p in w.shared.pending then owner - {w.shared.pending[p]} else owner)
  {
    if p in w.shared.pending {
      CutRouted(w, {p}, {w.shared.pending[p]}, NotConnected, owner);
    }
  }

  function EndedOwner(w: World, p: PeerId, owner: Owners): Owners {
    if p in w.shared.pending then owner - {w.shared.pending[p]} else owner
  }

  lemma ForwardOwned(w: World, p: PeerId, to: ChanId, owner: Owners)
    requires Owned(w.shared.pending, w.handlers, w.wires, owner) && p in w.shared.pending && to in w.wires.live
    requires owner[to].ToConn?
    ensures Owned(w.shared.pending - {p}, w.handlers, Forward(w.wires, w.shared.pending[p], to),
                  owner - {w.shared.pending[p]})
  {
  }

  lemma {:induction false} ForwardRouted(w: World, p: PeerId, to: ChanId, owner: Owners)
    requires Routed(w, owner) && p in w.shared.pending && to in w.wires.live
    requires owner[to].ToConn? && Leads(w.handlers, owner[to]) == Some(p)
    ensures Routed(w.(shared := w.shared.(pending := w.shared.pending - {p}),
                      wires := Forward(w.wires, w.shared.pending[p], to)), owner - {w.shared.pending[p]})
  {
    ForwardOwned(w, p, to, owner);
    var from, owner1 := w.shared.pending[p], owner - {w.shared.pending[p]};
    var live, live1 := w.wires.live, Forward(w.wires, from, to).live;
    forall c | c in live1 && c in owner1 ensures AllFor(live1[c], w.target, Leads(w.handlers, owner1[c])) {
      assert AllFor(live[c], w.target, Leads(w.handlers, owner[c]));
      assert AllFor(live[from], w.target, Leads(w.handlers, owner[from]));
    }
  }

  lemma {:induction false} SkipRouted(w: World, p: PeerId, pick: Option<ConnId>, owner: Owners)
    requires Routed(w, owner) && ValidPick(w.shared, p, pick) && PendingLive(w)
    ensures var (sh, x) := OnDialSkipped(w.shared, w.wires, p, pick);
            Routed(w.(shared := sh, wires := x), if Connected(w.shared, p) then EndedOwner(w, p, owner) else owner)
  {
    SenderLeads(w, p, pick, owner);
    if p in w.shared.pending && ConnectedSender(w.shared, pick).Some? {
      var to := ConnectedSender(w.shared, pick).value;
      if to in w.wires.live {
        ForwardRouted(w, p, to, owner);
      } else {
        CutRouted(w, {p}, {w.shared.pending[p]}, ConnectionReset, owner);
      }
    }
  }

  lemma ClearRouted(w: World, owner: Owners)
    requires Routed(w, owner)
    ensures var (sh, x) := OnBehaviourDropped(w.shared, w.wires);
            Routed(w.(shared := sh, wires := x), owner - w.shared.pending.Values)
  {
  }

  // ----- a new connection -----

  function BuiltOwner(w: World, p: PeerId, conn: ConnId, owner: Owners): Owners {
    owner[(if p in w.shared.pending then w.shared.pending[p] else w.wires.nextChan) := ToConn(conn)]
  }

  /** The rest of the state when a connection takes over the channel `chan`. */
  lemma {:induction false} TakeOver(w: World, p: PeerId, conn: ConnId, chan: ChanId, owner: Owners)
    requires Routed(w, owner) && conn !in w.handlers && conn !in w.shared.senders && conn !in w.shared.connections
    requires chan in owner && owner[chan] == ToPeer(p)
    ensures Routed(w.(shared := w.shared.(pending := w.shared.pending - {p}, senders := w.shared.senders[conn := chan]),
                      handlers := w.handlers[conn := Handler(p, chan, None)], building := Some((conn, p))),
                   owner[chan := ToConn(conn)])
  {
    TakeOverOwned(w, p, conn, chan, owner);
    TakeOverLeads(w, p, conn, chan, owner);
    TakeOverConns(w, p, conn, chan, owner);
  }

  lemma TakeOverOwned(w: World, p: PeerId, conn: ConnId, chan: ChanId, owner: Owners)
    requires Owned(w.shared.pending, w.handlers, w.wires, owner) && conn !in w.handlers
    requires chan in owner && owner[chan] == ToPeer(p)
    ensures Owned(w.shared.pending - {p}, w.handlers[conn := Handler(p, chan, None)], w.wires,
                  owner[chan := ToConn(conn)])
  {
  }

  lemma {:induction false} TakeOverLeads(w: World, p: PeerId, conn: ConnId, chan: ChanId, owner: Owners)
    requires Routed(w, owner) && conn !in w.handlers && conn !in w.shared.senders
    requires chan in owner && owner[chan] == ToPeer(p)
    ensures var handlers, owner1 := w.handlers[conn := Handler(p, chan, None)], owner[chan := ToConn(conn)];
            && QueuesLead(w.wires.live, handlers, w.target, owner1)
            && CallersLead(w.callers, handlers, w.target, w.wires.nextChan, owner1)
            && SendersLead(w.shared.senders[conn := chan], w.wires.nextChan, owner1)
  {
    var handlers, owner1 := w.handlers[conn := Handler(p, chan, None)], owner[chan := ToConn(conn)];
    forall c | c in owner ensures Leads(handlers, owner1[c]) == Leads(w.handlers, owner[c]) {
      assert Owns(w.shared.pending, w.handlers, owner[c], c);
    }
  }

  lemma TakeOverConns(w: World, p: PeerId, conn: ConnId, chan: ChanId, owner: Owners)
    requires Routed(w, owner) && conn !in w.handlers && conn !in w.shared.senders && conn !in w.shared.connections
    ensures ConnsMatch(w.shared.(pending := w.shared.pending - {p}, senders := w.shared.senders[conn := chan]),
                       w.handlers[conn := Handler(p, chan, None)], Some((conn, p)))
  {
  }

  lemma {:induction false} BuildFresh(w: World, conn: ConnId, p: PeerId, owner: Owners)
    requires Routed(w, owner) && conn !in w.handlers && conn !in w.shared.senders && conn !in w.shared.connections
    requires p !in w.shared.pending
    ensures var next := w.wires.nextChan;
            Routed(w.(shared := w.shared.(senders := w.shared.senders[conn := next]), wires := NewChannel(w.wires),
                      handlers := w.handlers[conn := Handler(p, next, None)], building := Some((conn, p))),
                   owner[next := ToConn(conn)])
  {
    var next := w.wires.nextChan;
    ChannelForPeer(w, p, owner);
    var owner1 := owner[next := ToPeer(p)];
    var w1 := w.(shared := w.shared.(pending := w.shared.pending[p := next]), wires := NewChannel(w.wires));
    AddRemove(w.shared.pending, p, next);
    Overwrite(owner, next, ToPeer(p), ToConn(conn));
    TakeOver(w1, p, conn, next, owner1);
  }

  lemma AddRemove(pending: map<PeerId, ChanId>, p: PeerId, c: ChanId)
    requires p !in pending
    ensures pending[p := c] - {p} == pending
  {
  }

  lemma Overwrite(owner: Owners, c: ChanId, a: Owner, b: Owner)
    ensures owner[c := a][c := b] == owner[c := b]
  {
  }

  lemma {:induction false} BuildRouted(w: World, conn: ConnId, p: PeerId, owner: Owners)
    requires Routed(w, owner) && conn !in w.handlers && conn !in w.shared.senders && conn !in w.shared.connections
    ensures var (sh, x, chan) := Receiver(w.shared, w.wires, p, conn);
            Routed(w.(shared := sh, wires := x, handlers := w.handlers[conn := Handler(p, chan, None)],
                      building := Some((conn, p))),
                   BuiltOwner(w, p, conn, owner))
  {
    if p in w.shared.pending {
      TakeOver(w, p, conn, w.shared.pending[p], owner);
    } else {
      BuildFresh(w, conn, p, owner);
    }
  }

  // ----- handlers at work -----

  lemma {:induction false} DropRouted(w: World, conn: ConnId, owner: Owners)
    requires Routed(w, owner) && conn in w.handlers
    ensures Routed(w.(wires := DropHandler(w.handlers[conn], w.wires), handlers := w.handlers - {conn}),
                   owner - {w.handlers[conn].chan})
  {
    DropOwned(w, conn, owner);
    DropLeads(w, conn, owner);
    DropConns(w, conn);
  }

  lemma DropOwned(w: World, conn: ConnId, owner: Owners)
    requires Owned(w.shared.pending, w.handlers, w.wires, owner) && conn in w.handlers
    ensures var c := w.handlers[conn].chan;
            Owned(w.shared.pending, w.handlers - {conn}, DropHandler(w.handlers[conn], w.wires), owner - {c})
  {
  }

  lemma {:induction false} DropLeads(w: World, conn: ConnId, owner: Owners)
    requires Routed(w, owner) && conn in w.handlers
    ensures var c, handlers := w.handlers[conn].chan, w.handlers - {conn};
            && QueuesLead(w.wires.live - {c}, handlers, w.target, owner - {c})
            && CallersLead(w.callers, handlers, w.target, w.wires.nextChan, owner - {c})
            && SendersLead(w.shared.senders, w.wires.nextChan, owner - {c})
  {
    var handlers, owner1 := w.handlers - {conn}, owner - {w.handlers[conn].chan};
    forall c | c in owner1 ensures Leads(handlers, owner1[c]) == Leads(w.handlers, owner[c]) {
      assert Owns(w.shared.pending, w.handlers, owner[c], c);
    }
  }

  lemma DropConns(w: World, conn: ConnId)
    requires ConnsMatch(w.shared, w.handlers, w.building)
    ensures ConnsMatch(w.shared, w.handlers - {conn}, w.building)
  {
  }

  lemma TakeFirst(w: World, chan: ChanId, p: PeerId, owner: Owners)
    requires Owned(w.shared.pending, w.handlers, w.wires, owner)
    requires QueuesLead(w.wires.live, w.handlers, w.target, owner)
    requires chan in owner && Leads(w.handlers, owner[chan]) == Some(p) && w.wires.live[chan] != []
    ensures var q := w.wires.live[chan];
            && q[0] in w.target && w.target[q[0]] == p
            && QueuesLead(w.wires.live[chan := q[1..]], w.handlers, w.target, owner)
  {
  }

  lemma {:induction false} PollRouted(w: World, conn: ConnId, owner: Owners)
    requires Routed(w, owner) && conn in w.handlers
    ensures var (h, x) := PollHandler(w.handlers[conn], w.wires);
            Routed(w.(wires := x, handlers := w.handlers[conn := h]), owner)
  {
    var h := w.handlers[conn];
    assert w.handlers[conn := h] == w.handlers;
    if h.upgrade.None? && h.chan in w.wires.live && w.wires.live[h.chan] != [] {
      var q := w.wires.live[h.chan];
      TakeFirst(w, h.chan, h.remote, owner);
      var w1 := w.(wires := w.wires.(live := w.wires.live[h.chan := q[1..]]));
      assert w1.wires.live.Keys == w.wires.live.Keys;
      UpgradeRouted(w1, conn, Some(q[0]), owner);
    }
  }

  lemma {:induction false} UpgradeRouted(w: World, conn: ConnId, upgrade: Option<ReqId>, owner: Owners)
    requires Routed(w, owner) && conn in w.handlers
    requires upgrade.Some? ==> upgrade.value in w.target && w.target[upgrade.value] == w.handlers[conn].remote
    ensures Routed(w.(handlers := w.handlers[conn := w.handlers[conn].(upgrade := upgrade)]), owner)
  {
    SameRemote(w, conn, w.handlers[conn].(upgrade := upgrade), owner);
  }

  /** A handler that changes only its negotiation leaves the routes alone. */
  lemma {:induction false} SameRemote(w: World, conn: ConnId, h: Handler, owner: Owners)
    requires Routed(w, owner) && conn in w.handlers
    requires h.remote == w.handlers[conn].remote && h.chan == w.handlers[conn].chan
    ensures var handlers := w.handlers[conn := h];
            && Owned(w.shared.pending, handlers, w.wires, owner)
            && QueuesLead(w.wires.live, handlers, w.target, owner)
            && CallersLead(w.callers, handlers, w.target, w.wires.nextChan, owner)
            && ConnsMatch(w.shared, handlers, w.building)
  {
    var handlers := w.handlers[conn := h];
    forall o: Owner ensures Leads(handlers, o) == Leads(w.handlers, o) {
    }
    forall c | c in w.shared.connections ensures Matches(c, w.shared.connections[c], w.shared.senders, handlers) {
      assert Matches(c, w.shared.connections[c], w.shared.senders, w.handlers);
    }
  }

  lemma {:induction false} EndUpgradeRouted(w: World, conn: ConnId, a: Answer, owner: Owners)
    requires Routed(w, owner) && conn in w.handlers && (a.Opened? ==> a.remote == w.handlers[conn].remote)
    ensures var (h, x) := EndUpgrade(w.handlers[conn], w.wires, a);
            Routed(w.(wires := x, handlers := w.handlers[conn := h]), owner)
  {
    var h := w.handlers[conn];
    assert w.handlers[conn := h] == w.handlers;
    if h.upgrade.Some? {
      var w1 := w.(wires := Reply(w.wires, h.upgrade.value, a));
      assert AnswersMatch(w1.wires.answers, w.target);
      UpgradeRouted(w1, conn, None, owner);
    }
  }

  lemma EstablishRouted(w: World, owner: Owners)
    requires Routed(w, owner) && w.building.Some?
    ensures Routed(w.(shared := OnConnectionEstablished(w.shared, w.building.value.0, w.building.value.1),
                      building := None), owner)
  {
  }

  lemma CloseRouted(w: World, conn: ConnId, owner: Owners)
    requires Routed(w, owner) && w.building.None?
    ensures Routed(w.(shared := OnConnectionClosed(w.shared, conn)), owner)
  {
  }
}
