/** The stream protocol's objects: channels, shared state, handlers, the behaviour and its control. */
module StreamBehaviour {
  import opened Words
  import S = Streams
  import Addresses

  /** All message channels between the objects below. */
  class Channels {
    var live: map<S.ChanId, seq<S.ReqId>>
    var nextChan: S.ChanId
    var answers: map<S.ReqId, S.Answer>
    var dialQueue: seq<PeerId>
    var dialOpen: bool

    ghost function View(): S.Wires
      reads this
    {
      S.Wires(live, nextChan, answers, dialQueue, dialOpen)
    }

    constructor ()
      ensures View() == S.Wires(map[], 0, map[], [], true)
    {
      live, nextChan, answers, dialQueue, dialOpen := map[], 0, map[], [], true;
    }

    method Create() returns (c: S.ChanId)
      modifies this
      ensures View() == S.NewChannel(old(View())) && c == old(nextChan)
    {
      c := nextChan;
      live := live[c := []];
      nextChan := nextChan + 1;
    }

    method Reply(r: S.ReqId, a: S.Answer)
      modifies this
      ensures View() == S.Reply(old(View()), r, a)
    {
      answers := answers[r := a];
    }

    method Send(c: S.ChanId, r: S.ReqId)
      modifies this
      ensures View() == S.Send(old(View()), c, r)
    {
      if c in live {
        live := live[c := live[c] + [r]];
      } else {
        Reply(r, S.ConnectionReset);
      }
    }

    method TryNext(c: S.ChanId) returns (r: Option<S.ReqId>)
      modifies this
      ensures c in old(live) && old(live)[c] != [] ==>
                r == Some(old(live)[c][0]) && View() == old(View()).(live := old(live)[c := old(live)[c][1..]])
      ensures c !in old(live) || old(live)[c] == [] ==> r == None && View() == old(View())
    {
      if c !in live || live[c] == [] {
        return None;
      }
      r := Some(live[c][0]);
      live := live[c := live[c][1..]];
    }

    /** Drops receivers with everything still in them. */
    method Close(chans: set<S.ChanId>)
      modifies this
      ensures View() == S.Cut(old(View()), chans, S.ConnectionReset)
    {
      var x := S.Cut(S.Wires(live, nextChan, answers, dialQueue, dialOpen), chans, S.ConnectionReset);
      live, answers := x.live, x.answers;
    }

    /** Takes every request out of a channel, answers it, and drops the receiver. */
    method Fail(c: S.ChanId, a: S.Answer)
      requires c in live
      modifies this
      ensures View() == S.Cut(old(View()), {c}, a)
    {
      ghost var end := S.Cut(View(), {c}, a);
      while live[c] != []
        invariant c in live && S.Cut(View(), {c}, a) == end
        decreases |live[c]|
      {
        S.CutOneByOne(View(), c, a);
        var r := TryNext(c);
        Reply(r.value, a);
      }
      S.CutOneByOne(View(), c, a);
      live := live - {c};
    }

    /** Takes every request out of a channel and sends it to another, then drops the receiver. */
    method Forward(from: S.ChanId, to: S.ChanId)
      requires from in live && from != to
      modifies this
      ensures View() == S.Forward(old(View()), from, to)
    {
      ghost var end := S.Forward(View(), from, to);
      while live[from] != []
        invariant from in live && S.Forward(View(), from, to) == end
        decreases |live[from]|
      {
        S.ForwardOneByOne(View(), from, to);
        var r := TryNext(from);
        Send(to, r.value);
      }
      S.ForwardOneByOne(View(), from, to);
      live := live - {from};
    }
  }

  class Shared {
    const wires: Channels
    var connections: map<S.ConnId, PeerId>
    var senders: map<S.ConnId, S.ChanId>
    var pendingChannels: map<PeerId, S.ChanId>

    ghost function View(): S.Shared
      reads this
    {
      S.Shared(connections, senders, pendingChannels)
    }

    ghost predicate Valid()
      reads this, wires
    {
      S.Apart(View(), wires.View())
    }

    constructor (wires: Channels)
      ensures View() == S.Shared(map[], map[], map[]) && this.wires == wires && Valid()
    {
      this.wires := wires;
      connections, senders, pendingChannels := map[], map[], map[];
    }

    method ConnectedSender(p: PeerId) returns (sender: Option<S.ChanId>, ghost pick: Option<S.ConnId>)
      ensures S.ValidPick(View(), p, pick) && sender == S.ConnectedSender(View(), pick)
      ensures sender.Some? ==>
        exists c :: c in connections && connections[c] == p && c in senders && senders[c] == sender.value
      ensures !S.Connected(View(), p) ==> sender.None?
    {
      var candidates := set c | c in connections && connections[c] == p;
      if candidates == {} {
        assert forall c :: c in connections && connections[c] == p ==> c in candidates;
        return None, None;
      }
      var c :| c in candidates;
      pick := Some(c);
      sender := if c in senders then Some(senders[c]) else None;
    }

    method Sender(p: PeerId) returns (r: Result<S.ChanId, S.Answer>, ghost pick: Option<S.ConnId>)
      modifies this, wires
      ensures S.ValidPick(old(View()), p, pick)
      ensures (View(), wires.View(), r) == S.Sender(old(View()), old(wires.View()), p, pick)
    {
      var sender;
      sender, pick := ConnectedSender(p);
      if sender.Some? {
        return Ok(sender.value), pick;
      }
      if p in pendingChannels {
        return Ok(pendingChannels[p]), pick;
      }
      if !wires.dialOpen {
        return Err(S.NotConnected), pick;
      }
      wires.dialQueue := wires.dialQueue + [p];
      var c := wires.Create();
      pendingChannels := pendingChannels[p := c];
      r := Ok(c);
    }

    method Receiver(p: PeerId, conn: S.ConnId) returns (c: S.ChanId)
      modifies this, wires
      ensures (View(), wires.View(), c) == S.Receiver(old(View()), old(wires.View()), p, conn)
    {
      if p in pendingChannels {
        c := pendingChannels[p];
        pendingChannels := pendingChannels - {p};
        senders := senders[conn := c];
        return;
      }
      c := wires.Create();
      senders := senders[conn := c];
    }

    method OnConnectionEstablished(conn: S.ConnId, p: PeerId)
      modifies this
      ensures View() == S.OnConnectionEstablished(old(View()), conn, p)
    {
      connections := connections[conn := p];
    }

    method OnConnectionClosed(conn: S.ConnId)
      modifies this
      ensures View() == S.OnConnectionClosed(old(View()), conn)
    {
      connections := connections - {conn};
      senders := senders - {conn};
    }

    method OnDialFailure(p: PeerId)
      requires Valid()
      modifies this, wires
      ensures (View(), wires.View()) == S.OnDialFailure(old(View()), old(wires.View()), p)
    {
      if p !in pendingChannels {
        return;
      }
      var c := pendingChannels[p];
      pendingChannels := pendingChannels - {p};
      wires.Fail(c, S.NotConnected);
    }

    method OnDialSkipped(p: PeerId) returns (ghost pick: Option<S.ConnId>)
      requires Valid()
      modifies this, wires
      ensures S.ValidPick(old(View()), p, pick)
      ensures (View(), wires.View()) == S.OnDialSkipped(old(View()), old(wires.View()), p, pick)
    {
      var sender;
      sender, pick := ConnectedSender(p);
      if sender.None? || p !in pendingChannels {
        return;
      }
      var c := pendingChannels[p];
      pendingChannels := pendingChannels - {p};
      wires.Forward(c, sender.value);
    }

    method OnBehaviourDropped()
      modifies this, wires
      ensures (View(), wires.View()) == S.OnBehaviourDropped(old(View()), old(wires.View()))
    {
      var ended := pendingChannels.Values;
      pendingChannels := map[];
      wires.Close(ended);
    }
  }

  class Handler {
    const wires: Channels
    const remote: PeerId
    const receiver: S.ChanId
    var pendingUpgrade: Option<S.ReqId>

    ghost function View(): S.Handler
      reads this
    {
      S.Handler(remote, receiver, pendingUpgrade)
    }

    constructor (wires: Channels, remote: PeerId, receiver: S.ChanId)
      ensures View() == S.Handler(remote, receiver, None) && this.wires == wires
    {
      this.wires, this.remote, this.receiver := wires, remote, receiver;
      pendingUpgrade := None;
    }

    /** Starts the next negotiation, if none is under way. */
    method Poll() returns (request: Option<S.ReqId>)
      modifies this, wires
      ensures (View(), wires.View()) == S.PollHandler(old(View()), old(wires.View()))
      ensures request.Some? <==> View() != old(View())
      ensures request.Some? ==> pendingUpgrade == request
    {
      if pendingUpgrade.Some? {
        return None;
      }
      request := wires.TryNext(receiver);
      if request.Some? {
        pendingUpgrade := request;
      }
    }

    method OnFullyNegotiatedOutbound()
      modifies this, wires
      ensures (View(), wires.View()) == S.EndUpgrade(old(View()), old(wires.View()), S.Opened(remote))
    {
      if pendingUpgrade.None? {
        return;
      }
      var r := pendingUpgrade.value;
      pendingUpgrade := None;
      wires.Reply(r, S.Opened(remote));
    }

    method OnDialUpgradeError(error: S.Answer)
      modifies this, wires
      ensures (View(), wires.View()) == S.EndUpgrade(old(View()), old(wires.View()), error)
    {
      if pendingUpgrade.None? {
        return;
      }
      var r := pendingUpgrade.value;
      pendingUpgrade := None;
      wires.Reply(r, error);
    }
  }

  datatype SwarmEvent =
    | ConnectionEstablished(conn: S.ConnId, peer: PeerId)
    | ConnectionClosed(conn: S.ConnId)
    | DialFailure(dialed: Option<PeerId>, error: Addresses.DialError)

  class Behaviour {
    const shared: Shared

    constructor (shared: Shared)
      ensures this.shared == shared
    {
      this.shared := shared;
    }

    method HandleEstablishedConnection(conn: S.ConnId, p: PeerId) returns (h: Handler)
      modifies shared, shared.wires
      ensures fresh(h) && h.wires == shared.wires
      ensures (shared.View(), shared.wires.View(), h.receiver) ==
              S.Receiver(old(shared.View()), old(shared.wires.View()), p, conn)
      ensures h.View() == S.Handler(p, h.receiver, None)
    {
      var c := shared.Receiver(p, conn);
      h := new Handler(shared.wires, p, c);
    }

    /** A skipped dial and a failed dial differ; a failure without a peer concerns nobody here. */
    method OnSwarmEvent(ev: SwarmEvent) returns (ghost pick: Option<S.ConnId>)
      requires shared.Valid()
      modifies shared, shared.wires
      ensures ev.ConnectionEstablished? ==>
                shared.View() == S.OnConnectionEstablished(old(shared.View()), ev.conn, ev.peer)
      ensures ev.ConnectionClosed? ==> shared.View() == S.OnConnectionClosed(old(shared.View()), ev.conn)
      ensures !ev.DialFailure? ==> shared.wires.View() == old(shared.wires.View())
      ensures ev.DialFailure? && ev.dialed.None? ==>
                (shared.View(), shared.wires.View()) == (old(shared.View()), old(shared.wires.View()))
      ensures ev.DialFailure? && ev.dialed.Some? && ev.error.DialPeerConditionFalse? ==>
                && S.ValidPick(old(shared.View()), ev.dialed.value, pick)
                && (shared.View(), shared.wires.View()) ==
                   S.OnDialSkipped(old(shared.View()), old(shared.wires.View()), ev.dialed.value, pick)
      ensures ev.DialFailure? && ev.dialed.Some? && !ev.error.DialPeerConditionFalse? ==>
                (shared.View(), shared.wires.View()) ==
                S.OnDialFailure(old(shared.View()), old(shared.wires.View()), ev.dialed.value)
    {
      pick := None;
      match ev
      case ConnectionEstablished(conn, peer) => shared.OnConnectionEstablished(conn, peer);
      case ConnectionClosed(conn) => shared.OnConnectionClosed(conn);
      case DialFailure(Some(peer), DialPeerConditionFalse) => pick := shared.OnDialSkipped(peer);
      case DialFailure(Some(peer), _) => shared.OnDialFailure(peer);
      case DialFailure(None, _) =>
    }

    method Poll() returns (dial: Option<PeerId>)
      modifies shared.wires
      ensures dial.Some? ==> old(shared.wires.dialQueue) == [dial.value] + shared.wires.dialQueue
      ensures dial.None? ==> old(shared.wires.dialQueue) == [] && shared.wires.dialQueue == []
      ensures shared.wires.View() == old(shared.wires.View()).(dialQueue := shared.wires.dialQueue)
    {
      var wires := shared.wires;
      if wires.dialQueue == [] {
        return None;
      }
      dial := Some(wires.dialQueue[0]);
      wires.dialQueue := wires.dialQueue[1..];
    }

    /** Closes the dial queue before the pending channels go. */
    method Drop()
      modifies shared, shared.wires
      ensures (shared.View(), shared.wires.View()) ==
              S.OnBehaviourDropped(old(shared.View()), old(shared.wires.View()).(dialOpen := false))
    {
      shared.wires.dialOpen := false;
      shared.OnBehaviourDropped();
    }
  }

  class Control {
    const shared: Shared

    constructor (shared: Shared)
      ensures this.shared == shared
    {
      this.shared := shared;
    }

    /** `open_stream` up to the wait for its answer; an error is the answer. */
    method OpenStream(p: PeerId, r: S.ReqId) returns (ghost pick: Option<S.ConnId>)
      modifies shared, shared.wires
      ensures S.ValidPick(old(shared.View()), p, pick)
      ensures var (sh, x, c) := S.Sender(old(shared.View()), old(shared.wires.View()), p, pick);
              && shared.View() == sh
              && shared.wires.View() == if c.Ok? then S.Send(x, c.value, r) else S.Reply(x, r, c.error)
    {
      var sender;
      sender, pick := shared.Sender(p);
      match sender
      case Ok(c) => shared.wires.Send(c, r);
      case Err(a) => shared.wires.Reply(r, a);
    }
  }
}
