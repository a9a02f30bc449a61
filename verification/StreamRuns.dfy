/** What holds in every reachable state of the stream protocol. */
module StreamRuns {
  import opened Words
  import opened Sequences
  import opened Streams
  import opened StreamSession
  import opened StreamPlaces
  import opened StreamRoutes

  /** While the behaviour runs, a pending channel has a dial behind it. */
  predicate Dialed(w: World) { w.phase == Running ==> forall p :: p in w.shared.pending ==> HasDial(w, p) }

  predicate HasDial(w: World, p: PeerId) { p in w.wires.dialQueue || p in w.issued || p in w.inFlight }

  /** Once the behaviour is gone nothing is pending. */
  predicate Quiet(w: World) {
    && (w.wires.dialOpen <==> w.phase == Running)
    && (w.phase == Cleared ==> w.shared.pending == map[])
  }

  predicate Sound(w: World, at: Places, owner: Owners) { Placed(w, at) && Routed(w, owner) && Dialed(w) && Quiet(w) }

  // ----- places, step by step -----

  function EndPending(w: World, p: PeerId, at: Places): Places {
    if p in w.shared.pending then Redirect(at, {w.shared.pending[p]}, Done) else at
  }

  /** Where each request is after a step. */
  function Move(w: World, at: Places, s: Step): Places
    requires Allowed(w, s)
  {
    match s
    case Ask(req, peer, pick) => at[req := if Sender(w.shared, w.wires, peer, pick).2.Ok? then AtCaller else Done]
    case Submit(req) => at[req := if w.callers[req] in w.wires.live then InChannel(w.callers[req]) else Done]
    case DialSkipped(p, pick, _) =>
      (match ConnectedSender(w.shared, pick)
       case None => at
       case Some(to) =>
         if p !in w.shared.pending then at
         else Redirect(at, {w.shared.pending[p]}, if to in w.wires.live then InChannel(to) else Done))
    case DialFailed(p, _) => EndPending(w, p, at)
    case Deny(dialed) => if dialed then EndPending(w, w.building.value.1, at) else at
    case Drop(conn) =>
      var h := w.handlers[conn];
      var at0 := Redirect(at, {h.chan}, Done);
      if h.upgrade.None? then at0 else at0[h.upgrade.value := Done]
    case Poll(conn) =>
      var h := w.handlers[conn];
      if PollHandler(h, w.wires).0 == h then at else at[w.wires.live[h.chan][0] := Negotiating(conn)]
    case Negotiated(conn) => if w.handlers[conn].upgrade.None? then at else at[w.handlers[conn].upgrade.value := Done]
    case UpgradeFailed(conn, _) =>
      if w.handlers[conn].upgrade.None? then at else at[w.handlers[conn].upgrade.value := Done]
    case ClearPending => Redirect(at, w.shared.pending.Values, Done)
    case _ => at
  }

  lemma AddLive(live: map<ChanId, seq<ReqId>>, req: ReqId, to: Place, at: Places)
    requires InLive(live, at) && req !in at && !to.InChannel?
    ensures InLive(live, at[req := to])
  {
  }

  lemma AddHandlers(handlers: map<ConnId, Handler>, req: ReqId, to: Place, at: Places)
    requires InHandlers(handlers, at) && req !in at && !to.Negotiating?
    ensures InHandlers(handlers, at[req := to])
  {
  }

  lemma AddCaller(callers: map<ReqId, ChanId>, answers: map<ReqId, Answer>, req: ReqId, c: ChanId, at: Places)
    requires AtCallers(callers, at) && InAnswers(answers, at) && req !in at
    ensures AtCallers(callers[req := c], at[req := AtCaller]) && InAnswers(answers, at[req := AtCaller])
  {
  }

  lemma AddAnswer(callers: map<ReqId, ChanId>, answers: map<ReqId, Answer>, req: ReqId, a: Answer, at: Places)
    requires AtCallers(callers, at) && InAnswers(answers, at) && req !in at
    ensures AtCallers(callers, at[req := Done]) && InAnswers(answers[req := a], at[req := Done])
  {
  }

  /** A new request starts at its caller, or is answered at once. */
  lemma {:induction false} NewRequest(w: World, req: ReqId, peer: PeerId, r: Result<ChanId, Answer>, at: Places)
    requires Placed(w, at) && req !in w.target
    ensures r.Ok? ==>
      Placed(w.(target := w.target[req := peer], callers := w.callers[req := r.value]), at[req := AtCaller])
    ensures r.Err? ==>
      Placed(w.(target := w.target[req := peer], wires := Reply(w.wires, req, r.error)), at[req := Done])
  {
    assert req !in at;
    match r
    case Ok(c) =>
      AddLive(w.wires.live, req, AtCaller, at);
      AddHandlers(w.handlers, req, AtCaller, at);
      AddCaller(w.callers, w.wires.answers, req, c, at);
    case Err(a) =>
      AddLive(w.wires.live, req, Done, at);
      AddHandlers(w.handlers, req, Done, at);
      AddAnswer(w.callers, w.wires.answers, req, a, at);
  }

  lemma {:induction false} SenderPlaced(w: World, p: PeerId, pick: Option<ConnId>, at: Places)
    requires Placed(w, at) && w.wires.nextChan !in w.wires.live
    ensures var (sh, x, _) := Sender(w.shared, w.wires, p, pick); Placed(w.(shared := sh, wires := x), at)
  {
    NewChannelPlaced(w.wires.(dialQueue := w.wires.dialQueue + [p]), at);
  }

  lemma {:induction false} AskPlaced(w: World, s: Step, at: Places)
    requires Placed(w, at) && s.Ask? && Allowed(w, s) && PendingLive(w) && w.wires.nextChan !in w.wires.live
    ensures Placed(Next(w, s), Move(w, at, s))
  {
    var (sh, x, r) := Sender(w.shared, w.wires, s.peer, s.pick);
    SenderPlaced(w, s.peer, s.pick, at);
    NewRequest(w.(shared := sh, wires := x), s.req, s.peer, r, at);
  }

  lemma {:induction false} SubmitPlaced(w: World, req: ReqId, at: Places)
    requires Placed(w, at) && req in w.callers
    ensures var at1 := at[req := if w.callers[req] in w.wires.live then InChannel(w.callers[req]) else Done];
            Placed(w.(wires := Send(w.wires, w.callers[req], req), callers := w.callers - {req}), at1)
  {
    SendPlaced(w.wires, w.callers[req], req, at);
  }

  lemma {:induction false} CutStep(w: World, shared: Shared, chans: set<ChanId>, a: Answer, at: Places)
    requires Placed(w, at)
    ensures Placed(w.(shared := shared, wires := Cut(w.wires, chans, a)), Redirect(at, chans, Done))
  {
    CutPlaced(w.wires, chans, a, at);
    RedirectFrame(w, chans, Done, at);
  }

  lemma {:induction false} SkipPlaced(w: World, s: Step, at: Places, owner: Owners)
    requires Placed(w, at) && Routed(w, owner) && s.DialSkipped? && Allowed(w, s) && PendingLive(w)
    ensures Placed(Next(w, s), Move(w, at, s))
  {
    SenderLeads(w, s.peer, s.pick, owner);
    if ConnectedSender(w.shared, s.pick).Some? && s.peer in w.shared.pending {
      var from, to := w.shared.pending[s.peer], ConnectedSender(w.shared, s.pick).value;
      ForwardPlaced(w.wires, from, to, at);
      RedirectFrame(w, {from}, if to in w.wires.live then InChannel(to) else Done, at);
    }
  }

  lemma RoutedFacts(w: World, owner: Owners)
    requires Routed(w, owner)
    ensures PendingLive(w) && w.wires.nextChan !in w.wires.live
  {
  }

  /** Every step moves requests without losing or copying any. */
  lemma {:induction false} StepPlaced(w: World, s: Step, at: Places, owner: Owners)
    requires Placed(w, at) && Routed(w, owner) && Allowed(w, s) && PendingLive(w)
    ensures Placed(Next(w, s), Move(w, at, s))
  {
    RoutedFacts(w, owner);
    match s
    case Ask(_, _, _) => AskPlaced(w, s, at);
    case Submit(req) => SubmitPlaced(w, req, at);
    case DialSkipped(_, _, _) => SkipPlaced(w, s, at, owner);
    case DialFailed(p, _) =>
      if p in w.shared.pending {
        CutStep(w, OnDialFailure(w.shared, w.wires, p).0, {w.shared.pending[p]}, NotConnected, at);
      }
    case Build(conn, p, _) => BuildPlaced(w, s, at);
    case Deny(dialed) =>
      var p := w.building.value.1;
      if dialed && p in w.shared.pending {
        CutStep(w, OnDialFailure(w.shared, w.wires, p).0, {w.shared.pending[p]}, NotConnected, at);
      }
    case Drop(conn) => DropPlaced(w, conn, at);
    case Poll(conn) => PollPlaced(w, conn, at);
    case Negotiated(conn) => EndUpgradePlaced(w, conn, Opened(w.handlers[conn].remote), at);
    case UpgradeFailed(conn, error) => EndUpgradePlaced(w, conn, error, at);
    case ClearPending =>
      CutStep(w, OnBehaviourDropped(w.shared, w.wires).0, w.shared.pending.Values, ConnectionReset, at);
    case _ =>
  }

  lemma {:induction false} BuildPlaced(w: World, s: Step, at: Places)
    requires Placed(w, at) && s.Build? && Allowed(w, s) && PendingLive(w) && w.wires.nextChan !in w.wires.live
    ensures Placed(Next(w, s), at)
  {
    NewChannelPlaced(w.wires, at);
    var handlers := Next(w, s).handlers;
    assert forall h :: h in handlers && handlers[h].upgrade.Some? ==> h in w.handlers && handlers[h] == w.handlers[h];
  }

  // ----- owners, step by step -----

  function Reown(w: World, owner: Owners, s: Step): Owners
    requires Allowed(w, s)
  {
    match s
    case Ask(_, p, pick) => AskOwner(w, p, pick, owner)
    case DialSkipped(p, _, _) => if Connected(w.shared, p) then EndedOwner(w, p, owner) else owner
    case DialFailed(p, _) => EndedOwner(w, p, owner)
    case Build(conn, p, _) => BuiltOwner(w, p, conn, owner)
    case Deny(dialed) => if dialed then EndedOwner(w, w.building.value.1, owner) else owner
    case Drop(conn) => owner - {w.handlers[conn].chan}
    case ClearPending => owner - w.shared.pending.Values
    case _ => owner
  }

  lemma {:induction false} StepRouted(w: World, s: Step, owner: Owners)
    requires Routed(w, owner) && Allowed(w, s) && PendingLive(w)
    ensures Routed(Next(w, s), Reown(w, owner, s))
  {
    match s
    case Ask(req, p, pick) => AskRouted(w, req, p, pick, owner);
    case Submit(req) => SubmitRouted(w, req, owner);
    case DialSkipped(p, pick, _) => SkipRouted(w, p, pick, owner);
    case DialFailed(p, _) => FailureRouted(w, p, owner);
    case Build(conn, p, _) => BuildRouted(w, conn, p, owner);
    case Establish => EstablishRouted(w, owner);
    case Deny(dialed) => DenyRouted(w, dialed, owner);
    case Close(conn) => CloseRouted(w, conn, owner);
    case Drop(conn) => DropRouted(w, conn, owner);
    case Poll(conn) => PollRouted(w, conn, owner);
    case Negotiated(conn) => EndUpgradeRouted(w, conn, Opened(w.handlers[conn].remote), owner);
    case UpgradeFailed(conn, error) => EndUpgradeRouted(w, conn, error, owner);
    case ClearPending => ClearRouted(w, owner);
    case _ =>
  }

  lemma {:induction false} DenyRouted(w: World, dialed: bool, owner: Owners)
    requires Routed(w, owner) && Allowed(w, Deny(dialed)) && PendingLive(w)
    ensures Routed(Next(w, Deny(dialed)), Reown(w, owner, Deny(dialed)))
  {
    if dialed {
      FailureRouted(w, w.building.value.1, owner);
    }
  }

  // ----- dials, step by step -----

  predicate ByTask(s: Step) { s.Drop? || s.Poll? || s.Negotiated? || s.UpgradeFailed? || s.Submit? }

  /** Connection tasks and waiting callers touch neither dials nor pending channels. */
  lemma TaskFrame(w: World, s: Step)
    requires Allowed(w, s) && PendingLive(w) && ByTask(s)
    ensures var w1 := Next(w, s);
            && w1.shared == w.shared && w1.wires.dialQueue == w.wires.dialQueue && w1.wires.dialOpen == w.wires.dialOpen
            && w1.issued == w.issued && w1.inFlight == w.inFlight && w1.phase == w.phase
  {
  }

  /** The effect of an ended dial on the channel behind it. */
  lemma EndFrame(w: World, p: PeerId)
    ensures var (sh, x) := OnDialFailure(w.shared, w.wires, p);
            sh.pending == w.shared.pending - {p} && x.dialQueue == w.wires.dialQueue && x.dialOpen == w.wires.dialOpen
  {
  }

  lemma SkipFrame(w: World, p: PeerId, pick: Option<ConnId>)
    requires PendingLive(w)
    ensures var (sh, x) := OnDialSkipped(w.shared, w.wires, p, pick);
            && x.dialQueue == w.wires.dialQueue && x.dialOpen == w.wires.dialOpen
            && sh.pending == if ConnectedSender(w.shared, pick).Some? then w.shared.pending - {p} else w.shared.pending
  {
  }

  lemma BuildFrame(w: World, p: PeerId, conn: ConnId)
    ensures var (sh, x, _) := Receiver(w.shared, w.wires, p, conn);
            sh.pending == w.shared.pending - {p} && x.dialQueue == w.wires.dialQueue && x.dialOpen == w.wires.dialOpen
  {
  }

  lemma AskPending(w: World, s: Step, p: PeerId)
    requires Allowed(w, s) && PendingLive(w) && s.Ask? && p in Next(w, s).shared.pending
    ensures p in w.shared.pending || (s.peer == p && Next(w, s).wires.dialQueue == w.wires.dialQueue + [p])
  {
  }

  /** A pending channel of the next state was there before, or has just had its dial queued. */
  lemma {:induction false} StepPending(w: World, s: Step, p: PeerId)
    requires Allowed(w, s) && PendingLive(w) && p in Next(w, s).shared.pending
    ensures p in w.shared.pending || (s.Ask? && s.peer == p && Next(w, s).wires.dialQueue == w.wires.dialQueue + [p])
    ensures s.DialFailed? ==> p != s.peer
    ensures s.Build? ==> p != s.peer
    ensures s.DialSkipped? && ConnectedSender(w.shared, s.pick).Some? ==> p != s.peer
  {
    if ByTask(s) {
      TaskFrame(w, s);
    } else {
      match s
      case Ask(_, _, _) => AskPending(w, s, p);
      case DialSkipped(q, pick, _) => SkipFrame(w, q, pick);
      case DialFailed(q, _) => EndFrame(w, q);
      case Deny(_) => EndFrame(w, w.building.value.1);
      case Build(conn, q, _) => BuildFrame(w, q, conn);
      case _ =>
    }
  }

  /** The dials after a step: queued, issued, in flight. */
  function DialsAfter(w: World, s: Step): (seq<PeerId>, multiset<PeerId>, multiset<PeerId>)
    requires Allowed(w, s) && PendingLive(w)
  {
    var q, i, f := w.wires.dialQueue, w.issued, w.inFlight;
    match s
    case PollDial => (q[1..], i + multiset{q[0]}, f)
    case DialStarts(p) => (q, i - multiset{p}, f + multiset{p})
    case ForeignDial(p) => (q, i, f + multiset{p})
    case DialSkipped(p, _, own) => (q, if own then i - multiset{p} else i, f)
    case DialFailed(p, origin) =>
      (q, if origin.Issued? then i - multiset{p} else i, if origin.Flying? then f - multiset{p} else f)
    case Build(_, p, dialed) => (q, i, if dialed then f - multiset{p} else f)
    case Ask(_, _, _) => (Next(w, s).wires.dialQueue, i, f)
    case _ => (q, i, f)
  }

  lemma {:induction false} DialsFrame(w: World, s: Step)
    requires Allowed(w, s) && PendingLive(w)
    ensures var w1 := Next(w, s); (w1.wires.dialQueue, w1.issued, w1.inFlight) == DialsAfter(w, s)
  {
    if ByTask(s) {
      TaskFrame(w, s);
    } else {
      match s
      case DialSkipped(q, pick, _) => SkipFrame(w, q, pick);
      case DialFailed(q, _) => EndFrame(w, q);
      case Deny(_) => EndFrame(w, w.building.value.1);
      case Build(conn, q, _) => BuildFrame(w, q, conn);
      case _ =>
    }
  }

  lemma AskFrame(w: World, s: Step)
    requires Allowed(w, s) && PendingLive(w) && s.Ask?
    ensures w.wires.dialQueue <= Next(w, s).wires.dialQueue
  {
  }

  /** A dial only leaves the queue for the swarm, and the swarm only with the channel behind it. */
  lemma {:induction false} StepDial(w: World, s: Step, p: PeerId)
    requires Allowed(w, s) && PendingLive(w) && HasDial(w, p)
    requires s.DialFailed? || s.Build? ==> p != s.peer
    requires s.DialSkipped? && Connected(w.shared, s.peer) ==> p != s.peer
    ensures var (q, i, f) := DialsAfter(w, s); p in q || p in i || p in f
  {
    if s.PollDial? {
      assert w.wires.dialQueue == [w.wires.dialQueue[0]] + w.wires.dialQueue[1..];
    } else if s.Ask? {
      AskFrame(w, s);
    }
  }

  lemma {:induction false} StepDialed(w: World, s: Step)
    requires Dialed(w) && Allowed(w, s) && PendingLive(w)
    requires s.DialSkipped? && Connected(w.shared, s.peer) ==> ConnectedSender(w.shared, s.pick).Some?
    ensures Dialed(Next(w, s))
  {
    var w1 := Next(w, s);
    forall p | w1.phase == Running && p in w1.shared.pending ensures HasDial(w1, p) {
      StepPending(w, s, p);
      DialsFrame(w, s);
      if p in w.shared.pending {
        StepDial(w, s, p);
      }
    }
  }

  /** While nothing may be dialed, asking makes no channel. */
  lemma AskQuiet(w: World, s: Step)
    requires Allowed(w, s) && PendingLive(w) && s.Ask?
    ensures var w1 := Next(w, s);
            && w1.wires.dialOpen == w.wires.dialOpen && w1.phase == w.phase
            && (!w.wires.dialOpen ==> w1.shared.pending == w.shared.pending)
  {
  }

  /** The swarm acts only while the behaviour runs, and does not end it. */
  lemma {:induction false} SwarmFrame(w: World, s: Step)
    requires Allowed(w, s) && PendingLive(w) && !ByTask(s) && !s.Ask? && !s.CloseDials? && !s.ClearPending?
    ensures var w1 := Next(w, s); w1.wires.dialOpen == w.wires.dialOpen && w1.phase == w.phase == Running
  {
    match s
    case DialSkipped(q, pick, _) => SkipFrame(w, q, pick);
    case DialFailed(q, _) => EndFrame(w, q);
    case Deny(_) => EndFrame(w, w.building.value.1);
    case Build(conn, q, _) => BuildFrame(w, q, conn);
    case _ =>
  }

  lemma {:induction false} StepQuiet(w: World, s: Step)
    requires Quiet(w) && Allowed(w, s) && PendingLive(w)
    ensures Quiet(Next(w, s))
  {
    if ByTask(s) {
      TaskFrame(w, s);
    } else if s.Ask? {
      AskQuiet(w, s);
    } else if !s.CloseDials? && !s.ClearPending? {
      SwarmFrame(w, s);
    }
  }

  /** Every step keeps every request in one place, on its way to its peer, with a dial behind it. */
  lemma {:induction false} StepSound(w: World, s: Step, at: Places, owner: Owners)
    requires Sound(w, at, owner) && Allowed(w, s)
    ensures PendingLive(w) && Sound(Next(w, s), Move(w, at, s), Reown(w, owner, s))
  {
    RoutedFacts(w, owner);
    StepPlaced(w, s, at, owner);
    StepRouted(w, s, owner);
    if s.DialSkipped? {
      SenderLeads(w, s.peer, s.pick, owner);
    }
    StepDialed(w, s);
    StepQuiet(w, s);
  }

  // ----- runs -----

  ghost predicate Invariant(w: World) { exists at, owner :: Sound(w, at, owner) }

  lemma {:induction false} StartInvariant()
    ensures Invariant(Start())
  {
    assert Sound(Start(), map[], map[]);
  }

  lemma {:induction false} StepInvariant(w: World, s: Step)
    requires Invariant(w) && Allowed(w, s)
    ensures PendingLive(w) && Invariant(Next(w, s))
  {
    var at, owner :| Sound(w, at, owner);
    StepSound(w, s, at, owner);
  }

  ghost predicate LegalRun(w: World, ss: seq<Step>)
    requires Invariant(w)
    decreases |ss|
  {
    ss == [] || (Allowed(w, ss[0]) && (StepInvariant(w, ss[0]); LegalRun(Next(w, ss[0]), ss[1..])))
  }

  ghost function After(w: World, ss: seq<Step>): World
    requires Invariant(w) && LegalRun(w, ss)
    decreases |ss|
  {
    if ss == [] then w else StepInvariant(w, ss[0]); After(Next(w, ss[0]), ss[1..])
  }

  /** Every reachable state is sound, whatever the swarm, the connections and the callers do. */
  lemma {:induction false} RunInvariant(w: World, ss: seq<Step>)
    requires Invariant(w) && LegalRun(w, ss)
    ensures Invariant(After(w, ss))
    decreases |ss|
  {
    if ss != [] {
      StepInvariant(w, ss[0]);
      RunInvariant(Next(w, ss[0]), ss[1..]);
    }
  }

  // ----- what soundness means -----

  function Channels(w: World, r: ReqId): set<ChanId> { set c | c in w.wires.live && r in w.wires.live[c] }

  function Negotiators(w: World, r: ReqId): set<ConnId> { set h | h in w.handlers && w.handlers[h].upgrade == Some(r) }

  /** In how many places a request is: at its caller, in channels, in negotiation, answered. */
  function Copies(w: World, r: ReqId): nat {
    (if r in w.callers then 1 else 0) + |Channels(w, r)| + |Negotiators(w, r)| + (if r in w.wires.answers then 1 else 0)
  }

  lemma {:induction false} OneCopy(w: World, r: ReqId, at: Places)
    requires Placed(w, at)
    ensures Copies(w, r) == if r in w.target then 1 else 0
  {
    assert r in w.target <==> r in at;
    ChannelsAre(w, r, at);
    NegotiatorsAre(w, r, at);
  }

  /** Requests are neither lost nor duplicated, and only requests that were made exist. */
  lemma {:induction false} OnePlace(w: World, r: ReqId)
    requires Invariant(w)
    ensures Copies(w, r) == if r in w.target then 1 else 0
    ensures forall c :: c in w.wires.live ==> Distinct(w.wires.live[c])
  {
    var at, owner :| Sound(w, at, owner);
    OneCopy(w, r, at);
    forall c | c in w.wires.live ensures Distinct(w.wires.live[c]) {
      assert HoldsOnly(w.wires.live[c], c, at);
    }
  }

  lemma ChannelsAre(w: World, r: ReqId, at: Places)
    requires Placed(w, at)
    ensures Channels(w, r) == if r in at && at[r].InChannel? then {at[r].chan} else {}
  {
  }

  lemma NegotiatorsAre(w: World, r: ReqId, at: Places)
    requires Placed(w, at)
    ensures Negotiators(w, r) == if r in at && at[r].Negotiating? then {at[r].conn} else {}
  {
  }

  lemma QueuedRight(w: World, h: ConnId, r: ReqId, owner: Owners)
    requires Owned(w.shared.pending, w.handlers, w.wires, owner)
    requires QueuesLead(w.wires.live, w.handlers, w.target, owner)
    requires h in w.handlers && w.handlers[h].chan in w.wires.live && r in w.wires.live[w.handlers[h].chan]
    ensures r in w.target && w.target[r] == w.handlers[h].remote
  {
  }

  /** A request reaches only handlers of the peer it asked for, and no stream comes from another. */
  lemma {:induction false} RightPeer(w: World, r: ReqId)
    requires Invariant(w)
    ensures forall h :: h in w.handlers && w.handlers[h].upgrade == Some(r) ==>
              r in w.target && w.target[r] == w.handlers[h].remote
    ensures forall h ::
              h in w.handlers && w.handlers[h].chan in w.wires.live && r in w.wires.live[w.handlers[h].chan] ==>
                r in w.target && w.target[r] == w.handlers[h].remote
    ensures r in w.wires.answers && w.wires.answers[r].Opened? ==>
              r in w.target && w.target[r] == w.wires.answers[r].remote
  {
    var at, owner :| Sound(w, at, owner);
    forall h | h in w.handlers && w.handlers[h].chan in w.wires.live && r in w.wires.live[w.handlers[h].chan]
      ensures r in w.target && w.target[r] == w.handlers[h].remote
    {
      QueuedRight(w, h, r, owner);
    }
  }

  function WaitingPeers(pending: map<PeerId, ChanId>, c: ChanId): set<PeerId> {
    set p | p in pending && pending[p] == c
  }

  function Receivers(handlers: map<ConnId, Handler>, c: ChanId): set<ConnId> {
    set h | h in handlers && handlers[h].chan == c
  }

  lemma {:induction false} OwnerCounts(
    pending: map<PeerId, ChanId>, handlers: map<ConnId, Handler>, x: Wires, owner: Owners, c: ChanId)
    requires Owned(pending, handlers, x, owner) && c in x.live
    ensures |WaitingPeers(pending, c)| + |Receivers(handlers, c)| == 1
  {
    assert Owns(pending, handlers, owner[c], c);
    match owner[c]
    case ToPeer(p) => assert WaitingPeers(pending, c) == {p} && Receivers(handlers, c) == {};
    case ToConn(h) => assert WaitingPeers(pending, c) == {} && Receivers(handlers, c) == {h};
  }

  /** Every live channel is received by one party: one pending peer or one connection. */
  lemma {:induction false} OneReceiver(w: World, c: ChanId)
    requires Invariant(w) && c in w.wires.live
    ensures |WaitingPeers(w.shared.pending, c)| + |Receivers(w.handlers, c)| == 1
  {
    var at, owner :| Sound(w, at, owner);
    OwnerCounts(w.shared.pending, w.handlers, w.wires, owner, c);
  }

  /** No request waits on a dead dial; with no dial left, no channel is pending. */
  lemma PendingHasDial(w: World, p: PeerId)
    requires Invariant(w)
    ensures w.phase == Running && p in w.shared.pending ==> HasDial(w, p)
    ensures w.phase == Cleared ==> p !in w.shared.pending
    ensures forall c :: c in w.shared.connections ==> c in w.shared.senders
  {
  }

  /** A handler has the request, under negotiation or in its queue. */
  predicate HeldBy(w: World, h: ConnId, r: ReqId)
    requires h in w.handlers
  {
    w.handlers[h].upgrade == Some(r) || Queued(w.wires.live, w.handlers[h].chan, r)
  }

  /** The request is in the pending channel of its peer, which a dial or the end of the behaviour will close. */
  predicate WaitsForDial(w: World, r: ReqId)
    requires r in w.target
  {
    var p := w.target[r];
    && p in w.shared.pending && Queued(w.wires.live, w.shared.pending[p], r)
    && w.phase != Cleared && (w.phase == Running ==> HasDial(w, p))
  }

  /** Someone has the request and has not answered it. */
  ghost predicate Waiting(w: World, r: ReqId)
    requires r in w.target
  {
    r in w.callers || (exists h :: h in w.handlers && HeldBy(w, h, r)) || WaitsForDial(w, r)
  }

  lemma {:induction false} ReceiverHas(w: World, r: ReqId, c: ChanId, owner: Owners)
    requires Routed(w, owner) && Dialed(w) && Quiet(w) && r in w.target && Queued(w.wires.live, c, r)
    ensures Waiting(w, r)
  {
    assert Owns(w.shared.pending, w.handlers, owner[c], c);
    match owner[c]
    case ToPeer(p) =>
      assert AllFor(w.wires.live[c], w.target, Some(p));
      assert w.target[r] == p && WaitsForDial(w, r);
    case ToConn(h) => assert HeldBy(w, h, r);
  }

  lemma {:induction false} NotQueued(live: map<ChanId, seq<ReqId>>, c: ChanId, r: ReqId, at: Places)
    requires InLive(live, at) && r in at && at[r].Done?
    ensures !Queued(live, c, r)
  {
    if c in live {
      assert HoldsOnly(live[c], c, at);
    }
  }

  lemma {:induction false} AnsweredIsNotHeld(w: World, h: ConnId, r: ReqId, at: Places)
    requires Placed(w, at) && r in at && at[r].Done? && h in w.handlers
    ensures !HeldBy(w, h, r)
  {
    NotQueued(w.wires.live, w.handlers[h].chan, r, at);
  }

  lemma {:induction false} AnsweredIsDone(w: World, r: ReqId, at: Places)
    requires Placed(w, at) && r in w.target && r in at && at[r].Done?
    ensures r in w.wires.answers && !Waiting(w, r)
  {
    forall h | h in w.handlers ensures !HeldBy(w, h, r) {
      AnsweredIsNotHeld(w, h, r, at);
    }
    if w.target[r] in w.shared.pending {
      NotQueued(w.wires.live, w.shared.pending[w.target[r]], r, at);
    }
  }

  lemma {:induction false} UnansweredWaits(w: World, r: ReqId, at: Places, owner: Owners)
    requires Sound(w, at, owner) && r in w.target && r in at && !at[r].Done?
    ensures r !in w.wires.answers && Waiting(w, r)
  {
    if at[r].InChannel? {
      assert Queued(w.wires.live, at[r].chan, r);
      ReceiverHas(w, r, at[r].chan, owner);
    } else if at[r].Negotiating? {
      assert HeldBy(w, at[r].conn, r);
    }
  }

  /** A request is unanswered exactly while its caller, a handler or a pending dial has it. */
  lemma {:induction false} UnansweredIff(w: World, r: ReqId)
    requires Invariant(w) && r in w.target
    ensures r !in w.wires.answers <==> Waiting(w, r)
  {
    var at, owner :| Sound(w, at, owner);
    assert r in at.Keys;
    if at[r].Done? {
      AnsweredIsDone(w, r, at);
    } else {
      UnansweredWaits(w, r, at, owner);
    }
  }

  /** No caller and no connection is left, and no dial unless the behaviour has ended. */
  predicate NothingLeft(w: World) {
    && w.callers == map[] && w.handlers == map[]
    && (w.phase == Cleared
        || (w.phase == Running && w.wires.dialQueue == [] && w.issued == w.inFlight == multiset{}))
  }

  lemma NobodyWaits(w: World, r: ReqId)
    requires NothingLeft(w) && r in w.target
    ensures !Waiting(w, r)
  {
  }

  lemma {:induction false} AnswersWereAsked(w: World, r: ReqId)
    requires Invariant(w) && r in w.wires.answers
    ensures r in w.target
  {
    var at, owner :| Sound(w, at, owner);
    assert r in at.Keys;
  }

  /** Then every request has been answered. */
  lemma {:induction false} NothingLeftUnanswered(w: World)
    requires Invariant(w) && NothingLeft(w)
    ensures forall r :: r in w.wires.answers <==> r in w.target
  {
    forall r ensures r in w.wires.answers <==> r in w.target {
      if r in w.target {
        UnansweredIff(w, r);
        NobodyWaits(w, r);
      } else if r in w.wires.answers {
        AnswersWereAsked(w, r);
      }
    }
  }

  /** What the shared object's methods ask for holds in every reachable state. */
  lemma SharedIsApart(w: World)
    requires Invariant(w)
    ensures Apart(w.shared, w.wires)
  {
  }

  /** Asking queues exactly one dial when it makes a channel, and none otherwise. */
  lemma OneDialPerChannel(w: World, s: Step)
    requires s.Ask? && Allowed(w, s) && PendingLive(w)
    ensures var w1 := Next(w, s);
            if s.peer in w1.shared.pending && s.peer !in w.shared.pending
            then
              && w1.wires.dialQueue == w.wires.dialQueue + [s.peer]
              && w1.wires.live == w.wires.live[w.wires.nextChan := []]
            else w1.wires.dialQueue == w.wires.dialQueue && w1.wires.live == w.wires.live && w1.shared == w.shared
  {
  }

  // ----- answers are final -----

  lemma CutKeepsAnswers(x: Wires, chans: set<ChanId>, a: Answer, at: Places, r: ReqId)
    requires InWires(x, at) && r in x.answers
    ensures r in Cut(x, chans, a).answers && Cut(x, chans, a).answers[r] == x.answers[r]
  {
  }

  predicate AnswerKept(x: Wires, y: Wires, r: ReqId) {
    r in x.answers ==> r in y.answers && y.answers[r] == x.answers[r]
  }

  lemma EndKeepsAnswers(w: World, p: PeerId, at: Places, r: ReqId)
    requires Placed(w, at) && r in w.wires.answers
    ensures AnswerKept(w.wires, OnDialFailure(w.shared, w.wires, p).1, r)
  {
  }

  lemma SkipKeepsAnswers(w: World, p: PeerId, pick: Option<ConnId>, at: Places, r: ReqId)
    requires Placed(w, at) && r in w.wires.answers && PendingLive(w)
    ensures AnswerKept(w.wires, OnDialSkipped(w.shared, w.wires, p, pick).1, r)
  {
  }

  lemma ReplyKeepsAnswer(x: Wires, q: ReqId, a: Answer, r: ReqId)
    requires r in x.answers && q != r
    ensures AnswerKept(x, Reply(x, q, a), r)
  {
  }

  lemma DropKeepsAnswers(w: World, conn: ConnId, at: Places, r: ReqId)
    requires Placed(w, at) && r in w.wires.answers && conn in w.handlers
    ensures AnswerKept(w.wires, DropHandler(w.handlers[conn], w.wires), r)
  {
  }

  lemma UpgradeKeepsAnswers(w: World, conn: ConnId, a: Answer, at: Places, r: ReqId)
    requires Placed(w, at) && r in w.wires.answers && conn in w.handlers
    ensures AnswerKept(w.wires, EndUpgrade(w.handlers[conn], w.wires, a).1, r)
  {
  }

  lemma AskKeepsAnswers(w: World, s: Step, at: Places, r: ReqId)
    requires Placed(w, at) && r in w.wires.answers && PendingLive(w) && Allowed(w, s) && s.Ask?
    ensures AnswerKept(w.wires, Next(w, s).wires, r)
  {
  }

  lemma {:induction false} TaskKeepsAnswers(w: World, s: Step, at: Places, r: ReqId)
    requires Placed(w, at) && r in w.wires.answers && PendingLive(w) && Allowed(w, s) && ByTask(s)
    ensures AnswerKept(w.wires, Next(w, s).wires, r)
  {
    match s
    case Drop(conn) => DropKeepsAnswers(w, conn, at, r);
    case Negotiated(conn) => UpgradeKeepsAnswers(w, conn, Opened(w.handlers[conn].remote), at, r);
    case UpgradeFailed(conn, error) => UpgradeKeepsAnswers(w, conn, error, at, r);
    case Submit(req) => ReplyKeepsAnswer(w.wires, req, ConnectionReset, r);
    case Poll(_) =>
  }

  /** A request is answered at most once: no step answers an answered request again. */
  lemma {:induction false} StepKeepsAnswers(w: World, s: Step, r: ReqId)
    requires Invariant(w) && Allowed(w, s) && r in w.wires.answers && PendingLive(w)
    ensures AnswerKept(w.wires, Next(w, s).wires, r)
  {
    var at, owner :| Sound(w, at, owner);
    if ByTask(s) {
      TaskKeepsAnswers(w, s, at, r);
    } else if s.Ask? {
      AskKeepsAnswers(w, s, at, r);
    } else {
      match s
      case DialSkipped(p, pick, _) => SkipKeepsAnswers(w, p, pick, at, r);
      case DialFailed(p, _) => EndKeepsAnswers(w, p, at, r);
      case Deny(_) => EndKeepsAnswers(w, w.building.value.1, at, r);
      case ClearPending => CutKeepsAnswers(w.wires, w.shared.pending.Values, ConnectionReset, at, r);
      case _ =>
    }
  }

  lemma {:induction false} RunKeepsAnswers(w: World, ss: seq<Step>, r: ReqId)
    requires Invariant(w) && LegalRun(w, ss)
    ensures AnswerKept(w.wires, After(w, ss).wires, r)
    decreases |ss|
  {
    if ss != [] {
      StepInvariant(w, ss[0]);
      RunKeepsAnswers(Next(w, ss[0]), ss[1..], r);
      if r in w.wires.answers {
        StepKeepsAnswers(w, ss[0], r);
      }
    }
  }

  /** After the behaviour is dropped nothing is pending, in every continuation. */
  lemma {:induction false} DroppedStaysQuiet(w: World, ss: seq<Step>)
    requires Invariant(w) && LegalRun(w, ss) && w.phase == Cleared
    ensures After(w, ss).phase == Cleared && After(w, ss).shared.pending == map[]
    decreases |ss|
  {
    if ss != [] {
      StepInvariant(w, ss[0]);
      StaysCleared(w, ss[0]);
      DroppedStaysQuiet(Next(w, ss[0]), ss[1..]);
    } else {
      ClearedIsEmpty(w);
    }
  }

  lemma StaysCleared(w: World, s: Step)
    requires Allowed(w, s) && PendingLive(w) && w.phase == Cleared
    ensures Next(w, s).phase == Cleared
  {
  }

  lemma ClearedIsEmpty(w: World)
    requires Invariant(w) && w.phase == Cleared
    ensures w.shared.pending == map[]
  {
  }
}
