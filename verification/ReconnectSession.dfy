/** Whole runs of the reconnect scheduler together with the swarm that carries out its dials. */
module ReconnectSession {
  import opened Words
  import opened Addresses
  import opened Reconnect

  type ConnId = nat

  datatype Link = Link(peer: PeerId, dialed: bool)

  /** `issued` are the dials the swarm has taken and not yet answered. */
  datatype World = World(base: Base, issued: multiset<PeerId>, open: map<ConnId, Link>)

  datatype Step =
    | SetMaintain
    | Nodes(order: seq<PeerId>)
    | Find(peer: PeerId)
    | DoPoll(expired: seq<PeerId>)
    | Progress(query: QueryId, found: Option<seq<Addr>>, last: bool)
    | Learned(peer: PeerId, addrs: seq<Addr>)
    | Resolved(peer: PeerId)
    | Connected(conn: ConnId, peer: PeerId, addr: Addr, own: bool)
    | Failed(peer: PeerId, error: DialError, own: bool)
    | Accepted(conn: ConnId, peer: PeerId)
    | Closed(conn: ConnId)

  function DialedTo(open: map<ConnId, Link>, p: PeerId): set<ConnId> { set c | c in open && open[c] == Link(p, true) }

  /** What the swarm and the network may do; `own` marks the end of one of our dials. */
  predicate Allowed(w: World, s: Step) {
    match s
    case DoPoll(expired) => multiset(expired) <= multiset(w.base.queue)
    case Connected(conn, peer, _, own) =>
      conn !in w.open && (own ==> peer in w.issued) && |DialedTo(w.open, peer)| < U32_MAX
    case Failed(peer, _, own) => own ==> peer in w.issued
    case Accepted(conn, _) => conn !in w.open
    case Closed(conn) => conn in w.open
    case _ => true
  }

  function Issue(issued: multiset<PeerId>, dial: Option<PeerId>): multiset<PeerId> {
    if dial.Some? then issued + multiset{dial.value} else issued
  }

  function Settle(issued: multiset<PeerId>, p: PeerId, own: bool): multiset<PeerId> {
    if own then issued - multiset{p} else issued
  }

  function Next(w: World, s: Step): World
    requires Allowed(w, s) && Kept(w.base)
  {
    match s
    case SetMaintain => w.(base := w.base.(maintain := true))
    case Nodes(order) => w.(base := OnNodesUpdate(w.base, order))
    case Find(peer) => w.(base := FindAndDial(w.base, peer))
    case DoPoll(expired) =>
      var (b, dial) := Poll(w.base, expired);
      w.(base := b, issued := Issue(w.issued, dial))
    case Progress(query, found, last) =>
      var (b, dial) := OnLookupProgress(w.base, query, found, last);
      w.(base := b, issued := Issue(w.issued, dial))
    case Learned(peer, addrs) => w.(base := w.base.(cache := Put(w.base.cache, peer, addrs)))
    case Resolved(peer) => w.(base := w.base.(cache := Touch(w.base.cache, peer)))
    case Connected(conn, peer, addr, own) =>
      var b := w.base.(cache := Put(w.base.cache, peer, [addr]));
      World(OnEstablished(b, peer, true), Settle(w.issued, peer, own), w.open[conn := Link(peer, true)])
    case Failed(peer, error, own) =>
      w.(base := Reconnect.OnDialFailure(w.base, Some(peer), error), issued := Settle(w.issued, peer, own))
    case Accepted(conn, peer) =>
      w.(base := OnEstablished(w.base, peer, false), open := w.open[conn := Link(peer, false)])
    case Closed(conn) =>
      var link := w.open[conn];
      w.(base := OnClosed(w.base, link.peer, link.dialed), open := w.open - {conn})
  }

  // ----- bookkeeping over whole runs -----

  /** Each counter is the number of open connections we dialed. */
  predicate Counted(conns: map<PeerId, u32>, open: map<ConnId, Link>, p: PeerId) {
    |DialedTo(open, p)| == if p in conns then conns[p] else 0
  }

  ghost predicate AllCounted(conns: map<PeerId, u32>, open: map<ConnId, Link>) { forall p :: Counted(conns, open, p) }

  ghost predicate Sound(w: World) { Kept(w.base) && AllCounted(w.base.conns, w.open) }

  function Start(cacheSize: nat, maxLookups: nat): World {
    World(Base(Cache(cacheSize, []), [], map[], 0, map[], {}, false, [], [], maxLookups, {}), multiset{}, map[])
  }

  lemma {:induction false} OpenOne(open: map<ConnId, Link>, conn: ConnId, link: Link, p: PeerId)
    requires conn !in open
    ensures |DialedTo(open[conn := link], p)| == |DialedTo(open, p)| + if link == Link(p, true) then 1 else 0
  {
    if link == Link(p, true) {
      assert DialedTo(open[conn := link], p) == DialedTo(open, p) + {conn};
    } else {
      assert DialedTo(open[conn := link], p) == DialedTo(open, p);
    }
  }

  lemma {:induction false} CloseOne(open: map<ConnId, Link>, conn: ConnId, p: PeerId)
    requires conn in open
    ensures |DialedTo(open - {conn}, p)| == |DialedTo(open, p)| - if open[conn] == Link(p, true) then 1 else 0
  {
    if open[conn] == Link(p, true) {
      assert DialedTo(open, p) == DialedTo(open - {conn}, p) + {conn};
    } else {
      assert DialedTo(open - {conn}, p) == DialedTo(open, p);
    }
  }

  lemma {:induction false} PollConns(b: Base, expired: seq<PeerId>)
    ensures Poll(b, expired).0.conns == b.conns
  {
    PollTracks(b, expired);
  }

  lemma {:induction false} ConnectKeepsCount(w: World, conn: ConnId, link: Link)
    requires Sound(w) && conn !in w.open && |DialedTo(w.open, link.peer)| < U32_MAX
    ensures AllCounted(OnEstablished(w.base, link.peer, link.dialed).conns, w.open[conn := link])
  {
    var conns, open := OnEstablished(w.base, link.peer, link.dialed).conns, w.open[conn := link];
    forall p ensures Counted(conns, open, p) {
      OpenOne(w.open, conn, link, p);
      assert Counted(w.base.conns, w.open, p);
      assert Counted(w.base.conns, w.open, link.peer);
    }
  }

  /** A close always finds its counter above zero. */
  lemma {:induction false} CloseKeepsCount(w: World, conn: ConnId)
    requires Sound(w) && conn in w.open
    ensures var link := w.open[conn];
            && (link.dialed ==> link.peer in w.base.conns && w.base.conns[link.peer] > 0)
            && AllCounted(OnClosed(w.base, link.peer, link.dialed).conns, w.open - {conn})
  {
    var link := w.open[conn];
    assert Counted(w.base.conns, w.open, link.peer);
    if link.dialed {
      assert conn in DialedTo(w.open, link.peer);
    }
    var conns, open := OnClosed(w.base, link.peer, link.dialed).conns, w.open - {conn};
    forall p ensures Counted(conns, open, p) {
      CloseOne(w.open, conn, p);
      assert Counted(w.base.conns, w.open, p);
    }
  }

  lemma {:induction false} AddMissingConns(b: Base, order: seq<PeerId>)
    ensures OnNodesUpdate(b, order).conns == b.conns
  {
    if b.maintain {
      NodesUpdateTracks(b, order);
    }
  }

  lemma {:induction false} StepKeepsBase(w: World, s: Step)
    requires Sound(w) && Allowed(w, s)
    ensures Kept(Next(w, s).base)
  {
    match s
    case SetMaintain =>
    case Nodes(order) =>
      if w.base.maintain {
        AddMissingKeeps(w.base.(workers := set p | p in order), order);
      }
    case Find(peer) => FindAndDialKeeps(w.base, peer);
    case DoPoll(expired) => PollKeeps(w.base, expired);
    case Progress(query, found, last) => LookupKeeps(w.base, query, found, last);
    case Learned(peer, addrs) => PutEffect(w.base.cache, peer, addrs, peer);
    case Resolved(peer) => TouchEffect(w.base.cache, peer, peer);
    case Connected(_, peer, addr, _) => PutEffect(w.base.cache, peer, [addr], peer);
    case Failed(peer, error, _) => DialFailureKeeps(w.base, Some(peer), error);
    case Accepted(_, _) =>
    case Closed(conn) => CloseKeepsBase(w.base, w.open[conn]);
  }

  lemma {:induction false} CloseKeepsBase(b: Base, link: Link)
    requires Kept(b)
    ensures Kept(OnClosed(b, link.peer, link.dialed))
  {
    if link.dialed && link.peer in b.conns {
      ScheduleKeeps(b.(conns := b.conns[link.peer := (b.conns[link.peer] - 1) % (U32_MAX + 1)]), link.peer);
    } else {
      ScheduleKeeps(b, link.peer);
    }
  }

  /** Every step keeps the books. */
  lemma {:induction false} StepSound(w: World, s: Step)
    requires Sound(w) && Allowed(w, s)
    ensures Sound(Next(w, s))
  {
    StepKeepsBase(w, s);
    match s
    case Nodes(order) => AddMissingConns(w.base, order);
    case DoPoll(expired) => PollConns(w.base, expired);
    case Connected(conn, peer, addr, _) =>
      ConnectKeepsCount(w.(base := w.base.(cache := Next(w, s).base.cache)), conn, Link(peer, true));
    case Accepted(conn, peer) => AcceptKeepsCount(w, conn, peer);
    case Closed(conn) => CloseKeepsCount(w, conn);
    case _ =>
  }

  lemma {:induction false} AcceptKeepsCount(w: World, conn: ConnId, peer: PeerId)
    requires Sound(w) && conn !in w.open
    ensures AllCounted(w.base.conns, w.open[conn := Link(peer, false)])
  {
    var open := w.open[conn := Link(peer, false)];
    forall p ensures Counted(w.base.conns, open, p) {
      OpenOne(w.open, conn, Link(peer, false), p);
      assert Counted(w.base.conns, w.open, p);
    }
  }

  // ----- no worker is forgotten -----

  /** A peer is connected, about to be, or on its way through the scheduler. */
  predicate Cover(w: World, p: PeerId) { Tracked(w.base, p) || p in w.issued }

  predicate AllCovered(w: World) { forall p :: p in w.base.workers ==> Cover(w, p) }

  predicate Covered(w: World) { w.base.maintain ==> AllCovered(w) }

  /** When maintaining starts all workers must be covered; a dial of ours that ends in any other
      way than a connection or an unreachable peer must leave its worker covered by something else. */
  predicate Resumes(w: World, s: Step) {
    match s
    case SetMaintain => AllCovered(w)
    case Failed(p, error, own) =>
      !own || Unreachable(error) || !w.base.maintain || p !in w.base.workers
      || Tracked(w.base, p) || p in w.issued - multiset{p}
    case _ => true
  }

  lemma {:induction false} PollCovers(w: World, expired: seq<PeerId>)
    requires Sound(w) && Covered(w) && Allowed(w, DoPoll(expired))
    ensures Covered(Next(w, DoPoll(expired)))
  {
    PollTracks(w.base, expired);
  }

  lemma {:induction false} ConnectCovers(w: World, s: Step)
    requires Sound(w) && Covered(w) && s.Connected? && Allowed(w, s)
    ensures Covered(Next(w, s))
  {
    var w1 := Next(w, s);
    assert Counted(w.base.conns, w.open, s.peer);
    assert ConnExists(w1.base, s.peer);
    forall p | w1.base.maintain && p in w1.base.workers ensures Cover(w1, p) {
      assert Cover(w, p);
    }
  }

  lemma CloseCovers(w: World, conn: ConnId)
    requires Sound(w) && Covered(w) && conn in w.open
    ensures Covered(Next(w, Closed(conn)))
  {
  }

  lemma FailureCoversIff(w: World, p: PeerId, e: DialError, own: bool)
    requires Sound(w) && Covered(w) && Allowed(w, Failed(p, e, own))
    ensures Covered(Next(w, Failed(p, e, own))) <==> Resumes(w, Failed(p, e, own))
  {
  }

  /** From a covered state, a step leaves the workers covered exactly when it resumes. */
  lemma {:induction false} StepCoveredIff(w: World, s: Step)
    requires Sound(w) && Covered(w) && Allowed(w, s)
    ensures Covered(Next(w, s)) <==> Resumes(w, s)
  {
    match s
    case SetMaintain => assert AllCovered(Next(w, s)) <==> AllCovered(w);
    case Nodes(order) =>
      if w.base.maintain {
        NodesUpdateTracks(w.base, order);
      }
    case Find(peer) => FindAndDialTracks(w.base, peer);
    case DoPoll(expired) => PollCovers(w, expired);
    case Progress(query, found, last) =>
    case Learned(peer, addrs) => CacheIsIrrelevant(w, Put(w.base.cache, peer, addrs));
    case Resolved(peer) => CacheIsIrrelevant(w, Touch(w.base.cache, peer));
    case Connected(_, _, _, _) => ConnectCovers(w, s);
    case Failed(peer, error, own) => FailureCoversIff(w, peer, error, own);
    case Accepted(conn, peer) => assert Next(w, s).base == w.base;
    case Closed(conn) => CloseCovers(w, conn);
  }

  lemma CacheIsIrrelevant(w: World, cache: Cache)
    ensures Covered(w.(base := w.base.(cache := cache))) <==> Covered(w)
  {
  }

  /** A node update in maintain mode covers every worker, whatever came before. */
  lemma {:induction false} NodesUpdateHeals(w: World, order: seq<PeerId>)
    requires Sound(w) && w.base.maintain
    ensures AllCovered(Next(w, Nodes(order)))
  {
    NodesUpdateTracks(w.base, order);
  }

  // ----- runs -----

  ghost predicate AllowedRun(w: World, ss: seq<Step>)
    requires Sound(w)
    decreases |ss|
  {
    ss == [] || (Allowed(w, ss[0]) && (StepSound(w, ss[0]); AllowedRun(Next(w, ss[0]), ss[1..])))
  }

  ghost function After(w: World, ss: seq<Step>): World
    requires Sound(w) && AllowedRun(w, ss)
    decreases |ss|
  {
    if ss == [] then w else StepSound(w, ss[0]); After(Next(w, ss[0]), ss[1..])
  }

  ghost predicate AlwaysCovered(w: World, ss: seq<Step>)
    requires Sound(w) && AllowedRun(w, ss)
    decreases |ss|
  {
    Covered(w) && (ss != [] ==> (StepSound(w, ss[0]); AlwaysCovered(Next(w, ss[0]), ss[1..])))
  }

  ghost predicate AlwaysResumes(w: World, ss: seq<Step>)
    requires Sound(w) && AllowedRun(w, ss)
    decreases |ss|
  {
    ss != [] ==> Resumes(w, ss[0]) && (StepSound(w, ss[0]); AlwaysResumes(Next(w, ss[0]), ss[1..]))
  }

  /** Whatever the swarm does, the books are right in every reachable state. */
  lemma {:induction false} RunSound(w: World, ss: seq<Step>)
    requires Sound(w) && AllowedRun(w, ss)
    ensures Sound(After(w, ss))
    decreases |ss|
  {
    if ss != [] {
      StepSound(w, ss[0]);
      RunSound(Next(w, ss[0]), ss[1..]);
    }
  }

  /** No worker is ever stranded in a run exactly when every step of the run resumes. */
  lemma {:induction false} NoStrandedWorker(w: World, ss: seq<Step>)
    requires Sound(w) && Covered(w) && AllowedRun(w, ss)
    ensures AlwaysCovered(w, ss) <==> AlwaysResumes(w, ss)
    decreases |ss|
  {
    if ss != [] {
      StepSound(w, ss[0]);
      StepCoveredIff(w, ss[0]);
      if Resumes(w, ss[0]) {
        NoStrandedWorker(Next(w, ss[0]), ss[1..]);
      } else {
        NotCoveredNow(Next(w, ss[0]), ss[1..]);
      }
    }
  }

  lemma NotCoveredNow(w: World, ss: seq<Step>)
    requires Sound(w) && AllowedRun(w, ss) && !Covered(w)
    ensures !AlwaysCovered(w, ss)
  {
  }

  lemma StartSound(cacheSize: nat, maxLookups: nat)
    requires cacheSize >= 1
    ensures Sound(Start(cacheSize, maxLookups)) && Covered(Start(cacheSize, maxLookups))
  {
  }

  // ----- the promise, read off the steps -----

  /** Each of our dials ends in a connection or as unreachable. */
  predicate DialsResolve(ss: seq<Step>) {
    forall i :: 0 <= i < |ss| && ss[i].Failed? && ss[i].own ==> Unreachable(ss[i].error)
  }

  predicate NeverSetsMaintain(ss: seq<Step>) { forall i :: 0 <= i < |ss| ==> !ss[i].SetMaintain? }

  /** Maintaining starts before the first node update, if at all. */
  predicate MaintainFirst(ss: seq<Step>) { forall i, j :: 0 <= i < j < |ss| && ss[i].Nodes? ==> !ss[j].SetMaintain? }

  lemma {:induction false} OnlyNodesSetWorkers(w: World, s: Step)
    requires Sound(w) && Allowed(w, s) && !s.Nodes?
    ensures Next(w, s).base.workers == w.base.workers
  {
    if s.DoPoll? {
      PollTracks(w.base, s.expired);
    }
  }

  lemma {:induction false} PromisedRunsResume(w: World, ss: seq<Step>)
    requires Sound(w) && AllowedRun(w, ss) && DialsResolve(ss) && MaintainFirst(ss)
    requires w.base.workers == {} || NeverSetsMaintain(ss)
    ensures AlwaysResumes(w, ss)
    decreases |ss|
  {
    if ss != [] {
      StepSound(w, ss[0]);
      if !ss[0].Nodes? {
        OnlyNodesSetWorkers(w, ss[0]);
      }
      PromisedRunsResume(Next(w, ss[0]), ss[1..]);
    }
  }

  /**
   * In every run in which maintaining starts before the first node update and each of our dials ends
   * in a connection or as unreachable, no registered worker is ever forgotten.
   */
  lemma {:induction false} NoWorkerForgotten(cacheSize: nat, maxLookups: nat, ss: seq<Step>)
    requires cacheSize >= 1 && AllowedRun(Start(cacheSize, maxLookups), ss)
    requires DialsResolve(ss) && MaintainFirst(ss)
    ensures AlwaysCovered(Start(cacheSize, maxLookups), ss)
  {
    var w := Start(cacheSize, maxLookups);
    StartSound(cacheSize, maxLookups);
    PromisedRunsResume(w, ss);
    NoStrandedWorker(w, ss);
  }

  // ----- a run that strands a worker -----

  /** A base that maintains one worker, with the given queue contents. */
  function OneWorker(cache: Cache, pending: seq<PeerId>, scheduled: set<PeerId>): Base {
    Base(cache, [], map[], 0, map[], {7}, true, [], pending, 1, scheduled)
  }

  lemma {:induction false} WorkerIsDialed(cache: Cache)
    requires Contains(cache, 7)
    ensures Poll(OneWorker(cache, [7], {7}), []) == (OneWorker(cache, [], {}), Some(7))
  {
    var b := OneWorker(cache, [7], {7});
    assert [7][1..] == [];
    assert StartOne(b) == OneWorker(cache, [], {}).(events := [7]);
    assert StartLookups(b) == StartOne(b);
  }

  /** A worker is connected to us, but not we to it, when its cached address is dialed. */
  function StrandingStep(i: nat): Step {
    if i == 0 then SetMaintain
    else if i == 1 then Nodes([7])
    else if i == 2 then Learned(7, [Addr(1, true)])
    else if i == 3 then Accepted(0, 7)
    else if i == 4 then DoPoll([])
    else Failed(7, DialPeerConditionFalse, true)
  }

  function StrandingWorld(i: nat): World {
    var empty, known := Cache(1, []), Cache(1, [Entry(7, {Addr(1, true)})]);
    if i == 0 then Start(1, 1)
    else if i == 1 then Start(1, 1).(base := Start(1, 1).base.(maintain := true))
    else if i == 2 then World(OneWorker(empty, [7], {7}), multiset{}, map[])
    else if i == 3 then World(OneWorker(known, [7], {7}), multiset{}, map[])
    else if i == 4 then World(OneWorker(known, [7], {7}), multiset{}, map[0 := Link(7, false)])
    else if i == 5 then World(OneWorker(known, [], {}), multiset{7}, map[0 := Link(7, false)])
    else World(OneWorker(known, [], {}), multiset{}, map[0 := Link(7, false)])
  }

  predicate Linked(w: World, s: Step, w1: World) { Kept(w.base) && Allowed(w, s) && Next(w, s) == w1 }

  lemma LinkMaintain()
    ensures Linked(StrandingWorld(0), SetMaintain, StrandingWorld(1))
  {
  }

  lemma LinkNodes()
    ensures Linked(StrandingWorld(1), Nodes([7]), StrandingWorld(2))
  {
  }

  lemma {:induction false} LinkLearned()
    ensures Linked(StrandingWorld(2), Learned(7, [Addr(1, true)]), StrandingWorld(3))
  {
    assert Reachable([Addr(1, true)]) == {Addr(1, true)};
  }

  lemma LinkAccepted()
    ensures Linked(StrandingWorld(3), Accepted(0, 7), StrandingWorld(4))
  {
  }

  lemma {:induction false} LinkPoll()
    ensures Linked(StrandingWorld(4), DoPoll([]), StrandingWorld(5))
  {
    WorkerIsDialed(StrandingWorld(4).base.cache);
  }

  lemma LinkFailed()
    ensures Linked(StrandingWorld(5), Failed(7, DialPeerConditionFalse, true), StrandingWorld(6))
  {
  }

  lemma {:induction false} StrandingLink(i: nat)
    requires i < 6
    ensures Linked(StrandingWorld(i), StrandingStep(i), StrandingWorld(i + 1))
  {
    if i == 0 { LinkMaintain(); }
    else if i == 1 { LinkNodes(); }
    else if i == 2 { LinkLearned(); }
    else if i == 3 { LinkAccepted(); }
    else if i == 4 { LinkPoll(); }
    else { LinkFailed(); }
  }

  function StrandingRun(i: nat): seq<Step>
    decreases 6 - i
  {
    if i >= 6 then [] else [StrandingStep(i)] + StrandingRun(i + 1)
  }

  lemma {:induction false} StrandingEnds(i: nat)
    requires i <= 6 && Sound(StrandingWorld(i))
    ensures AllowedRun(StrandingWorld(i), StrandingRun(i))
    ensures After(StrandingWorld(i), StrandingRun(i)) == StrandingWorld(6)
    decreases 6 - i
  {
    if i < 6 {
      StrandingLink(i);
      StepSound(StrandingWorld(i), StrandingStep(i));
      StrandingEnds(i + 1);
      Prepend(StrandingWorld(i), StrandingStep(i), StrandingRun(i + 1), StrandingWorld(6));
    }
  }

  lemma Prepend(w: World, s: Step, ss: seq<Step>, end: World)
    requires Sound(w) && Allowed(w, s) && Sound(Next(w, s))
    requires AllowedRun(Next(w, s), ss) && After(Next(w, s), ss) == end
    ensures AllowedRun(w, [s] + ss) && After(w, [s] + ss) == end
  {
  }

  /** Such a dial is skipped, and the worker is left to the next node update. */
  lemma {:induction false} SkippedDialStrands()
    ensures Sound(Start(1, 1)) && AllowedRun(Start(1, 1), StrandingRun(0))
    ensures !Covered(After(Start(1, 1), StrandingRun(0)))
  {
    StartSound(1, 1);
    StrandingEnds(0);
    NothingLeft(StrandingWorld(6));
  }

  lemma NothingLeft(w: World)
    requires w == StrandingWorld(6)
    ensures !Covered(w)
  {
  }
}
