/** Which answer each request gets, and in which order requests are served. */
module StreamAnswers {
  import opened Words
  import opened Sequences
  import opened Streams
  import opened StreamSession
  import opened StreamPlaces
  import opened StreamRoutes
  import opened StreamRuns

  // ----- answers -----

  /** The request waits in the pending channel of a peer. */
  predicate WaitsFor(w: World, p: PeerId, r: ReqId) {
    p in w.shared.pending && Queued(w.wires.live, w.shared.pending[p], r)
  }

  predicate ConnectionGone(w: World, pick: Option<ConnId>) {
    pick.Some? && pick.value in w.shared.senders && w.shared.senders[pick.value] !in w.wires.live
  }

  /** What a step answers a request with, if it does. */
  function AnswerAt(w: World, s: Step, r: ReqId): Option<Answer>
    requires Allowed(w, s)
  {
    match s
    case Ask(req, peer, pick) =>
      if r == req && pick.None? && peer !in w.shared.pending && !w.wires.dialOpen then Some(NotConnected) else None
    case Submit(req) => if r == req && w.callers[req] !in w.wires.live then Some(ConnectionReset) else None
    case DialSkipped(p, pick, _) => if WaitsFor(w, p, r) && ConnectionGone(w, pick) then Some(ConnectionReset) else None
    case DialFailed(p, _) => if WaitsFor(w, p, r) then Some(NotConnected) else None
    case Deny(dialed) => if dialed && WaitsFor(w, w.building.value.1, r) then Some(NotConnected) else None
    case Drop(conn) => if HeldBy(w, conn, r) then Some(ConnectionReset) else None
    case Negotiated(conn) =>
      if w.handlers[conn].upgrade == Some(r) then Some(Opened(w.handlers[conn].remote)) else None
    case UpgradeFailed(conn, error) => if w.handlers[conn].upgrade == Some(r) then Some(error) else None
    case ClearPending => if exists p :: p in w.shared.pending && WaitsFor(w, p, r) then Some(ConnectionReset) else None
    case _ => None
  }

  /** The answer of `r` in `y` is the one in `x`, or the given one if there was none. */
  predicate AnswersWith(x: Wires, y: Wires, r: ReqId, a: Option<Answer>) {
    && (r in y.answers <==> r in x.answers || a.Some?)
    && (r in y.answers ==> y.answers[r] == if a.Some? then a.value else x.answers[r])
  }

  lemma CutAnswers(x: Wires, chans: set<ChanId>, a: Answer, r: ReqId)
    ensures AnswersWith(x, Cut(x, chans, a), r,
                        if exists c :: c in chans && Queued(x.live, c, r) then Some(a) else None)
  {
  }

  lemma {:induction false} CutOneAnswers(x: Wires, c: ChanId, a: Answer, r: ReqId)
    ensures AnswersWith(x, Cut(x, {c}, a), r, if Queued(x.live, c, r) then Some(a) else None)
  {
    CutAnswers(x, {c}, a, r);
    if Queued(x.live, c, r) {
      assert c in {c};
    }
  }

  lemma {:induction false} AskAnswers(w: World, s: Step, r: ReqId, owner: Owners)
    requires Routed(w, owner) && Allowed(w, s) && PendingLive(w) && s.Ask?
    ensures AnswersWith(w.wires, Next(w, s).wires, r, AnswerAt(w, s, r))
  {
    SenderLeads(w, s.peer, s.pick, owner);
  }

  lemma {:induction false} EndAnswers(w: World, p: PeerId, r: ReqId)
    ensures AnswersWith(w.wires, OnDialFailure(w.shared, w.wires, p).1, r,
                        if WaitsFor(w, p, r) then Some(NotConnected) else None)
  {
    if p in w.shared.pending {
      CutOneAnswers(w.wires, w.shared.pending[p], NotConnected, r);
    }
  }

  lemma {:induction false} SkipAnswers(w: World, p: PeerId, pick: Option<ConnId>, r: ReqId)
    requires PendingLive(w)
    ensures AnswersWith(w.wires, OnDialSkipped(w.shared, w.wires, p, pick).1, r,
                        if WaitsFor(w, p, r) && ConnectionGone(w, pick) then Some(ConnectionReset) else None)
  {
    if p in w.shared.pending {
      CutOneAnswers(w.wires, w.shared.pending[p], ConnectionReset, r);
    }
  }

  lemma {:induction false} DropAnswers(w: World, conn: ConnId, r: ReqId)
    requires conn in w.handlers
    ensures AnswersWith(w.wires, DropHandler(w.handlers[conn], w.wires), r,
                        if HeldBy(w, conn, r) then Some(ConnectionReset) else None)
  {
    CutOneAnswers(w.wires, w.handlers[conn].chan, ConnectionReset, r);
  }

  lemma {:induction false} ClearAnswers(w: World, r: ReqId)
    ensures AnswersWith(w.wires, OnBehaviourDropped(w.shared, w.wires).1, r,
                        if exists p :: p in w.shared.pending && WaitsFor(w, p, r) then Some(ConnectionReset) else None)
  {
    CutAnswers(w.wires, w.shared.pending.Values, ConnectionReset, r);
    if c :| c in w.shared.pending.Values && Queued(w.wires.live, c, r) {
      var p :| p in w.shared.pending && w.shared.pending[p] == c;
      assert WaitsFor(w, p, r);
    }
    if p :| p in w.shared.pending && WaitsFor(w, p, r) {
      assert w.shared.pending[p] in w.shared.pending.Values;
    }
  }

  lemma {:induction false} TaskAnswers(w: World, s: Step, r: ReqId)
    requires Allowed(w, s) && PendingLive(w) && ByTask(s)
    ensures AnswersWith(w.wires, Next(w, s).wires, r, AnswerAt(w, s, r))
  {
    if s.Drop? {
      DropAnswers(w, s.conn, r);
    }
  }

  lemma {:induction false} SwarmAnswers(w: World, s: Step, r: ReqId)
    requires Allowed(w, s) && PendingLive(w) && !ByTask(s) && !s.Ask?
    ensures AnswersWith(w.wires, Next(w, s).wires, r, AnswerAt(w, s, r))
  {
    if s.DialSkipped? {
      SkipAnswers(w, s.peer, s.pick, r);
    } else if s.DialFailed? {
      EndAnswers(w, s.peer, r);
    } else if s.Deny? {
      EndAnswers(w, w.building.value.1, r);
    } else if s.ClearPending? {
      ClearAnswers(w, r);
    }
  }

  /** Every step answers exactly the requests it ends, each with the answer for that end. */
  lemma {:induction false} AnswersExact(w: World, s: Step, r: ReqId)
    requires Invariant(w) && Allowed(w, s)
    ensures PendingLive(w) && AnswersWith(w.wires, Next(w, s).wires, r, AnswerAt(w, s, r))
  {
    var at, owner :| Sound(w, at, owner);
    RoutedFacts(w, owner);
    if ByTask(s) {
      TaskAnswers(w, s, r);
    } else if s.Ask? {
      AskAnswers(w, s, r, owner);
    } else {
      SwarmAnswers(w, s, r);
    }
  }

  lemma OpensOnly(w: World, s: Step, r: ReqId, p: PeerId)
    requires Allowed(w, s)
    ensures AnswerAt(w, s, r) == Some(Opened(p))
        <==> s.Negotiated? && w.handlers[s.conn].upgrade == Some(r) && p == w.handlers[s.conn].remote
  {
  }

  lemma {:induction false} NegotiatesForTarget(w: World, h: ConnId, r: ReqId)
    requires Invariant(w) && h in w.handlers && w.handlers[h].upgrade == Some(r)
    ensures r in w.target && w.target[r] == w.handlers[h].remote
  {
    RightPeer(w, r);
  }

  /** A request gets a stream exactly when its negotiation succeeds, and then to the peer it asked for. */
  lemma {:induction false} OpenedIff(w: World, s: Step, r: ReqId, p: PeerId)
    requires Invariant(w) && Allowed(w, s) && r in w.target && r !in w.wires.answers
    ensures PendingLive(w)
    ensures r in Next(w, s).wires.answers && Next(w, s).wires.answers[r] == Opened(p)
        <==> s.Negotiated? && w.handlers[s.conn].upgrade == Some(r) && p == w.target[r]
  {
    AnswersExact(w, s, r);
    OpensOnly(w, s, r, p);
    if s.Negotiated? && w.handlers[s.conn].upgrade == Some(r) {
      NegotiatesForTarget(w, s.conn, r);
    }
  }

  // ----- order -----

  predicate AheadIn(q: seq<ReqId>, first: ReqId, second: ReqId) {
    exists i, j :: 0 <= i < j < |q| && q[i] == first && q[j] == second
  }

  /** Both requests wait in one channel, the first nearer to its head. */
  predicate Ahead(live: map<ChanId, seq<ReqId>>, first: ReqId, second: ReqId) {
    exists c :: c in live && AheadIn(live[c], first, second)
  }

  ghost predicate Waits(live: map<ChanId, seq<ReqId>>, r: ReqId) { exists c :: Queued(live, c, r) }

  /** If the first request still waits, it is still ahead of the second. */
  ghost predicate StaysAhead(live: map<ChanId, seq<ReqId>>, first: ReqId, second: ReqId) {
    Waits(live, first) ==> Ahead(live, first, second)
  }

  lemma {:induction false} AheadStays(q: seq<ReqId>, before: seq<ReqId>, after: seq<ReqId>, first: ReqId, second: ReqId)
    requires AheadIn(q, first, second)
    ensures AheadIn(before + q + after, first, second)
  {
    var i, j :| 0 <= i < j < |q| && q[i] == first && q[j] == second;
    var all := before + q + after;
    assert all[|before| + i] == first && all[|before| + j] == second;
  }

  lemma {:induction false} AheadOfRest(q: seq<ReqId>, first: ReqId, second: ReqId)
    requires AheadIn(q, first, second) && Distinct(q) && q[0] != first
    ensures AheadIn(q[1..], first, second)
  {
    var i, j :| 0 <= i < j < |q| && q[i] == first && q[j] == second;
    assert q[1..][i - 1] == first && q[1..][j - 1] == second;
  }

  /** The first request waits in `c` and nowhere else, ahead of the second. */
  ghost predicate AheadOnly(live: map<ChanId, seq<ReqId>>, c: ChanId, first: ReqId, second: ReqId) {
    && c in live && AheadIn(live[c], first, second) && Distinct(live[c])
    && forall d :: Queued(live, d, first) ==> d == c
  }

  lemma {:induction false} OneChannel(w: World, first: ReqId, second: ReqId) returns (c: ChanId)
    requires Invariant(w) && Ahead(w.wires.live, first, second)
    ensures AheadOnly(w.wires.live, c, first, second)
  {
    c :| c in w.wires.live && AheadIn(w.wires.live[c], first, second);
    var at, owner :| Sound(w, at, owner);
    assert HoldsOnly(w.wires.live[c], c, at);
    assert first in w.wires.live[c];
    forall d | Queued(w.wires.live, d, first) ensures d == c {
      assert HoldsOnly(w.wires.live[d], d, at);
    }
  }

  lemma {:induction false} GrowingKeepsOrder(
    live: map<ChanId, seq<ReqId>>, after: map<ChanId, seq<ReqId>>, c: ChanId, first: ReqId, second: ReqId)
    requires AheadOnly(live, c, first, second) && c in after && live[c] <= after[c]
    ensures StaysAhead(after, first, second)
  {
    AheadStays(live[c], [], after[c][|live[c]|..], first, second);
    assert after[c] == [] + live[c] + after[c][|live[c]|..];
  }

  lemma {:induction false} EndingKeepsOrder(
    live: map<ChanId, seq<ReqId>>, chans: set<ChanId>, c: ChanId, first: ReqId, second: ReqId)
    requires AheadOnly(live, c, first, second)
    ensures StaysAhead(live - chans, first, second)
  {
    var after := live - chans;
    if c in chans {
      forall d ensures !Queued(after, d, first) {
        assert Queued(after, d, first) ==> Queued(live, d, first);
      }
    } else {
      assert c in after && AheadIn(after[c], first, second);
    }
  }

  lemma {:induction false} TakingKeepsOrder(
    live: map<ChanId, seq<ReqId>>, d: ChanId, c: ChanId, first: ReqId, second: ReqId)
    requires AheadOnly(live, c, first, second) && d in live && live[d] != []
    ensures StaysAhead(live[d := live[d][1..]], first, second)
  {
    var after := live[d := live[d][1..]];
    if d != c {
      assert c in after && AheadIn(after[c], first, second);
    } else if live[c][0] == first {
      forall e ensures !Queued(after, e, first) {
        if e == c {
          assert live[c] == [live[c][0]] + live[c][1..];
        } else {
          assert Queued(after, e, first) ==> Queued(live, e, first);
        }
      }
    } else {
      AheadOfRest(live[c], first, second);
      assert c in after && AheadIn(after[c], first, second);
    }
  }

  lemma {:induction false} ForwardingKeepsOrder(
    x: Wires, from: ChanId, to: ChanId, c: ChanId, first: ReqId, second: ReqId)
    requires AheadOnly(x.live, c, first, second) && from in x.live && from != to
    ensures StaysAhead(Forward(x, from, to).live, first, second)
  {
    if to !in x.live {
      EndingKeepsOrder(x.live, {from}, c, first, second);
    } else {
      var after := Forward(x, from, to).live;
      if c == from {
        AheadStays(x.live[c], x.live[to], [], first, second);
        assert after[to] == x.live[to] + x.live[c] + [];
        assert Ahead(after, first, second);
      } else {
        GrowingKeepsOrder(x.live, after, c, first, second);
      }
    }
  }

  lemma {:induction false} TaskKeepsOrder(w: World, s: Step, c: ChanId, first: ReqId, second: ReqId)
    requires AheadOnly(w.wires.live, c, first, second) && Allowed(w, s) && PendingLive(w) && ByTask(s)
    ensures StaysAhead(Next(w, s).wires.live, first, second)
  {
    var live := w.wires.live;
    if s.Drop? {
      EndingKeepsOrder(live, {w.handlers[s.conn].chan}, c, first, second);
    } else if s.Submit? {
      GrowingKeepsOrder(live, Next(w, s).wires.live, c, first, second);
    } else {
      GrowingKeepsOrder(live, live, c, first, second);
      var h := w.handlers[s.conn];
      if s.Poll? && h.upgrade.None? && h.chan in live && live[h.chan] != [] {
        TakingKeepsOrder(live, h.chan, c, first, second);
      }
    }
  }

  lemma {:induction false} SkipKeepsOrder(
    w: World, p: PeerId, pick: Option<ConnId>, c: ChanId, first: ReqId, second: ReqId)
    requires AheadOnly(w.wires.live, c, first, second) && PendingLive(w) && Apart(w.shared, w.wires)
    ensures StaysAhead(OnDialSkipped(w.shared, w.wires, p, pick).1.live, first, second)
  {
    var pending, to := w.shared.pending, ConnectedSender(w.shared, pick);
    if p in pending && to.Some? {
      ForwardingKeepsOrder(w.wires, pending[p], to.value, c, first, second);
    } else {
      GrowingKeepsOrder(w.wires.live, w.wires.live, c, first, second);
    }
  }

  lemma {:induction false} EndKeepsOrder(w: World, p: PeerId, c: ChanId, first: ReqId, second: ReqId)
    requires AheadOnly(w.wires.live, c, first, second)
    ensures StaysAhead(w.wires.live, first, second)
    ensures StaysAhead(OnDialFailure(w.shared, w.wires, p).1.live, first, second)
  {
    GrowingKeepsOrder(w.wires.live, w.wires.live, c, first, second);
    if p in w.shared.pending {
      EndingKeepsOrder(w.wires.live, {w.shared.pending[p]}, c, first, second);
    }
  }

  lemma {:induction false} DialsKeepOrder(w: World, s: Step, c: ChanId, first: ReqId, second: ReqId)
    requires AheadOnly(w.wires.live, c, first, second) && Allowed(w, s) && PendingLive(w) && Apart(w.shared, w.wires)
    requires s.DialSkipped? || s.DialFailed? || s.Deny? || s.ClearPending?
    ensures StaysAhead(Next(w, s).wires.live, first, second)
  {
    if s.DialSkipped? {
      SkipKeepsOrder(w, s.peer, s.pick, c, first, second);
    } else if s.ClearPending? {
      EndingKeepsOrder(w.wires.live, w.shared.pending.Values, c, first, second);
    } else {
      EndKeepsOrder(w, if s.DialFailed? then s.peer else w.building.value.1, c, first, second);
    }
  }

  lemma {:induction false} OthersKeepOrder(w: World, s: Step, c: ChanId, first: ReqId, second: ReqId)
    requires AheadOnly(w.wires.live, c, first, second) && Allowed(w, s) && PendingLive(w) && !ByTask(s)
    requires !s.DialSkipped? && !s.DialFailed? && !s.Deny? && !s.ClearPending? && c < w.wires.nextChan
    ensures StaysAhead(Next(w, s).wires.live, first, second)
  {
    GrowingKeepsOrder(w.wires.live, Next(w, s).wires.live, c, first, second);
  }

  lemma {:induction false} ChannelsAreNumbered(w: World, c: ChanId)
    requires Invariant(w) && c in w.wires.live
    ensures c < w.wires.nextChan
  {
    var at, owner :| Sound(w, at, owner);
    assert c in owner;
  }

  /** Requests are served in the order they were sent: none leaves a channel before one ahead of it. */
  lemma {:induction false} OrderKept(w: World, s: Step, first: ReqId, second: ReqId)
    requires Invariant(w) && Allowed(w, s) && Ahead(w.wires.live, first, second)
    ensures PendingLive(w) && StaysAhead(Next(w, s).wires.live, first, second)
  {
    StepInvariant(w, s);
    SharedIsApart(w);
    var c := OneChannel(w, first, second);
    ChannelsAreNumbered(w, c);
    if ByTask(s) {
      TaskKeepsOrder(w, s, c, first, second);
    } else if s.DialSkipped? || s.DialFailed? || s.Deny? || s.ClearPending? {
      DialsKeepOrder(w, s, c, first, second);
    } else {
      OthersKeepOrder(w, s, c, first, second);
    }
  }

  /** A request that is sent goes behind all that wait in its channel. */
  lemma {:induction false} SentGoesLast(w: World, req: ReqId, other: ReqId)
    requires Allowed(w, Submit(req)) && PendingLive(w) && Queued(w.wires.live, w.callers[req], other)
    ensures Ahead(Next(w, Submit(req)).wires.live, other, req)
  {
    var c, live := w.callers[req], Next(w, Submit(req)).wires.live;
    var i :| 0 <= i < |w.wires.live[c]| && w.wires.live[c][i] == other;
    assert live[c][i] == other && live[c][|w.wires.live[c]|] == req;
    assert AheadIn(live[c], other, req);
  }

  /** A free handler takes up the oldest request of its channel; a busy one takes none. */
  lemma {:induction false} OldestIsTaken(w: World, conn: ConnId, r: ReqId)
    requires Allowed(w, Poll(conn)) && PendingLive(w)
    ensures var h, h1 := w.handlers[conn], Next(w, Poll(conn)).handlers[conn];
            && h1.remote == h.remote && h1.chan == h.chan
            && (h.upgrade.Some? ==> h1.upgrade == h.upgrade)
            && (h.upgrade.None? ==> (h1.upgrade.Some? <==> exists q :: Queued(w.wires.live, h.chan, q)))
            && (h.upgrade.None? && h1.upgrade == Some(r) ==>
                  && Queued(w.wires.live, h.chan, r)
                  && forall q :: Queued(w.wires.live, h.chan, q) && q != r ==> AheadIn(w.wires.live[h.chan], r, q))
  {
    var h, live := w.handlers[conn], w.wires.live;
    if h.upgrade.None? && h.chan in live && live[h.chan] != [] {
      assert Queued(live, h.chan, live[h.chan][0]);
      forall q | Queued(live, h.chan, q) && q != live[h.chan][0] ensures AheadIn(live[h.chan], live[h.chan][0], q) {
        var j :| 0 <= j < |live[h.chan]| && live[h.chan][j] == q;
      }
    }
  }

  // ----- where a request goes, and when a peer is dialed -----

  /**
   * A caller is given a channel of a connection to the peer, or the pending one, or a new one with a
   * dial queued behind all others, or an error; and only in the third case is a dial queued.
   */
  lemma {:induction false} AskGoesTo(w: World, s: Step)
    requires Invariant(w) && Allowed(w, s) && s.Ask?
    ensures PendingLive(w)
    ensures var w1 := Next(w, s);
            if Connected(w.shared, s.peer) then
              && s.pick.Some? && s.pick.value in w.shared.senders
              && s.req in w1.callers && w1.callers[s.req] == w.shared.senders[s.pick.value]
              && w1.shared == w.shared && w1.wires == w.wires
            else if s.peer in w.shared.pending then
              && s.req in w1.callers && w1.callers[s.req] == w.shared.pending[s.peer]
              && w1.shared == w.shared && w1.wires == w.wires
            else if w.wires.dialOpen then
              && s.req in w1.callers && w1.callers[s.req] !in w.wires.live && w1.callers[s.req] in w1.wires.live
              && w1.shared.pending == w.shared.pending[s.peer := w1.callers[s.req]]
              && w1.wires.dialQueue == w.wires.dialQueue + [s.peer]
            else
              s.req !in w1.callers && w1.shared == w.shared && w1.wires.dialQueue == w.wires.dialQueue
  {
    var at, owner :| Sound(w, at, owner);
    RoutedFacts(w, owner);
    SenderLeads(w, s.peer, s.pick, owner);
    assert w.wires.nextChan !in owner;
    assert s.req !in at.Keys;
  }

  /** A connection's handler gets the requests that waited for its peer, or an empty channel. */
  lemma {:induction false} BuildServes(w: World, conn: ConnId, p: PeerId, dialed: bool)
    requires Invariant(w) && Allowed(w, Build(conn, p, dialed))
    ensures PendingLive(w)
    ensures var w1 := Next(w, Build(conn, p, dialed));
            && conn in w1.handlers && w1.handlers[conn].remote == p && w1.handlers[conn].upgrade.None?
            && var c := w1.handlers[conn].chan;
               && conn in w1.shared.senders && w1.shared.senders[conn] == c && p !in w1.shared.pending
               && c in w1.wires.live
               && (if p in w.shared.pending then c == w.shared.pending[p] && w1.wires.live[c] == w.wires.live[c]
                   else c !in w.wires.live && w1.wires.live[c] == [])
  {
    var at, owner :| Sound(w, at, owner);
    RoutedFacts(w, owner);
    assert w.wires.nextChan !in owner;
  }

  /** From then on its peer counts as connected, and callers are given that channel. */
  lemma {:induction false} EstablishConnects(w: World)
    requires Invariant(w) && Allowed(w, Establish)
    ensures PendingLive(w)
    ensures var w1, (conn, p) := Next(w, Establish), w.building.value;
            && Connected(w1.shared, p) && w1.shared.connections == w.shared.connections[conn := p]
            && conn in w1.shared.senders && w1.building.None?
            && w1.wires == w.wires && w1.shared.pending == w.shared.pending
  {
    var at, owner :| Sound(w, at, owner);
    RoutedFacts(w, owner);
    assert w.building.value.0 in Next(w, Establish).shared.connections;
  }

  /** A closed connection is no longer used. */
  lemma CloseForgets(w: World, conn: ConnId)
    requires Allowed(w, Close(conn)) && PendingLive(w)
    ensures var w1 := Next(w, Close(conn));
            && w1.shared.connections == w.shared.connections - {conn} && conn !in w1.shared.senders
            && w1.wires == w.wires && w1.shared.pending == w.shared.pending
  {
  }
}
