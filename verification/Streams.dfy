/** Opening streams to peers: channels that carry requests to connections, and the dials behind them. */
module Streams {
  import opened Words

  type ConnId = nat
  type ChanId = nat
  type ReqId = nat

  datatype Answer =
    | Opened(remote: PeerId)   // a stream to this peer
    | UnsupportedProtocol
    | NotConnected
    | ConnectionReset
    | TimedOut
    | OtherIo

  /**
   * The message channels shared by all parts. A channel is live while its receiver exists; when
   * that is dropped, so are the requests in it, and their callers see a reset connection.
   */
  datatype Wires = Wires(
    live: map<ChanId, seq<ReqId>>,
    nextChan: ChanId,
    answers: map<ReqId, Answer>,
    dialQueue: seq<PeerId>,
    dialOpen: bool)

  datatype Shared = Shared(
    connections: map<ConnId, PeerId>,
    senders: map<ConnId, ChanId>,
    pending: map<PeerId, ChanId>)

  /** The receiving end at a connection, with the request it is negotiating. */
  datatype Handler = Handler(remote: PeerId, chan: ChanId, upgrade: Option<ReqId>)

  // ----- the channels -----

  function NewChannel(x: Wires): Wires { x.(live := x.live[x.nextChan := []], nextChan := x.nextChan + 1) }

  function QueuedIn(x: Wires, chans: set<ChanId>): set<ReqId> {
    set c, r | c in chans && c in x.live && r in x.live[c] :: r
  }

  /** Ends channels, answering what they hold. */
  function Cut(x: Wires, chans: set<ChanId>, a: Answer): Wires {
    x.(live := x.live - chans, answers := x.answers + map r | r in QueuedIn(x, chans) :: a)
  }

  function Reply(x: Wires, r: ReqId, a: Answer): Wires { x.(answers := x.answers[r := a]) }

  /** Sending succeeds at once unless the receiver is gone: every sender has a slot of its own. */
  function Send(x: Wires, c: ChanId, r: ReqId): Wires {
    if c in x.live then x.(live := x.live[c := x.live[c] + [r]]) else Reply(x, r, ConnectionReset)
  }

  /** Hands the requests of one channel to another. */
  function Forward(x: Wires, from: ChanId, to: ChanId): Wires
    requires from in x.live
  {
    if to in x.live then x.(live := x.live[to := x.live[to] + x.live[from]] - {from})
    else Cut(x, {from}, ConnectionReset)
  }

  /** Takes the first request out of a channel. */
  function Pop(x: Wires, c: ChanId): Wires
    requires c in x.live && x.live[c] != []
  {
    x.(live := x.live[c := x.live[c][1..]])
  }

  function AllAnswered(q: seq<ReqId>, a: Answer): map<ReqId, Answer> { map r | r in q :: a }

  lemma AnswerFirst(answers: map<ReqId, Answer>, q: seq<ReqId>, a: Answer)
    requires q != []
    ensures answers[q[0] := a] + AllAnswered(q[1..], a) == answers + AllAnswered(q, a)
  {
  }

  lemma CutSingle(x: Wires, c: ChanId, a: Answer)
    requires c in x.live
    ensures Cut(x, {c}, a) == x.(live := x.live - {c}, answers := x.answers + AllAnswered(x.live[c], a))
  {
  }

  /** Answering requests one by one and ending the channel is the same as ending it at once. */
  lemma {:induction false} CutOneByOne(x: Wires, c: ChanId, a: Answer)
    requires c in x.live
    ensures x.live[c] == [] ==> Cut(x, {c}, a) == x.(live := x.live - {c})
    ensures x.live[c] != [] ==> Cut(Reply(Pop(x, c), x.live[c][0], a), {c}, a) == Cut(x, {c}, a)
  {
    CutSingle(x, c, a);
    if x.live[c] != [] {
      var y := Reply(Pop(x, c), x.live[c][0], a);
      CutSingle(y, c, a);
      AnswerFirst(x.answers, x.live[c], a);
      assert y.live - {c} == x.live - {c};
    } else {
      assert x.answers + AllAnswered([], a) == x.answers;
    }
  }

  lemma {:induction false} ForwardOneByOne(x: Wires, from: ChanId, to: ChanId)
    requires from in x.live && from != to
    ensures x.live[from] == [] ==> Forward(x, from, to) == x.(live := x.live - {from})
    ensures x.live[from] != [] ==>
              var y := Send(Pop(x, from), to, x.live[from][0]);
              from in y.live && y.live[from] == x.live[from][1..] && Forward(y, from, to) == Forward(x, from, to)
  {
    CutOneByOne(x, from, ConnectionReset);
    if to in x.live {
      ForwardLiveOne(x.live, from, to);
    }
  }

  lemma {:induction false} ForwardLiveOne(live: map<ChanId, seq<ReqId>>, from: ChanId, to: ChanId)
    requires from in live && to in live && from != to
    ensures live[from] == [] ==> live[to := live[to] + live[from]] - {from} == live - {from}
    ensures live[from] != [] ==>
              var q := live[from];
              var live1 := live[from := q[1..]][to := live[to] + [q[0]]];
              live1[to := live1[to] + live1[from]] - {from} == live[to := live[to] + q] - {from}
  {
    if live[from] == [] {
      assert live[to] + live[from] == live[to];
    } else {
      var q := live[from];
      assert live[to] + [q[0]] + q[1..] == live[to] + q;
    }
  }

  // ----- the shared state -----

  /** Pending channels have live receivers, and no connection sends to one. */
  predicate Apart(s: Shared, x: Wires) {
    && (forall p :: p in s.pending ==> s.pending[p] in x.live)
    && (forall p, c :: p in s.pending && c in s.senders ==> s.pending[p] != s.senders[c])
  }

  predicate Connected(s: Shared, p: PeerId) { exists c :: c in s.connections && s.connections[c] == p }

  /** `pick` stands for the random choice among the connections to a peer. */
  predicate ValidPick(s: Shared, p: PeerId, pick: Option<ConnId>) {
    match pick
    case Some(c) => c in s.connections && s.connections[c] == p
    case None => !Connected(s, p)
  }

  function ConnectedSender(s: Shared, pick: Option<ConnId>): Option<ChanId> {
    if pick.Some? && pick.value in s.senders then Some(s.senders[pick.value]) else None
  }

  function Sender(s: Shared, x: Wires, p: PeerId, pick: Option<ConnId>): (Shared, Wires, Result<ChanId, Answer>) {
    match ConnectedSender(s, pick)
    case Some(c) => (s, x, Ok(c))
    case None =>
      if p in s.pending then (s, x, Ok(s.pending[p]))
      else if !x.dialOpen then (s, x, Err(NotConnected))
      else (s.(pending := s.pending[p := x.nextChan]), NewChannel(x.(dialQueue := x.dialQueue + [p])), Ok(x.nextChan))
  }

  function Receiver(s: Shared, x: Wires, p: PeerId, conn: ConnId): (Shared, Wires, ChanId) {
    if p in s.pending
    then (s.(pending := s.pending - {p}, senders := s.senders[conn := s.pending[p]]), x, s.pending[p])
    else (s.(senders := s.senders[conn := x.nextChan]), NewChannel(x), x.nextChan)
  }

  function OnConnectionEstablished(s: Shared, conn: ConnId, p: PeerId): Shared {
    s.(connections := s.connections[conn := p])
  }

  function OnConnectionClosed(s: Shared, conn: ConnId): Shared {
    s.(connections := s.connections - {conn}, senders := s.senders - {conn})
  }

  function OnDialFailure(s: Shared, x: Wires, p: PeerId): (Shared, Wires) {
    if p !in s.pending then (s, x)
    else (s.(pending := s.pending - {p}), Cut(x, {s.pending[p]}, NotConnected))
  }

  function OnDialSkipped(s: Shared, x: Wires, p: PeerId, pick: Option<ConnId>): (Shared, Wires)
    requires p in s.pending ==> s.pending[p] in x.live
  {
    match ConnectedSender(s, pick)
    case None => (s, x)
    case Some(to) =>
      if p !in s.pending then (s, x)
      else (s.(pending := s.pending - {p}), Forward(x, s.pending[p], to))
  }

  function OnBehaviourDropped(s: Shared, x: Wires): (Shared, Wires) {
    (s.(pending := map[]), Cut(x, s.pending.Values, ConnectionReset))
  }

  // ----- a connection's handler -----

  function PollHandler(h: Handler, x: Wires): (Handler, Wires) {
    if h.upgrade.Some? || h.chan !in x.live || x.live[h.chan] == [] then (h, x)
    else (h.(upgrade := Some(x.live[h.chan][0])), x.(live := x.live[h.chan := x.live[h.chan][1..]]))
  }

  /** The end of a negotiation; without one under way the event is ignored. */
  function EndUpgrade(h: Handler, x: Wires, a: Answer): (Handler, Wires) {
    if h.upgrade.None? then (h, x) else (h.(upgrade := None), Reply(x, h.upgrade.value, a))
  }

  /** A connection's task is over: its channel and its negotiation end with it. */
  function DropHandler(h: Handler, x: Wires): Wires {
    var y := Cut(x, {h.chan}, ConnectionReset);
    if h.upgrade.Some? then Reply(y, h.upgrade.value, ConnectionReset) else y
  }
}
