/** Every request is in exactly one place, in every reachable state. */
module StreamPlaces {
  import opened Words
  import opened Sequences
  import opened Streams
  import opened StreamSession

  datatype Place = AtCaller | InChannel(chan: ChanId) | Negotiating(conn: ConnId) | Done

  type Places = map<ReqId, Place>

  predicate HoldsOnly(q: seq<ReqId>, c: ChanId, at: Places) {
    Distinct(q) && forall r :: r in q ==> r in at && at[r] == InChannel(c)
  }

  predicate Queued(live: map<ChanId, seq<ReqId>>, c: ChanId, r: ReqId) { c in live && r in live[c] }

  predicate InLive(live: map<ChanId, seq<ReqId>>, at: Places) {
    && (forall c :: c in live ==> HoldsOnly(live[c], c, at))
    && (forall r :: r in at && at[r].InChannel? ==> Queued(live, at[r].chan, r))
  }

  predicate InAnswers(answers: map<ReqId, Answer>, at: Places) {
    && (forall r :: r in answers ==> r in at && at[r].Done?)
    && (forall r :: r in at && at[r].Done? ==> r in answers)
  }

  predicate InWires(x: Wires, at: Places) { InLive(x.live, at) && InAnswers(x.answers, at) }

  predicate InHandlers(handlers: map<ConnId, Handler>, at: Places) {
    && (forall h :: h in handlers && handlers[h].upgrade.Some? ==>
          handlers[h].upgrade.value in at && at[handlers[h].upgrade.value] == Negotiating(h))
    && (forall r :: r in at && at[r].Negotiating? ==> at[r].conn in handlers && handlers[at[r].conn].upgrade == Some(r))
  }

  predicate AtCallers(callers: map<ReqId, ChanId>, at: Places) {
    && (forall r :: r in callers ==> r in at && at[r].AtCaller?)
    && (forall r :: r in at && at[r].AtCaller? ==> r in callers)
  }

  /** `at` names the one place of each request. */
  predicate Placed(w: World, at: Places) {
    at.Keys == w.target.Keys && InWires(w.wires, at) && InHandlers(w.handlers, at) && AtCallers(w.callers, at)
  }

  /** Where the requests of ended channels go. */
  function Redirect(at: Places, chans: set<ChanId>, to: Place): Places {
    map r | r in at :: if at[r].InChannel? && at[r].chan in chans then to else at[r]
  }

  lemma CutPlaced(x: Wires, chans: set<ChanId>, a: Answer, at: Places)
    requires InWires(x, at)
    ensures InWires(Cut(x, chans, a), Redirect(at, chans, Done))
  {
  }

  lemma RedirectFrame(w: World, chans: set<ChanId>, to: Place, at: Places)
    requires Placed(w, at) && (to.InChannel? || to.Done?)
    ensures Redirect(at, chans, to).Keys == w.target.Keys
    ensures InHandlers(w.handlers, Redirect(at, chans, to)) && AtCallers(w.callers, Redirect(at, chans, to))
  {
  }

  lemma SendPlaced(x: Wires, c: ChanId, r: ReqId, at: Places)
    requires InWires(x, at) && (r in at ==> at[r].AtCaller?)
    ensures InWires(Send(x, c, r), at[r := if c in x.live then InChannel(c) else Done])
  {
  }

  lemma {:induction false} JoinDistinct(a: seq<ReqId>, b: seq<ReqId>)
    requires Distinct(a) && Distinct(b) && forall r :: r in a ==> r !in b
    ensures Distinct(a + b)
  {
    forall i, j | 0 <= i < j < |a + b| ensures (a + b)[i] != (a + b)[j] {
      if i < |a| <= j {
        assert a[i] in a && b[j - |a|] in b;
      }
    }
  }

  lemma {:induction false} ForwardPlaced(x: Wires, from: ChanId, to: ChanId, at: Places)
    requires InWires(x, at) && from in x.live && from != to
    ensures InWires(Forward(x, from, to), Redirect(at, {from}, if to in x.live then InChannel(to) else Done))
  {
    if to in x.live {
      ForwardLive(x.live, from, to, at);
    } else {
      CutPlaced(x, {from}, ConnectionReset, at);
    }
  }

  lemma {:induction false} ForwardLive(live: map<ChanId, seq<ReqId>>, from: ChanId, to: ChanId, at: Places)
    requires InLive(live, at) && from in live && to in live && from != to
    ensures InLive(live[to := live[to] + live[from]] - {from}, Redirect(at, {from}, InChannel(to)))
  {
    var live1, at1 := live[to := live[to] + live[from]] - {from}, Redirect(at, {from}, InChannel(to));
    assert HoldsOnly(live[from], from, at) && HoldsOnly(live[to], to, at);
    JoinDistinct(live[to], live[from]);
    forall c | c in live1 ensures HoldsOnly(live1[c], c, at1) {
      assert HoldsOnly(live[c], c, at);
    }
    forall r | r in at1 && at1[r].InChannel? ensures Queued(live1, at1[r].chan, r) {
      assert Queued(live, at[r].chan, r);
    }
  }

  lemma NewChannelPlaced(x: Wires, at: Places)
    requires InWires(x, at) && x.nextChan !in x.live
    ensures InWires(NewChannel(x), at)
  {
  }

  lemma TakeLive(live: map<ChanId, seq<ReqId>>, c: ChanId, conn: ConnId, at: Places)
    requires InLive(live, at) && c in live && live[c] != []
    ensures live[c][0] in at && at[live[c][0]] == InChannel(c)
    ensures InLive(live[c := live[c][1..]], at[live[c][0] := Negotiating(conn)])
  {
  }

  lemma FinishLive(live: map<ChanId, seq<ReqId>>, r: ReqId, at: Places)
    requires InLive(live, at) && (r in at ==> !at[r].InChannel?)
    ensures InLive(live, at[r := Done])
  {
  }

  lemma HandlerTakes(handlers: map<ConnId, Handler>, conn: ConnId, r: ReqId, at: Places)
    requires InHandlers(handlers, at) && conn in handlers && handlers[conn].upgrade.None?
    requires r in at && !at[r].Negotiating?
    ensures InHandlers(handlers[conn := handlers[conn].(upgrade := Some(r))], at[r := Negotiating(conn)])
  {
  }

  /** With the request of its negotiation done, a handler may go on or go away. */
  lemma HandlerFinishes(handlers: map<ConnId, Handler>, conn: ConnId, at: Places)
    requires InHandlers(handlers, at) && conn in handlers
    ensures var h := handlers[conn];
            var at1 := if h.upgrade.None? then at else at[h.upgrade.value := Done];
            InHandlers(handlers[conn := h.(upgrade := None)], at1) && InHandlers(handlers - {conn}, at1)
  {
  }

  lemma CallersStay(callers: map<ReqId, ChanId>, r: ReqId, to: Place, at: Places)
    requires AtCallers(callers, at) && r in at && !at[r].AtCaller? && !to.AtCaller?
    ensures AtCallers(callers, at[r := to])
  {
  }

  lemma AnswersStay(answers: map<ReqId, Answer>, r: ReqId, to: Place, at: Places)
    requires InAnswers(answers, at) && r in at && !at[r].Done? && !to.Done?
    ensures InAnswers(answers, at[r := to])
  {
  }

  lemma {:induction false} PollPlaced(w: World, conn: ConnId, at: Places)
    requires Placed(w, at) && conn in w.handlers
    ensures var h := w.handlers[conn];
            var (h1, x1) := PollHandler(h, w.wires);
            var at1 := if h1 == h then at else at[w.wires.live[h.chan][0] := Negotiating(conn)];
            Placed(w.(wires := x1, handlers := w.handlers[conn := h1]), at1)
  {
    var h, live := w.handlers[conn], w.wires.live;
    assert w.handlers[conn := h] == w.handlers;
    if h.upgrade.None? && h.chan in live && live[h.chan] != [] {
      TakeLive(live, h.chan, conn, at);
      var r := live[h.chan][0];
      HandlerTakes(w.handlers, conn, r, at);
      CallersStay(w.callers, r, Negotiating(conn), at);
      AnswersStay(w.wires.answers, r, Negotiating(conn), at);
    }
  }

  lemma {:induction false} EndUpgradePlaced(w: World, conn: ConnId, a: Answer, at: Places)
    requires Placed(w, at) && conn in w.handlers
    ensures var h := w.handlers[conn];
            var (h1, x1) := EndUpgrade(h, w.wires, a);
            var at1 := if h.upgrade.None? then at else at[h.upgrade.value := Done];
            Placed(w.(wires := x1, handlers := w.handlers[conn := h1]), at1)
  {
    var h := w.handlers[conn];
    assert w.handlers[conn := h] == w.handlers;
    if h.upgrade.Some? {
      HandlerFinishes(w.handlers, conn, at);
      FinishLive(w.wires.live, h.upgrade.value, at);
      FinishAnswers(w.wires.answers, h.upgrade.value, a, at);
      CallersStay(w.callers, h.upgrade.value, Done, at);
    }
  }

  lemma {:induction false} DropPlaced(w: World, conn: ConnId, at: Places)
    requires Placed(w, at) && conn in w.handlers
    ensures var h := w.handlers[conn];
            var at0 := Redirect(at, {h.chan}, Done);
            var at1 := if h.upgrade.None? then at0 else at0[h.upgrade.value := Done];
            Placed(w.(wires := DropHandler(h, w.wires), handlers := w.handlers - {conn}), at1)
  {
    var h := w.handlers[conn];
    var y, at0 := Cut(w.wires, {h.chan}, ConnectionReset), Redirect(at, {h.chan}, Done);
    CutPlaced(w.wires, {h.chan}, ConnectionReset, at);
    RedirectFrame(w, {h.chan}, Done, at);
    HandlerFinishes(w.handlers, conn, at0);
    if h.upgrade.Some? {
      var r := h.upgrade.value;
      FinishLive(y.live, r, at0);
      FinishAnswers(y.answers, r, ConnectionReset, at0);
      CallersStay(w.callers, r, Done, at0);
    }
  }

  lemma FinishAnswers(answers: map<ReqId, Answer>, r: ReqId, a: Answer, at: Places)
    requires InAnswers(answers, at)
    ensures InAnswers(answers[r := a], at[r := Done])
  {
  }
}
