/** When the scheduler acts: who waits, for how long, and what a poll does with those who waited. */
module Cooldown {
  import opened Words
  import opened Sequences
  import opened Addresses
  import opened Reconnect
  import opened ReconnectSession

  // ----- a poll, described at once -----

  /** The peers of `s` that are in `keep`, in order. */
  function Picked(s: seq<PeerId>, keep: set<PeerId>): seq<PeerId> {
    if s == [] then [] else (if s[0] in keep then [s[0]] else []) + Picked(s[1..], keep)
  }

  lemma {:induction false} PickedHas(s: seq<PeerId>, keep: set<PeerId>, p: PeerId)
    ensures p in Picked(s, keep) <==> p in s && p in keep
  {
    if s != [] {
      PickedHas(s[1..], keep, p);
      assert s == [s[0]] + s[1..];
    }
  }

  lemma Regroup(a: seq<PeerId>, c: seq<PeerId>, d: seq<PeerId>)
    ensures (a + c) + d == a + (c + d)
  {
  }

  lemma {:induction false} PickedConcat(a: seq<PeerId>, c: seq<PeerId>, keep: set<PeerId>)
    ensures Picked(a + c, keep) == Picked(a, keep) + Picked(c, keep)
  {
    if a == [] {
      assert a + c == c;
    } else {
      assert (a + c)[1..] == a[1..] + c;
      PickedConcat(a[1..], c, keep);
      var head := if a[0] in keep then [a[0]] else [];
      Regroup(head, Picked(a[1..], keep), Picked(c, keep));
    }
  }

  function Elems(s: seq<PeerId>): set<PeerId> { set p | p in s }

  lemma ElemsConcat(a: seq<PeerId>, c: seq<PeerId>)
    ensures Elems(a + c) == Elems(a) + Elems(c)
  {
  }

  /** Workers that must still be reconnected. */
  function Due(b: Base): set<PeerId> { set p | p in b.workers && !ConnExists(b, p) }

  /** Unconnected peers with a known address. */
  function Known(b: Base): set<PeerId> {
    set e | e in b.cache.entries && !ConnExists(b, e.peer) :: e.peer
  }

  /** Peers for which no lookup is needed: connected, or with a known address. */
  function Settled(b: Base): set<PeerId> { (set p | p in b.conns && b.conns[p] > 0) + Known(b) }

  lemma {:induction false} ListedIff(es: seq<Entry>, p: PeerId)
    ensures Listed(es, p) <==> exists e :: e in es && e.peer == p
  {
    if es != [] {
      ListedIff(es[1..], p);
      assert es == [es[0]] + es[1..];
    }
  }

  lemma {:induction false} KnownIff(b: Base, p: PeerId)
    ensures p in Known(b) <==> Contains(b.cache, p) && !ConnExists(b, p)
  {
    ListedIff(b.cache.entries, p);
  }

  lemma {:induction false} ExpiredQueue(b: Base, expired: seq<PeerId>)
    ensures multiset(ExpireAll(b, expired).queue) == multiset(b.queue) - multiset(expired)
    decreases |expired|
  {
    if expired != [] {
      var p, rest := expired[0], expired[1..];
      RemoveOne(b.queue, p);
      ExpiredQueue(Expire(b, p), rest);
      assert expired == [p] + rest;
      assert multiset(b.queue) - multiset{p} - multiset(rest) == multiset(b.queue) - multiset(expired);
    }
  }

  lemma {:induction false} ExpiredPending(b: Base, expired: seq<PeerId>)
    ensures ExpireAll(b, expired).pending == b.pending + Picked(expired, Due(b))
    decreases |expired|
  {
    if expired == [] {
      assert b.pending + [] == b.pending;
    } else {
      var b0, keep := Expire(b, expired[0]), Due(b);
      ExpiredPending(b0, expired[1..]);
      assert Due(b0) == keep;
      var head := if expired[0] in keep then [expired[0]] else [];
      assert b0.pending == b.pending + head;
      Regroup(b.pending, head, Picked(expired[1..], keep));
    }
  }

  lemma {:induction false} ExpiredScheduled(b: Base, expired: seq<PeerId>)
    ensures ExpireAll(b, expired).scheduled == b.scheduled - (Elems(expired) - Due(b))
    ensures ExpireAll(b, expired).cache == b.cache && ExpireAll(b, expired).nextQuery == b.nextQuery
    decreases |expired|
  {
    if expired != [] {
      var b0 := Expire(b, expired[0]);
      ExpiredScheduled(b0, expired[1..]);
      assert Due(b0) == Due(b);
      assert expired == [expired[0]] + expired[1..];
    }
  }

  // ----- the lookup loop -----

  /** What taking the waiting peers `taken` leads to. */
  predicate Took(b: Base, b1: Base, taken: seq<PeerId>) {
    && b.pending == taken + b1.pending
    && b1.scheduled == b.scheduled - Elems(taken)
    && b1.events == b.events + Picked(taken, Known(b))
    && b1.lookups.Keys == b.lookups.Keys + (Elems(taken) - Settled(b))
    && (forall p :: p in b.lookups ==> p in b1.lookups && b1.lookups[p] == b.lookups[p])
    && Frame(b, b1)
  }

  predicate Frame(b: Base, b1: Base) {
    && b1.cache == b.cache && b1.conns == b.conns && b1.workers == b.workers && b1.maintain == b.maintain
    && b1.queue == b.queue && b1.maxLookups == b.maxLookups
  }

  lemma {:induction false} TookNone(b: Base)
    ensures Took(b, b, [])
  {
    assert [] + b.pending == b.pending && b.events + [] == b.events;
    assert b.lookups.Keys + (Elems([]) - Settled(b)) == b.lookups.Keys;
    assert b.scheduled - Elems([]) == b.scheduled;
  }

  lemma {:induction false} TookOne(b: Base)
    requires b.pending != []
    ensures Took(b, StartOne(b), [b.pending[0]])
  {
    var p := b.pending[0];
    KnownIff(b, p);
    assert b.pending == [p] + b.pending[1..];
    assert Picked([p], Known(b)) == if p in Known(b) then [p] else [] by {
      assert [p][1..] == [];
    }
    assert Elems([p]) == {p};
    assert p in Settled(b) <==> ConnExists(b, p) || p in Known(b);
  }

  lemma {:induction false} TookMore(b: Base, b1: Base, b2: Base, a: seq<PeerId>, c: seq<PeerId>)
    requires Took(b, b1, a) && Took(b1, b2, c)
    ensures Took(b, b2, a + c)
  {
    SettledStays(b, b1);
    Regroup(a, c, b2.pending);
    PickedConcat(a, c, Known(b));
    Regroup(b.events, Picked(a, Known(b)), Picked(c, Known(b)));
    ElemsConcat(a, c);
    assert (Elems(a) + Elems(c)) - Settled(b) == (Elems(a) - Settled(b)) + (Elems(c) - Settled(b));
  }

  /** The peers being looked up once `taken` have been taken. */
  function Slots(lookups: set<PeerId>, settled: set<PeerId>, taken: seq<PeerId>): set<PeerId> {
    lookups + (Elems(taken) - settled)
  }

  lemma {:induction false} SlotsAfter(
    lookups: set<PeerId>, lookups1: set<PeerId>, settled: set<PeerId>, a: seq<PeerId>, c: seq<PeerId>)
    requires lookups1 == lookups + (Elems(a) - settled)
    ensures Slots(lookups, settled, a + c) == Slots(lookups1, settled, c)
  {
    ElemsConcat(a, c);
  }

  /** Before each of these peers was taken a slot was free. */
  predicate SlotsFree(lookups: set<PeerId>, settled: set<PeerId>, taken: seq<PeerId>, max: nat) {
    forall j :: 0 <= j < |taken| ==> |Slots(lookups, settled, taken[..j])| < max
  }

  lemma {:induction false} SlotsFreeCons(
    lookups: set<PeerId>, lookups1: set<PeerId>, settled: set<PeerId>, p: PeerId, rest: seq<PeerId>, max: nat)
    requires |lookups| < max && lookups1 == lookups + (Elems([p]) - settled)
    requires SlotsFree(lookups1, settled, rest, max)
    ensures SlotsFree(lookups, settled, [p] + rest, max)
  {
    var taken := [p] + rest;
    forall j | 0 <= j < |taken| ensures |Slots(lookups, settled, taken[..j])| < max {
      if j == 0 {
        assert Slots(lookups, settled, taken[..j]) == lookups;
      } else {
        assert taken[..j] == [p] + rest[..j - 1];
        SlotsAfter(lookups, lookups1, settled, [p], rest[..j - 1]);
      }
    }
  }

  lemma SettledStays(b: Base, b1: Base)
    requires Frame(b, b1)
    ensures Known(b1) == Known(b) && Settled(b1) == Settled(b)
  {
  }

  function Taken(b: Base): seq<PeerId>
    decreases |b.pending|
  {
    if |b.lookups| < b.maxLookups && b.pending != [] then [b.pending[0]] + Taken(StartOne(b)) else []
  }

  lemma {:induction false} TookAll(b: Base)
    ensures Took(b, StartLookups(b), Taken(b))
    decreases |b.pending|
  {
    if |b.lookups| < b.maxLookups && b.pending != [] {
      TookOne(b);
      TookAll(StartOne(b));
      TookMore(b, StartOne(b), StartLookups(StartOne(b)), [b.pending[0]], Taken(StartOne(b)));
    } else {
      TookNone(b);
    }
  }

  lemma {:induction false} TookWithinSlots(b: Base)
    ensures SlotsFree(b.lookups.Keys, Settled(b), Taken(b), b.maxLookups)
    decreases |b.pending|
  {
    if |b.lookups| < b.maxLookups && b.pending != [] {
      var b1 := StartOne(b);
      TookOne(b);
      SettledStays(b, b1);
      TookWithinSlots(b1);
      SlotsFreeCons(b.lookups.Keys, b1.lookups.Keys, Settled(b), b.pending[0], Taken(b1), b.maxLookups);
    }
  }

  // ----- a poll of the world -----

  /** The peers of a poll that wait for a lookup slot: those who did before, then those whose cooldown ended. */
  function Waiting(b: Base, expired: seq<PeerId>): seq<PeerId> { b.pending + Picked(expired, Due(b)) }

  /** The dials a poll has ready: those it had before, then those of the peers it takes. */
  function Ready(b: Base, taken: seq<PeerId>): seq<PeerId> { b.events + Picked(taken, Known(b)) }

  /** What became of the peers that waited: the first ones were taken, as many as free slots allowed. */
  ghost predicate Served(b: Base, expired: seq<PeerId>, taken: seq<PeerId>, b1: Base) {
    && Waiting(b, expired) == taken + b1.pending
    && (b1.pending == [] || |b1.lookups| >= b.maxLookups)
    && SlotsFree(b.lookups.Keys, Settled(b), taken, b.maxLookups)
    && multiset(b1.queue) == multiset(b.queue) - multiset(expired)
    && b1.scheduled == b.scheduled - (Elems(expired) - Due(b)) - Elems(taken)
  }

  /** Each of them was skipped if connected, dialed if its address is known, and looked up otherwise. */
  ghost predicate Started(b: Base, taken: seq<PeerId>, b1: Base) {
    && b1.lookups.Keys == b.lookups.Keys + (Elems(taken) - Settled(b))
    && (forall p :: p in b.lookups ==> p in b1.lookups && b1.lookups[p] == b.lookups[p])
    && b1.cache == b.cache && b1.conns == b.conns && b1.workers == b.workers && b1.maintain == b.maintain
  }

  lemma {:induction false} LoopsServe(b: Base, b0: Base, b1: Base, expired: seq<PeerId>, taken: seq<PeerId>)
    requires b0 == ExpireAll(b, expired) && Took(b0, b1, taken)
    requires SlotsFree(b0.lookups.Keys, Settled(b0), taken, b0.maxLookups)
    requires b1.pending == [] || |b1.lookups| >= b.maxLookups
    ensures Served(b, expired, taken, b1) && Started(b, taken, b1) && b1.events == Ready(b, taken)
  {
    ExpireAllFrame(b, expired);
    ExpiredQueue(b, expired);
    ExpiredPending(b, expired);
    ExpiredScheduled(b, expired);
    SettledAlike(b, b0);
  }

  lemma {:induction false} LoopsExact(b: Base, expired: seq<PeerId>) returns (taken: seq<PeerId>)
    ensures var b1 := StartLookups(ExpireAll(b, expired));
            Served(b, expired, taken, b1) && Started(b, taken, b1) && b1.events == Ready(b, taken)
  {
    var b0 := ExpireAll(b, expired);
    taken := Taken(b0);
    TookAll(b0);
    TookWithinSlots(b0);
    LookupsCapped(b0);
    ExpireAllFrame(b, expired);
    LoopsServe(b, b0, StartLookups(b0), expired, taken);
  }

  lemma EventsAreApart(b: Base, expired: seq<PeerId>, taken: seq<PeerId>, b1: Base, events: seq<PeerId>)
    requires Served(b, expired, taken, b1) && Started(b, taken, b1)
    ensures Served(b, expired, taken, b1.(events := events)) && Started(b, taken, b1.(events := events))
  {
  }

  lemma PollHandsOut(b: Base, expired: seq<PeerId>)
    ensures var b1, (b2, dial) := StartLookups(ExpireAll(b, expired)), Poll(b, expired);
            && b2 == b1.(events := b2.events) && (dial.None? ==> b2.events == [])
            && b1.events == (if dial.Some? then [dial.value] else []) + b2.events
  {
  }

  /** A poll, without its loops; the oldest dial that is ready is handed out. */
  lemma {:induction false} PollExact(b: Base, expired: seq<PeerId>) returns (taken: seq<PeerId>)
    ensures var (b1, dial) := Poll(b, expired);
            && Served(b, expired, taken, b1) && Started(b, taken, b1)
            && Ready(b, taken) == (if dial.Some? then [dial.value] else []) + b1.events
            && (dial.None? ==> b1.events == [])
  {
    taken := LoopsExact(b, expired);
    PollHandsOut(b, expired);
    EventsAreApart(b, expired, taken, StartLookups(ExpireAll(b, expired)), Poll(b, expired).0.events);
  }

  lemma SettledAlike(b: Base, b0: Base)
    requires b0.cache == b.cache && b0.conns == b.conns
    ensures Known(b0) == Known(b) && Settled(b0) == Settled(b)
  {
  }

  // ----- who waits for a cooldown -----

  /** The worker's last dialed connection closes, or a dial to it fails without it being connected. */
  predicate Schedules(w: World, s: Step, p: PeerId) {
    && w.base.maintain && p in w.base.workers && p !in w.base.scheduled
    && match s
       case Closed(conn) => conn in w.open && DialedTo(w.open, p) == {conn}
       case Failed(peer, e, _) =>
         peer == p && DialedTo(w.open, p) == {} && (e.Transport? || e.WrongPeerId? || e.NoAddresses?)
       case _ => false
  }

  lemma {:induction false} ConnectedIff(w: World, p: PeerId)
    requires Sound(w)
    ensures ConnExists(w.base, p) <==> DialedTo(w.open, p) != {}
    ensures DialedTo(w.open, p) != {} ==> w.base.conns[p] == |DialedTo(w.open, p)|
  {
    assert Counted(w.base.conns, w.open, p);
  }

  lemma {:induction false} LastOne(open: map<ConnId, Link>, conn: ConnId, p: PeerId)
    requires conn in DialedTo(open, p)
    ensures |DialedTo(open, p)| == 1 <==> DialedTo(open, p) == {conn}
  {
    if |DialedTo(open, p)| == 1 {
      assert |DialedTo(open, p) - {conn}| == 0;
    }
  }

  lemma {:induction false} ClosedQueue(w: World, conn: ConnId, p: PeerId)
    requires Sound(w) && conn in w.open
    ensures p in Next(w, Closed(conn)).base.queue <==> p in w.base.queue || Schedules(w, Closed(conn), p)
  {
    var link := w.open[conn];
    if link == Link(p, true) {
      assert conn in DialedTo(w.open, p);
      ConnectedIff(w, p);
      LastOne(w.open, conn, p);
    } else {
      assert conn !in DialedTo(w.open, p);
    }
  }

  lemma {:induction false} FailedQueue(w: World, s: Step, p: PeerId)
    requires Sound(w) && Allowed(w, s) && s.Failed?
    ensures p in Next(w, s).base.queue <==> p in w.base.queue || Schedules(w, s, p)
  {
    ConnectedIff(w, p);
  }

  lemma {:induction false} PolledQueue(w: World, expired: seq<PeerId>, p: PeerId)
    requires Sound(w) && Allowed(w, DoPoll(expired))
    ensures p in Next(w, DoPoll(expired)).base.queue <==> p in w.base.queue && p !in expired
  {
    var taken := PollExact(w.base, expired);
    ScheduledSplit(w.base, p);
    var b, b1 := w.base, Poll(w.base, expired).0;
    assert multiset(b1.queue)[p] == multiset(b.queue)[p] - multiset(expired)[p];
    assert p in b1.queue <==> p in multiset(b1.queue);
    assert p in expired <==> p in multiset(expired);
  }

  lemma {:induction false} NodesLeaveQueue(b: Base, order: seq<PeerId>)
    ensures AddMissing(b, order).queue == b.queue
    decreases |order|
  {
    if order != [] {
      var p := order[0];
      NodesLeaveQueue(if !ConnExists(b, p) && p !in b.scheduled
                      then b.(scheduled := b.scheduled + {p}, pending := b.pending + [p]) else b, order[1..]);
    }
  }

  /** A peer waits for a cooldown from the step that schedules it until its cooldown ends, and never otherwise. */
  lemma {:induction false} CooldownIff(w: World, s: Step, p: PeerId)
    requires Sound(w) && Allowed(w, s)
    ensures p in Next(w, s).base.queue <==>
              (p in w.base.queue && !(s.DoPoll? && p in s.expired)) || Schedules(w, s, p)
  {
    if s.Closed? {
      ClosedQueue(w, s.conn, p);
    } else if s.Failed? {
      FailedQueue(w, s, p);
    } else if s.DoPoll? {
      PolledQueue(w, s.expired, p);
    } else if s.Nodes? && w.base.maintain {
      NodesLeaveQueue(w.base.(workers := set q | q in s.order), s.order);
    }
  }

  /** Only a node update or the end of a cooldown makes a peer wait for a lookup slot. */
  lemma {:induction false} PendingOnlyAfter(w: World, s: Step)
    requires Sound(w) && Allowed(w, s) && !s.Nodes? && !s.DoPoll?
    ensures Next(w, s).base.pending == w.base.pending
  {
  }

  lemma {:induction false} PolledPending(w: World, expired: seq<PeerId>, p: PeerId)
    requires Sound(w) && Allowed(w, DoPoll(expired)) && p in Next(w, DoPoll(expired)).base.pending
    ensures p in w.base.pending || (p in expired && p in w.base.workers && DialedTo(w.open, p) == {})
  {
    var taken := PollExact(w.base, expired);
    PickedHas(expired, Due(w.base), p);
    ConnectedIff(w, p);
    assert p in taken + Poll(w.base, expired).0.pending;
  }

  /** While a peer's cooldown lasts, no poll looks it up or makes a dial to it. */
  lemma {:induction false} CooldownIsQuiet(w: World, expired: seq<PeerId>, p: PeerId)
    requires Sound(w) && Allowed(w, DoPoll(expired)) && p in w.base.queue && p !in expired
    ensures var w1 := Next(w, DoPoll(expired));
            && (p in w1.base.lookups <==> p in w.base.lookups)
            && multiset(w1.base.events)[p] + w1.issued[p] == multiset(w.base.events)[p] + w.issued[p]
  {
    var b := w.base;
    var taken := PollExact(b, expired);
    var (b1, dial) := Poll(b, expired);
    ScheduledSplit(b, p);
    PickedHas(expired, Due(b), p);
    assert p !in Waiting(b, expired) && p !in taken + b1.pending;
    PickedHas(taken, Known(b), p);
    assert multiset(Ready(b, taken))[p] == multiset(b.events)[p] + multiset(Picked(taken, Known(b)))[p];
    var handed := if dial.Some? then [dial.value] else [];
    assert multiset(Ready(b, taken))[p] == multiset(handed)[p] + multiset(b1.events)[p];
  }

  predicate NotExpired(ss: seq<Step>, p: PeerId) {
    forall i :: 0 <= i < |ss| && ss[i].DoPoll? ==> p !in ss[i].expired
  }

  /** Over any run, a peer keeps waiting until a poll lists its cooldown as ended. */
  lemma {:induction false} CooldownLasts(w: World, ss: seq<Step>, p: PeerId)
    requires Sound(w) && AllowedRun(w, ss) && p in w.base.queue && NotExpired(ss, p)
    ensures Sound(After(w, ss)) && p in After(w, ss).base.queue && p !in After(w, ss).base.pending
    decreases |ss|
  {
    if ss == [] {
      ScheduledSplit(w.base, p);
    } else {
      StepSound(w, ss[0]);
      CooldownIff(w, ss[0], p);
      CooldownLasts(Next(w, ss[0]), ss[1..], p);
    }
  }

  // ----- node updates, lookups and addresses -----

  lemma {:induction false} AddMissingExact(b: Base, order: seq<PeerId>) returns (added: seq<PeerId>)
    ensures AddMissing(b, order) == b.(pending := b.pending + added, scheduled := b.scheduled + Elems(added))
    ensures forall p :: p in added <==> p in order && !ConnExists(b, p) && p !in b.scheduled
    ensures Distinct(added)
    decreases |order|
  {
    if order == [] {
      added := [];
      assert b.pending + [] == b.pending && b.scheduled + Elems([]) == b.scheduled;
    } else {
      var p, rest := order[0], order[1..];
      assert order == [p] + rest;
      if !ConnExists(b, p) && p !in b.scheduled {
        var b0 := b.(scheduled := b.scheduled + {p}, pending := b.pending + [p]);
        var more := AddMissingExact(b0, rest);
        added := [p] + more;
        Regroup(b.pending, [p], more);
        ElemsConcat([p], more);
        assert Elems([p]) == {p} && p !in more;
      } else {
        added := AddMissingExact(b, rest);
      }
    }
  }

  /** In maintain mode a node update lets exactly the workers wait that are neither connected nor scheduled. */
  lemma {:induction false} NodesExact(w: World, order: seq<PeerId>) returns (added: seq<PeerId>)
    requires Sound(w)
    ensures var w1 := Next(w, Nodes(order));
            && w1 == w.(base := w.base.(workers := Elems(order), pending := w1.base.pending,
                                        scheduled := w1.base.scheduled))
            && w1.base.pending == w.base.pending + added && w1.base.scheduled == w.base.scheduled + Elems(added)
    ensures Distinct(added)
    ensures forall p :: p in added <==>
              w.base.maintain && p in order && DialedTo(w.open, p) == {} && p !in w.base.scheduled
  {
    if w.base.maintain {
      added := AddMissingExact(w.base.(workers := Elems(order)), order);
      forall p ensures ConnExists(w.base, p) <==> DialedTo(w.open, p) != {} {
        ConnectedIff(w, p);
      }
    } else {
      added := [];
      assert w.base.pending + [] == w.base.pending && w.base.scheduled + Elems([]) == w.base.scheduled;
    }
  }

  /** Asking for a peer dials it if an address is known and looks it up otherwise. */
  lemma {:induction false} FindExact(w: World, p: PeerId)
    requires Sound(w)
    ensures var b, b1 := w.base, Next(w, Find(p)).base;
            && (AddrsOf(b.cache, p) != {} ==> b1 == b.(events := b.events + [p]))
            && (AddrsOf(b.cache, p) == {} ==>
                  && b1 == b.(lookups := b1.lookups, nextQuery := b1.nextQuery)
                  && b1.lookups.Keys == b.lookups.Keys + {p})
  {
    ListedHasAddrs(w.base.cache.entries, p);
  }

  /** The addresses worth keeping. */
  function Usable(found: Option<seq<Addr>>): set<Addr> {
    if found.Some? then set a | a in found.value && a.reachable else {}
  }

  /**
   * A lookup ends when addresses are found or nothing more will come: then it is removed, its peer is
   * dialed, and what was found is known from then on. Anything else changes nothing.
   */
  lemma {:induction false} LookupEnds(w: World, query: QueryId, found: Option<seq<Addr>>, last: bool)
    requires Sound(w)
    ensures var w1 := Next(w, Progress(query, found, last));
            && (forall p :: p in w.base.lookups && w.base.lookups[p] == query && (found.Some? || last) ==>
                  && w1.base == w.base.(lookups := w.base.lookups - {p}, cache := w1.base.cache)
                  && w1.issued == w.issued + multiset{p} && w1.open == w.open
                  && AddrsOf(w1.base.cache, p) == AddrsOf(w.base.cache, p) + Usable(found))
            && ((found.None? && !last) || (forall p :: p in w.base.lookups ==> w.base.lookups[p] != query) ==> w1 == w)
  {
    if found.Some? && IsQuery(w.base, query) {
      var p := PeerOf(w.base, query);
      PutEffect(w.base.cache, p, found.value, p);
    }
  }

  /** A failed dial makes exactly an unreachable peer forgotten, and no other. */
  lemma {:induction false} ForgottenIff(w: World, s: Step, q: PeerId)
    requires Sound(w) && Allowed(w, s) && s.Failed?
    ensures Contains(Next(w, s).base.cache, q) <==>
              && Contains(w.base.cache, q)
              && !(q == s.peer && (s.error.Transport? || s.error.WrongPeerId? || s.error.NoAddresses?))
    ensures Contains(Next(w, s).base.cache, q) ==> AddrsOf(Next(w, s).base.cache, q) == AddrsOf(w.base.cache, q)
  {
    EvictEffect(w.base.cache, s.peer, q);
  }

  /** A connection we dialed makes its address known; one we accepted does not. */
  lemma {:induction false} ConnectionIsLearned(w: World, s: Step)
    requires Sound(w) && Allowed(w, s) && (s.Connected? || s.Accepted?)
    ensures s.Connected? ==>
              AddrsOf(Next(w, s).base.cache, s.peer)
              == AddrsOf(w.base.cache, s.peer) + if s.addr.reachable then {s.addr} else {}
    ensures s.Accepted? ==> Next(w, s).base == w.base
  {
    if s.Connected? {
      PutEffect(w.base.cache, s.peer, [s.addr], s.peer);
      assert Reachable([s.addr]) == if s.addr.reachable then {s.addr} else {};
    }
  }
}
