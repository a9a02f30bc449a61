/** How worker connections are kept up: reconnect delays, address lookups and dials. */
module Reconnect {
  import opened Words
  import opened Addresses

  type QueryId = nat

  datatype Base = Base(
    cache: Cache,
    events: seq<PeerId>,             // dials waiting to be handed to the swarm
    lookups: map<PeerId, QueryId>,   // address lookups in progress
    nextQuery: QueryId,              // query ids are never reused
    conns: map<PeerId, u32>,         // open dialed connections per peer
    workers: set<PeerId>,
    maintain: bool,
    queue: seq<PeerId>,              // waiting for their cooldown to end
    pending: seq<PeerId>,            // waiting for a free lookup slot
    maxLookups: nat,
    scheduled: set<PeerId>)          // waiting in either

  predicate ConnExists(b: Base, p: PeerId) { p in b.conns && b.conns[p] > 0 }

  function FindAndDial(b: Base, p: PeerId): Base {
    if Contains(b.cache, p) then b.(events := b.events + [p])
    else if p in b.lookups then b
    else b.(lookups := b.lookups[p := b.nextQuery], nextQuery := b.nextQuery + 1)
  }

  function ScheduleReconnect(b: Base, p: PeerId): Base {
    if b.maintain && p in b.workers && !ConnExists(b, p) && p !in b.scheduled
    then b.(scheduled := b.scheduled + {p}, queue := b.queue + [p])
    else b
  }

  function OnEstablished(b: Base, p: PeerId, dialed: bool): Base {
    if !dialed then b
    else b.(conns := b.conns[p := ((if p in b.conns then b.conns[p] else 0) + 1) % (U32_MAX + 1)])
  }

  function OnClosed(b: Base, p: PeerId, dialed: bool): Base {
    if !dialed then b
    else ScheduleReconnect(
      if p in b.conns then b.(conns := b.conns[p := (b.conns[p] - 1) % (U32_MAX + 1)]) else b, p)
  }

  /** The cache hears of a failure before the scheduler does. */
  function OnDialFailure(b: Base, p: Option<PeerId>, e: DialError): Base {
    var b1 := b.(cache := Addresses.OnDialFailure(b.cache, p, e));
    if p.Some? && Unreachable(e) then ScheduleReconnect(b1, p.value) else b1
  }

  predicate IsQuery(b: Base, q: QueryId) { exists p :: p in b.lookups && b.lookups[p] == q }

  function PeerOf(b: Base, q: QueryId): PeerId
    requires Injective(b.lookups) && IsQuery(b, q)
  {
    PeerUnique(b, q);
    var p :| p in b.lookups && b.lookups[p] == q;
    p
  }

  predicate Injective(m: map<PeerId, QueryId>) { forall p, q :: p in m && q in m && m[p] == m[q] ==> p == q }

  lemma PeerUnique(b: Base, q: QueryId)
    requires Injective(b.lookups)
    ensures forall p, r :: p in b.lookups && b.lookups[p] == q && r in b.lookups && b.lookups[r] == q ==> p == r
  {
  }

  /** A step of a lookup; it ends when the peer is found or nothing more will come. */
  function OnLookupProgress(b: Base, q: QueryId, found: Option<seq<Addr>>, last: bool): (Base, Option<PeerId>)
    requires Injective(b.lookups)
  {
    if !IsQuery(b, q) || (found.None? && !last) then (b, None) else
    var p := PeerOf(b, q);
    (b.(lookups := b.lookups - {p}, cache := if found.Some? then Put(b.cache, p, found.value) else b.cache), Some(p))
  }

  function AddMissing(b: Base, order: seq<PeerId>): Base
    decreases |order|
  {
    if order == [] then b else
    var p := order[0];
    AddMissing(
      if !ConnExists(b, p) && p !in b.scheduled
      then b.(scheduled := b.scheduled + {p}, pending := b.pending + [p]) else b,
      order[1..])
  }

  /** `order` is the order in which the set of workers is walked. */
  function OnNodesUpdate(b: Base, order: seq<PeerId>): Base {
    var b1 := b.(workers := set p | p in order);
    if b.maintain then AddMissing(b1, order) else b1
  }

  function Remove(s: seq<PeerId>, p: PeerId): seq<PeerId> {
    if s == [] then [] else if s[0] == p then s[1..] else [s[0]] + Remove(s[1..], p)
  }

  function Expire(b: Base, p: PeerId): Base {
    var b1 := b.(queue := Remove(b.queue, p));
    if !ConnExists(b, p) && p in b.workers then b1.(pending := b.pending + [p])
    else b1.(scheduled := b.scheduled - {p})
  }

  function ExpireAll(b: Base, expired: seq<PeerId>): Base
    decreases |expired|
  {
    if expired == [] then b else ExpireAll(Expire(b, expired[0]), expired[1..])
  }

  function StartOne(b: Base): Base
    requires b.pending != []
  {
    var p := b.pending[0];
    var b1 := b.(pending := b.pending[1..], scheduled := b.scheduled - {p});
    if ConnExists(b, p) then b1 else FindAndDial(b1, p)
  }

  function StartLookups(b: Base): Base
    decreases |b.pending|
  {
    if |b.lookups| < b.maxLookups && b.pending != [] then StartLookups(StartOne(b)) else b
  }

  /** Hands out at most one dial. */
  function Poll(b: Base, expired: seq<PeerId>): (Base, Option<PeerId>) {
    var b1 := StartLookups(ExpireAll(b, expired));
    if b1.events == [] then (b1, None) else (b1.(events := b1.events[1..]), Some(b1.events[0]))
  }

  // ----- bookkeeping -----

  /** Every scheduled peer waits in exactly one place, exactly once. */
  predicate Booked(b: Base) { multiset(b.queue) + multiset(b.pending) == multiset(b.scheduled) }

  predicate Fresh(b: Base) { Injective(b.lookups) && forall p :: p in b.lookups ==> b.lookups[p] < b.nextQuery }

  predicate Kept(b: Base) { Booked(b) && Fresh(b) && Valid(b.cache) }

  lemma {:induction false} ScheduledSplit(b: Base, p: PeerId)
    requires Booked(b)
    ensures p in b.scheduled <==> p in b.queue || p in b.pending
    ensures !(p in b.queue && p in b.pending)
    ensures multiset(b.queue)[p] <= 1 && multiset(b.pending)[p] <= 1
  {
    assert multiset(b.scheduled)[p] == multiset(b.queue)[p] + multiset(b.pending)[p];
  }

  lemma FindAndDialKeeps(b: Base, p: PeerId)
    requires Kept(b)
    ensures Kept(FindAndDial(b, p))
  {
  }

  lemma {:induction false} JoinsQueue(b: Base, p: PeerId)
    requires Booked(b) && p !in b.scheduled
    ensures Booked(b.(scheduled := b.scheduled + {p}, queue := b.queue + [p]))
    ensures Booked(b.(scheduled := b.scheduled + {p}, pending := b.pending + [p]))
  {
    assert multiset(b.scheduled + {p}) == multiset(b.scheduled) + multiset{p};
  }

  lemma {:induction false} ScheduleKeeps(b: Base, p: PeerId)
    requires Kept(b)
    ensures Kept(ScheduleReconnect(b, p))
  {
    if p !in b.scheduled {
      JoinsQueue(b, p);
    }
  }

  lemma {:induction false} LookupKeeps(b: Base, q: QueryId, found: Option<seq<Addr>>, last: bool)
    requires Kept(b)
    ensures Kept(OnLookupProgress(b, q, found, last).0)
  {
    if IsQuery(b, q) && found.Some? {
      PutEffect(b.cache, PeerOf(b, q), found.value, PeerOf(b, q));
    }
  }

  lemma {:induction false} DialFailureKeeps(b: Base, p: Option<PeerId>, e: DialError)
    requires Kept(b)
    ensures Kept(OnDialFailure(b, p, e))
  {
    if p.Some? {
      EvictEffect(b.cache, p.value, p.value);
      ScheduleKeeps(b.(cache := Addresses.OnDialFailure(b.cache, p, e)), p.value);
    }
  }

  lemma {:induction false} AddMissingKeeps(b: Base, order: seq<PeerId>)
    requires Kept(b)
    ensures Kept(AddMissing(b, order))
    decreases |order|
  {
    if order != [] {
      var p := order[0];
      if !ConnExists(b, p) && p !in b.scheduled {
        JoinsQueue(b, p);
        AddMissingKeeps(b.(scheduled := b.scheduled + {p}, pending := b.pending + [p]), order[1..]);
      } else {
        AddMissingKeeps(b, order[1..]);
      }
    }
  }

  lemma {:induction false} RemoveOne(s: seq<PeerId>, p: PeerId)
    ensures multiset(Remove(s, p)) == multiset(s) - multiset{p}
  {
    if s != [] {
      assert s == [s[0]] + s[1..];
      if s[0] != p {
        RemoveOne(s[1..], p);
      }
    }
  }

  lemma {:induction false} ExpireKeeps(b: Base, p: PeerId)
    requires Kept(b) && p in b.queue
    ensures Kept(Expire(b, p)) && multiset(Expire(b, p).queue) == multiset(b.queue) - multiset{p}
  {
    RemoveOne(b.queue, p);
    LeavesQueue(multiset(b.queue), multiset(b.pending), b.scheduled, p);
  }

  lemma {:induction false} LeavesQueue(
    queue: multiset<PeerId>, pending: multiset<PeerId>, scheduled: set<PeerId>, p: PeerId)
    requires queue + pending == multiset(scheduled) && p in queue
    ensures queue - multiset{p} + (pending + multiset{p}) == multiset(scheduled)
    ensures queue - multiset{p} + pending == multiset(scheduled - {p})
  {
    assert multiset(scheduled)[p] == queue[p] + pending[p];
    assert p in scheduled;
    assert multiset(scheduled - {p}) == multiset(scheduled) - multiset{p};
    assert queue + pending - multiset{p} == queue - multiset{p} + pending;
  }

  lemma {:induction false} ExpireAllKeeps(b: Base, expired: seq<PeerId>)
    requires Kept(b) && multiset(expired) <= multiset(b.queue)
    ensures Kept(ExpireAll(b, expired))
    decreases |expired|
  {
    if expired != [] {
      assert expired == [expired[0]] + expired[1..];
      assert expired[0] in multiset(expired);
      ExpireKeeps(b, expired[0]);
      ExpireAllKeeps(Expire(b, expired[0]), expired[1..]);
    }
  }

  lemma {:induction false} NextLeaves(b: Base)
    requires Kept(b) && b.pending != []
    ensures Kept(b.(pending := b.pending[1..], scheduled := b.scheduled - {b.pending[0]}))
  {
    var p := b.pending[0];
    assert b.pending == [p] + b.pending[1..];
    ScheduledSplit(b, p);
    assert multiset(b.scheduled - {p}) == multiset(b.scheduled) - multiset{p};
  }

  lemma {:induction false} StartOneKeeps(b: Base)
    requires Kept(b) && b.pending != []
    ensures Kept(StartOne(b))
  {
    NextLeaves(b);
    var p := b.pending[0];
    FindAndDialKeeps(b.(pending := b.pending[1..], scheduled := b.scheduled - {p}), p);
  }

  lemma {:induction false} StartLookupsKeeps(b: Base)
    requires Kept(b)
    ensures Kept(StartLookups(b))
    decreases |b.pending|
  {
    if |b.lookups| < b.maxLookups && b.pending != [] {
      StartOneKeeps(b);
      StartLookupsKeeps(StartOne(b));
    }
  }

  lemma {:induction false} PollKeeps(b: Base, expired: seq<PeerId>)
    requires Kept(b) && multiset(expired) <= multiset(b.queue)
    ensures Kept(Poll(b, expired).0)
  {
    ExpireAllKeeps(b, expired);
    StartLookupsKeeps(ExpireAll(b, expired));
  }

  /** The lookup loop uses every free slot and never goes above the cap. */
  lemma {:induction false} LookupsCapped(b: Base)
    ensures |StartLookups(b).lookups| <= if |b.lookups| < b.maxLookups then b.maxLookups else |b.lookups|
    ensures StartLookups(b).pending == [] || |StartLookups(b).lookups| >= b.maxLookups
    decreases |b.pending|
  {
    if |b.lookups| < b.maxLookups && b.pending != [] {
      assert StartOne(b).maxLookups == b.maxLookups && |StartOne(b).lookups| <= |b.lookups| + 1;
      LookupsCapped(StartOne(b));
    }
  }

  lemma {:induction false} ExpireAllFrame(b: Base, expired: seq<PeerId>)
    ensures var b1 := ExpireAll(b, expired);
            && b1.lookups == b.lookups && b1.maxLookups == b.maxLookups && b1.workers == b.workers
            && b1.conns == b.conns && b1.maintain == b.maintain && b1.events == b.events
    decreases |expired|
  {
    if expired != [] {
      ExpireAllFrame(Expire(b, expired[0]), expired[1..]);
    }
  }

  /** After a poll no peer waits for a lookup while a slot is free, and none is beyond the cap. */
  lemma {:induction false} PollCapped(b: Base, expired: seq<PeerId>)
    ensures |Poll(b, expired).0.lookups| <= if |b.lookups| < b.maxLookups then b.maxLookups else |b.lookups|
    ensures Poll(b, expired).0.pending == [] || |Poll(b, expired).0.lookups| >= b.maxLookups
  {
    ExpireAllFrame(b, expired);
    LookupsCapped(ExpireAll(b, expired));
  }

  /** A peer that could not be reached is retried, and the retry looks it up instead of dialing the old address. */
  lemma {:induction false} FailedDialIsLookedUp(b: Base, p: PeerId, e: DialError)
    requires Kept(b) && Unreachable(e)
    ensures var b1 := OnDialFailure(b, Some(p), e);
            && !Contains(b1.cache, p)
            && (b.maintain && p in b.workers && !ConnExists(b, p) ==> p in b1.scheduled)
            && p in FindAndDial(b1, p).lookups && FindAndDial(b1, p).events == b1.events
  {
    EvictEffect(b.cache, p, p);
  }

  // ----- what keeps a peer from being forgotten -----

  predicate Tracked(b: Base, p: PeerId) { ConnExists(b, p) || p in b.scheduled || p in b.lookups || p in b.events }

  /** `b1` still tracks what `b` tracked, among the peers `b` has to keep. */
  predicate StillTracks(b: Base, b1: Base) {
    && b1.workers == b.workers && b1.maintain == b.maintain && b1.conns == b.conns
    && (forall p :: p in b.workers && Tracked(b, p) ==> Tracked(b1, p))
  }

  lemma FindAndDialTracks(b: Base, p: PeerId)
    ensures StillTracks(b, FindAndDial(b, p)) && Tracked(FindAndDial(b, p), p)
  {
  }

  lemma ExpireTracks(b: Base, p: PeerId)
    ensures StillTracks(b, Expire(b, p))
  {
  }

  lemma {:induction false} ExpireAllTracks(b: Base, expired: seq<PeerId>)
    ensures StillTracks(b, ExpireAll(b, expired))
    decreases |expired|
  {
    if expired != [] {
      ExpireTracks(b, expired[0]);
      ExpireAllTracks(Expire(b, expired[0]), expired[1..]);
    }
  }

  lemma StartOneTracks(b: Base)
    requires b.pending != []
    ensures StillTracks(b, StartOne(b))
  {
  }

  lemma {:induction false} StartLookupsTracks(b: Base)
    ensures StillTracks(b, StartLookups(b))
    decreases |b.pending|
  {
    if |b.lookups| < b.maxLookups && b.pending != [] {
      StartOneTracks(b);
      StartLookupsTracks(StartOne(b));
    }
  }

  /** A poll hands out the oldest dial and forgets nothing else. */
  lemma {:induction false} PollTracks(b: Base, expired: seq<PeerId>)
    ensures var (b1, dial) := Poll(b, expired);
            && b1.workers == b.workers && b1.maintain == b.maintain && b1.conns == b.conns
            && (forall p :: p in b.workers && Tracked(b, p) ==> Tracked(b1, p) || dial == Some(p))
  {
    ExpireAllTracks(b, expired);
    var b1 := StartLookups(ExpireAll(b, expired));
    StartLookupsTracks(ExpireAll(b, expired));
    if b1.events != [] {
      assert b1.events == [b1.events[0]] + b1.events[1..];
    }
  }

  lemma {:induction false} AddMissingTracks(b: Base, order: seq<PeerId>, p: PeerId)
    ensures var b1 := AddMissing(b, order);
            && b1.workers == b.workers && b1.maintain == b.maintain && b1.conns == b.conns
            && (p in order || Tracked(b, p) ==> Tracked(b1, p))
    decreases |order|
  {
    if order != [] {
      var q := order[0];
      assert order == [q] + order[1..];
      AddMissingTracks(
        if !ConnExists(b, q) && q !in b.scheduled
        then b.(scheduled := b.scheduled + {q}, pending := b.pending + [q]) else b,
        order[1..], p);
    }
  }

  /** In maintain mode a node update picks up every worker, whatever was forgotten before. */
  lemma {:induction false} NodesUpdateTracks(b: Base, order: seq<PeerId>)
    requires b.maintain
    ensures var b1 := OnNodesUpdate(b, order);
            && b1.maintain && b1.conns == b.conns && b1.workers == (set p | p in order)
            && forall p :: p in b1.workers ==> Tracked(b1, p)
  {
    var b1 := b.(workers := set p | p in order);
    AddMissingTracks(b1, order, 0);
    forall p | p in b1.workers ensures Tracked(AddMissing(b1, order), p) {
      AddMissingTracks(b1, order, p);
    }
  }
}
