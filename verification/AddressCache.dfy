/** Known addresses of peers, least recently used peers forgotten first. */
module Addresses {
  import opened Words

  datatype Addr = Addr(text: nat, reachable: bool)

  datatype Entry = Entry(peer: PeerId, addrs: set<Addr>)

  /** Most recently used first. */
  datatype Cache = Cache(capacity: nat, entries: seq<Entry>)

  predicate Listed(es: seq<Entry>, p: PeerId) { es != [] && (es[0].peer == p || Listed(es[1..], p)) }

  predicate Contains(c: Cache, p: PeerId) { Listed(c.entries, p) }

  function AddrsIn(es: seq<Entry>, p: PeerId): set<Addr> {
    if es == [] then {} else if es[0].peer == p then es[0].addrs else AddrsIn(es[1..], p)
  }

  function AddrsOf(c: Cache, p: PeerId): set<Addr> { AddrsIn(c.entries, p) }

  function Without(es: seq<Entry>, p: PeerId): seq<Entry> {
    if es == [] then [] else if es[0].peer == p then es[1..] else [es[0]] + Without(es[1..], p)
  }

  predicate Dialable(addrs: set<Addr>) { addrs != {} && forall a :: a in addrs ==> a.reachable }

  predicate WellListed(es: seq<Entry>) {
    es != [] ==> Dialable(es[0].addrs) && !Listed(es[1..], es[0].peer) && WellListed(es[1..])
  }

  /** One entry per peer, none without addresses, no more than fit. */
  predicate Valid(c: Cache) { 1 <= c.capacity && |c.entries| <= c.capacity && WellListed(c.entries) }

  function Reachable(addrs: seq<Addr>): (r: set<Addr>)
    ensures forall a :: a in r ==> a.reachable
  {
    set a | a in addrs && a.reachable
  }

  function Put(c: Cache, p: PeerId, addrs: seq<Addr>): Cache {
    var kept := Reachable(addrs);
    if kept == {} then c
    else if Contains(c, p) then c.(entries := [Entry(p, AddrsOf(c, p) + kept)] + Without(c.entries, p))
    else c.(entries := [Entry(p, kept)] +
            if 1 <= c.capacity <= |c.entries| then c.entries[..c.capacity - 1] else c.entries)
  }

  function Evict(c: Cache, p: PeerId): Cache { c.(entries := Without(c.entries, p)) }

  /** A read for dialing also renews the entry. */
  function Touch(c: Cache, p: PeerId): Cache {
    if Contains(c, p) then c.(entries := [Entry(p, AddrsOf(c, p))] + Without(c.entries, p)) else c
  }

  lemma {:induction false} WithoutKeeps(es: seq<Entry>, p: PeerId, q: PeerId)
    requires WellListed(es)
    ensures WellListed(Without(es, p))
    ensures |Without(es, p)| == |es| - if Listed(es, p) then 1 else 0
    ensures Listed(Without(es, p), q) <==> Listed(es, q) && q != p
    ensures q != p ==> AddrsIn(Without(es, p), q) == AddrsIn(es, q)
  {
    if es != [] && es[0].peer != p {
      WithoutKeeps(es[1..], p, q);
      WithoutKeeps(es[1..], p, es[0].peer);
      assert Without(es, p)[1..] == Without(es[1..], p);
    }
  }

  lemma {:induction false} ListedHasAddrs(es: seq<Entry>, p: PeerId)
    requires WellListed(es)
    ensures Listed(es, p) ==> Dialable(AddrsIn(es, p))
    ensures !Listed(es, p) ==> AddrsIn(es, p) == {}
  {
    if es != [] && es[0].peer != p {
      ListedHasAddrs(es[1..], p);
    }
  }

  lemma {:induction false} PrefixKeeps(es: seq<Entry>, n: nat, q: PeerId)
    requires WellListed(es) && n <= |es|
    ensures WellListed(es[..n])
    ensures Listed(es[..n], q) ==> Listed(es, q) && AddrsIn(es[..n], q) == AddrsIn(es, q)
    ensures n == |es| - 1 && Listed(es, q) && !Listed(es[..n], q) ==> q == es[n].peer
  {
    if n > 0 {
      PrefixKeeps(es[1..], n - 1, q);
      PrefixKeeps(es[1..], n - 1, es[0].peer);
      assert es[..n][1..] == es[1..][..n - 1];
    } else if |es| == 1 {
      assert !Listed(es[1..], q);
    }
  }

  /** A peer becomes known only with a reachable address; others change only by the oldest being dropped. */
  lemma {:induction false} PutEffect(c: Cache, p: PeerId, addrs: seq<Addr>, q: PeerId)
    requires Valid(c)
    ensures Valid(Put(c, p, addrs))
    ensures Contains(Put(c, p, addrs), p) <==> Contains(c, p) || Reachable(addrs) != {}
    ensures AddrsOf(Put(c, p, addrs), p) == AddrsOf(c, p) + Reachable(addrs)
    ensures q != p && Contains(Put(c, p, addrs), q) ==>
              Contains(c, q) && AddrsOf(Put(c, p, addrs), q) == AddrsOf(c, q)
    ensures q != p && Contains(c, q) && !Contains(Put(c, p, addrs), q) ==>
              !Contains(c, p) && |c.entries| == c.capacity && c.entries[c.capacity - 1].peer == q
  {
    var kept := Reachable(addrs);
    ListedHasAddrs(c.entries, p);
    if kept != {} {
      if Contains(c, p) {
        WithoutKeeps(c.entries, p, p);
        WithoutKeeps(c.entries, p, q);
        FrontEntry(Entry(p, AddrsOf(c, p) + kept), Without(c.entries, p), q);
      } else {
        var n := if c.capacity <= |c.entries| then c.capacity - 1 else |c.entries|;
        assert n == |c.entries| ==> c.entries[..n] == c.entries;
        PrefixKeeps(c.entries, n, p);
        PrefixKeeps(c.entries, n, q);
        FrontEntry(Entry(p, kept), c.entries[..n], q);
      }
    }
  }

  lemma FrontEntry(e: Entry, es: seq<Entry>, q: PeerId)
    requires WellListed(es) && Dialable(e.addrs) && !Listed(es, e.peer)
    ensures WellListed([e] + es)
    ensures Listed([e] + es, e.peer) && AddrsIn([e] + es, e.peer) == e.addrs
    ensures q != e.peer ==> (Listed([e] + es, q) <==> Listed(es, q)) && AddrsIn([e] + es, q) == AddrsIn(es, q)
  {
  }

  lemma {:induction false} EvictEffect(c: Cache, p: PeerId, q: PeerId)
    requires Valid(c)
    ensures Valid(Evict(c, p))
    ensures Contains(Evict(c, p), q) <==> Contains(c, q) && q != p
    ensures q != p ==> AddrsOf(Evict(c, p), q) == AddrsOf(c, q)
  {
    WithoutKeeps(c.entries, p, q);
  }

  lemma {:induction false} TouchEffect(c: Cache, p: PeerId, q: PeerId)
    requires Valid(c)
    ensures Valid(Touch(c, p))
    ensures Contains(Touch(c, p), q) <==> Contains(c, q)
    ensures AddrsOf(Touch(c, p), q) == AddrsOf(c, q)
  {
    ListedHasAddrs(c.entries, p);
    if Contains(c, p) {
      WithoutKeeps(c.entries, p, p);
      WithoutKeeps(c.entries, p, q);
      FrontEntry(Entry(p, AddrsOf(c, p)), Without(c.entries, p), q);
    }
  }

  /** How a dial can fail. */
  datatype DialError = Transport | WrongPeerId | NoAddresses | DialPeerConditionFalse | Aborted | Denied | LocalPeerId

  predicate Unreachable(e: DialError) { e.Transport? || e.WrongPeerId? || e.NoAddresses? }

  function OnDialFailure(c: Cache, p: Option<PeerId>, e: DialError): Cache {
    if Unreachable(e) && p.Some? then Evict(c, p.value) else c
  }
}

/** Which peer the cache forgets when it is full, over any history of uses. */
module CacheHistory {
  import opened Words
  import opened Sequences
  import opened Addresses

  datatype Use = Learn(peer: PeerId, addrs: seq<Addr>) | Resolve(peer: PeerId) | Forget(peer: PeerId)

  function Apply(c: Cache, u: Use): Cache {
    match u
    case Learn(p, addrs) => Put(c, p, addrs)
    case Resolve(p) => Touch(c, p)
    case Forget(p) => Evict(c, p)
  }

  function CacheAfter(capacity: nat, us: seq<Use>): Cache {
    if us == [] then Cache(capacity, []) else Apply(CacheAfter(capacity, Init(us)), Last(us))
  }

  /** A peer is used when an address of it is learned, and when it is resolved while known. */
  predicate Uses(c: Cache, u: Use, p: PeerId) {
    u.peer == p && match u
                   case Learn(_, addrs) => exists a :: a in addrs && a.reachable
                   case Resolve(_) => Contains(c, p)
                   case Forget(_) => false
  }

  /** How long the history was when the peer was last used; 0 for never. */
  function LastUse(capacity: nat, us: seq<Use>, p: PeerId): (n: nat)
    ensures n <= |us|
  {
    if us == [] then 0
    else if Uses(CacheAfter(capacity, Init(us)), Last(us), p) then |us|
    else LastUse(capacity, Init(us), p)
  }

  lemma {:induction false} ValidAfter(capacity: nat, us: seq<Use>)
    requires capacity >= 1
    ensures Valid(CacheAfter(capacity, us)) && CacheAfter(capacity, us).capacity == capacity
  {
    if us != [] {
      var c, u := CacheAfter(capacity, Init(us)), Last(us);
      ValidAfter(capacity, Init(us));
      match u
      case Learn(p, addrs) => PutEffect(c, p, addrs, p);
      case Resolve(p) => TouchEffect(c, p, p);
      case Forget(p) => EvictEffect(c, p, p);
    }
  }

  /** The most recently used peers come first. */
  predicate RecentFirst(capacity: nat, us: seq<Use>, es: seq<Entry>) {
    forall i, j :: 0 <= i < j < |es| ==> LastUse(capacity, us, es[i].peer) > LastUse(capacity, us, es[j].peer)
  }

  lemma {:induction false} PeerListed(es: seq<Entry>, i: nat)
    requires i < |es|
    ensures Listed(es, es[i].peer)
  {
    if i > 0 {
      PeerListed(es[1..], i - 1);
    }
  }

  lemma {:induction false} WithoutOrder(es: seq<Entry>, p: PeerId) returns (k: nat)
    ensures k <= |es| && Without(es, p) == es[..k] + if k < |es| then es[k + 1..] else []
  {
    if es == [] || es[0].peer == p {
      k := 0;
    } else {
      var n := WithoutOrder(es[1..], p);
      k := n + 1;
      assert es[..k] == [es[0]] + es[1..][..n];
    }
  }

  /** Cutting entries out or off keeps the order, as does another use of none of them. */
  lemma {:induction false} OrderKept(capacity: nat, us: seq<Use>, u: Use, es: seq<Entry>, p: PeerId)
    requires RecentFirst(capacity, us, es) && u.peer == p
    requires forall i :: 0 <= i < |es| ==> es[i].peer != p
    ensures RecentFirst(capacity, us + [u], es)
  {
    forall i | 0 <= i < |es| ensures LastUse(capacity, us + [u], es[i].peer) == LastUse(capacity, us, es[i].peer) {
      UsedBefore(capacity, us, u, es[i].peer);
    }
  }

  lemma {:induction false} WithoutKeepsOrder(capacity: nat, us: seq<Use>, es: seq<Entry>, p: PeerId)
    requires RecentFirst(capacity, us, es)
    ensures RecentFirst(capacity, us, Without(es, p))
  {
    var k := WithoutOrder(es, p);
  }

  lemma {:induction false} NoneIs(es: seq<Entry>, p: PeerId)
    requires !Listed(es, p)
    ensures forall i :: 0 <= i < |es| ==> es[i].peer != p
  {
    forall i: nat | i < |es| ensures es[i].peer != p {
      PeerListed(es, i);
    }
  }

  lemma {:induction false} FrontIsNewest(capacity: nat, us: seq<Use>, u: Use, e: Entry, es: seq<Entry>)
    requires RecentFirst(capacity, us, es) && u.peer == e.peer && !Listed(es, e.peer)
    requires Uses(CacheAfter(capacity, us), u, e.peer)
    ensures RecentFirst(capacity, us + [u], [e] + es)
  {
    NoneIs(es, e.peer);
    OrderKept(capacity, us, u, es, e.peer);
    UsedNow(capacity, us, u);
    forall i | 0 <= i < |es| ensures LastUse(capacity, us + [u], es[i].peer) <= |us| {
      UsedBefore(capacity, us, u, es[i].peer);
    }
    FrontOfOrder(capacity, us + [u], e, es);
  }

  lemma {:induction false} UsedNow(capacity: nat, us: seq<Use>, u: Use)
    requires Uses(CacheAfter(capacity, us), u, u.peer)
    ensures LastUse(capacity, us + [u], u.peer) == |us| + 1
  {
    assert Init(us + [u]) == us;
  }

  lemma {:induction false} UsedBefore(capacity: nat, us: seq<Use>, u: Use, p: PeerId)
    requires p != u.peer
    ensures LastUse(capacity, us + [u], p) == LastUse(capacity, us, p)
  {
    assert Init(us + [u]) == us;
  }

  lemma {:induction false} FrontOfOrder(capacity: nat, us: seq<Use>, e: Entry, es: seq<Entry>)
    requires RecentFirst(capacity, us, es)
    requires forall i :: 0 <= i < |es| ==> LastUse(capacity, us, es[i].peer) < LastUse(capacity, us, e.peer)
    ensures RecentFirst(capacity, us, [e] + es)
  {
    var all := [e] + es;
    forall i, j | 0 <= i < j < |all|
      ensures LastUse(capacity, us, all[i].peer) > LastUse(capacity, us, all[j].peer)
    {
      assert all[j] == es[j - 1] && (i > 0 ==> all[i] == es[i - 1]);
    }
  }

  lemma {:induction false} UnusedKeepsOrder(capacity: nat, us: seq<Use>, u: Use, es: seq<Entry>)
    requires RecentFirst(capacity, us, es) && !Uses(CacheAfter(capacity, us), u, u.peer)
    ensures RecentFirst(capacity, us + [u], es)
  {
    assert Init(us + [u]) == us;
  }

  lemma {:induction false} PrefixKeepsOrder(capacity: nat, us: seq<Use>, es: seq<Entry>, n: nat)
    requires RecentFirst(capacity, us, es) && n <= |es|
    ensures RecentFirst(capacity, us, es[..n])
  {
  }

  lemma {:induction false} RenewKeepsOrder(capacity: nat, us: seq<Use>, u: Use, es: seq<Entry>, addrs: set<Addr>)
    requires RecentFirst(capacity, us, es) && WellListed(es) && Uses(CacheAfter(capacity, us), u, u.peer)
    ensures RecentFirst(capacity, us + [u], [Entry(u.peer, addrs)] + Without(es, u.peer))
  {
    WithoutKeeps(es, u.peer, u.peer);
    WithoutKeepsOrder(capacity, us, es, u.peer);
    FrontIsNewest(capacity, us, u, Entry(u.peer, addrs), Without(es, u.peer));
  }

  lemma {:induction false} AddKeepsOrder(
    capacity: nat, us: seq<Use>, u: Use, es: seq<Entry>, addrs: set<Addr>, n: nat)
    requires RecentFirst(capacity, us, es) && WellListed(es) && !Listed(es, u.peer) && n <= |es|
    requires Uses(CacheAfter(capacity, us), u, u.peer)
    ensures RecentFirst(capacity, us + [u], [Entry(u.peer, addrs)] + es[..n])
  {
    PrefixKeeps(es, n, u.peer);
    PrefixKeepsOrder(capacity, us, es, n);
    FrontIsNewest(capacity, us, u, Entry(u.peer, addrs), es[..n]);
  }

  lemma {:induction false} LearnUses(c: Cache, u: Use)
    requires u.Learn?
    ensures Uses(c, u, u.peer) <==> Reachable(u.addrs) != {}
  {
    if a :| a in u.addrs && a.reachable {
      assert a in Reachable(u.addrs);
    }
    if a :| a in Reachable(u.addrs) {
      assert a in u.addrs && a.reachable;
    }
  }

  lemma {:induction false} LearnKeepsOrder(capacity: nat, us: seq<Use>, u: Use)
    requires u.Learn? && capacity >= 1 && RecentFirst(capacity, us, CacheAfter(capacity, us).entries)
    ensures RecentFirst(capacity, us + [u], Put(CacheAfter(capacity, us), u.peer, u.addrs).entries)
  {
    var c, kept := CacheAfter(capacity, us), Reachable(u.addrs);
    ValidAfter(capacity, us);
    LearnUses(c, u);
    if kept == {} {
      UnusedKeepsOrder(capacity, us, u, c.entries);
    } else if Contains(c, u.peer) {
      RenewKeepsOrder(capacity, us, u, c.entries, AddrsOf(c, u.peer) + kept);
    } else {
      var n := if c.capacity <= |c.entries| then c.capacity - 1 else |c.entries|;
      assert n == |c.entries| ==> c.entries[..n] == c.entries;
      AddKeepsOrder(capacity, us, u, c.entries, kept, n);
    }
  }

  lemma {:induction false} ResolveKeepsOrder(capacity: nat, us: seq<Use>, u: Use)
    requires u.Resolve? && capacity >= 1 && RecentFirst(capacity, us, CacheAfter(capacity, us).entries)
    ensures RecentFirst(capacity, us + [u], Touch(CacheAfter(capacity, us), u.peer).entries)
  {
    var c, p := CacheAfter(capacity, us), u.peer;
    ValidAfter(capacity, us);
    if Contains(c, p) {
      RenewKeepsOrder(capacity, us, u, c.entries, AddrsOf(c, p));
    } else {
      UnusedKeepsOrder(capacity, us, u, c.entries);
    }
  }

  /** After any history the entries stand in order of their last use, most recent first. */
  lemma {:induction false} InOrderOfUse(capacity: nat, us: seq<Use>)
    requires capacity >= 1
    ensures RecentFirst(capacity, us, CacheAfter(capacity, us).entries)
  {
    if us != [] {
      var before, u := Init(us), Last(us);
      InOrderOfUse(capacity, before);
      assert us == before + [u];
      match u
      case Learn(_, _) => LearnKeepsOrder(capacity, before, u);
      case Resolve(_) => ResolveKeepsOrder(capacity, before, u);
      case Forget(p) =>
        var es := CacheAfter(capacity, before).entries;
        WithoutKeepsOrder(capacity, before, es, p);
        UnusedKeepsOrder(capacity, before, u, Without(es, p));
    }
  }

  lemma {:induction false} Position(es: seq<Entry>, p: PeerId) returns (i: nat)
    requires Listed(es, p)
    ensures i < |es| && es[i].peer == p
  {
    if es[0].peer == p {
      i := 0;
    } else {
      var n := Position(es[1..], p);
      i := n + 1;
    }
  }

  /** A peer is dropped to make room only if every other known peer was used after it. */
  lemma {:induction false} OldestIsDropped(capacity: nat, us: seq<Use>, u: Use, dropped: PeerId, other: PeerId)
    requires capacity >= 1 && u.Learn? && dropped != u.peer && other != dropped
    requires Contains(CacheAfter(capacity, us), dropped) && !Contains(CacheAfter(capacity, us + [u]), dropped)
    requires Contains(CacheAfter(capacity, us), other)
    ensures LastUse(capacity, us, dropped) < LastUse(capacity, us, other)
    ensures Contains(CacheAfter(capacity, us + [u]), other) && |CacheAfter(capacity, us).entries| == capacity
  {
    var c := CacheAfter(capacity, us);
    assert Init(us + [u]) == us;
    ValidAfter(capacity, us);
    PutEffect(c, u.peer, u.addrs, dropped);
    PutEffect(c, u.peer, u.addrs, other);
    InOrderOfUse(capacity, us);
    var i := Position(c.entries, other);
  }
}

/** The cache as the object the network behaviour holds. */
module AddressCache {
  import opened Words
  import A = Addresses

  class AddressCache {
    const capacity: nat
    var entries: seq<A.Entry>

    ghost function View(): A.Cache
      reads this
    {
      A.Cache(capacity, entries)
    }

    constructor (size: nat)
      requires size >= 1
      ensures View() == A.Cache(size, []) && A.Valid(View())
    {
      capacity := size;
      entries := [];
    }

    method Put(p: PeerId, addrs: seq<A.Addr>)
      requires A.Valid(View())
      modifies this
      ensures View() == A.Put(old(View()), p, addrs) && A.Valid(View())
    {
      A.PutEffect(View(), p, addrs, p);
      var kept := A.Reachable(addrs);
      if kept == {} {
        return;
      }
      if A.Listed(entries, p) {
        entries := [A.Entry(p, A.AddrsIn(entries, p) + kept)] + A.Without(entries, p);
      } else {
        if |entries| == capacity {
          entries := entries[..capacity - 1];
        }
        entries := [A.Entry(p, kept)] + entries;
      }
    }

    method Evict(p: PeerId)
      requires A.Valid(View())
      modifies this
      ensures View() == A.Evict(old(View()), p) && A.Valid(View())
    {
      A.EvictEffect(View(), p, p);
      entries := A.Without(entries, p);
    }

    method Contains(p: PeerId) returns (r: bool)
      ensures r == A.Contains(View(), p)
    {
      r := A.Listed(entries, p);
    }

    method OnDialFailure(p: Option<PeerId>, e: A.DialError)
      requires A.Valid(View())
      modifies this
      ensures View() == A.OnDialFailure(old(View()), p, e) && A.Valid(View())
    {
      match e
      case WrongPeerId | Transport | NoAddresses =>
        if p.Some? {
          Evict(p.value);
        }
      case _ =>
    }

    /** The addresses a dial to this peer may use. */
    method HandlePendingOutboundConnection(p: Option<PeerId>) returns (addrs: set<A.Addr>)
      requires A.Valid(View())
      modifies this
      ensures A.Valid(View())
      ensures View() == if p.Some? then A.Touch(old(View()), p.value) else old(View())
      ensures addrs == if p.Some? then A.AddrsOf(old(View()), p.value) else {}
      ensures addrs != {} <==> p.Some? && A.Contains(old(View()), p.value)
    {
      if p.None? {
        return {};
      }
      A.TouchEffect(View(), p.value, p.value);
      A.ListedHasAddrs(entries, p.value);
      addrs := A.AddrsIn(entries, p.value);
      if A.Listed(entries, p.value) {
        entries := [A.Entry(p.value, addrs)] + A.Without(entries, p.value);
      }
    }
  }
}
