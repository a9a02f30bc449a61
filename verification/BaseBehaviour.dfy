/** The behaviour that keeps worker connections up, as the object the swarm drives. */
module BaseBehaviour {
  import opened Words
  import opened Addresses
  import R = Reconnect
  import AddressCache

  class BaseBehaviour {
    const addressCache: AddressCache.AddressCache
    const maxConcurrentLookups: nat
    var pendingEvents: seq<PeerId>
    var ongoingLookups: map<PeerId, R.QueryId>
    var nextQuery: R.QueryId
    var outboundConns: map<PeerId, u32>
    var registeredWorkers: set<PeerId>
    var maintainWorkerConnections: bool
    var reconnectQueue: seq<PeerId>
    var pendingLookups: seq<PeerId>
    var reconnectScheduled: set<PeerId>

    ghost function View(): R.Base
      reads this, addressCache
    {
      R.Base(addressCache.View(), pendingEvents, ongoingLookups, nextQuery, outboundConns, registeredWorkers,
             maintainWorkerConnections, reconnectQueue, pendingLookups, maxConcurrentLookups, reconnectScheduled)
    }

    ghost predicate Valid()
      reads this, addressCache
    {
      R.Kept(View())
    }

    constructor (cacheSize: nat, maxLookups: nat)
      requires cacheSize >= 1
      ensures Valid() && fresh(addressCache)
      ensures View() == R.Base(Cache(cacheSize, []), [], map[], 0, map[], {}, false, [], [], maxLookups, {})
    {
      addressCache := new AddressCache.AddressCache(cacheSize);
      maxConcurrentLookups := maxLookups;
      pendingEvents, ongoingLookups, nextQuery, outboundConns := [], map[], 0, map[];
      registeredWorkers, maintainWorkerConnections := {}, false;
      reconnectQueue, pendingLookups, reconnectScheduled := [], [], {};
    }

    method MaintainWorkerConnections()
      requires Valid()
      modifies this
      ensures Valid() && View() == old(View()).(maintain := true)
    {
      maintainWorkerConnections := true;
    }

    method FindAndDial(p: PeerId)
      requires Valid()
      modifies this
      ensures Valid() && View() == R.FindAndDial(old(View()), p)
    {
      R.FindAndDialKeeps(View(), p);
      var known := addressCache.Contains(p);
      if known {
        pendingEvents := pendingEvents + [p];
      } else if p in ongoingLookups {
      } else {
        var query := nextQuery;
        nextQuery := nextQuery + 1;
        ongoingLookups := ongoingLookups[p := query];
      }
    }

    method OutboundConnExists(p: PeerId) returns (r: bool)
      ensures r == R.ConnExists(View(), p)
    {
      r := p in outboundConns && outboundConns[p] > 0;
    }

    method ScheduleReconnect(p: PeerId)
      requires Valid()
      modifies this
      ensures Valid() && View() == R.ScheduleReconnect(old(View()), p)
    {
      R.ScheduleKeeps(View(), p);
      var connected := OutboundConnExists(p);
      var needed := maintainWorkerConnections && p in registeredWorkers && !connected;
      if !needed || p in reconnectScheduled {
        return;
      }
      reconnectScheduled := reconnectScheduled + {p};
      reconnectQueue := reconnectQueue + [p];
    }

    method OnConnectionEstablished(p: PeerId, dialed: bool)
      requires Valid()
      modifies this
      ensures Valid() && View() == R.OnEstablished(old(View()), p, dialed)
    {
      if !dialed {
        return;
      }
      var n := if p in outboundConns then outboundConns[p] else 0;
      outboundConns := outboundConns[p := (n + 1) % (U32_MAX + 1)];
    }

    method OnConnectionClosed(p: PeerId, dialed: bool)
      requires Valid()
      modifies this
      ensures Valid() && View() == R.OnClosed(old(View()), p, dialed)
    {
      if !dialed {
        return;
      }
      if p in outboundConns {
        outboundConns := outboundConns[p := (outboundConns[p] - 1) % (U32_MAX + 1)];
      }
      ScheduleReconnect(p);
    }

    method OnDialFailure(p: Option<PeerId>, e: DialError)
      requires Valid()
      modifies this, addressCache
      ensures Valid() && View() == R.OnDialFailure(old(View()), p, e)
    {
      addressCache.OnDialFailure(p, e);
      if p.Some? && (e.Transport? || e.WrongPeerId? || e.NoAddresses?) {
        ScheduleReconnect(p.value);
      }
    }

    method OnLookupProgress(q: R.QueryId, found: Option<seq<Addr>>, last: bool) returns (dial: Option<PeerId>)
      requires Valid()
      modifies this, addressCache
      ensures Valid() && (View(), dial) == R.OnLookupProgress(old(View()), q, found, last)
    {
      R.LookupKeeps(View(), q, found, last);
      if !exists p :: p in ongoingLookups && ongoingLookups[p] == q {
        return None;
      }
      var p :| p in ongoingLookups && ongoingLookups[p] == q;
      assert p == R.PeerOf(View(), q);
      var finished := last || found.Some?;
      if finished {
        ongoingLookups := ongoingLookups - {p};
      }
      if found.Some? {
        addressCache.Put(p, found.value);
      }
      dial := if finished then Some(p) else None;
    }

    method OnNodesUpdate(order: seq<PeerId>)
      requires Valid()
      modifies this
      ensures Valid() && View() == R.OnNodesUpdate(old(View()), order)
    {
      registeredWorkers := set p | p in order;
      if !maintainWorkerConnections {
        return;
      }
      ghost var start := View();
      R.AddMissingKeeps(start, order);
      for i := 0 to |order|
        invariant R.AddMissing(View(), order[i..]) == R.AddMissing(start, order)
      {
        var p := order[i];
        assert order[i..][1..] == order[i + 1..];
        var connected := OutboundConnExists(p);
        if !connected && p !in reconnectScheduled {
          reconnectScheduled := reconnectScheduled + {p};
          pendingLookups := pendingLookups + [p];
        }
      }
    }

    /** `expired` are the peers whose cooldown has ended. */
    method Poll(expired: seq<PeerId>) returns (dial: Option<PeerId>)
      requires Valid() && multiset(expired) <= multiset(reconnectQueue)
      modifies this
      ensures Valid() && (View(), dial) == R.Poll(old(View()), expired)
    {
      R.PollKeeps(View(), expired);
      R.ExpireAllKeeps(View(), expired);
      TakeExpired(expired);
      StartLookups();
      if pendingEvents == [] {
        return None;
      }
      dial := Some(pendingEvents[0]);
      pendingEvents := pendingEvents[1..];
    }

    method TakeExpired(expired: seq<PeerId>)
      requires multiset(expired) <= multiset(reconnectQueue)
      modifies this
      ensures View() == R.ExpireAll(old(View()), expired)
    {
      ghost var start := View();
      for i := 0 to |expired|
        invariant R.ExpireAll(View(), expired[i..]) == R.ExpireAll(start, expired)
      {
        var p := expired[i];
        assert expired[i..][1..] == expired[i + 1..];
        reconnectQueue := R.Remove(reconnectQueue, p);
        var connected := OutboundConnExists(p);
        if !connected && p in registeredWorkers {
          pendingLookups := pendingLookups + [p];
        } else {
          reconnectScheduled := reconnectScheduled - {p};
        }
      }
    }

    method StartLookups()
      requires Valid()
      modifies this
      ensures Valid() && View() == R.StartLookups(old(View()))
    {
      ghost var end := R.StartLookups(View());
      while |ongoingLookups| < maxConcurrentLookups && pendingLookups != []
        invariant Valid() && R.StartLookups(View()) == end
        decreases |pendingLookups|
      {
        TakeNext();
      }
    }

    /** One round of the lookup loop. */
    method TakeNext()
      requires Valid() && pendingLookups != []
      modifies this
      ensures Valid() && View() == R.StartOne(old(View()))
      ensures |pendingLookups| < old(|pendingLookups|)
    {
      R.StartOneKeeps(View());
      var p := pendingLookups[0];
      ghost var rest := View().(pending := pendingLookups[1..], scheduled := reconnectScheduled - {p});
      R.NextLeaves(View());
      pendingLookups := pendingLookups[1..];
      reconnectScheduled := reconnectScheduled - {p};
      assert View() == rest;
      var connected := OutboundConnExists(p);
      if !connected {
        FindAndDial(p);
      }
    }
  }
}
