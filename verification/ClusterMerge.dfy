/** Combining the portals of the new registry with those of the legacy one. */
module ClusterMerge {
  import opened Words
  import opened Sequences

  const U256_MAX := 0xFFFF_FFFF_FFFF_FFFF_FFFF_FFFF_FFFF_FFFF_FFFF_FFFF_FFFF_FFFF_FFFF_FFFF_FFFF_FFFF

  type Address = nat
  type Units = n: int | 0 <= n <= U256_MAX

  datatype Cluster = Cluster(operator: Address, portalIds: seq<PeerId>, units: Units)

  /** A legacy row; `gateway` is `None` when its bytes are not a peer id. */
  datatype Allocation = Allocation(gateway: Option<PeerId>, amount: Units, operator: Address)

  // ----- appending what is not there yet -----

  function AppendNew(known: seq<PeerId>, ids: seq<PeerId>): (r: seq<PeerId>)
    ensures known <= r
    ensures forall p :: p in r <==> p in known || p in ids
    ensures Distinct(r) <==> Distinct(known)
  {
    if ids == [] then known else
    assert ids == Init(ids) + [Last(ids)];
    var r := AppendNew(known, Init(ids));
    if Last(ids) in r then r else r + [Last(ids)]
  }

  lemma {:induction false} AppendNewConcat(known: seq<PeerId>, a: seq<PeerId>, b: seq<PeerId>)
    ensures AppendNew(known, a + b) == AppendNew(AppendNew(known, a), b)
  {
    if b == [] {
      assert a + b == a;
    } else {
      assert Init(a + b) == a + Init(b);
      AppendNewConcat(known, a, Init(b));
    }
  }

  method PushMissing(known: seq<PeerId>, ids: seq<PeerId>) returns (r: seq<PeerId>)
    ensures r == AppendNew(known, ids)
  {
    r := known;
    for i := 0 to |ids|
      invariant r == AppendNew(known, ids[..i])
    {
      assert Init(ids[..i + 1]) == ids[..i];
      if ids[i] !in r {
        r := r + [ids[i]];
      }
    }
    assert ids[..|ids|] == ids;
  }

  // ----- active portals -----

  /** Where a peer is first listed. */
  function FirstIndex(s: seq<PeerId>, p: PeerId): (i: nat)
    requires p in s
    ensures i < |s| && s[i] == p && p !in s[..i]
  {
    if s[0] == p then 0 else assert s == [s[0]] + s[1..]; 1 + FirstIndex(s[1..], p)
  }

  /** Peers keep the order of their first listing. */
  predicate InListedOrder(r: seq<PeerId>, s: seq<PeerId>)
    requires forall p :: p in r ==> p in s
  {
    forall i, j :: 0 <= i < j < |r| ==> FirstIndex(s, r[i]) < FirstIndex(s, r[j])
  }

  lemma {:induction false} FirstIndexInPrefix(a: seq<PeerId>, b: seq<PeerId>, p: PeerId)
    requires p in a
    ensures p in a + b && FirstIndex(a + b, p) == FirstIndex(a, p)
  {
    if a[0] != p {
      assert a == [a[0]] + a[1..] && (a + b)[1..] == a[1..] + b;
      FirstIndexInPrefix(a[1..], b, p);
    }
  }

  lemma FirstIndexAtEnd(a: seq<PeerId>, p: PeerId)
    requires p !in a
    ensures p in a + [p] && FirstIndex(a + [p], p) == |a|
  {
  }

  lemma {:induction false} DedupOrder(s: seq<PeerId>)
    ensures InListedOrder(AppendNew([], s), s)
  {
    if s != [] {
      var a, last := Init(s), Last(s);
      DedupOrder(a);
      assert s == a + [last];
      var r := AppendNew([], a);
      forall p | p in r ensures FirstIndex(s, p) == FirstIndex(a, p) {
        FirstIndexInPrefix(a, [last], p);
      }
      if last !in r {
        FirstIndexAtEnd(a, last);
      }
    }
  }

  /** Each peer once, new registry first, in the order of first listing. */
  method MergeActivePortals(newPortals: seq<PeerId>, legacyPortals: seq<PeerId>) returns (r: seq<PeerId>)
    ensures Distinct(r)
    ensures forall p :: p in r <==> p in newPortals + legacyPortals
    ensures InListedOrder(r, newPortals + legacyPortals)
    ensures AppendNew([], newPortals) <= r
  {
    var seen: set<PeerId> := {};
    var all := newPortals + legacyPortals;
    r := [];
    for i := 0 to |all|
      invariant r == AppendNew([], all[..i])
      invariant forall p :: p in seen <==> p in r
    {
      assert Init(all[..i + 1]) == all[..i];
      if all[i] !in seen {
        seen := seen + {all[i]};
        r := r + [all[i]];
      }
    }
    assert all[..|all|] == all;
    DedupOrder(all);
    AppendNewConcat([], newPortals, legacyPortals);
  }

  // ----- one operator-keyed map -----

  function Saturate(n: nat): Units { if n > U256_MAX then U256_MAX else n }

  function Upsert(m: map<Address, Cluster>, c: Cluster): map<Address, Cluster> {
    if c.operator in m then
      var e := m[c.operator];
      m[c.operator := Cluster(e.operator, AppendNew(e.portalIds, c.portalIds), Saturate(e.units + c.units))]
    else m[c.operator := c]
  }

  method UpsertCluster(m: map<Address, Cluster>, c: Cluster) returns (r: map<Address, Cluster>)
    ensures r == Upsert(m, c)
  {
    if c.operator in m {
      var e := m[c.operator];
      var ids := PushMissing(e.portalIds, c.portalIds);
      r := m[c.operator := Cluster(e.operator, ids, Saturate(e.units + c.units))];
    } else {
      r := m[c.operator := c];
    }
  }

  function Merged(cs: seq<Cluster>): map<Address, Cluster> {
    if cs == [] then map[] else Upsert(Merged(Init(cs)), Last(cs))
  }

  // ----- what the map holds, operator by operator -----

  predicate Names(cs: seq<Cluster>, op: Address) { exists c :: c in cs && c.operator == op }

  /** Every peer some contribution lists for the operator. */
  function Peers(cs: seq<Cluster>, op: Address): set<PeerId> {
    if cs == [] then {} else
    Peers(Init(cs), op) + if Last(cs).operator == op then (set p | p in Last(cs).portalIds) else {}
  }

  function Total(cs: seq<Cluster>, op: Address): nat {
    if cs == [] then 0 else Total(Init(cs), op) + if Last(cs).operator == op then Last(cs).units else 0
  }

  /** The operator's first contribution. */
  function First(cs: seq<Cluster>, op: Address): (c: Cluster)
    requires Names(cs, op)
    ensures c in cs && c.operator == op
  {
    if cs[0].operator == op then cs[0] else
    assert cs == [cs[0]] + cs[1..];
    assert Names(cs[1..], op) by {
      var c :| c in cs && c.operator == op;
      assert c in cs[1..];
    }
    First(cs[1..], op)
  }

  lemma {:induction false} FirstOfPrefix(cs: seq<Cluster>, last: Cluster, op: Address)
    requires Names(cs, op)
    ensures Names(cs + [last], op) && First(cs + [last], op) == First(cs, op)
  {
    assert First(cs, op) in cs + [last];
    if cs[0].operator != op {
      var c := First(cs, op);
      assert cs == [cs[0]] + cs[1..];
      assert c in cs[1..];
      FirstOfPrefix(cs[1..], last, op);
      assert (cs + [last])[1..] == cs[1..] + [last];
    }
  }

  lemma FirstAtEnd(cs: seq<Cluster>, last: Cluster)
    requires !Names(cs, last.operator)
    ensures Names(cs + [last], last.operator) && First(cs + [last], last.operator) == last
  {
  }

  /** Everything an entry must be, without mention of how it was built. */
  ghost predicate EntryOf(e: Cluster, cs: seq<Cluster>, op: Address)
    requires Names(cs, op)
  {
    && e.operator == op
    && First(cs, op).portalIds <= e.portalIds
    && (forall p :: p in e.portalIds <==> p in Peers(cs, op))
    && e.units == Saturate(Total(cs, op))
    && (Distinct(e.portalIds) <==> Distinct(First(cs, op).portalIds))
  }

  lemma NamesStep(cs: seq<Cluster>, last: Cluster, op: Address)
    ensures Names(cs + [last], op) <==> Names(cs, op) || last.operator == op
  {
  }

  lemma {:induction false} UnnamedIsEmpty(cs: seq<Cluster>, op: Address)
    requires !Names(cs, op)
    ensures Peers(cs, op) == {} && Total(cs, op) == 0
  {
    if cs != [] {
      assert Last(cs) in cs;
      assert cs == Init(cs) + [Last(cs)];
      NamesStep(Init(cs), Last(cs), op);
      UnnamedIsEmpty(Init(cs), op);
    }
  }

  lemma {:induction false} EntryStep(cs: seq<Cluster>, last: Cluster, e: Cluster, op: Address)
    requires Names(cs, op) && EntryOf(e, cs, op)
    ensures Names(cs + [last], op)
    ensures last.operator != op ==> EntryOf(e, cs + [last], op)
    ensures last.operator == op ==>
              EntryOf(Cluster(op, AppendNew(e.portalIds, last.portalIds), Saturate(e.units + last.units)),
                      cs + [last], op)
  {
    FirstOfPrefix(cs, last, op);
    assert Init(cs + [last]) == cs;
  }

  lemma {:induction false} EntryStarts(cs: seq<Cluster>, last: Cluster)
    requires !Names(cs, last.operator)
    ensures Names(cs + [last], last.operator) && EntryOf(last, cs + [last], last.operator)
  {
    FirstAtEnd(cs, last);
    TotalsStart(cs, last);
    LoneEntry(cs + [last], last);
  }

  lemma {:induction false} TotalsStart(cs: seq<Cluster>, last: Cluster)
    requires !Names(cs, last.operator)
    ensures Peers(cs + [last], last.operator) == set p | p in last.portalIds
    ensures Total(cs + [last], last.operator) == last.units
  {
    UnnamedIsEmpty(cs, last.operator);
    assert Init(cs + [last]) == cs;
  }

  lemma LoneEntry(all: seq<Cluster>, c: Cluster)
    requires Names(all, c.operator) && First(all, c.operator) == c
    requires Peers(all, c.operator) == set p | p in c.portalIds
    requires Total(all, c.operator) == c.units
    ensures EntryOf(c, all, c.operator)
  {
  }

  /** One entry per named operator, and each is what its contributions make it. */
  lemma {:induction false} MergedEntries(cs: seq<Cluster>, op: Address)
    ensures op in Merged(cs) <==> Names(cs, op)
    ensures op in Merged(cs) ==> EntryOf(Merged(cs)[op], cs, op)
  {
    if cs != [] {
      var rest, last := Init(cs), Last(cs);
      assert cs == rest + [last];
      MergedEntries(rest, op);
      NamesStep(rest, last, op);
      if Names(rest, op) {
        EntryStep(rest, last, Merged(rest)[op], op);
      } else if last.operator == op {
        EntryStarts(rest, last);
      }
    }
  }

  // ----- legacy rows -----

  /** A row counts when its gateway is a peer id the new registry does not list. */
  predicate Survives(a: Allocation, migrated: set<PeerId>) { a.gateway.Some? && a.gateway.value !in migrated }

  function Surviving(rows: seq<Allocation>, migrated: set<PeerId>): (r: seq<Allocation>)
    ensures forall a :: a in r ==> a.gateway.Some?
  {
    if rows == [] then [] else
    Surviving(Init(rows), migrated) + if Survives(Last(rows), migrated) then [Last(rows)] else []
  }

  function Operators(rows: seq<Allocation>): set<Address> { set a | a in rows :: a.operator }

  /** As clusters: one peer each, with units only the first time its operator appears. */
  function Contributions(rows: seq<Allocation>): (r: seq<Cluster>)
    requires forall a :: a in rows ==> a.gateway.Some?
    ensures |r| == |rows|
  {
    if rows == [] then [] else
    var a := Last(rows);
    var units: Units := if a.operator in Operators(Init(rows)) then 0 else a.amount;
    Contributions(Init(rows)) + [Cluster(a.operator, [a.gateway.value], units)]
  }

  /** The units of the first row of an operator, or nothing. */
  function FirstAmount(rows: seq<Allocation>, op: Address): Units {
    if rows == [] then 0
    else if rows[0].operator == op then rows[0].amount
    else FirstAmount(rows[1..], op)
  }

  lemma {:induction false} FirstAmountStep(rows: seq<Allocation>, last: Allocation, op: Address)
    ensures FirstAmount(rows + [last], op) ==
            if op in Operators(rows) then FirstAmount(rows, op) else if last.operator == op then last.amount else 0
  {
    if rows != [] {
      assert rows[0] in rows;
      assert (rows + [last])[1..] == rows[1..] + [last];
      FirstAmountStep(rows[1..], last, op);
      assert rows == [rows[0]] + rows[1..];
    }
  }

  lemma {:induction false} LegacyTotal(rows: seq<Allocation>, op: Address)
    requires forall a :: a in rows ==> a.gateway.Some?
    ensures Total(Contributions(rows), op) == FirstAmount(rows, op)
    ensures op !in Operators(rows) ==> FirstAmount(rows, op) == 0
  {
    if rows != [] {
      LegacyTotal(Init(rows), op);
      assert rows == Init(rows) + [Last(rows)];
      FirstAmountStep(Init(rows), Last(rows), op);
      assert Init(Contributions(rows)) == Contributions(Init(rows));
    }
  }

  lemma {:induction false} TotalConcat(a: seq<Cluster>, b: seq<Cluster>, op: Address)
    ensures Total(a + b, op) == Total(a, op) + Total(b, op)
  {
    if b == [] {
      assert a + b == a;
    } else {
      assert Init(a + b) == a + Init(b);
      TotalConcat(a, Init(b), op);
    }
  }

  function MigratedPeers(cs: seq<Cluster>): set<PeerId> { set c, p | c in cs && p in c.portalIds :: p }

  /** Everything that flows into the result, in the order it does. */
  function Inputs(newClusters: seq<Cluster>, legacy: seq<Allocation>, migrated: set<PeerId>): seq<Cluster> {
    newClusters + Contributions(Surviving(legacy, migrated))
  }

  /** The units of an operator: all of its new clusters and one surviving legacy row. */
  lemma {:induction false} TotalOfInputs(
    newClusters: seq<Cluster>, legacy: seq<Allocation>, migrated: set<PeerId>, op: Address)
    ensures Total(Inputs(newClusters, legacy, migrated), op) ==
            Total(newClusters, op) + FirstAmount(Surviving(legacy, migrated), op)
  {
    var rows := Surviving(legacy, migrated);
    TotalConcat(newClusters, Contributions(rows), op);
    LegacyTotal(rows, op);
  }

  lemma {:induction false} PeersConcat(a: seq<Cluster>, b: seq<Cluster>, op: Address)
    ensures Peers(a + b, op) == Peers(a, op) + Peers(b, op)
  {
    if b == [] {
      assert a + b == a;
    } else {
      assert Init(a + b) == a + Init(b);
      PeersConcat(a, Init(b), op);
    }
  }

  lemma {:induction false} LegacyPeersNotMigrated(rows: seq<Allocation>, migrated: set<PeerId>, op: Address)
    ensures Peers(Contributions(Surviving(rows, migrated)), op) !! migrated
  {
    if rows != [] {
      LegacyPeersNotMigrated(Init(rows), migrated, op);
      var kept := Surviving(Init(rows), migrated);
      if Survives(Last(rows), migrated) {
        assert Init(kept + [Last(rows)]) == kept;
        assert Init(Contributions(kept + [Last(rows)])) == Contributions(kept);
      } else {
        assert kept + [] == kept;
      }
    }
  }

  /** A peer of the new registry is listed under exactly the operators the new registry gives it. */
  lemma {:induction false} MigratedPeersStay(newClusters: seq<Cluster>, legacy: seq<Allocation>, op: Address, p: PeerId)
    requires p in MigratedPeers(newClusters)
    ensures p in Peers(Inputs(newClusters, legacy, MigratedPeers(newClusters)), op) <==> p in Peers(newClusters, op)
  {
    var migrated := MigratedPeers(newClusters);
    LegacyPeersNotMigrated(legacy, migrated, op);
    PeersConcat(newClusters, Contributions(Surviving(legacy, migrated)), op);
  }

  // ----- the merge -----

  predicate AscendingOperators(r: seq<Cluster>) {
    forall i, j :: 0 <= i < j < |r| ==> r[i].operator < r[j].operator
  }

  predicate Smallest(k: Address, keys: set<Address>) { k in keys && forall j :: j in keys ==> k <= j }

  lemma {:induction false} SmallestExists(keys: set<Address>)
    requires keys != {}
    ensures exists k :: Smallest(k, keys)
  {
    var k :| k in keys;
    var rest := keys - {k};
    if rest == {} {
      assert keys == {k};
      assert Smallest(k, keys);
    } else {
      SmallestExists(rest);
      var m :| Smallest(m, rest);
      var best := if k < m then k else m;
      forall j | j in keys ensures best <= j {
        assert j == k || j in rest;
      }
      assert Smallest(best, keys);
    }
  }

  /** `r` lists, in order, the entries of all keys but `keys`, which come after them. */
  ghost predicate Drained(m: map<Address, Cluster>, keys: set<Address>, r: seq<Cluster>) {
    && keys <= m.Keys && AscendingOperators(r)
    && (forall c :: c in r <==> c.operator in m && c.operator !in keys && m[c.operator] == c)
    && (forall i, k :: 0 <= i < |r| && k in keys ==> r[i].operator < k)
  }

  lemma {:induction false} DrainOne(m: map<Address, Cluster>, keys: set<Address>, r: seq<Cluster>, k: Address)
    requires (forall op :: op in m ==> m[op].operator == op) && Drained(m, keys, r) && Smallest(k, keys)
    ensures Drained(m, keys - {k}, r + [m[k]])
  {
    var r1 := r + [m[k]];
    forall c ensures c in r1 <==> c.operator in m && c.operator !in keys - {k} && m[c.operator] == c {
      assert c in r1 <==> c in r || c == m[k];
    }
  }

  /** The entries of an ordered map, smallest key first. */
  method ValuesInOrder(m: map<Address, Cluster>) returns (r: seq<Cluster>)
    requires forall op :: op in m ==> m[op].operator == op
    ensures AscendingOperators(r)
    ensures forall c :: c in r <==> c.operator in m && m[c.operator] == c
  {
    var keys := m.Keys;
    r := [];
    while keys != {}
      invariant Drained(m, keys, r)
      decreases |keys|
    {
      SmallestExists(keys);
      var k :| Smallest(k, keys);
      DrainOne(m, keys, r, k);
      keys := keys - {k};
      r := r + [m[k]];
    }
  }

  lemma {:induction false} SurvivingStep(rows: seq<Allocation>, i: nat, migrated: set<PeerId>)
    requires i < |rows|
    ensures Survives(rows[i], migrated) ==>
              Surviving(rows[..i + 1], migrated) == Surviving(rows[..i], migrated) + [rows[i]]
    ensures !Survives(rows[i], migrated) ==> Surviving(rows[..i + 1], migrated) == Surviving(rows[..i], migrated)
  {
    assert Init(rows[..i + 1]) == rows[..i];
  }

  lemma {:induction false} InputsStep(
    newClusters: seq<Cluster>, rows: seq<Allocation>, a: Allocation, seen: set<Address>)
    requires (forall b :: b in rows ==> b.gateway.Some?) && a.gateway.Some? && seen == Operators(rows)
    ensures forall b :: b in rows + [a] ==> b.gateway.Some?
    ensures Operators(rows + [a]) == seen + {a.operator}
    ensures Merged(newClusters + Contributions(rows + [a])) ==
            Upsert(Merged(newClusters + Contributions(rows)),
                   Cluster(a.operator, [a.gateway.value], if a.operator in seen then 0 else a.amount))
  {
    assert Init(rows + [a]) == rows;
    var before := newClusters + Contributions(rows);
    var c := Cluster(a.operator, [a.gateway.value], if a.operator in seen then 0 else a.amount);
    assert newClusters + Contributions(rows + [a]) == before + [c];
    assert Init(before + [c]) == before;
    OperatorsStep(rows, a);
  }

  lemma OperatorsStep(rows: seq<Allocation>, a: Allocation)
    ensures Operators(rows + [a]) == Operators(rows) + {a.operator}
  {
  }

  /** One cluster per named operator, in order of address, each what its contributions make it. */
  ghost predicate MergeOf(r: seq<Cluster>, all: seq<Cluster>) {
    && AscendingOperators(r)
    && (forall op :: Names(all, op) ==> exists c :: c in r && c.operator == op)
    && (forall c :: c in r ==> Names(all, c.operator) && EntryOf(c, all, c.operator))
  }

  method MergePortalClusters(newClusters: seq<Cluster>, legacy: seq<Allocation>) returns (r: seq<Cluster>)
    ensures MergeOf(r, Inputs(newClusters, legacy, MigratedPeers(newClusters)))
  {
    var migrated := MigratedPeers(newClusters);
    var byOperator: map<Address, Cluster> := map[];
    for i := 0 to |newClusters|
      invariant byOperator == Merged(newClusters[..i])
    {
      assert Init(newClusters[..i + 1]) == newClusters[..i];
      byOperator := UpsertCluster(byOperator, newClusters[i]);
    }
    assert newClusters[..|newClusters|] == newClusters;
    var legacySeen: set<Address> := {};
    assert Inputs(newClusters, legacy[..0], migrated) == newClusters;
    for i := 0 to |legacy|
      invariant byOperator == Merged(Inputs(newClusters, legacy[..i], migrated))
      invariant legacySeen == Operators(Surviving(legacy[..i], migrated))
    {
      var a := legacy[i];
      SurvivingStep(legacy, i, migrated);
      if Survives(a, migrated) {
        InputsStep(newClusters, Surviving(legacy[..i], migrated), a, legacySeen);
        var units: Units := if a.operator in legacySeen then 0 else a.amount;
        legacySeen := legacySeen + {a.operator};
        byOperator := UpsertCluster(byOperator, Cluster(a.operator, [a.gateway.value], units));
      }
    }
    assert legacy[..|legacy|] == legacy;
    ghost var all := Inputs(newClusters, legacy, migrated);
    MergedOperators(all);
    r := ValuesInOrder(byOperator);
    CollectedIsMerge(all, r);
  }

  lemma {:induction false} MergedOperators(all: seq<Cluster>)
    ensures forall op :: op in Merged(all) ==> Merged(all)[op].operator == op
  {
    forall op | op in Merged(all) ensures Merged(all)[op].operator == op {
      MergedEntries(all, op);
    }
  }

  lemma {:induction false} CollectedIsMerge(all: seq<Cluster>, r: seq<Cluster>)
    requires AscendingOperators(r)
    requires forall c :: c in r <==> c.operator in Merged(all) && Merged(all)[c.operator] == c
    ensures MergeOf(r, all)
  {
    MergedOperators(all);
    forall op | Names(all, op) ensures exists c :: c in r && c.operator == op {
      MergedEntries(all, op);
      assert Merged(all)[op] in r;
    }
    forall c | c in r ensures Names(all, c.operator) && EntryOf(c, all, c.operator) {
      MergedEntries(all, c.operator);
    }
  }

  // ----- the merge in terms of its inputs -----

  predicate NewLists(newClusters: seq<Cluster>, op: Address, p: PeerId) {
    exists c :: c in newClusters && c.operator == op && p in c.portalIds
  }

  /** The row names a peer, and the new registry lists that peer nowhere. */
  predicate StillCounts(newClusters: seq<Cluster>, a: Allocation) {
    a.gateway.Some? && forall c :: c in newClusters ==> a.gateway.value !in c.portalIds
  }

  predicate LegacyLists(newClusters: seq<Cluster>, legacy: seq<Allocation>, op: Address, p: PeerId) {
    exists a :: a in legacy && a.operator == op && a.gateway == Some(p) && StillCounts(newClusters, a)
  }

  /** Row `i` is the operator's first that still counts. */
  predicate FirstRow(newClusters: seq<Cluster>, legacy: seq<Allocation>, op: Address, i: nat) {
    && i < |legacy| && legacy[i].operator == op && StillCounts(newClusters, legacy[i])
    && forall j :: 0 <= j < i && legacy[j].operator == op ==> !StillCounts(newClusters, legacy[j])
  }

  lemma StillCountsIff(newClusters: seq<Cluster>, a: Allocation)
    ensures StillCounts(newClusters, a) <==> Survives(a, MigratedPeers(newClusters))
  {
  }

  lemma {:induction false} SurvivingHas(rows: seq<Allocation>, migrated: set<PeerId>, a: Allocation)
    ensures a in Surviving(rows, migrated) <==> a in rows && Survives(a, migrated)
  {
    if rows != [] {
      SurvivingHas(Init(rows), migrated, a);
      assert rows == Init(rows) + [Last(rows)];
    }
  }

  lemma {:induction false} PeersOfNew(cs: seq<Cluster>, op: Address, p: PeerId)
    ensures p in Peers(cs, op) <==> NewLists(cs, op, p)
  {
    if cs != [] {
      PeersOfNew(Init(cs), op, p);
      assert cs == Init(cs) + [Last(cs)];
    }
  }

  lemma {:induction false} PeersOfRows(rows: seq<Allocation>, op: Address, p: PeerId)
    requires forall a :: a in rows ==> a.gateway.Some?
    ensures p in Peers(Contributions(rows), op) <==> exists a :: a in rows && a.operator == op && a.gateway == Some(p)
  {
    if rows != [] {
      PeersOfRows(Init(rows), op, p);
      assert rows == Init(rows) + [Last(rows)];
      assert Init(Contributions(rows)) == Contributions(Init(rows));
    }
  }

  /** A peer is listed for an operator if either registry does so, the legacy one only for peers not migrated. */
  lemma {:induction false} ListedIff(newClusters: seq<Cluster>, legacy: seq<Allocation>, op: Address, p: PeerId)
    ensures p in Peers(Inputs(newClusters, legacy, MigratedPeers(newClusters)), op)
        <==> NewLists(newClusters, op, p) || LegacyLists(newClusters, legacy, op, p)
  {
    var migrated := MigratedPeers(newClusters);
    var rows := Surviving(legacy, migrated);
    PeersConcat(newClusters, Contributions(rows), op);
    PeersOfNew(newClusters, op, p);
    PeersOfRows(rows, op, p);
    forall a ensures a in rows <==> a in legacy && StillCounts(newClusters, a) {
      SurvivingHas(legacy, migrated, a);
      StillCountsIff(newClusters, a);
    }
  }

  lemma {:induction false} FirstAmountNone(rows: seq<Allocation>, op: Address)
    requires forall a :: a in rows ==> a.operator != op
    ensures FirstAmount(rows, op) == 0
  {
    if rows != [] {
      assert rows[0] in rows;
      FirstAmountNone(rows[1..], op);
    }
  }

  lemma {:induction false} FirstAmountConcat(a: seq<Allocation>, b: seq<Allocation>, op: Address)
    requires forall x :: x in a ==> x.operator != op
    ensures FirstAmount(a + b, op) == FirstAmount(b, op)
  {
    if a == [] {
      assert a + b == b;
    } else {
      assert a[0] in a && (a + b)[1..] == a[1..] + b;
      FirstAmountConcat(a[1..], b, op);
    }
  }

  lemma {:induction false} SurvivingPush(rows: seq<Allocation>, a: Allocation, migrated: set<PeerId>)
    ensures Surviving(rows + [a], migrated) == Surviving(rows, migrated) + if Survives(a, migrated) then [a] else []
  {
    assert Init(rows + [a]) == rows && Last(rows + [a]) == a;
  }

  lemma Regroup(a: seq<Allocation>, b: seq<Allocation>, c: seq<Allocation>)
    ensures (a + b) + c == a + (b + c)
  {
  }

  lemma {:induction false} SurvivingConcat(a: seq<Allocation>, b: seq<Allocation>, migrated: set<PeerId>)
    ensures Surviving(a + b, migrated) == Surviving(a, migrated) + Surviving(b, migrated)
    decreases |b|
  {
    if b == [] {
      assert a + b == a && Surviving(a, migrated) + [] == Surviving(a, migrated);
    } else {
      var front, last := b[..|b| - 1], b[|b| - 1];
      SurvivingConcat(a, front, migrated);
      assert b == front + [last];
      Regroup(a, front, [last]);
      SurvivingPush(a + front, last, migrated);
      SurvivingPush(front, last, migrated);
      var tail := if Survives(last, migrated) then [last] else [];
      Regroup(Surviving(a, migrated), Surviving(front, migrated), tail);
    }
  }

  /** The legacy units of an operator are those of its first row that still counts, or none. */
  lemma {:induction false} LegacyUnits(newClusters: seq<Cluster>, legacy: seq<Allocation>, op: Address, i: nat)
    requires FirstRow(newClusters, legacy, op, i)
    ensures FirstAmount(Surviving(legacy, MigratedPeers(newClusters)), op) == legacy[i].amount
  {
    var migrated := MigratedPeers(newClusters);
    var before, rest := legacy[..i], legacy[i + 1..];
    assert legacy == before + ([legacy[i]] + rest);
    SurvivingConcat(before, [legacy[i]] + rest, migrated);
    SurvivingConcat([legacy[i]], rest, migrated);
    StillCountsIff(newClusters, legacy[i]);
    assert Init([legacy[i]]) == [] && Surviving([legacy[i]], migrated) == [legacy[i]];
    forall x | x in Surviving(before, migrated) ensures x.operator != op {
      SurvivingHas(before, migrated, x);
      StillCountsIff(newClusters, x);
    }
    FirstAmountConcat(Surviving(before, migrated), [legacy[i]] + Surviving(rest, migrated), op);
  }

  lemma {:induction false} NoLegacyUnits(newClusters: seq<Cluster>, legacy: seq<Allocation>, op: Address)
    requires forall a :: a in legacy && a.operator == op ==> !StillCounts(newClusters, a)
    ensures FirstAmount(Surviving(legacy, MigratedPeers(newClusters)), op) == 0
  {
    var migrated := MigratedPeers(newClusters);
    forall x | x in Surviving(legacy, migrated) ensures x.operator != op {
      SurvivingHas(legacy, migrated, x);
      StillCountsIff(newClusters, x);
    }
    FirstAmountNone(Surviving(legacy, migrated), op);
  }

  function Capped(n: nat): nat { if n < U256_MAX then n else U256_MAX }

  /** The peers of every cluster of the result, from the two registries alone. */
  lemma {:induction false} PeersExact(
    newClusters: seq<Cluster>, legacy: seq<Allocation>, r: seq<Cluster>, c: Cluster, p: PeerId)
    requires MergeOf(r, Inputs(newClusters, legacy, MigratedPeers(newClusters))) && c in r
    ensures p in c.portalIds <==>
              NewLists(newClusters, c.operator, p) || LegacyLists(newClusters, legacy, c.operator, p)
  {
    ListedIff(newClusters, legacy, c.operator, p);
  }

  lemma {:induction false} UnitsAre(newClusters: seq<Cluster>, legacy: seq<Allocation>, r: seq<Cluster>, c: Cluster)
    requires MergeOf(r, Inputs(newClusters, legacy, MigratedPeers(newClusters))) && c in r
    ensures c.units == Capped(Total(newClusters, c.operator)
                              + FirstAmount(Surviving(legacy, MigratedPeers(newClusters)), c.operator))
  {
    TotalOfInputs(newClusters, legacy, MigratedPeers(newClusters), c.operator);
  }

  /** Its units: those of all its new clusters and of its first legacy row that still counts, capped. */
  lemma {:induction false} UnitsExact(
    newClusters: seq<Cluster>, legacy: seq<Allocation>, r: seq<Cluster>, c: Cluster, i: nat)
    requires MergeOf(r, Inputs(newClusters, legacy, MigratedPeers(newClusters))) && c in r
    requires FirstRow(newClusters, legacy, c.operator, i)
    ensures c.units == Capped(Total(newClusters, c.operator) + legacy[i].amount)
  {
    UnitsAre(newClusters, legacy, r, c);
    LegacyUnits(newClusters, legacy, c.operator, i);
  }

  lemma {:induction false} UnitsWithoutLegacy(
    newClusters: seq<Cluster>, legacy: seq<Allocation>, r: seq<Cluster>, c: Cluster)
    requires MergeOf(r, Inputs(newClusters, legacy, MigratedPeers(newClusters))) && c in r
    requires forall a :: a in legacy && a.operator == c.operator ==> !StillCounts(newClusters, a)
    ensures c.units == Capped(Total(newClusters, c.operator))
  {
    UnitsAre(newClusters, legacy, r, c);
    NoLegacyUnits(newClusters, legacy, c.operator);
  }

  lemma {:induction false} NamesConcat(a: seq<Cluster>, b: seq<Cluster>, op: Address)
    ensures Names(a + b, op) <==> Names(a, op) || Names(b, op)
  {
    if c :| c in a && c.operator == op {
      assert c in a + b;
    }
    if c :| c in b && c.operator == op {
      assert c in a + b;
    }
  }

  lemma {:induction false} RowsName(rows: seq<Allocation>, op: Address)
    requires forall a :: a in rows ==> a.gateway.Some?
    ensures Names(Contributions(rows), op) <==> exists a :: a in rows && a.operator == op
  {
    if rows != [] {
      RowsName(Init(rows), op);
      assert rows == Init(rows) + [Last(rows)];
      var cs := Contributions(rows);
      assert cs == Init(cs) + [Last(cs)] && Init(cs) == Contributions(Init(rows));
      NamesStep(Init(cs), Last(cs), op);
    }
  }

  /** An operator is in the result if the new registry names it or one of its legacy rows still counts. */
  lemma {:induction false} OperatorsExact(
    newClusters: seq<Cluster>, legacy: seq<Allocation>, r: seq<Cluster>, op: Address)
    requires MergeOf(r, Inputs(newClusters, legacy, MigratedPeers(newClusters)))
    ensures (exists c :: c in r && c.operator == op) <==>
              || (exists c :: c in newClusters && c.operator == op)
              || (exists a :: a in legacy && a.operator == op && StillCounts(newClusters, a))
  {
    var migrated := MigratedPeers(newClusters);
    var rows := Surviving(legacy, migrated);
    NamesConcat(newClusters, Contributions(rows), op);
    RowsName(rows, op);
    forall a ensures a in rows <==> a in legacy && StillCounts(newClusters, a) {
      SurvivingHas(legacy, migrated, a);
      StillCountsIff(newClusters, a);
    }
  }
}
