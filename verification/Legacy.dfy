/** The legacy assignment's searches, and how far the portal's agree with them. */
module Legacy {
  import opened Words
  import opened Columns
  import Search
  import P = PortalFormat

  datatype LegacyChunk = LegacyChunk(firstBlock: u64, timestamp: Option<u64>)

  datatype LegacyDataset = LegacyDataset(chunks: seq<LegacyChunk>, lastBlock: u64)

  function Compare(a: u64, b: u64): Search.Ordering {
    if a < b then Search.Less else if a == b then Search.Equal else Search.Greater
  }

  /** `binary_search_by` on a column of keys: a hit, or the last key below the probe. */
  function SearchKeys(keys: seq<u64>, x: u64): (r: Result<nat, Option<nat>>)
    ensures r.Ok? ==> r.value < |keys| && keys[r.value] == x
    ensures r.Err? && r.error.None? ==> keys == [] || keys[0] > x
    ensures r.Err? && r.error.Some? ==>
              && r.error.value < |keys| && keys[r.error.value] < x
              && (r.error.value + 1 < |keys| ==> keys[r.error.value + 1] > x)
  {
    Search.BisectBy(-1, |keys|, (i: nat) requires i < |keys| => Compare(keys[i], x))
  }

  function FirstBlocks(d: LegacyDataset): seq<u64> {
    seq(|d.chunks|, i requires 0 <= i < |d.chunks| => d.chunks[i].firstBlock)
  }

  /** The last chunk starting at or before the block, whether or not it reaches that far. */
  function FindChunk(dataset: Option<LegacyDataset>, block: u64): Result<nat, P.ChunkNotFound> {
    match dataset
    case None => Err(P.UnknownDataset)
    case Some(d) => FindSpan(FirstBlocks(d), d.lastBlock, block)
  }

  function FindSpan(firsts: seq<u64>, lastBlock: u64, block: u64): Result<nat, P.ChunkNotFound> {
    if block > lastBlock then Err(P.AfterLast) else
    match SearchKeys(firsts, block)
    case Ok(i) => Ok(i)
    case Err(Some(i)) => Ok(i)
    case Err(None) => Err(P.BeforeFirst)
  }

  // ----- timestamps -----

  function TimeKeys(d: LegacyDataset): seq<u64> {
    seq(|d.chunks|, i requires 0 <= i < |d.chunks| =>
      match d.chunks[i].timestamp case Some(t) => t case None => 0)
  }

  /** The first chunk of the run of chunks stamped exactly `ts` that ends at `i`. */
  function RunStart(chunks: seq<LegacyChunk>, i: nat, ts: u64): (k: nat)
    requires i < |chunks| && chunks[i].timestamp == Some(ts)
    ensures k <= i && (k > 0 ==> chunks[k - 1].timestamp != Some(ts))
    ensures forall j :: k <= j <= i ==> chunks[j].timestamp == Some(ts)
  {
    if i == 0 || chunks[i - 1].timestamp != Some(ts) then i else RunStart(chunks, i - 1, ts)
  }

  function WalkBack(chunks: seq<LegacyChunk>, i: nat, ts: u64): nat
    requires i < |chunks|
  {
    if chunks[i].timestamp == Some(ts) then RunStart(chunks, i, ts) else i
  }

  /** The walk to the first of a sequence of equal timestamps. */
  method WalkToFirst(chunks: seq<LegacyChunk>, idx: nat, ts: u64) returns (k: nat)
    requires idx < |chunks|
    ensures k == WalkBack(chunks, idx, ts)
  {
    if chunks[idx].timestamp == Some(ts) {
      for i := idx + 1 downto 0
        invariant i <= idx ==> chunks[i].timestamp == Some(ts)
        invariant i <= idx ==> i > 0 && RunStart(chunks, i, ts) == RunStart(chunks, idx, ts)
      {
        if chunks[i].timestamp != Some(ts) {
          return i + 1;
        } else if i == 0 {
          return 0;
        }
      }
    }
    return idx;
  }

  function FindChunkByTimestamp(dataset: Option<LegacyDataset>, ts: u64): Result<nat, P.ChunkNotFound> {
    match dataset
    case None => Err(P.UnknownDataset)
    case Some(d) =>
      match SearchKeys(TimeKeys(d), ts)
      case Ok(i) => Ok(WalkBack(d.chunks, i, ts))
      case Err(Some(i)) => if i + 1 < |d.chunks| then Ok(WalkBack(d.chunks, i + 1, ts)) else Err(P.AfterLast)
      case Err(None) => if d.chunks != [] then Ok(WalkBack(d.chunks, 0, ts)) else Err(P.AfterLast)
  }

  /** `UnknownDataset` is reported exactly for a dataset that is not there, by all four lookups. */
  lemma UnknownIff(legacy: Option<LegacyDataset>, portal: Option<P.PortalDataset>, n: u64)
    requires portal.Some? ==> P.PortalAccepted(portal.value)
    ensures FindChunk(legacy, n) == Err(P.UnknownDataset) <==> legacy.None?
    ensures FindChunkByTimestamp(legacy, n) == Err(P.UnknownDataset) <==> legacy.None?
    ensures P.FindChunk(portal, n) == Err(P.UnknownDataset) <==> portal.None?
    ensures P.FindChunkByTimestamp(portal, n) == Err(P.UnknownDataset) <==> portal.None?
  {
  }

  // ----- agreement on blocks -----

  predicate StrictlyAscending(keys: seq<u64>) { forall i, j :: 0 <= i < j < |keys| ==> keys[i] < keys[j] }

  /** The same chunks in both formats. */
  predicate SameBlocks(legacy: LegacyDataset, portal: P.PortalDataset) {
    FirstBlocks(legacy) == portal.data.firstBlocks && legacy.lastBlock == portal.data.lastBlock
  }

  /** The keys up to `x` end before position `k`. */
  predicate Cut(keys: seq<u64>, x: u64, k: nat) {
    k <= |keys| && (k > 0 ==> keys[k - 1] <= x) && (k < |keys| ==> keys[k] > x)
  }

  lemma OneCut(keys: seq<u64>, x: u64, a: nat, b: nat)
    requires StrictlyAscending(keys) && Cut(keys, x, a) && Cut(keys, x, b)
    ensures a == b
  {
  }

  lemma {:induction false} KeySearchesAgree(keys: seq<u64>, x: u64)
    requires StrictlyAscending(keys)
    ensures var above := P.StartsAtOrBefore(keys, x);
            && Cut(keys, x, above)
            && match SearchKeys(keys, x)
               case Ok(i) => above == i + 1
               case Err(Some(i)) => above == i + 1
               case Err(None) => above == 0
  {
    var k := match SearchKeys(keys, x) case Ok(i) => i + 1 case Err(Some(i)) => i + 1 case Err(None) => 0;
    OneCut(keys, x, P.StartsAtOrBefore(keys, x), k);
  }

  /**
   * Every portal hit is the legacy hit, and the two differ only where the portal reports a gap:
   * there the legacy search hands out the chunk before the gap, and the next chunk starts after it.
   */
  lemma {:induction false} BlockSearchesAgree(legacy: LegacyDataset, portal: P.PortalDataset, block: u64)
    requires P.PortalAccepted(portal) && SameBlocks(legacy, portal) && StrictlyAscending(portal.data.firstBlocks)
    ensures var l, p := FindChunk(Some(legacy), block), P.FindChunk(Some(portal), block);
            && (p != Err(P.InGap) ==> l == p)
            && (p == Err(P.InGap) ==>
                  && l.Ok? && l.value < |portal.data.firstBlocks| && LastBlock(portal.data, l.value) < block
                  && (l.value + 1 < |portal.data.firstBlocks| ==> block < portal.data.firstBlocks[l.value + 1]))
  {
    SpansAgree(portal.data.firstBlocks, P.LastBlocks(portal.data), portal.data.lastBlock, block);
  }

  lemma {:induction false} SpansAgree(firsts: seq<u64>, lasts: seq<u64>, lastBlock: u64, block: u64)
    requires StrictlyAscending(firsts) && |firsts| == |lasts|
    ensures var l, p := FindSpan(firsts, lastBlock, block), P.FindSpan(firsts, lasts, lastBlock, block);
            && (p != Err(P.InGap) ==> l == p)
            && (p == Err(P.InGap) ==>
                  && l.Ok? && l.value < |firsts| && lasts[l.value] < block
                  && (l.value + 1 < |firsts| ==> block < firsts[l.value + 1]))
  {
    KeySearchesAgree(firsts, block);
  }

  // ----- agreement on timestamps -----

  predicate Ascending(keys: seq<u64>) { forall i, j :: 0 <= i < j < |keys| ==> keys[i] <= keys[j] }

  /** `k` is the first chunk at or after `ts`, or the chunk count when there is none. */
  predicate IsFirstAtOrAfter(keys: seq<u64>, ts: u64, k: nat) {
    && k <= |keys|
    && (forall i :: 0 <= i < k ==> keys[i] < ts)
    && (k < |keys| ==> keys[k] >= ts)
  }

  lemma PortalFindsFirst(keys: seq<u64>, ts: u64)
    requires Ascending(keys)
    ensures IsFirstAtOrAfter(keys, ts, P.TimestampsBefore(keys, ts))
  {
  }

  /** Walking back from any chunk stamped `ts` reaches the first one, unless missing stamps count as `ts`. */
  lemma {:induction false} WalkReachesFirst(d: LegacyDataset, ts: u64, i: nat)
    requires Ascending(TimeKeys(d)) && i < |d.chunks| && TimeKeys(d)[i] == ts
    requires ts > 0 || forall c :: c in d.chunks ==> c.timestamp.Some?
    ensures IsFirstAtOrAfter(TimeKeys(d), ts, WalkBack(d.chunks, i, ts))
  {
    var keys := TimeKeys(d);
    assert d.chunks[i] in d.chunks;
    var k := RunStart(d.chunks, i, ts);
    assert keys[k] == ts;
    if k > 0 {
      assert d.chunks[k - 1] in d.chunks;
      assert keys[k - 1] != ts && keys[k - 1] <= keys[k];
    }
  }

  lemma WalkStays(d: LegacyDataset, ts: u64, i: nat)
    requires i < |d.chunks| && TimeKeys(d)[i] != ts
    ensures WalkBack(d.chunks, i, ts) == i
  {
  }

  lemma MissPointsAtFirst(keys: seq<u64>, ts: u64, r: Result<nat, Option<nat>>)
    requires Ascending(keys) && r == SearchKeys(keys, ts) && r.Err?
    ensures IsFirstAtOrAfter(keys, ts, match r.error case Some(i) => i + 1 case None => 0)
  {
  }

  lemma {:induction false} LegacyFindsFirst(d: LegacyDataset, ts: u64)
    requires Ascending(TimeKeys(d))
    requires ts > 0 || forall c :: c in d.chunks ==> c.timestamp.Some?
    ensures match FindChunkByTimestamp(Some(d), ts)
            case Ok(k) => k < |d.chunks| && IsFirstAtOrAfter(TimeKeys(d), ts, k)
            case Err(e) => e == P.AfterLast && IsFirstAtOrAfter(TimeKeys(d), ts, |d.chunks|)
  {
    var keys := TimeKeys(d);
    var r := SearchKeys(keys, ts);
    if r.Ok? {
      WalkReachesFirst(d, ts, r.value);
    } else {
      MissPointsAtFirst(keys, ts, r);
      var k := match r.error case Some(i) => i + 1 case None => 0;
      if k < |keys| { WalkStays(d, ts, k); }
    }
  }

  lemma OneFirst(keys: seq<u64>, ts: u64, a: nat, b: nat)
    requires IsFirstAtOrAfter(keys, ts, a) && IsFirstAtOrAfter(keys, ts, b)
    ensures a == b
  {
  }

  /** On ascending timestamps both lookups return the first chunk at or after `ts`. */
  lemma {:induction false} TimestampSearchesAgree(legacy: LegacyDataset, portal: P.PortalDataset, ts: u64)
    requires P.PortalAccepted(portal) && TimeKeys(legacy) == portal.timestamps && Ascending(portal.timestamps)
    requires ts > 0 || forall c :: c in legacy.chunks ==> c.timestamp.Some?
    ensures var l, p := FindChunkByTimestamp(Some(legacy), ts), P.FindChunkByTimestamp(Some(portal), ts);
            && l == p
            && (p.Ok? ==> p.value < |portal.timestamps| && IsFirstAtOrAfter(portal.timestamps, ts, p.value))
            && (p.Err? ==> p == Err(P.AfterLast) && IsFirstAtOrAfter(portal.timestamps, ts, |portal.timestamps|))
  {
    var keys, k := TimeKeys(legacy), P.TimestampsBefore(portal.timestamps, ts);
    assert |keys| == |legacy.chunks|;
    PortalFindsFirst(keys, ts);
    LegacyFindsFirst(legacy, ts);
    match FindChunkByTimestamp(Some(legacy), ts)
    case Ok(i) => OneFirst(keys, ts, i, k);
    case Err(_) => OneFirst(keys, ts, |keys|, k);
  }

  // ----- timestamp 0 -----

  /** How many keys are 0 before the first that is not. */
  function ZeroPrefix(keys: seq<u64>): nat {
    if keys == [] || keys[0] != 0 then 0 else 1 + ZeroPrefix(keys[1..])
  }

  /** Where bisecting `n` keys lands when exactly the first `z` of them match and the rest are greater. */
  function Landing(n: nat, z: nat): (k: nat)
    requires 1 <= z && 1 <= n
    ensures k < n && k < z
  {
    var mid := (n - 1) / 2;
    if mid < z then mid else Landing(mid, z)
  }

  lemma {:induction false} ZerosFirst(keys: seq<u64>, i: nat)
    requires Ascending(keys) && i < |keys|
    ensures keys[i] == 0 <==> i < ZeroPrefix(keys)
  {
    if keys[0] == 0 && i > 0 {
      ZerosFirst(keys[1..], i - 1);
    }
  }

  lemma {:induction false} BisectLands(n: nat, z: nat, cmp: nat --> Search.Ordering)
    requires 1 <= n && 1 <= z && forall i: nat :: i < n ==> cmp.requires(i)
    requires forall i: nat :: i < n ==> cmp(i) == if i < z then Search.Equal else Search.Greater
    ensures Search.BisectBy(-1, n, cmp) == Ok(Landing(n, z))
  {
    var mid: nat := (n - 1) / 2;
    if mid >= z {
      BisectLands(mid, z, cmp);
    }
  }

  /**
   * At `ts == 0`, where a missing timestamp compares equal but does not count as 0 for the walk back,
   * the legacy lookup returns the first chunk exactly when no key is 0, or when the chunk that the
   * number of chunks and of leading zeros determine is the first, or only recorded zeros lead to it.
   */
  lemma {:induction false} ZeroTimestamp(d: LegacyDataset)
    requires Ascending(TimeKeys(d)) && d.chunks != []
    ensures var n, z := |d.chunks|, ZeroPrefix(TimeKeys(d));
            FindChunkByTimestamp(Some(d), 0) == Ok(0) <==>
              z == 0 || Landing(n, z) == 0 || forall j :: 0 <= j <= Landing(n, z) ==> d.chunks[j].timestamp == Some(0)
  {
    var keys := TimeKeys(d);
    var z := ZeroPrefix(keys);
    forall i | 0 <= i < |keys| ensures keys[i] == 0 <==> i < z {
      ZerosFirst(keys, i);
    }
    if z > 0 {
      BisectLands(|keys|, z, (i: nat) requires i < |keys| => Compare(keys[i], 0));
      WalkToZero(d.chunks, Landing(|keys|, z));
    }
  }

  lemma {:induction false} WalkToZero(chunks: seq<LegacyChunk>, i: nat)
    requires i < |chunks|
    ensures WalkBack(chunks, i, 0) == 0 <==> i == 0 || forall j :: 0 <= j <= i ==> chunks[j].timestamp == Some(0)
  {
    if chunks[i].timestamp == Some(0) && RunStart(chunks, i, 0) > 0 {
      assert chunks[RunStart(chunks, i, 0) - 1].timestamp != Some(0);
    }
  }

  /** Missing timestamps do break it: the walk stops in the middle of them. */
  lemma {:induction false} ZeroTimestampDisagrees()
    ensures var missing := LegacyChunk(0, None);
            var legacy := LegacyDataset([missing, missing, missing], 0);
            && Ascending(TimeKeys(legacy)) && !IsFirstAtOrAfter(TimeKeys(legacy), 0, 1)
            && FindChunkByTimestamp(Some(legacy), 0) == Ok(1)
  {
    var missing := LegacyChunk(0, None);
    var legacy := LegacyDataset([missing, missing, missing], 0);
    var keys := TimeKeys(legacy);
    assert keys[0] == 0 && keys[1] == 0;
    assert SearchKeys(keys, 0) == Ok(1);
  }
}
