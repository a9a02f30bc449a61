/** The portal-facing dataset: the shared columns plus timestamps, and the searches over them. */
module PortalFormat {
  import opened Words
  import opened Columns
  import Search

  /** One chunk as the portal format carries it; timestamp 0 means none was recorded. */
  datatype PortalRow = PortalRow(core: Row, timestamp: u64)

  // ----- staging -----

  datatype PortalColumns = PortalColumns(core: Core, timestamps: seq<u64>)

  const NO_COLUMNS := PortalColumns(EMPTY, [])

  datatype PushedPortal = PushedPortal(columns: PortalColumns, lastBlock: Option<u64>, outcome: Result<(), PushError>)

  function PushPortal(checkContinuity: bool, lastBlock: Option<u64>, c: PortalColumns, row: PortalRow): PushedPortal
    requires row.core.id.firstBlock <= row.core.id.lastBlock
  {
    var p := Push(checkContinuity, lastBlock, c.core, row.core);
    PushedPortal(
      if p.Wrote(c.core) then PortalColumns(p.core, c.timestamps + [row.timestamp]) else c,
      p.lastBlock, p.outcome)
  }

  function Cores(rows: seq<PortalRow>): seq<Row> {
    seq(|rows|, i requires 0 <= i < |rows| => rows[i].core)
  }

  function Timestamps(rows: seq<PortalRow>): seq<u64> {
    seq(|rows|, i requires 0 <= i < |rows| => rows[i].timestamp)
  }

  predicate PortalFits(rows: seq<PortalRow>) { Fits(Cores(rows)) }

  /** The columns staging these rows one by one leaves. */
  function ColumnsOf(rows: seq<PortalRow>): PortalColumns
    requires PortalFits(rows)
  {
    PortalColumns(CoreOf(Cores(rows)), Timestamps(rows))
  }

  // ----- the emitted dataset and its reader -----

  datatype PortalDataset = PortalDataset(
    id: string,
    readSchemaId: u32,
    lastBlockHash: Option<string>,
    data: Data,
    timestamps: seq<u64>)

  function EmitPortal(id: string, readSchemaId: u32, hash: Option<string>, c: PortalColumns, lastBlock: u64)
    : PortalDataset
  {
    PortalDataset(id, readSchemaId, hash, Emit(c.core, lastBlock), c.timestamps)
  }

  predicate PortalAccepted(d: PortalDataset) {
    Accepted(d.data) && |d.timestamps| == |d.data.firstBlocks|
  }

  /** The portal hands the check its own list of columns. */
  method FromOwned(datasets: seq<PortalDataset>) returns (r: Result<(), (string, ColumnError)>)
    ensures r.Ok? <==> forall d :: d in datasets ==> PortalAccepted(d)
    ensures r.Err? ==> exists d :: d in datasets && d.id == r.error.0 && !PortalAccepted(d)
  {
    for k := 0 to |datasets|
      invariant forall j :: 0 <= j < k ==> PortalAccepted(datasets[j])
    {
      var d := datasets[k];
      var dense := [
        ("block_deltas", |d.data.blockDeltas|),
        ("hashes", |d.data.hashes|),
        ("timestamps", |d.timestamps|),
        ("worker_offsets", SaturatingPred(|d.data.workerOffsets|))];
      var versions := if d.data.versions.Some? then [("versions", |d.data.versions.value|)] else [];
      var columns := dense + versions;
      var runs := [("tops", FirstRun(d.data))];
      var checked := CheckColumns(|d.data.firstBlocks|, columns, runs);
      assert checked.Ok? <==> PortalAccepted(d) by {
        assert columns[0] == dense[0] && columns[1] == dense[1] && columns[2] == dense[2] && columns[3] == dense[3];
        assert d.data.versions.Some? ==> columns[4] == versions[0];
        assert runs[0].1 == FirstRun(d.data);
      }
      match checked {
        case Err(e) =>
          assert d in datasets;
          return Err((d.id, e));
        case Ok(_) =>
      }
    }
    return Ok(());
  }

  function ReadPortalRow(d: PortalDataset, i: nat): PortalRow
    requires PortalAccepted(d) && i < |d.data.firstBlocks|
  {
    PortalRow(ReadRow(d.data, i), d.timestamps[i])
  }

  /** The full round trip: the emitted dataset is accepted and gives back every staged row. */
  lemma {:induction false} PortalRoundTrip(
    id: string, schema: u32, hash: Option<string>, rows: seq<PortalRow>, lastBlock: u64, i: nat)
    requires PortalFits(rows) && i < |rows|
    ensures var d := EmitPortal(id, schema, hash, ColumnsOf(rows), lastBlock);
            PortalAccepted(d) && |d.data.firstBlocks| == |rows| && ReadPortalRow(d, i) == rows[i]
  {
    RowRoundTrip(Cores(rows), lastBlock, i);
  }

  // ----- find_chunk -----

  datatype ChunkNotFound = UnknownDataset | BeforeFirst | AfterLast | InGap

  /** One past the last chunk starting at or before `block`, as bisection finds it. */
  function StartsAtOrBefore(firsts: seq<u64>, block: nat): (above: nat)
    ensures above <= |firsts|
    ensures above > 0 ==> firsts[above - 1] <= block
    ensures above < |firsts| ==> firsts[above] > block
  {
    Search.PartitionIndex(0, |firsts|, (i: nat) requires i < |firsts| => firsts[i] <= block)
  }

  /** The search over the chunks' first and last blocks. */
  function FindSpan(firsts: seq<u64>, lasts: seq<u64>, lastBlock: u64, block: nat): Result<nat, ChunkNotFound>
    requires |firsts| == |lasts|
  {
    if block > lastBlock then Err(AfterLast) else
    var above := StartsAtOrBefore(firsts, block);
    if above == 0 then Err(BeforeFirst)
    else if block > lasts[above - 1] then Err(InGap)
    else Ok(above - 1)
  }

  function LastBlocks(d: Data): seq<u64>
    requires Accepted(d)
  {
    seq(|d.firstBlocks|, i requires 0 <= i < |d.firstBlocks| => LastBlock(d, i))
  }

  function FindChunk(dataset: Option<PortalDataset>, block: u64): Result<nat, ChunkNotFound>
    requires dataset.Some? ==> PortalAccepted(dataset.value)
  {
    match dataset
    case None => Err(UnknownDataset)
    case Some(d) => FindSpan(d.data.firstBlocks, LastBlocks(d.data), d.data.lastBlock, block)
  }

  /** The chunks are in block order and do not overlap, and the dataset ends with its last chunk. */
  predicate Disjoint(firsts: seq<u64>, lasts: seq<u64>, lastBlock: u64) {
    && |firsts| == |lasts| > 0 && lastBlock == lasts[|lasts| - 1]
    && (forall i :: 0 <= i < |firsts| ==> firsts[i] <= lasts[i])
    && (forall i, j :: 0 <= i < j < |firsts| ==> lasts[i] < firsts[j])
  }

  predicate Holds(firsts: seq<u64>, lasts: seq<u64>, i: nat, block: nat)
    requires |firsts| == |lasts|
  {
    i < |firsts| && firsts[i] <= block <= lasts[i]
  }

  /** The block lies strictly between chunk `i` and the next one. */
  predicate Between(firsts: seq<u64>, lasts: seq<u64>, i: nat, block: nat)
    requires |firsts| == |lasts|
  {
    i + 1 < |firsts| && lasts[i] < block < firsts[i + 1]
  }

  /** The simple form: look at every chunk in turn. */
  function Scan(firsts: seq<u64>, lasts: seq<u64>, block: nat, from: nat): Option<nat>
    requires |firsts| == |lasts| && from <= |firsts|
    decreases |firsts| - from
  {
    if from == |firsts| then None
    else if Holds(firsts, lasts, from, block) then Some(from)
    else Scan(firsts, lasts, block, from + 1)
  }

  /** A cut of the first blocks at `block` falls right after the chunk that holds it. */
  lemma HeldIsCut(firsts: seq<u64>, lasts: seq<u64>, lastBlock: u64, block: nat, i: nat, above: nat)
    requires Disjoint(firsts, lasts, lastBlock) && Holds(firsts, lasts, i, block) && above <= |firsts|
    requires (above > 0 ==> firsts[above - 1] <= block) && (above < |firsts| ==> firsts[above] > block)
    ensures above == i + 1 && block <= lastBlock
  {
  }

  lemma {:induction false} HeldIsFound(firsts: seq<u64>, lasts: seq<u64>, lastBlock: u64, block: nat, i: nat)
    requires Disjoint(firsts, lasts, lastBlock) && Holds(firsts, lasts, i, block)
    ensures FindSpan(firsts, lasts, lastBlock, block) == Ok(i)
  {
    HeldIsCut(firsts, lasts, lastBlock, block, i, StartsAtOrBefore(firsts, block));
  }

  /** The search answers exactly what is true of the block, and names the one chunk holding it. */
  lemma {:induction false} FindChunkExact(firsts: seq<u64>, lasts: seq<u64>, lastBlock: u64, block: nat)
    requires Disjoint(firsts, lasts, lastBlock)
    ensures var r := FindSpan(firsts, lasts, lastBlock, block);
            && (r == Err(AfterLast) <==> block > lasts[|lasts| - 1])
            && (r == Err(BeforeFirst) <==> block < firsts[0])
            && (r == Err(InGap) <==> exists i: nat :: Between(firsts, lasts, i, block))
            && (forall i: nat :: r == Ok(i) <==> Holds(firsts, lasts, i, block))
            && r != Err(UnknownDataset)
  {
    var above := StartsAtOrBefore(firsts, block);
    if FindSpan(firsts, lasts, lastBlock, block) == Err(InGap) {
      assert Between(firsts, lasts, above - 1, block);
    }
    if i: nat :| Between(firsts, lasts, i, block) {
      assert i == above - 1;
    }
    forall i: nat | Holds(firsts, lasts, i, block)
      ensures FindSpan(firsts, lasts, lastBlock, block) == Ok(i)
    {
      HeldIsFound(firsts, lasts, lastBlock, block, i);
    }
  }

  lemma {:induction false} ScanFinds(firsts: seq<u64>, lasts: seq<u64>, lastBlock: u64, block: nat, from: nat, i: nat)
    requires Disjoint(firsts, lasts, lastBlock) && from <= i && Holds(firsts, lasts, i, block)
    ensures Scan(firsts, lasts, block, from) == Some(i)
    decreases i - from
  {
    if from < i { ScanFinds(firsts, lasts, lastBlock, block, from + 1, i); }
  }

  lemma {:induction false} ScanFindsNothing(firsts: seq<u64>, lasts: seq<u64>, block: nat, from: nat)
    requires |firsts| == |lasts| && from <= |firsts|
    requires forall i: nat :: !Holds(firsts, lasts, i, block)
    ensures Scan(firsts, lasts, block, from) == None
    decreases |firsts| - from
  {
    if from < |firsts| { ScanFindsNothing(firsts, lasts, block, from + 1); }
  }

  /** The bisection finds what a linear scan finds. */
  lemma {:induction false} FindChunkIsScan(firsts: seq<u64>, lasts: seq<u64>, lastBlock: u64, block: nat)
    requires Disjoint(firsts, lasts, lastBlock)
    ensures Scan(firsts, lasts, block, 0)
         == match FindSpan(firsts, lasts, lastBlock, block) case Ok(i) => Some(i) case Err(_) => None
  {
    FindChunkExact(firsts, lasts, lastBlock, block);
    match FindSpan(firsts, lasts, lastBlock, block)
    case Ok(i) => ScanFinds(firsts, lasts, lastBlock, block, 0, i);
    case Err(_) => ScanFindsNothing(firsts, lasts, block, 0);
  }

  // ----- datasets without gaps -----

  /** Chunk `i + 1` starts one past the end of chunk `i`. */
  predicate Follows(firsts: seq<u64>, lasts: seq<u64>, i: nat)
    requires |firsts| == |lasts| && i + 1 < |firsts|
  {
    firsts[i + 1] == lasts[i] as int + 1
  }

  predicate NoGaps(firsts: seq<u64>, lasts: seq<u64>)
    requires |firsts| == |lasts|
  {
    forall i: nat :: i + 1 < |firsts| ==> Follows(firsts, lasts, i)
  }

  /** Without gaps, every block in the dataset's range is found. */
  lemma {:induction false} GaplessFindsEveryBlock(firsts: seq<u64>, lasts: seq<u64>, lastBlock: u64, block: nat)
    requires Disjoint(firsts, lasts, lastBlock) && NoGaps(firsts, lasts)
    requires firsts[0] <= block <= lastBlock
    ensures FindSpan(firsts, lasts, lastBlock, block).Ok?
  {
    FindChunkExact(firsts, lasts, lastBlock, block);
    forall i: nat ensures !Between(firsts, lasts, i, block) {
      if i + 1 < |firsts| {
        assert Follows(firsts, lasts, i);
      }
    }
  }

  type Lookup = u64 -> Result<nat, ChunkNotFound>

  /** Every chunk the lookup names is one of `n`. */
  ghost predicate Within(find: Lookup, n: nat) { forall b: u64 :: find(b).Ok? ==> find(b).value < n }

  function Finder(firsts: seq<u64>, lasts: seq<u64>, lastBlock: u64): (find: Lookup)
    requires |firsts| == |lasts|
    ensures Within(find, |lasts|)
  {
    (block: u64) => FindSpan(firsts, lasts, lastBlock, block)
  }

  /** The chunks a reader visits in up to `steps` lookups, asking each time for one past the last block. */
  ghost function Walk(find: Lookup, lasts: seq<u64>, block: u64, steps: nat): seq<nat>
    requires Within(find, |lasts|)
    decreases steps
  {
    if steps == 0 then [] else
    match find(block)
    case Ok(i) => [i] + Walk(find, lasts, WrapAdd64(lasts[i], 1), steps - 1)
    case Err(_) => []
  }

  /** The numbers from `k` on, `steps` of them at most and below `n`. */
  function UpFrom(k: nat, n: nat, steps: nat): (r: seq<nat>)
    requires k <= n
    ensures |r| == if steps < n - k then steps else n - k
    decreases steps
  {
    if k < n && steps > 0 then [k] + UpFrom(k + 1, n, steps - 1) else []
  }

  /** The walk meets its own start again: one past the last block wraps to 0, and 0 is a chunk's. */
  predicate StartsOver(firsts: seq<u64>, lastBlock: u64) { firsts != [] && firsts[0] == 0 && lastBlock == U64_MAX }

  /**
   * Asking for the first block of chunk `k` finds it, and asking past it leads to the next chunk;
   * after the last chunk it leads to chunk 0 when the walk starts over, and nowhere otherwise.
   */
  predicate LeadsOn(find: Lookup, firsts: seq<u64>, lasts: seq<u64>, over: bool, k: nat)
    requires |firsts| == |lasts| && k < |firsts|
  {
    var next := WrapAdd64(lasts[k], 1);
    && find(firsts[k]) == Ok(k)
    && if k + 1 < |firsts| then next == firsts[k + 1] else if over then next == firsts[0] else find(next).Err?
  }

  lemma PlusOne(x: u64)
    ensures WrapAdd64(x, 1) == if x == U64_MAX then 0 else x as int + 1
  {
  }

  lemma {:induction false} NextLookup(firsts: seq<u64>, lasts: seq<u64>, lastBlock: u64, k: nat)
    requires Disjoint(firsts, lasts, lastBlock) && NoGaps(firsts, lasts) && k < |firsts|
    ensures LeadsOn(Finder(firsts, lasts, lastBlock), firsts, lasts, StartsOver(firsts, lastBlock), k)
  {
    HeldIsFound(firsts, lasts, lastBlock, firsts[k], k);
    PlusOne(lasts[k]);
    if k + 1 < |firsts| {
      assert Follows(firsts, lasts, k);
    } else if lastBlock == U64_MAX && firsts[0] > 0 {
      ZeroIsBefore(firsts, lasts, lastBlock);
    }
  }

  lemma {:induction false} ZeroIsBefore(firsts: seq<u64>, lasts: seq<u64>, lastBlock: u64)
    requires Disjoint(firsts, lasts, lastBlock) && firsts[0] > 0
    ensures FindSpan(firsts, lasts, lastBlock, 0).Err?
  {
    forall i | 0 <= i < |firsts| ensures firsts[i] > 0 {
      assert i > 0 ==> lasts[0] < firsts[i];
    }
  }

  /** The steps left when a walk from chunk `k` has visited the last chunk. */
  function Left(n: nat, k: nat, steps: nat): int { steps - (n - k) }

  /** The rest of a walk after its first round. */
  ghost function Again(find: Lookup, firsts: seq<u64>, lasts: seq<u64>, over: bool, left: int): seq<nat>
    requires Within(find, |lasts|) && firsts != []
  {
    if left > 0 && over then Walk(find, lasts, firsts[0], left) else []
  }

  lemma WalkStep(find: Lookup, firsts: seq<u64>, lasts: seq<u64>, over: bool, k: nat, steps: nat)
    requires |firsts| == |lasts| && k < |firsts| && Within(find, |lasts|) && steps > 0
    requires LeadsOn(find, firsts, lasts, over, k)
    ensures Walk(find, lasts, firsts[k], steps) ==
      [k] + if k + 1 < |firsts| then Walk(find, lasts, firsts[k + 1], steps - 1)
            else Again(find, firsts, lasts, over, steps - 1)
  {
  }

  lemma {:induction false} OneMore(k: nat, n: nat, steps: nat, tail: seq<nat>)
    requires k < n && steps > 0
    ensures [k] + (UpFrom(k + 1, n, steps - 1) + tail) == UpFrom(k, n, steps) + tail
  {
    assert UpFrom(k, n, steps) == [k] + UpFrom(k + 1, n, steps - 1);
  }

  lemma {:induction false} WalkRound(
    find: Lookup, firsts: seq<u64>, lasts: seq<u64>, over: bool, k: nat, steps: nat, left: int)
    requires |firsts| == |lasts| && k < |firsts| && left == Left(|firsts|, k, steps) && Within(find, |lasts|)
    requires forall i: nat :: i < |firsts| ==> LeadsOn(find, firsts, lasts, over, i)
    ensures Walk(find, lasts, firsts[k], steps)
         == UpFrom(k, |firsts|, steps) + Again(find, firsts, lasts, over, left)
    decreases |firsts| - k
  {
    if steps > 0 {
      WalkStep(find, firsts, lasts, over, k, steps);
      if k + 1 < |firsts| {
        WalkRound(find, firsts, lasts, over, k + 1, steps - 1, left);
      } else {
        assert UpFrom(k + 1, |firsts|, steps - 1) == [];
      }
      OneMore(k, |firsts|, steps, Again(find, firsts, lasts, over, left));
    }
  }

  /**
   * Walking from chunk `k` without gaps visits each later chunk once, in order, and stops, however
   * long it goes on: unless it starts over, and then it goes on with chunk 0.
   */
  lemma {:induction false} WalkVisitsAll(firsts: seq<u64>, lasts: seq<u64>, lastBlock: u64, k: nat, steps: nat)
    requires Disjoint(firsts, lasts, lastBlock) && NoGaps(firsts, lasts) && k < |firsts|
    ensures var find, over := Finder(firsts, lasts, lastBlock), StartsOver(firsts, lastBlock);
            Walk(find, lasts, firsts[k], steps) ==
              UpFrom(k, |firsts|, steps) + Again(find, firsts, lasts, over, Left(|firsts|, k, steps))
  {
    var find, over := Finder(firsts, lasts, lastBlock), StartsOver(firsts, lastBlock);
    forall i: nat | i < |firsts| ensures LeadsOn(find, firsts, lasts, over, i) {
      NextLookup(firsts, lasts, lastBlock, i);
    }
    WalkRound(find, firsts, lasts, over, k, steps, Left(|firsts|, k, steps));
  }

  /** So the walk from the first block ends if and only if it does not start over. */
  lemma {:induction false} WalkEndsIff(firsts: seq<u64>, lasts: seq<u64>, lastBlock: u64)
    requires Disjoint(firsts, lasts, lastBlock) && NoGaps(firsts, lasts)
    ensures (forall steps: nat :: |Walk(Finder(firsts, lasts, lastBlock), lasts, firsts[0], steps)| <= |firsts|)
        <==> !StartsOver(firsts, lastBlock)
  {
    var find := Finder(firsts, lasts, lastBlock);
    if StartsOver(firsts, lastBlock) {
      var one, steps := 1, |firsts| + 1;
      WalkVisitsAll(firsts, lasts, lastBlock, 0, one);
      WalkVisitsAll(firsts, lasts, lastBlock, 0, steps);
      assert |Walk(find, lasts, firsts[0], steps)| > |firsts|;
    } else {
      forall steps: nat ensures |Walk(find, lasts, firsts[0], steps)| <= |firsts| {
        WalkVisitsAll(firsts, lasts, lastBlock, 0, steps);
      }
    }
  }

  /** No chunk spans more blocks than a delta can say. */
  predicate Narrow(firsts: seq<u64>, lasts: seq<u64>) {
    |firsts| == |lasts| && forall i :: 0 <= i < |firsts| ==> lasts[i] - firsts[i] <= U32_MAX
  }

  lemma {:induction false} ReachOf(firsts: seq<u64>, lasts: seq<u64>, k: nat)
    requires Narrow(firsts, lasts) && NoGaps(firsts, lasts) && k < |firsts|
    ensures lasts[k] < firsts[0] + (k + 1) * 0x1_0000_0000
  {
    if k > 0 {
      ReachOf(firsts, lasts, k - 1);
      assert Follows(firsts, lasts, k - 1);
    }
  }

  /** A dataset whose walk starts over has at least 2^32 chunks. */
  lemma {:induction false} StartingOverTakes(firsts: seq<u64>, lasts: seq<u64>, lastBlock: u64)
    requires Disjoint(firsts, lasts, lastBlock) && NoGaps(firsts, lasts) && Narrow(firsts, lasts)
    ensures StartsOver(firsts, lastBlock) ==> |firsts| >= 0x1_0000_0000
  {
    ReachOf(firsts, lasts, |firsts| - 1);
  }

  /** And 2^32 chunks, the most a builder stages, are enough when each is as wide as can be. */
  lemma {:induction false} FullRangeStartsOver()
    ensures var n := 0x1_0000_0000;
            var firsts := seq(n, i requires 0 <= i < n => i * n as u64);
            var lasts := seq(n, i requires 0 <= i < n => i * n + U32_MAX as u64);
            && Disjoint(firsts, lasts, U64_MAX) && NoGaps(firsts, lasts) && Narrow(firsts, lasts)
            && StartsOver(firsts, U64_MAX)
  {
  }

  lemma {:induction false} DeltasAreNarrow(d: Data)
    requires Accepted(d) && Disjoint(d.firstBlocks, LastBlocks(d), d.lastBlock)
    ensures Narrow(d.firstBlocks, LastBlocks(d))
  {
    forall i | 0 <= i < |d.firstBlocks| ensures LastBlocks(d)[i] - d.firstBlocks[i] <= U32_MAX {
      assert d.firstBlocks[i] <= LastBlocks(d)[i] == LastBlock(d, i);
    }
  }

  /** In an accepted dataset without gaps and with fewer chunks, the walk visits each once and stops. */
  lemma {:induction false} DatasetWalkEnds(d: PortalDataset, steps: nat)
    requires PortalAccepted(d) && 0 < |d.data.firstBlocks| < 0x1_0000_0000
    requires Disjoint(d.data.firstBlocks, LastBlocks(d.data), d.data.lastBlock)
    requires NoGaps(d.data.firstBlocks, LastBlocks(d.data))
    ensures var firsts, lasts := d.data.firstBlocks, LastBlocks(d.data);
            Walk(Finder(firsts, lasts, d.data.lastBlock), lasts, firsts[0], steps) == UpFrom(0, |firsts|, steps)
  {
    var firsts, lasts := d.data.firstBlocks, LastBlocks(d.data);
    DeltasAreNarrow(d.data);
    StartingOverTakes(firsts, lasts, d.data.lastBlock);
    WalkVisitsAll(firsts, lasts, d.data.lastBlock, 0, steps);
  }

  // ----- from rows to searchable datasets -----

  /** What the continuity check enforces between consecutive chunks. */
  predicate Consecutive(rows: seq<PortalRow>) {
    forall i {:trigger rows[i]} :: 0 <= i < |rows| - 1 ==>
      Contiguous(Some(rows[i].core.id.lastBlock), rows[i + 1].core.id.firstBlock)
  }

  predicate Forward(rows: seq<PortalRow>) {
    forall i :: 0 <= i < |rows| ==> rows[i].core.id.firstBlock <= rows[i].core.id.lastBlock
  }

  /** No chunk before the last ends at the highest block number, where `last + 1` would wrap to 0. */
  predicate NoWrap(rows: seq<PortalRow>) {
    forall i :: 0 <= i < |rows| - 1 ==> rows[i].core.id.lastBlock < U64_MAX
  }

  predicate InOrder(rows: seq<PortalRow>) {
    forall i, j :: 0 <= i < j < |rows| ==> rows[i].core.id.lastBlock < rows[j].core.id.firstBlock
  }

  /** One row and the next, in plain numbers. */
  lemma NextStartsAfter(last: u64, first: u64)
    requires Contiguous(Some(last), first)
    ensures last < U64_MAX ==> first == last + 1
    ensures last == U64_MAX ==> first == 0
  {
  }

  lemma {:induction false} LaterStartsAfter(rows: seq<PortalRow>, i: nat, j: nat)
    requires Consecutive(rows) && Forward(rows) && NoWrap(rows) && i < j < |rows|
    ensures rows[i].core.id.lastBlock < rows[j].core.id.firstBlock
    decreases j
  {
    var before := rows[j - 1].core.id;
    NextStartsAfter(before.lastBlock, rows[j].core.id.firstBlock);
    if i < j - 1 { LaterStartsAfter(rows, i, j - 1); }
  }

  /** Rows that passed the continuity check are in block order exactly when none of them wraps. */
  lemma {:induction false} OrderIffNoWrap(rows: seq<PortalRow>)
    requires Consecutive(rows) && Forward(rows)
    ensures InOrder(rows) <==> NoWrap(rows)
  {
    if NoWrap(rows) {
      forall i, j | 0 <= i < j < |rows| ensures rows[i].core.id.lastBlock < rows[j].core.id.firstBlock {
        LaterStartsAfter(rows, i, j);
      }
    }
    if InOrder(rows) {
      forall i | 0 <= i < |rows| - 1 ensures rows[i].core.id.lastBlock < U64_MAX {
        assert rows[i].core.id.lastBlock < rows[i + 1].core.id.firstBlock;
      }
    }
  }

  /** The dataset these rows make; its last block is the last row's. */
  function DatasetOf(id: string, schema: u32, hash: Option<string>, rows: seq<PortalRow>): PortalDataset
    requires PortalFits(rows) && rows != []
  {
    EmitPortal(id, schema, hash, ColumnsOf(rows), rows[|rows| - 1].core.id.lastBlock)
  }

  function RowFirsts(rows: seq<PortalRow>): seq<u64> {
    seq(|rows|, i requires 0 <= i < |rows| => rows[i].core.id.firstBlock)
  }

  function RowLasts(rows: seq<PortalRow>): seq<u64> {
    seq(|rows|, i requires 0 <= i < |rows| => rows[i].core.id.lastBlock)
  }

  /** What the search reads off the emitted columns is what was staged. */
  lemma {:induction false} SearchedBlocks(id: string, schema: u32, hash: Option<string>, rows: seq<PortalRow>)
    requires PortalFits(rows) && rows != []
    ensures var d := DatasetOf(id, schema, hash, rows);
            && PortalAccepted(d)
            && d.data.firstBlocks == RowFirsts(rows) && LastBlocks(d.data) == RowLasts(rows)
            && d.data.lastBlock == RowLasts(rows)[|rows| - 1]
  {
    var d := DatasetOf(id, schema, hash, rows);
    var last := rows[|rows| - 1].core.id.lastBlock;
    PortalRoundTrip(id, schema, hash, rows, last, 0);
    forall i: nat | i < |rows|
      ensures d.data.firstBlocks[i] == rows[i].core.id.firstBlock && LastBlocks(d.data)[i] == rows[i].core.id.lastBlock
    {
      PortalRoundTrip(id, schema, hash, rows, last, i);
    }
  }

  lemma {:induction false} ConsecutiveBlocks(rows: seq<PortalRow>)
    requires rows != [] && Forward(rows) && Consecutive(rows) && NoWrap(rows)
    ensures Disjoint(RowFirsts(rows), RowLasts(rows), RowLasts(rows)[|rows| - 1])
    ensures NoGaps(RowFirsts(rows), RowLasts(rows))
  {
    OrderIffNoWrap(rows);
    var firsts, lasts := RowFirsts(rows), RowLasts(rows);
    forall i: nat | i + 1 < |rows| ensures Follows(firsts, lasts, i) {
      assert Contiguous(Some(rows[i].core.id.lastBlock), rows[i + 1].core.id.firstBlock);
    }
  }

  lemma {:induction false} GaplessSearch(firsts: seq<u64>, lasts: seq<u64>, lastBlock: u64)
    requires Disjoint(firsts, lasts, lastBlock) && NoGaps(firsts, lasts)
    ensures forall block: u64 :: firsts[0] <= block <= lastBlock ==> FindSpan(firsts, lasts, lastBlock, block).Ok?
  {
    forall block: u64 | firsts[0] <= block <= lastBlock ensures FindSpan(firsts, lasts, lastBlock, block).Ok? {
      GaplessFindsEveryBlock(firsts, lasts, lastBlock, block);
    }
  }

  /**
   * A dataset of consecutive rows: the portal's search succeeds on every block in range, and its
   * blocks are disjoint and without gaps, as the walk needs them.
   */
  lemma {:induction false} ContinuousDataset(id: string, schema: u32, hash: Option<string>, rows: seq<PortalRow>)
    requires PortalFits(rows) && rows != [] && Forward(rows) && Consecutive(rows) && NoWrap(rows)
    ensures var d := DatasetOf(id, schema, hash, rows);
            && PortalAccepted(d)
            && (forall block: u64 :: rows[0].core.id.firstBlock <= block <= d.data.lastBlock ==>
                  FindChunk(Some(d), block).Ok?)
            && Disjoint(d.data.firstBlocks, LastBlocks(d.data), d.data.lastBlock)
            && NoGaps(d.data.firstBlocks, LastBlocks(d.data))
  {
    SearchedBlocks(id, schema, hash, rows);
    ConsecutiveBlocks(rows);
    GaplessSearch(RowFirsts(rows), RowLasts(rows), RowLasts(rows)[|rows| - 1]);
  }

  // ----- find_chunk_by_timestamp -----

  /** The first timestamp at or after `ts`, as bisection finds it. */
  function TimestampsBefore(timestamps: seq<u64>, ts: u64): (k: nat)
    ensures k <= |timestamps|
    ensures k > 0 ==> timestamps[k - 1] < ts
    ensures k < |timestamps| ==> timestamps[k] >= ts
  {
    Search.PartitionIndex(0, |timestamps|, (i: nat) requires i < |timestamps| => timestamps[i] < ts)
  }

  function FindChunkByTimestamp(dataset: Option<PortalDataset>, ts: u64): Result<nat, ChunkNotFound>
    requires dataset.Some? ==> PortalAccepted(dataset.value)
  {
    match dataset
    case None => Err(UnknownDataset)
    case Some(d) =>
      var index := TimestampsBefore(d.timestamps, ts);
      if index == |d.data.firstBlocks| then Err(AfterLast) else Ok(index)
  }
}
