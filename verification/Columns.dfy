/**
 * The chunk columns that the worker-facing and the portal-facing assignment share: block deltas,
 * run-length tops, fixed-width hashes, optional versions and offset-plus-flat-array worker lists.
 */
module Columns {
  import opened Words
  import opened ChunkId
  import Search

  datatype TopRun = TopRun(firstChunkIndex: u32, top: u64)

  /** What a chunk means to both formats. */
  datatype Row = Row(id: DataChunk, version: u32, workers: seq<u16>)

  // ----- staging -----

  /** The shared part of the dataset being staged. */
  datatype Core = Core(
    firstBlocks: seq<u64>,
    blockDeltas: seq<u32>,
    hashes: seq<seq<u8>>,
    tops: seq<TopRun>,
    versions: seq<u32>,
    workerEnds: seq<u32>,
    workerIndexes: seq<u16>)

  const EMPTY := Core([], [], [], [], [], [], [])

  function Span(id: DataChunk): int { id.lastBlock - id.firstBlock }

  /** A run is appended only when the chunk's top differs from the last run's. */
  function PushTop(tops: seq<TopRun>, index: u32, top: u64): seq<TopRun> {
    if tops == [] || tops[|tops| - 1].top != top then tops + [TopRun(index, top)] else tops
  }

  /** One row across every column. The last one stays behind once its end no longer fits in u32. */
  function PushRow(c: Core, row: Row): Core
    requires |c.firstBlocks| <= U32_MAX && 0 <= Span(row.id) <= U32_MAX
  {
    var workers := c.workerIndexes + row.workers;
    Core(
      c.firstBlocks + [row.id.firstBlock],
      c.blockDeltas + [Span(row.id)],
      c.hashes + [row.id.lastHash],
      PushTop(c.tops, |c.firstBlocks|, row.id.top),
      c.versions + [row.version],
      if |workers| <= U32_MAX then c.workerEnds + [|workers|] else c.workerEnds,
      workers)
  }

  /** The pushes onto the shared columns; `fits` is whether the worker list's end could be recorded. */
  method AppendRow(c: Core, row: Row) returns (core: Core, fits: bool)
    requires Valid(row.id) && |c.firstBlocks| <= U32_MAX && Span(row.id) <= U32_MAX
    ensures core == PushRow(c, row)
    ensures fits <==> |core.workerIndexes| <= U32_MAX
  {
    IdRebuilt(row.id);
    core := c;
    if core.tops == [] || core.tops[|core.tops| - 1].top != row.id.top {
      core := core.(tops := core.tops + [TopRun(|c.firstBlocks|, row.id.top)]);
    }
    core := core.(firstBlocks := core.firstBlocks + [row.id.firstBlock]);
    core := core.(blockDeltas := core.blockDeltas + [row.id.lastBlock - row.id.firstBlock]);
    core := core.(hashes := core.hashes + [ChunkHash(row.id)]);
    core := core.(versions := core.versions + [row.version]);
    core := core.(workerIndexes := core.workerIndexes + row.workers);
    fits := |core.workerIndexes| <= U32_MAX;
    if fits {
      core := core.(workerEnds := core.workerEnds + [|core.workerIndexes|]);
    }
  }

  datatype PushError = Gap | TooManyChunks | SpanTooWide | TooManyWorkers

  datatype Pushed = Pushed(core: Core, lastBlock: Option<u64>, outcome: Result<(), PushError>) {
    /** Whether the row reached the columns at all. */
    predicate Wrote(before: Core) { |core.firstBlocks| > |before.firstBlocks| }
  }

  predicate Contiguous(lastBlock: Option<u64>, firstBlock: u64) {
    lastBlock.None? || WrapAdd64(lastBlock.value, 1) == firstBlock
  }

  /** A gap stops the chunk only when the continuity check is on; otherwise it is only reported. */
  function Push(checkContinuity: bool, lastBlock: Option<u64>, c: Core, row: Row): Pushed
    requires row.id.firstBlock <= row.id.lastBlock
  {
    var gap := !Contiguous(lastBlock, row.id.firstBlock);
    if gap && checkContinuity then Pushed(c, lastBlock, Err(Gap))
    else if |c.firstBlocks| > U32_MAX then Pushed(c, lastBlock, Err(TooManyChunks))
    else if Span(row.id) > U32_MAX then Pushed(c, lastBlock, Err(SpanTooWide))
    else
      var core := PushRow(c, row);
      if |core.workerIndexes| > U32_MAX then Pushed(core, lastBlock, Err(TooManyWorkers))
      else Pushed(core, Some(row.id.lastBlock), if gap then Err(Gap) else Ok(()))
  }

  // ----- the columns of a list of rows -----

  function WorkerRefs(rows: seq<Row>): nat {
    if rows == [] then 0 else WorkerRefs(rows[..|rows| - 1]) + |rows[|rows| - 1].workers|
  }

  /** The rows whose columns stay inside the format's u32 limits, all the way up. */
  predicate Fits(rows: seq<Row>) {
    rows == [] ||
    var front, last := rows[..|rows| - 1], rows[|rows| - 1];
    && Fits(front) && |front| <= U32_MAX
    && 0 <= Span(last.id) <= U32_MAX
    && WorkerRefs(rows) <= U32_MAX
  }

  /** The columns staging these rows one by one leaves. */
  function CoreOf(rows: seq<Row>): Core
    requires Fits(rows)
    ensures |CoreOf(rows).firstBlocks| == |rows|
    ensures |CoreOf(rows).workerIndexes| == WorkerRefs(rows)
  {
    if rows == [] then EMPTY else PushRow(CoreOf(rows[..|rows| - 1]), rows[|rows| - 1])
  }

  function Start(ends: seq<u32>, i: nat): u32
    requires i <= |ends|
  {
    if i == 0 then 0 else ends[i - 1]
  }

  ghost predicate Dense(c: Core, rows: seq<Row>) {
    && |c.firstBlocks| == |c.blockDeltas| == |c.hashes| == |c.versions| == |rows|
    && forall i :: 0 <= i < |rows| ==>
      && c.firstBlocks[i] == rows[i].id.firstBlock
      && c.firstBlocks[i] + c.blockDeltas[i] == rows[i].id.lastBlock
      && c.hashes[i] == rows[i].id.lastHash
      && c.versions[i] == rows[i].version
  }

  /** Run `k` applies to chunk `i` of `n`. */
  predicate InRun(tops: seq<TopRun>, k: int, i: int, n: nat) {
    && 0 <= k < |tops| && 0 <= i < n
    && tops[k].firstChunkIndex <= i
    && (k + 1 < |tops| ==> i < tops[k + 1].firstChunkIndex)
  }

  predicate RunsAscend(tops: seq<TopRun>) {
    forall j, k :: 0 <= j < k < |tops| ==> tops[j].firstChunkIndex < tops[k].firstChunkIndex
  }

  /** The runs split the chunk indices into stretches of equal top. */
  ghost predicate Runs(tops: seq<TopRun>, rows: seq<Row>) {
    && (tops == [] <==> rows == [])
    && (tops != [] ==> tops[0].firstChunkIndex == 0 && tops[|tops| - 1].firstChunkIndex < |rows|)
    && RunsAscend(tops)
    && forall k, i {:trigger InRun(tops, k, i, |rows|)} ::
         InRun(tops, k, i, |rows|) ==> rows[i].id.top == tops[k].top
  }

  /** Slice `i` of the flat array, cut at consecutive ends, is list `i`. */
  ghost predicate Slices<T>(ends: seq<u32>, flat: seq<T>, lists: seq<seq<T>>) {
    && |ends| == |lists|
    && Start(ends, |lists|) == |flat|
    && forall i {:trigger lists[i]} :: 0 <= i < |lists| ==>
      Start(ends, i) <= ends[i] <= |flat| && flat[Start(ends, i)..ends[i]] == lists[i]
  }

  function WorkerLists(rows: seq<Row>): seq<seq<u16>> {
    seq(|rows|, i requires 0 <= i < |rows| => rows[i].workers)
  }

  ghost predicate Represents(c: Core, rows: seq<Row>) {
    Dense(c, rows) && Runs(c.tops, rows) && Slices(c.workerEnds, c.workerIndexes, WorkerLists(rows))
  }

  lemma {:induction false} PushKeepsRuns(tops: seq<TopRun>, rows: seq<Row>, row: Row)
    requires Runs(tops, rows) && |rows| <= U32_MAX
    ensures Runs(PushTop(tops, |rows|, row.id.top), rows + [row])
  {
    var all, after := rows + [row], PushTop(tops, |rows|, row.id.top);
    forall k, i | InRun(after, k, i, |all|)
      ensures all[i].id.top == after[k].top
    {
      if i < |rows| {
        assert InRun(tops, k, i, |rows|);
      }
    }
  }

  lemma {:induction false} PushKeepsSlices<T>(ends: seq<u32>, flat: seq<T>, lists: seq<seq<T>>, list: seq<T>)
    requires Slices(ends, flat, lists) && |flat| + |list| <= U32_MAX
    ensures Slices(ends + [|flat| + |list|], flat + list, lists + [list])
  {
    var all, ends', flat' := lists + [list], ends + [|flat| + |list|], flat + list;
    forall i | 0 <= i < |all|
      ensures Start(ends', i) <= ends'[i] <= |flat'| && flat'[Start(ends', i)..ends'[i]] == all[i]
    {
      if i < |lists| {
        var start, end := Start(ends, i), ends[i];
        assert Start(ends', i) == start && ends'[i] == end && all[i] == lists[i] == flat[start..end];
        assert flat'[start..end] == flat[start..end];
      } else {
        assert Start(ends', i) == |flat| && ends'[i] == |flat'| && all[i] == list;
        assert flat'[|flat|..] == list;
      }
    }
  }

  lemma PushKeepsDense(c: Core, rows: seq<Row>, row: Row)
    requires Dense(c, rows) && |rows| <= U32_MAX && 0 <= Span(row.id) <= U32_MAX
    ensures Dense(PushRow(c, row), rows + [row])
  {
  }

  lemma {:induction false} PushRepresents(c: Core, rows: seq<Row>, row: Row)
    requires Represents(c, rows) && |rows| <= U32_MAX && 0 <= Span(row.id) <= U32_MAX
    requires |c.workerIndexes| + |row.workers| <= U32_MAX
    ensures Represents(PushRow(c, row), rows + [row])
  {
    PushKeepsDense(c, rows, row);
    PushKeepsRuns(c.tops, rows, row);
    PushKeepsSlices(c.workerEnds, c.workerIndexes, WorkerLists(rows), row.workers);
    assert WorkerLists(rows + [row]) == WorkerLists(rows) + [row.workers];
  }

  /** Every list of rows that fits is represented column by column. */
  lemma {:induction false} CoreRepresents(rows: seq<Row>)
    requires Fits(rows)
    ensures Represents(CoreOf(rows), rows)
  {
    if rows != [] {
      var front, last := rows[..|rows| - 1], rows[|rows| - 1];
      CoreRepresents(front);
      PushRepresents(CoreOf(front), front, last);
      assert rows == front + [last];
    }
  }

  // ----- the emitted dataset -----

  /** The shared columns as they travel: versions may be absent, worker offsets lead with 0. */
  datatype Data = Data(
    lastBlock: u64,
    firstBlocks: seq<u64>,
    blockDeltas: seq<u32>,
    hashes: seq<seq<u8>>,
    tops: seq<TopRun>,
    versions: Option<seq<u32>>,
    workerOffsets: seq<u32>,
    workerIndexes: seq<u16>)

  predicate AnyNonZero(column: seq<u32>) { exists v :: v in column && v != 0 }

  function Emit(c: Core, lastBlock: u64): Data {
    Data(lastBlock, c.firstBlocks, c.blockDeltas, c.hashes, c.tops,
         if AnyNonZero(c.versions) then Some(c.versions) else None,
         [0] + c.workerEnds, c.workerIndexes)
  }

  /** `check_top_runs`, which staging already guarantees. */
  predicate TopRunsOk(runs: seq<TopRun>) {
    && runs != [] && runs[0].firstChunkIndex == 0
    && forall k :: 0 <= k < |runs| - 1 ==> runs[k].firstChunkIndex < runs[k + 1].firstChunkIndex
  }

  lemma {:induction false} StagedRunsPass(rows: seq<Row>)
    requires Fits(rows) && rows != []
    ensures TopRunsOk(CoreOf(rows).tops)
  {
    CoreRepresents(rows);
  }

  /** No run could be joined with the next: a run is written only where the top changes. */
  predicate Shortest(tops: seq<TopRun>) { forall k :: 0 <= k < |tops| - 1 ==> tops[k].top != tops[k + 1].top }

  lemma {:induction false} RunsAreShortest(rows: seq<Row>)
    requires Fits(rows)
    ensures Shortest(CoreOf(rows).tops)
  {
    if rows != [] {
      RunsAreShortest(rows[..|rows| - 1]);
    }
  }

  /** Versions travel exactly when some chunk has one. */
  lemma {:induction false} VersionsTravelIff(rows: seq<Row>, lastBlock: u64)
    requires Fits(rows)
    ensures Emit(CoreOf(rows), lastBlock).versions.Some? <==> exists i :: 0 <= i < |rows| && rows[i].version != 0
  {
    var c := CoreOf(rows);
    CoreRepresents(rows);
    if i :| 0 <= i < |rows| && rows[i].version != 0 {
      assert c.versions[i] in c.versions;
    }
    if v :| v in c.versions && v != 0 {
      var i :| 0 <= i < |c.versions| && c.versions[i] == v;
      assert rows[i].version != 0;
    }
  }

  // ----- a worker list beyond u32 -----

  /** Runs that pass the check and belong to the first `n` chunks. */
  predicate Topped(tops: seq<TopRun>, n: nat) {
    && tops != [] && tops[0].firstChunkIndex == 0 && RunsAscend(tops)
    && tops[|tops| - 1].firstChunkIndex < n
  }

  lemma PushTopped(tops: seq<TopRun>, n: u32, top: u64)
    requires (tops == [] && n == 0) || Topped(tops, n)
    ensures Topped(PushTop(tops, n, top), n + 1)
  {
  }

  /** Some row was written without its end: the runs are in order and the worker ends lag behind. */
  predicate Lagging(c: Core) { Topped(c.tops, |c.firstBlocks|) && |c.workerEnds| < |c.firstBlocks| }

  /** The push that passes u32 leaves the columns lagging, and no later push mends them. */
  lemma {:induction false} LagBegins(rows: seq<Row>, row: Row)
    requires Fits(rows) && |rows| <= U32_MAX && 0 <= Span(row.id) <= U32_MAX
    ensures Topped(PushRow(CoreOf(rows), row).tops, |rows| + 1)
    ensures WorkerRefs(rows) + |row.workers| > U32_MAX ==> Lagging(PushRow(CoreOf(rows), row))
  {
    CoreRepresents(rows);
    PushTopped(CoreOf(rows).tops, |rows|, row.id.top);
  }

  lemma {:induction false} LagStays(checkContinuity: bool, lastBlock: Option<u64>, c: Core, row: Row)
    requires Topped(c.tops, |c.firstBlocks|) && row.id.firstBlock <= row.id.lastBlock
    ensures var p := Push(checkContinuity, lastBlock, c, row);
            && Topped(p.core.tops, |p.core.firstBlocks|)
            && (Lagging(c) ==> Lagging(p.core))
  {
    if |c.firstBlocks| <= U32_MAX {
      PushTopped(c.tops, |c.firstBlocks|, row.id.top);
    }
  }

  lemma LagIsRejected(c: Core, lastBlock: u64)
    requires Lagging(c)
    ensures TopRunsOk(c.tops) && !Accepted(Emit(c, lastBlock))
  {
  }

  // ----- acceptance -----

  datatype ColumnError =
    | Length(column: string, len: nat, chunks: nat)
    | NoRuns(column: string)
    | RunsStartAt(column: string, first: u32)

  /** Rejects exactly the lists with a column of another length, or runs that miss chunk 0. */
  method CheckColumns(chunks: nat, dense: seq<(string, nat)>, runs: seq<(string, Option<u32>)>)
    returns (r: Result<(), ColumnError>)
    ensures r.Ok? <==>
            && (forall k :: 0 <= k < |dense| ==> dense[k].1 == chunks)
            && (forall k :: 0 <= k < |runs| ==> runs[k].1 == Some(0))
    ensures r.Err? && r.error.Length? ==>
              (r.error.column, r.error.len) in dense && r.error.len != chunks == r.error.chunks
  {
    for k := 0 to |dense|
      invariant forall j :: 0 <= j < k ==> dense[j].1 == chunks
    {
      var (name, len) := dense[k];
      if len != chunks {
        return Err(Length(name, len, chunks));
      }
    }
    for k := 0 to |runs|
      invariant forall j :: 0 <= j < k ==> runs[j].1 == Some(0)
    {
      match runs[k].1 {
        case None => return Err(NoRuns(runs[k].0));
        case Some(first) =>
          if first != 0 {
            return Err(RunsStartAt(runs[k].0, first));
          }
      }
    }
    return Ok(());
  }

  function SaturatingPred(n: nat): nat { if n == 0 then 0 else n - 1 }

  function FirstRun(d: Data): Option<u32> {
    if d.tops == [] then None else Some(d.tops[0].firstChunkIndex)
  }

  /** The shared columns pass the reader's check. */
  predicate Accepted(d: Data) {
    && |d.firstBlocks| == |d.blockDeltas| == |d.hashes| == SaturatingPred(|d.workerOffsets|)
    && (d.versions.Some? ==> |d.versions.value| == |d.firstBlocks|)
    && FirstRun(d) == Some(0)
  }

  // ----- accessors: every subscript below is in bounds on accepted columns, whatever they hold -----

  function FirstBlock(d: Data, i: nat): u64
    requires Accepted(d) && i < |d.firstBlocks|
  {
    d.firstBlocks[i]
  }

  function LastBlock(d: Data, i: nat): u64
    requires Accepted(d) && i < |d.firstBlocks|
  {
    WrapAdd64(d.firstBlocks[i], d.blockDeltas[i])
  }

  function Version(d: Data, i: nat): u32
    requires Accepted(d) && i < |d.firstBlocks|
  {
    match d.versions
    case None => 0
    case Some(column) => column[i]
  }

  function HashBytes(d: Data, i: nat): seq<u8>
    requires Accepted(d) && i < |d.firstBlocks|
  {
    d.hashes[i]
  }

  /** One past the last run starting at or before chunk `i`, as bisection finds it. */
  function RunsAbove(tops: seq<TopRun>, i: nat): (above: nat)
    ensures above <= |tops|
    ensures above > 0 ==> tops[above - 1].firstChunkIndex <= i
    ensures above < |tops| ==> tops[above].firstChunkIndex > i
  {
    Search.PartitionIndex(0, |tops|, (k: nat) requires k < |tops| => tops[k].firstChunkIndex <= i)
  }

  function TopAt(d: Data, i: nat): Option<u64> {
    var above := RunsAbove(d.tops, i);
    if above == 0 then None else Some(d.tops[above - 1].top)
  }

  function Min(a: nat, b: nat): nat { if a <= b then a else b }

  function WorkerIndexes(d: Data, i: nat): seq<u16>
    requires Accepted(d) && i < |d.firstBlocks|
  {
    var start, end := d.workerOffsets[i], Min(d.workerOffsets[i + 1], |d.workerIndexes|);
    if start < end then d.workerIndexes[start..end] else []
  }

  /** A chunk's workers are those between its offsets, as far as the flat list goes, whatever the columns hold. */
  lemma {:induction false} WorkersAnywhere(d: Data, i: nat, worker: u16)
    requires Accepted(d) && i < |d.firstBlocks|
    ensures worker in WorkerIndexes(d, i) <==>
              exists slot :: d.workerOffsets[i] <= slot < d.workerOffsets[i + 1] && slot < |d.workerIndexes|
                             && d.workerIndexes[slot] == worker
  {
    var start, list := d.workerOffsets[i], WorkerIndexes(d, i);
    if worker in list {
      var k :| 0 <= k < |list| && list[k] == worker;
      assert d.workerIndexes[start + k] == worker;
    }
    if slot :| start <= slot < d.workerOffsets[i + 1] && slot < |d.workerIndexes| && d.workerIndexes[slot] == worker {
      assert list[slot - start] == worker;
    }
  }

  /** The last block is the first plus the delta on u64, whatever the columns hold. */
  lemma LastBlockAnywhere(d: Data, i: nat)
    requires Accepted(d) && i < |d.firstBlocks|
    ensures var sum := d.firstBlocks[i] + d.blockDeltas[i];
            LastBlock(d, i) == if sum <= U64_MAX then sum else sum - U64_MAX - 1
  {
  }

  /** The numbers from `from` up to `n` that `keep` keeps. */
  function Kept(from: nat, n: nat, keep: nat --> bool): seq<nat>
    requires from <= n && forall i: nat :: i < n ==> keep.requires(i)
    decreases n - from
  {
    if from == n then [] else (if keep(from) then [from] else []) + Kept(from + 1, n, keep)
  }

  function ListedFor(d: Data, worker: u16): nat --> bool
    requires Accepted(d)
  {
    (i: nat) requires i < |d.firstBlocks| => worker in WorkerIndexes(d, i)
  }

  /** The chunk indices whose worker list names `worker`. */
  function Holdings(d: Data, worker: u16): seq<nat>
    requires Accepted(d)
  {
    Kept(0, |d.firstBlocks|, ListedFor(d, worker))
  }

  /** A run is found for every chunk, even where the runs do not ascend. */
  lemma TopAlwaysFound(d: Data, i: nat)
    requires Accepted(d)
    ensures TopAt(d, i).Some?
  {
  }

  /** Everything the shared columns say about chunk `i`. */
  function ReadRow(d: Data, i: nat): Row
    requires Accepted(d) && i < |d.firstBlocks|
  {
    TopAlwaysFound(d, i);
    Row(DataChunk(TopAt(d, i).value, FirstBlock(d, i), LastBlock(d, i), HashBytes(d, i)),
        Version(d, i), WorkerIndexes(d, i))
  }

  // ----- round trip -----

  lemma {:induction false} TopResolves(tops: seq<TopRun>, rows: seq<Row>, i: nat)
    requires Runs(tops, rows) && i < |rows|
    ensures var above := RunsAbove(tops, i); above > 0 && tops[above - 1].top == rows[i].id.top
  {
    var above := RunsAbove(tops, i);
    assert InRun(tops, above - 1, i, |rows|);
  }

  lemma {:induction false} VersionResolves(c: Core, rows: seq<Row>, lastBlock: u64, i: nat)
    requires Dense(c, rows) && i < |rows| && Accepted(Emit(c, lastBlock))
    ensures Version(Emit(c, lastBlock), i) == rows[i].version
  {
    assert c.versions[i] in c.versions;
  }

  lemma {:induction false} WorkersResolve(c: Core, rows: seq<Row>, lastBlock: u64, i: nat)
    requires Slices(c.workerEnds, c.workerIndexes, WorkerLists(rows)) && Accepted(Emit(c, lastBlock))
    requires i < |rows| == |c.firstBlocks|
    ensures WorkerIndexes(Emit(c, lastBlock), i) == rows[i].workers
  {
    assert WorkerLists(rows)[i] == rows[i].workers;
    var offsets := [0] + c.workerEnds;
    assert offsets[i] == Start(c.workerEnds, i) && offsets[i + 1] == c.workerEnds[i];
  }

  lemma RepresentedAccepted(c: Core, rows: seq<Row>, lastBlock: u64)
    requires Represents(c, rows) && rows != []
    ensures Accepted(Emit(c, lastBlock))
  {
  }

  lemma {:induction false} IdResolves(c: Core, rows: seq<Row>, lastBlock: u64, i: nat)
    requires Dense(c, rows) && Runs(c.tops, rows) && i < |rows| && Accepted(Emit(c, lastBlock))
    ensures ReadRow(Emit(c, lastBlock), i).id == rows[i].id
  {
    TopResolves(c.tops, rows, i);
    assert c.firstBlocks[i] + c.blockDeltas[i] == rows[i].id.lastBlock;
  }

  /** Columns that represent the rows read back as exactly those rows. */
  lemma {:induction false} ReadsBack(c: Core, rows: seq<Row>, lastBlock: u64, i: nat)
    requires Represents(c, rows) && i < |rows|
    ensures Accepted(Emit(c, lastBlock)) && ReadRow(Emit(c, lastBlock), i) == rows[i]
  {
    RepresentedAccepted(c, rows, lastBlock);
    IdResolves(c, rows, lastBlock, i);
    VersionResolves(c, rows, lastBlock, i);
    WorkersResolve(c, rows, lastBlock, i);
  }

  /** Reading chunk `i` back gives exactly the row staged as chunk `i`. */
  lemma {:induction false} RowRoundTrip(rows: seq<Row>, lastBlock: u64, i: nat)
    requires Fits(rows) && i < |rows|
    ensures var d := Emit(CoreOf(rows), lastBlock);
            Accepted(d) && |d.firstBlocks| == |rows| && ReadRow(d, i) == rows[i]
  {
    CoreRepresents(rows);
    ReadsBack(CoreOf(rows), rows, lastBlock, i);
  }

  lemma {:induction false} KeptOrNot(from: nat, n: nat, keep: nat --> bool, i: nat)
    requires from <= n && forall j: nat :: j < n ==> keep.requires(j)
    ensures i in Kept(from, n, keep) <==> from <= i < n && keep(i)
    decreases n - from
  {
    if from < n {
      KeptOrNot(from + 1, n, keep, i);
    }
  }

  lemma {:induction false} HoldingsExact(d: Data, worker: u16)
    requires Accepted(d)
    ensures forall i :: i in Holdings(d, worker) <==> 0 <= i < |d.firstBlocks| && worker in WorkerIndexes(d, i)
  {
    forall i: nat ensures i in Holdings(d, worker) <==> i < |d.firstBlocks| && worker in WorkerIndexes(d, i) {
      KeptOrNot(0, |d.firstBlocks|, ListedFor(d, worker), i);
    }
  }

  predicate Increasing(s: seq<nat>) { forall j, k :: 0 <= j < k < |s| ==> s[j] < s[k] }

  lemma {:induction false} KeptIncrease(from: nat, n: nat, keep: nat --> bool)
    requires from <= n && forall j: nat :: j < n ==> keep.requires(j)
    ensures Increasing(Kept(from, n, keep))
    decreases n - from
  {
    if from < n {
      var rest := Kept(from + 1, n, keep);
      KeptIncrease(from + 1, n, keep);
      forall y | y in rest ensures from < y {
        KeptOrNot(from + 1, n, keep, y);
      }
      SmallerFirst(from, rest);
      assert Kept(from, n, keep) == if keep(from) then [from] + rest else rest;
    }
  }

  lemma {:induction false} HoldingsIncrease(d: Data, worker: u16)
    requires Accepted(d)
    ensures Increasing(Holdings(d, worker))
  {
    KeptIncrease(0, |d.firstBlocks|, ListedFor(d, worker));
  }

  lemma {:induction false} SmallerFirst(x: nat, rest: seq<nat>)
    requires Increasing(rest) && forall y :: y in rest ==> x < y
    ensures Increasing([x] + rest)
  {
    forall k | 0 <= k < |rest| ensures x < rest[k] {
      assert rest[k] in rest;
    }
  }

  /** A worker's holdings are exactly the chunks staged with its index, in chunk order. */
  lemma {:induction false} HoldingsRoundTrip(rows: seq<Row>, lastBlock: u64, worker: u16)
    requires Fits(rows) && rows != []
    ensures var d := Emit(CoreOf(rows), lastBlock);
            && Accepted(d)
            && (forall i :: i in Holdings(d, worker) <==> 0 <= i < |rows| && worker in rows[i].workers)
            && Increasing(Holdings(d, worker))
  {
    var d := Emit(CoreOf(rows), lastBlock);
    RowRoundTrip(rows, lastBlock, 0);
    HoldingsExact(d, worker);
    HoldingsIncrease(d, worker);
    forall i: nat | i < |rows| ensures WorkerIndexes(d, i) == rows[i].workers {
      RowRoundTrip(rows, lastBlock, i);
    }
  }

  /**
   * The one way staging can leave columns that disagree: a written row keeps every column at the
   * chunk count exactly while the flat worker list still fits in u32.
   */
  lemma WorkerOverflow(c: Core, rows: seq<Row>, row: Row, lastBlock: u64)
    requires Represents(c, rows) && |rows| <= U32_MAX && 0 <= Span(row.id) <= U32_MAX
    ensures Accepted(Emit(PushRow(c, row), lastBlock)) <==> |c.workerIndexes| + |row.workers| <= U32_MAX
  {
  }

  /** That row is the one whose push reports `TooManyWorkers`: written, reported, and unreadable. */
  lemma {:induction false} OverflowBreaksColumns(
    checkContinuity: bool, lastBlock: Option<u64>, rows: seq<Row>, row: Row, last: u64)
    requires Fits(rows) && row.id.firstBlock <= row.id.lastBlock
    requires Push(checkContinuity, lastBlock, CoreOf(rows), row).Wrote(CoreOf(rows))
    ensures var p := Push(checkContinuity, lastBlock, CoreOf(rows), row);
            && (p.outcome == Err(TooManyWorkers) <==> WorkerRefs(rows) + |row.workers| > U32_MAX)
            && (Accepted(Emit(p.core, last)) <==> p.outcome != Err(TooManyWorkers))
  {
    CoreRepresents(rows);
    WorkerOverflow(CoreOf(rows), rows, row, last);
  }
}
