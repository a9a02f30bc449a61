/** Whole runs of the portal assignment builder, against a machine that only keeps lists. */
module PortalSession {
  import opened Words
  import opened ChunkId
  import opened Columns
  import opened PortalFormat
  import opened DatasetLookup
  import Tables
  import S = PortalStaging

  datatype Op =
    | OpenDataset(id: string, readSchemaId: u32)
    | NewChunk
    | Set(fields: S.Draft)
    | SetWorkers(indexes: seq<u16>)
    | FinishChunk
    | DropChunk
    | FinishDataset(lastBlockHash: Option<string>)
    | DropDataset

  // ----- the concrete machine -----

  datatype Session = Session(b: S.Builder, open: Option<(string, u32)>, draft: Option<S.Draft>)

  function Start(checkContinuity: bool): Session {
    Session(S.Builder(checkContinuity, None, [], NO_COLUMNS, []), None, None)
  }

  /** What the borrows allow, and no call that panics. */
  ghost predicate Enabled(s: Session, op: Op) {
    match op
    case OpenDataset(_, _) => s.open.None?
    case NewChunk => s.open.Some? && s.draft.None?
    case Set(fields) => s.open.Some? && s.draft.Some? && S.ValidDraft(fields)
    case SetWorkers(_) => s.open.Some? && s.draft.Some?
    case FinishChunk =>
      s.open.Some? && s.draft.Some? && S.ValidDraft(s.draft.value) && s.draft.value.blockRange.Some?
    case DropChunk => s.open.Some? && s.draft.Some?
    case FinishDataset(_) => s.open.Some? && s.draft.None? && S.LastBlockSet(s.b)
    case DropDataset => s.open.Some? && s.draft.None?
  }

  ghost function Step(s: Session, op: Op): Session
    requires Enabled(s, op)
  {
    match op
    case OpenDataset(id, schema) => s.(open := Some((id, schema)))
    case NewChunk => s.(b := S.NewChunk(s.b), draft := Some(S.NO_DRAFT))
    case Set(fields) => s.(draft := Some(fields))
    case SetWorkers(indexes) => s.(b := s.b.(stagedWorkerIndexes := indexes))
    case FinishChunk => s.(b := S.FinishChunk(s.b, s.draft.value).0, draft := None)
    case DropChunk => s.(draft := None)
    case FinishDataset(hash) => s.(b := S.FinishDataset(s.b, s.open.value.0, s.open.value.1, hash).0, open := None)
    case DropDataset => s.(b := S.Discard(s.b), open := None)
  }

  // ----- the ideal machine -----

  /** `spoiled` once a chunk has taken the dataset's worker list past u32. */
  datatype Dataset = Dataset(
    id: string, readSchemaId: u32, lastBlockHash: Option<string>, rows: seq<PortalRow>, spoiled: bool)

  datatype IdealDraft = IdealDraft(
    blockRange: Option<(u64, u64)>, chunkId: Option<DataChunk>, version: u32, timestamp: u64, workers: seq<u16>)

  datatype Ideal = Ideal(
    checkContinuity: bool,
    done: seq<Dataset>,
    cur: Option<Dataset>,
    draft: Option<IdealDraft>)

  function IdealStart(checkContinuity: bool): Ideal { Ideal(checkContinuity, [], None, None) }

  function LastBlockOf(rows: seq<PortalRow>): Option<u64> {
    if rows == [] then None else Some(rows[|rows| - 1].core.id.lastBlock)
  }

  /** The draft's id is set and names exactly its blocks. */
  predicate Stageable(draft: IdealDraft) {
    draft.chunkId.Some? && draft.blockRange == Some((draft.chunkId.value.firstBlock, draft.chunkId.value.lastBlock))
  }

  function RowFrom(draft: IdealDraft): PortalRow
    requires draft.chunkId.Some?
  {
    PortalRow(Row(draft.chunkId.value, draft.version, draft.workers), draft.timestamp)
  }

  /** The chunk a draft turns into, if nothing is wrong with it. */
  function Finished(a: Ideal): Option<PortalRow>
    requires a.cur.Some? && a.draft.Some?
  {
    if Stageable(a.draft.value) && Acceptable(a.checkContinuity, a.cur.value.rows, RowFrom(a.draft.value))
    then Some(RowFrom(a.draft.value)) else None
  }

  /** The row follows the list, if it must, and neither count nor span passes u32. */
  predicate Acceptable(checkContinuity: bool, rows: seq<PortalRow>, row: PortalRow) {
    && (Contiguous(LastBlockOf(rows), row.core.id.firstBlock) || !checkContinuity)
    && |rows| <= U32_MAX && Span(row.core.id) <= U32_MAX
  }

  predicate IdealEnabled(a: Ideal, op: Op) {
    match op
    case OpenDataset(_, _) => a.cur.None?
    case NewChunk => a.cur.Some? && a.draft.None?
    case FinishDataset(_) => a.cur.Some? && a.draft.None?
    case DropDataset => a.cur.Some? && a.draft.None?
    case FinishChunk => a.cur.Some? && a.draft.Some? && a.draft.value.blockRange.Some?
    case _ => a.cur.Some? && a.draft.Some?
  }

  function IdealStep(a: Ideal, op: Op): Ideal
    requires IdealEnabled(a, op)
  {
    match op
    case OpenDataset(id, schema) => a.(cur := Some(Dataset(id, schema, None, [], false)))
    case NewChunk => a.(draft := Some(IdealDraft(None, None, 0, 0, [])))
    case Set(f) => a.(draft := Some(IdealDraft(f.blockRange, f.id, f.version, f.timestamp, a.draft.value.workers)))
    case SetWorkers(indexes) => a.(draft := Some(a.draft.value.(workers := indexes)))
    case FinishChunk =>
      a.(cur := Some(if Finished(a).None? then a.cur.value else Grown(a.cur.value, Finished(a).value)), draft := None)
    case DropChunk => a.(draft := None)
    case FinishDataset(hash) =>
      var d := a.cur.value;
      a.(done := if d.rows == [] && !d.spoiled then a.done else a.done + [d.(lastBlockHash := hash)], cur := None)
    case DropDataset => a.(cur := None)
  }

  /** A dataset gains a row, unless its worker list does not fit in u32 or did not before. */
  function Grown(d: Dataset, row: PortalRow): Dataset {
    if d.spoiled then d
    else if WorkerRefs(Cores(d.rows + [row])) > U32_MAX then d.(spoiled := true)
    else d.(rows := d.rows + [row])
  }

  // ----- what every step keeps -----

  ghost predicate RowsSound(checkContinuity: bool, rows: seq<PortalRow>) {
    && PortalFits(rows) && Forward(rows)
    && (forall i :: 0 <= i < |rows| ==> Valid(rows[i].core.id))
    && (checkContinuity ==> Consecutive(rows))
  }

  ghost predicate Sound(a: Ideal) {
    && (forall i :: 0 <= i < |a.done| ==> RowsSound(a.checkContinuity, a.done[i].rows))
    && (a.cur.Some? ==> RowsSound(a.checkContinuity, a.cur.value.rows))
    && (a.draft.Some? ==>
          a.cur.Some? && (a.draft.value.chunkId.Some? ==> Valid(a.draft.value.chunkId.value)))
  }

  /** The dataset a fresh builder emits for these chunks. */
  function Published(d: Dataset): PortalDataset
    requires PortalFits(d.rows) && d.rows != []
  {
    DatasetOf(d.id, d.readSchemaId, d.lastBlockHash, d.rows)
  }

  /** A whole dataset is emitted as if built alone; a spoiled one is exactly one the reader rejects. */
  ghost predicate Emitted(e: PortalDataset, d: Dataset) {
    && e.id == d.id && e.readSchemaId == d.readSchemaId && e.lastBlockHash == d.lastBlockHash
    && (d.spoiled <==> !PortalAccepted(e))
    && (!d.spoiled ==>
          && d.rows != [] && PortalFits(d.rows) && e == Published(d)
          && e.data.lastBlock == d.rows[|d.rows| - 1].core.id.lastBlock)
  }

  ghost predicate AllPublished(emitted: seq<PortalDataset>, done: seq<Dataset>) {
    |emitted| == |done| && forall i :: 0 <= i < |done| ==> Emitted(emitted[i], done[i])
  }

  ghost predicate ColumnsAre(c: PortalColumns, lastBlock: Option<u64>, d: Dataset) {
    if d.spoiled then Lagging(c.core)
    else PortalFits(d.rows) && c == ColumnsOf(d.rows) && lastBlock == LastBlockOf(d.rows)
  }

  /** Between datasets nothing is staged; inside one, exactly the chunks accepted so far are. */
  ghost predicate StagedIs(
    open: Option<(string, u32)>, columns: PortalColumns, lastBlock: Option<u64>, cur: Option<Dataset>)
  {
    match cur
    case None => open.None? && columns == NO_COLUMNS && lastBlock.None?
    case Some(d) => open == Some((d.id, d.readSchemaId)) && ColumnsAre(columns, lastBlock, d)
  }

  ghost predicate DraftIs(s: Session, draft: Option<IdealDraft>) {
    match draft
    case None => s.draft.None?
    case Some(d) =>
      s.draft == Some(S.Draft(d.blockRange, d.chunkId, d.version, d.timestamp)) && s.b.stagedWorkerIndexes == d.workers
  }

  ghost predicate Refines(s: Session, a: Ideal) {
    && s.b.checkContinuity == a.checkContinuity
    && AllPublished(s.b.allDatasets, a.done)
    && StagedIs(s.open, s.b.columns, s.b.lastBlock, a.cur)
    && DraftIs(s, a.draft)
  }

  lemma {:induction false} ColumnsGrow(rows: seq<PortalRow>, row: PortalRow)
    requires PortalFits(rows) && |rows| <= U32_MAX && 0 <= Span(row.core.id) <= U32_MAX
    requires WorkerRefs(Cores(rows + [row])) <= U32_MAX
    ensures PortalFits(rows + [row])
    ensures ColumnsOf(rows + [row])
         == PortalColumns(PushRow(ColumnsOf(rows).core, row.core), ColumnsOf(rows).timestamps + [row.timestamp])
    ensures |ColumnsOf(rows).core.workerIndexes| + |row.core.workers| <= U32_MAX
  {
    var all := rows + [row];
    assert Cores(all)[..|all| - 1] == Cores(rows) && Cores(all)[|all| - 1] == row.core;
    assert Timestamps(all) == Timestamps(rows) + [row.timestamp];
  }

  lemma PushWrites(checkContinuity: bool, lastBlock: Option<u64>, c: PortalColumns, row: PortalRow)
    requires |c.core.firstBlocks| <= U32_MAX && 0 <= Span(row.core.id) <= U32_MAX
    requires |c.core.workerIndexes| + |row.core.workers| <= U32_MAX
    requires Contiguous(lastBlock, row.core.id.firstBlock) || !checkContinuity
    ensures var p := PushPortal(checkContinuity, lastBlock, c, row);
            && p.columns == PortalColumns(PushRow(c.core, row.core), c.timestamps + [row.timestamp])
            && p.lastBlock == Some(row.core.id.lastBlock)
  {
  }

  lemma EnabledAlike(s: Session, a: Ideal, op: Op)
    requires Refines(s, a) && Enabled(s, op)
    ensures IdealEnabled(a, op)
  {
  }

  lemma {:induction false} RefsGrow(rows: seq<PortalRow>, row: PortalRow)
    ensures WorkerRefs(Cores(rows + [row])) == WorkerRefs(Cores(rows)) + |row.core.workers|
  {
    var all := Cores(rows + [row]);
    assert all[..|all| - 1] == Cores(rows);
  }

  /** A row reaches the columns: they stay those of the accepted list, or start to lag. */
  lemma {:induction false} PushMatches(checkContinuity: bool, d: Dataset, row: PortalRow)
    requires !d.spoiled && PortalFits(d.rows) && |d.rows| <= U32_MAX && 0 <= Span(row.core.id) <= U32_MAX
    requires Contiguous(LastBlockOf(d.rows), row.core.id.firstBlock) || !checkContinuity
    ensures var p := PushPortal(checkContinuity, LastBlockOf(d.rows), ColumnsOf(d.rows), row);
            ColumnsAre(p.columns, p.lastBlock, Grown(d, row))
  {
    RefsGrow(d.rows, row);
    if WorkerRefs(Cores(d.rows + [row])) > U32_MAX {
      LagBegins(Cores(d.rows), row.core);
    } else {
      ColumnsGrow(d.rows, row);
      PushWrites(checkContinuity, LastBlockOf(d.rows), ColumnsOf(d.rows), row);
    }
  }

  lemma {:induction false} PushStages(b: S.Builder, d: Dataset, row: PortalRow)
    requires ColumnsAre(b.columns, b.lastBlock, d) && row.core.id.firstBlock <= row.core.id.lastBlock
    ensures var b1 := S.PushChunk(b, row).0;
            && b1 == b.(columns := b1.columns, lastBlock := b1.lastBlock)
            && ColumnsAre(b1.columns, b1.lastBlock,
                          if Acceptable(b.checkContinuity, d.rows, row) then Grown(d, row) else d)
  {
    if d.spoiled {
      LagStays(b.checkContinuity, b.lastBlock, b.columns.core, row.core);
    } else if Acceptable(b.checkContinuity, d.rows, row) {
      PushMatches(b.checkContinuity, d, row);
    }
  }

  lemma {:induction false} FinishChunkRefines(s: Session, a: Ideal)
    requires Refines(s, a) && Sound(a) && Enabled(s, FinishChunk) && IdealEnabled(a, FinishChunk)
    ensures Refines(Step(s, FinishChunk), IdealStep(a, FinishChunk))
  {
    if Stageable(a.draft.value) {
      PushStages(s.b, a.cur.value, RowFrom(a.draft.value));
    }
  }

  lemma RowKeepsSound(checkContinuity: bool, rows: seq<PortalRow>, row: PortalRow)
    requires RowsSound(checkContinuity, rows) && Valid(row.core.id) && PortalFits(rows + [row])
    requires checkContinuity ==> Contiguous(LastBlockOf(rows), row.core.id.firstBlock)
    ensures RowsSound(checkContinuity, rows + [row])
  {
  }

  lemma {:induction false} FinishChunkSound(a: Ideal)
    requires Sound(a) && IdealEnabled(a, FinishChunk)
    ensures Sound(IdealStep(a, FinishChunk))
  {
    if Finished(a).Some? && Grown(a.cur.value, Finished(a).value).rows != a.cur.value.rows {
      ColumnsGrow(a.cur.value.rows, Finished(a).value);
      RowKeepsSound(a.checkContinuity, a.cur.value.rows, Finished(a).value);
    }
  }

  lemma {:induction false} FinishWhole(b: S.Builder, d: Dataset, hash: Option<string>)
    requires !d.spoiled && d.rows != [] && ColumnsAre(b.columns, b.lastBlock, d)
    ensures S.LastBlockSet(b)
    ensures S.FinishDataset(b, d.id, d.readSchemaId, hash).0
         == S.Discard(b).(allDatasets := b.allDatasets + [Published(d.(lastBlockHash := hash))])
    ensures Emitted(Published(d.(lastBlockHash := hash)), d.(lastBlockHash := hash))
  {
    StagedRunsPass(Cores(d.rows));
    SearchedBlocks(d.id, d.readSchemaId, hash, d.rows);
  }

  lemma {:induction false} FinishDatasetRefines(s: Session, a: Ideal, hash: Option<string>)
    requires Refines(s, a) && Enabled(s, FinishDataset(hash)) && IdealEnabled(a, FinishDataset(hash))
    ensures Refines(Step(s, FinishDataset(hash)), IdealStep(a, FinishDataset(hash)))
  {
    var d := a.cur.value;
    if d.spoiled {
      LagIsRejected(s.b.columns.core, s.b.lastBlock.value);
    } else if d.rows != [] {
      FinishWhole(s.b, d, hash);
    } else {
      assert s.b.columns.core.firstBlocks == [];
    }
  }

  lemma OtherStepRefines(s: Session, a: Ideal, op: Op)
    requires !op.FinishChunk? && !op.FinishDataset?
    requires Refines(s, a) && Enabled(s, op) && IdealEnabled(a, op)
    ensures Refines(Step(s, op), IdealStep(a, op))
  {
  }

  /** Every call, accepted or rejected, takes matching states to matching states. */
  lemma {:induction false} StepRefines(s: Session, a: Ideal, op: Op)
    requires Refines(s, a) && Sound(a) && Enabled(s, op) && IdealEnabled(a, op)
    ensures Refines(Step(s, op), IdealStep(a, op)) && Sound(IdealStep(a, op))
  {
    if op.FinishChunk? {
      FinishChunkRefines(s, a);
      FinishChunkSound(a);
    } else if op.FinishDataset? {
      FinishDatasetRefines(s, a, op.lastBlockHash);
    } else {
      OtherStepRefines(s, a, op);
    }
  }

  // ----- runs -----

  ghost predicate Legal(s: Session, ops: seq<Op>)
    decreases |ops|
  {
    ops != [] ==> Enabled(s, ops[0]) && Legal(Step(s, ops[0]), ops[1..])
  }

  ghost function Run(s: Session, ops: seq<Op>): Session
    requires Legal(s, ops)
    decreases |ops|
  {
    if ops == [] then s else Run(Step(s, ops[0]), ops[1..])
  }

  predicate IdealLegal(a: Ideal, ops: seq<Op>)
    decreases |ops|
  {
    ops != [] ==> IdealEnabled(a, ops[0]) && IdealLegal(IdealStep(a, ops[0]), ops[1..])
  }

  function IdealRun(a: Ideal, ops: seq<Op>): Ideal
    requires IdealLegal(a, ops)
    decreases |ops|
  {
    if ops == [] then a else IdealRun(IdealStep(a, ops[0]), ops[1..])
  }

  lemma {:induction false} RunRefines(s: Session, a: Ideal, ops: seq<Op>)
    requires Refines(s, a) && Sound(a) && Legal(s, ops)
    ensures IdealLegal(a, ops) && Refines(Run(s, ops), IdealRun(a, ops)) && Sound(IdealRun(a, ops))
    ensures IdealRun(a, ops).checkContinuity == a.checkContinuity
    decreases |ops|
  {
    if ops != [] {
      EnabledAlike(s, a, ops[0]);
      StepRefines(s, a, ops[0]);
      RunRefines(Step(s, ops[0]), IdealStep(a, ops[0]), ops[1..]);
    }
  }

  /** What the portal reader makes of a whole dataset. */
  ghost predicate Reads(d: PortalDataset, rows: seq<PortalRow>) {
    && PortalAccepted(d) && |d.data.firstBlocks| == |rows|
    && forall j: nat :: j < |rows| ==> ReadPortalRow(d, j) == rows[j]
  }

  /**
   * After any run the assignment holds exactly the finished datasets in order. Each is as if built
   * alone and reads back whole, unless a chunk took its worker list past u32: those are exactly the
   * ones the reader rejects. Between datasets the staging state is pristine.
   */
  lemma {:induction false} SessionRefinement(checkContinuity: bool, ops: seq<Op>)
    requires Legal(Start(checkContinuity), ops)
    ensures IdealLegal(IdealStart(checkContinuity), ops)
    ensures var s, a := Run(Start(checkContinuity), ops), IdealRun(IdealStart(checkContinuity), ops);
            && AllPublished(s.b.allDatasets, a.done)
            && (forall i :: 0 <= i < |a.done| && !a.done[i].spoiled ==> Reads(s.b.allDatasets[i], a.done[i].rows))
            && (s.open.None? ==> s.b.columns == NO_COLUMNS && s.b.lastBlock.None?)
  {
    RunRefines(Start(checkContinuity), IdealStart(checkContinuity), ops);
    var s, a := Run(Start(checkContinuity), ops), IdealRun(IdealStart(checkContinuity), ops);
    forall i | 0 <= i < |a.done| && !a.done[i].spoiled ensures Reads(s.b.allDatasets[i], a.done[i].rows) {
      assert Emitted(s.b.allDatasets[i], a.done[i]);
      DatasetReads(a.done[i]);
    }
  }

  lemma {:induction false} DatasetReads(d: Dataset)
    requires PortalFits(d.rows) && d.rows != []
    ensures Reads(Published(d), d.rows)
  {
    var last := d.rows[|d.rows| - 1].core.id.lastBlock;
    PortalRoundTrip(d.id, d.readSchemaId, d.lastBlockHash, d.rows, last, 0);
    forall j: nat | j < |d.rows| ensures ReadPortalRow(Published(d), j) == d.rows[j] {
      PortalRoundTrip(d.id, d.readSchemaId, d.lastBlockHash, d.rows, last, j);
    }
  }

  function Ids(datasets: seq<PortalDataset>): seq<string> {
    seq(|datasets|, i requires 0 <= i < |datasets| => datasets[i].id)
  }

  function FinishedIds(done: seq<Dataset>): seq<string> {
    seq(|done|, i requires 0 <= i < |done| => done[i].id)
  }

  lemma {:induction false} IdsKept(emitted: seq<PortalDataset>, done: seq<Dataset>)
    requires AllPublished(emitted, done)
    ensures Ids(emitted) == FinishedIds(done)
  {
    forall i | 0 <= i < |done| ensures emitted[i].id == done[i].id {
      assert Emitted(emitted[i], done[i]);
    }
  }

  /** After any run every finished dataset is found by its id exactly when they were finished in order of id. */
  lemma {:induction false} FinishedAreFoundIff(checkContinuity: bool, ops: seq<Op>)
    requires Legal(Start(checkContinuity), ops)
    ensures IdealLegal(IdealStart(checkContinuity), ops)
    ensures var s, a := Run(Start(checkContinuity), ops), IdealRun(IdealStart(checkContinuity), ops);
            && Ids(s.b.allDatasets) == FinishedIds(a.done)
            && (AllFound(Ids(s.b.allDatasets)) <==> Tables.Ascending(FinishedIds(a.done)))
  {
    RunRefines(Start(checkContinuity), IdealStart(checkContinuity), ops);
    var s, a := Run(Start(checkContinuity), ops), IdealRun(IdealStart(checkContinuity), ops);
    IdsKept(s.b.allDatasets, a.done);
    FoundIffAscending(Ids(s.b.allDatasets));
  }

  /** Every block in range of a readable dataset a continuity-checking builder emitted is found. */
  lemma {:induction false} CheckedDatasetsAreSearchable(ops: seq<Op>, i: nat)
    requires Legal(Start(true), ops) && i < |Run(Start(true), ops).b.allDatasets|
    requires PortalAccepted(Run(Start(true), ops).b.allDatasets[i])
    requires var d := Run(Start(true), ops).b.allDatasets[i].data;
             forall j: nat :: j + 1 < |d.firstBlocks| ==> LastBlock(d, j) < U64_MAX
    ensures var d := Run(Start(true), ops).b.allDatasets[i];
            && |d.data.firstBlocks| > 0
            && forall block: u64 :: d.data.firstBlocks[0] <= block <= d.data.lastBlock ==>
                 FindChunk(Some(d), block).Ok?
  {
    RunRefines(Start(true), IdealStart(true), ops);
    var e, d := Run(Start(true), ops).b.allDatasets[i], IdealRun(IdealStart(true), ops).done[i];
    assert Emitted(e, d);
    SearchedBlocks(d.id, d.readSchemaId, d.lastBlockHash, d.rows);
    forall j | 0 <= j < |d.rows| - 1 ensures d.rows[j].core.id.lastBlock < U64_MAX {
      assert LastBlocks(e.data)[j] == LastBlock(e.data, j) && RowLasts(d.rows)[j] == d.rows[j].core.id.lastBlock;
    }
    ContinuousDataset(d.id, d.readSchemaId, d.lastBlockHash, d.rows);
  }
}
