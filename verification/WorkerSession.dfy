/**
 * Whole runs of the worker assignment builder. The concrete machine reuses its buffers and cleans up
 * after datasets that are dropped or rejected; the ideal machine has no buffers and just keeps lists.
 */
module WorkerSession {
  import opened Words
  import opened ChunkId
  import opened Columns
  import opened WorkerFormat
  import opened DatasetLookup
  import S = WorkerStaging
  import Tables

  datatype Op =
    | RegisterSchema(schema: u32, tables: seq<string>)
    | OpenDataset(id: string, baseUrl: string)
    | RegisterGeneration(version: u32, prefix: string)
    | NewChunk
    | Set(blockRange: Option<(u64, u64)>, chunkId: Option<DataChunk>, size: Option<u32>,
          chunkVersion: u32, writeSchemaId: Option<u32>)
    | SetTables(listed: seq<string>)
    | SetWorkers(indexes: seq<u16>)
    | FinishChunk
    | DropChunk
    | FinishDataset
    | DropDataset

  // ----- the concrete machine -----

  datatype Session = Session(b: S.Builder, open: Option<(string, string)>, draft: Option<S.Draft>)

  function Start(checkContinuity: bool): Session {
    Session(S.Builder(checkContinuity, None, [], map[], map[], NO_COLUMNS, [], []), None, None)
  }

  /** What the borrows allow, and no call that panics. */
  ghost predicate Enabled(s: Session, op: Op) {
    match op
    case RegisterSchema(_, _) => s.open.None?
    case OpenDataset(_, _) => s.open.None?
    case RegisterGeneration(_, _) => s.open.Some? && s.draft.None?
    case NewChunk => s.open.Some? && s.draft.None?
    case Set(_, id, _, _, _) => s.open.Some? && s.draft.Some? && (id.Some? ==> Valid(id.value))
    case SetTables(_) => s.open.Some? && s.draft.Some?
    case SetWorkers(_) => s.open.Some? && s.draft.Some?
    case FinishChunk =>
      && s.open.Some? && s.draft.Some? && S.ValidDraft(s.draft.value)
      && s.draft.value.blockRange.Some? && s.draft.value.size.Some?
    case DropChunk => s.open.Some? && s.draft.Some?
    case FinishDataset => s.open.Some? && s.draft.None? && S.LastBlockSet(s.b)
    case DropDataset => s.open.Some? && s.draft.None?
  }

  function SetFields(draft: S.Draft, op: Op): S.Draft
    requires op.Set?
  {
    S.Draft(op.blockRange, op.chunkId, op.size, op.chunkVersion, op.writeSchemaId, draft.tablesPresent)
  }

  /** The calls on an open chunk. */
  predicate OnDraft(op: Op) { op.NewChunk? || op.Set? || op.SetTables? || op.SetWorkers? || op.DropChunk? }

  ghost function DraftStep(s: Session, op: Op): Session
    requires OnDraft(op) && Enabled(s, op)
  {
    match op
    case NewChunk => s.(b := S.NewChunk(s.b), draft := Some(S.NO_DRAFT))
    case Set(_, _, _, _, _) => s.(draft := Some(SetFields(s.draft.value, op)))
    case SetTables(listed) =>
      var (b, r) := S.SetTables(s.b, s.draft.value, listed);
      s.(b := b, draft := if r.Ok? then Some(r.value) else None)
    case SetWorkers(indexes) => s.(b := s.b.(stagedWorkerIndexes := indexes))
    case DropChunk => s.(draft := None)
  }

  ghost function CloseChunk(s: Session): Session
    requires Enabled(s, FinishChunk)
  {
    s.(b := S.FinishChunk(s.b, s.draft.value).0, draft := None)
  }

  ghost function Step(s: Session, op: Op): Session
    requires Enabled(s, op)
  {
    if OnDraft(op) then DraftStep(s, op) else
    match op
    case FinishChunk => CloseChunk(s)
    case RegisterSchema(schema, tables) => s.(b := S.RegisterSchema(s.b, schema, tables).0)
    case RegisterGeneration(version, prefix) => s.(b := S.RegisterGeneration(s.b, version, prefix).0)
    case OpenDataset(id, baseUrl) => s.(open := Some((id, baseUrl)))
    case FinishDataset => s.(b := S.FinishDataset(s.b, s.open.value.0, s.open.value.1).0, open := None)
    case DropDataset => s.(b := S.Discard(s.b), open := None)
  }

  // ----- the ideal machine -----

  /** A chunk with the table list it was given, if it was given one. */
  datatype Listed = Listed(row: WorkerRow, tables: Option<seq<string>>)

  /** `spoiled` once a chunk has taken the dataset's worker list past u32. */
  datatype Dataset = Dataset(
    id: string, baseUrl: string, generations: map<u32, string>, chunks: seq<Listed>, spoiled: bool)

  /** An open chunk; `encodedFor` is the schema its table list was encoded against. */
  datatype IdealDraft = IdealDraft(
    blockRange: Option<(u64, u64)>,
    chunkId: Option<DataChunk>,
    size: Option<u32>,
    version: u32,
    schema: Option<u32>,
    encodedFor: Option<u32>,
    workers: seq<u16>,
    bitmap: seq<bv8>,
    tables: Option<seq<string>>)

  datatype Ideal = Ideal(
    checkContinuity: bool,
    schemas: map<u32, seq<string>>,
    done: seq<Dataset>,
    cur: Option<Dataset>,
    draft: Option<IdealDraft>)

  function IdealStart(checkContinuity: bool): Ideal { Ideal(checkContinuity, map[], [], None, None) }

  function Rows(chunks: seq<Listed>): seq<WorkerRow> {
    seq(|chunks|, i requires 0 <= i < |chunks| => chunks[i].row)
  }

  function LastBlockOf(rows: seq<WorkerRow>): Option<u64> {
    if rows == [] then None else Some(rows[|rows| - 1].core.id.lastBlock)
  }

  /**
   * Nothing is wrong with the draft itself: its id names exactly its blocks, its schema and its
   * generation are registered, and its tables, if listed, were encoded against that schema.
   */
  predicate Stageable(schemas: map<u32, seq<string>>, generations: map<u32, string>, draft: IdealDraft) {
    && draft.chunkId.Some? && draft.blockRange == Some((draft.chunkId.value.firstBlock, draft.chunkId.value.lastBlock))
    && draft.schema.Some? && draft.schema.value in schemas
    && (draft.version == 0 || draft.version in generations)
    && (draft.encodedFor.Some? ==> draft.encodedFor == draft.schema)
  }

  function RowFrom(draft: IdealDraft): WorkerRow
    requires draft.chunkId.Some? && draft.size.Some? && draft.schema.Some?
  {
    WorkerRow(Row(draft.chunkId.value, draft.version, draft.workers),
              draft.size.value, draft.schema.value, draft.bitmap)
  }

  /** The chunk a draft turns into, if nothing is wrong with it. */
  function Finished(
    checkContinuity: bool, schemas: map<u32, seq<string>>, d: Dataset, draft: IdealDraft): Option<Listed>
    requires draft.size.Some?
  {
    if Stageable(schemas, d.generations, draft) && Acceptable(checkContinuity, Rows(d.chunks), RowFrom(draft))
    then Some(Listed(RowFrom(draft), draft.tables)) else None
  }

  function AfterChunk(checkContinuity: bool, schemas: map<u32, seq<string>>, d: Dataset, draft: IdealDraft): Dataset
    requires draft.size.Some?
  {
    match Finished(checkContinuity, schemas, d, draft)
    case None => d
    case Some(c) => Grown(d, c)
  }

  /** The row follows the list, if it must, and neither count nor span passes u32. */
  predicate Acceptable(checkContinuity: bool, rows: seq<WorkerRow>, row: WorkerRow) {
    && (Contiguous(LastBlockOf(rows), row.core.id.firstBlock) || !checkContinuity)
    && |rows| <= U32_MAX && Span(row.core.id) <= U32_MAX
  }

  predicate ListFits(rows: seq<WorkerRow>) { WorkerRefs(Cores(rows)) <= U32_MAX }

  /** A dataset gains a chunk, unless its worker list does not fit in u32 or did not before. */
  function Grown(d: Dataset, c: Listed): Dataset {
    if d.spoiled then d
    else if !ListFits(Rows(d.chunks) + [c.row]) then d.(spoiled := true)
    else d.(chunks := d.chunks + [c])
  }

  predicate IdealEnabled(a: Ideal, op: Op) {
    match op
    case RegisterSchema(_, _) => a.cur.None?
    case OpenDataset(_, _) => a.cur.None?
    case RegisterGeneration(_, _) => a.cur.Some? && a.draft.None?
    case NewChunk => a.cur.Some? && a.draft.None?
    case FinishDataset => a.cur.Some? && a.draft.None?
    case DropDataset => a.cur.Some? && a.draft.None?
    case FinishChunk =>
      && a.cur.Some? && a.draft.Some?
      && a.draft.value.blockRange.Some? && a.draft.value.size.Some?
    case _ => a.cur.Some? && a.draft.Some?
  }

  function IdealDraftStep(a: Ideal, op: Op): Ideal
    requires OnDraft(op) && IdealEnabled(a, op)
  {
    match op
    case NewChunk => a.(draft := Some(IdealDraft(None, None, None, 0, None, None, [], [], None)))
    case Set(range, id, size, version, schema) =>
      a.(draft := Some(a.draft.value.(
        blockRange := range, chunkId := id, size := size, version := version, schema := schema)))
    case SetTables(listed) => a.(draft := IdealTables(a.schemas, a.draft.value, listed))
    case SetWorkers(indexes) => a.(draft := Some(a.draft.value.(workers := indexes)))
    case DropChunk => a.(draft := None)
  }

  function AddSchema(schemas: map<u32, seq<string>>, schema: u32, tables: seq<string>): map<u32, seq<string>> {
    if Tables.Ascending(tables) && schema !in schemas then schemas[schema := tables] else schemas
  }

  function AddGeneration(d: Dataset, version: u32, prefix: string): Dataset {
    if version == 0 || version in d.generations then d
    else d.(generations := d.generations[version := prefix])
  }

  function IdealCloseChunk(a: Ideal): Ideal
    requires IdealEnabled(a, FinishChunk)
  {
    a.(cur := Some(AfterChunk(a.checkContinuity, a.schemas, a.cur.value, a.draft.value)), draft := None)
  }

  function IdealStep(a: Ideal, op: Op): Ideal
    requires IdealEnabled(a, op)
  {
    if OnDraft(op) then IdealDraftStep(a, op) else
    match op
    case FinishChunk => IdealCloseChunk(a)
    case RegisterSchema(schema, tables) => a.(schemas := AddSchema(a.schemas, schema, tables))
    case RegisterGeneration(version, prefix) => a.(cur := Some(AddGeneration(a.cur.value, version, prefix)))
    case OpenDataset(id, baseUrl) => a.(cur := Some(Dataset(id, baseUrl, map[], [], false)))
    case FinishDataset =>
      var d := a.cur.value;
      a.(done := if d.chunks == [] && !d.spoiled then a.done else a.done + [d], cur := None)
    case DropDataset => a.(cur := None)
  }

  function IdealTables(schemas: map<u32, seq<string>>, d: IdealDraft, listed: seq<string>): Option<IdealDraft> {
    if d.schema.None? || d.schema.value !in schemas then None else
    var m := Tables.TablesPresent(schemas[d.schema.value], listed);
    if !m.ok then None
    else Some(d.(encodedFor := d.schema, bitmap := m.bits, tables := Some(listed)))
  }

  // ----- what every step keeps -----

  /** Everything the chunk refers to resolves. */
  ghost predicate Resolved(schemas: map<u32, seq<string>>, generations: map<u32, string>, c: Listed) {
    && Valid(c.row.core.id)
    && c.row.writeSchemaId in schemas
    && (c.row.core.version == 0 || c.row.core.version in generations)
    && BitmapOf(schemas, c.row.writeSchemaId, c.row.bitmap, c.tables)
  }

  ghost predicate BitmapOf(schemas: map<u32, seq<string>>, schema: u32, bitmap: seq<bv8>, tables: Option<seq<string>>) {
    match tables
    case None => bitmap == []
    case Some(listed) =>
      schema in schemas && Tables.TablesPresent(schemas[schema], listed) == Tables.Merged(true, bitmap)
  }

  ghost predicate DatasetSound(schemas: map<u32, seq<string>>, d: Dataset) {
    && WorkerFits(Rows(d.chunks))
    && forall i :: 0 <= i < |d.chunks| ==> Resolved(schemas, d.generations, d.chunks[i])
  }

  ghost predicate DraftSound(schemas: map<u32, seq<string>>, d: IdealDraft) {
    && (d.chunkId.Some? ==> Valid(d.chunkId.value))
    && match d.encodedFor
       case None => d.bitmap == [] && d.tables.None?
       case Some(schema) => d.tables.Some? && BitmapOf(schemas, schema, d.bitmap, d.tables)
  }

  ghost predicate Sound(a: Ideal) {
    && (forall schema :: schema in a.schemas ==> Tables.Ascending(a.schemas[schema]))
    && (forall i :: 0 <= i < |a.done| ==> DatasetSound(a.schemas, a.done[i]))
    && (a.cur.Some? ==> DatasetSound(a.schemas, a.cur.value))
    && (a.draft.Some? ==> a.cur.Some? && DraftSound(a.schemas, a.draft.value))
  }

  /** The dataset a fresh builder emits for these chunks. */
  function Published(d: Dataset): WorkerDataset
    requires WorkerFits(Rows(d.chunks)) && d.chunks != []
  {
    EmitWorker(d.id, d.baseUrl, d.generations, ColumnsOf(Rows(d.chunks)), LastBlockOf(Rows(d.chunks)).value)
  }

  /** Between datasets nothing is staged; inside one, exactly the chunks accepted so far are. */
  ghost predicate StagedIs(
    open: Option<(string, string)>, columns: WorkerColumns, lastBlock: Option<u64>, generations: map<u32, string>,
    cur: Option<Dataset>)
  {
    match cur
    case None => open.None? && generations == map[] && columns == NO_COLUMNS && lastBlock.None?
    case Some(d) =>
      && open == Some((d.id, d.baseUrl)) && generations == d.generations
      && ColumnsAre(columns, lastBlock, d.spoiled, Rows(d.chunks))
  }

  ghost predicate ColumnsAre(c: WorkerColumns, lastBlock: Option<u64>, spoiled: bool, rows: seq<WorkerRow>) {
    if spoiled then Lagging(c.core)
    else WorkerFits(rows) && c == ColumnsOf(rows) && lastBlock == LastBlockOf(rows)
  }

  ghost predicate DraftIs(s: Session, draft: Option<IdealDraft>) {
    match draft
    case None => s.draft.None?
    case Some(d) =>
      && s.draft == Some(DraftOf(d))
      && s.b.stagedWorkerIndexes == d.workers && s.b.stagedTablesPresent == d.bitmap
  }

  function DraftOf(d: IdealDraft): S.Draft {
    S.Draft(d.blockRange, d.chunkId, d.size, d.version, d.schema, d.encodedFor)
  }

  /** The builder objects to a draft exactly when it cannot be staged. */
  lemma ObjectionIff(schemas: map<u32, seq<string>>, generations: map<u32, string>, d: IdealDraft)
    requires d.blockRange.Some?
    ensures S.Objection(schemas, generations, DraftOf(d)).None? <==> Stageable(schemas, generations, d)
  {
  }

  /** The emitted dataset carries what it was opened with and the generations registered for it. */
  ghost predicate Headed(e: WorkerDataset, d: Dataset) {
    && e.id == d.id && e.baseUrl == d.baseUrl
    && forall v: u32 :: GetGeneration(e, v) == if v in d.generations then Some(d.generations[v]) else None
  }

  /** A whole dataset is emitted as if built alone; a spoiled one is exactly one the reader rejects. */
  ghost predicate Emitted(e: WorkerDataset, d: Dataset) {
    && Headed(e, d)
    && (d.spoiled <==> !WorkerAccepted(e))
    && (!d.spoiled ==>
          && d.chunks != [] && WorkerFits(Rows(d.chunks)) && e == Published(d)
          && e.data.lastBlock == d.chunks[|d.chunks| - 1].row.core.id.lastBlock)
  }

  ghost predicate AllPublished(emitted: seq<WorkerDataset>, done: seq<Dataset>) {
    |emitted| == |done| && forall i :: 0 <= i < |done| ==> Emitted(emitted[i], done[i])
  }

  ghost predicate Refines(s: Session, a: Ideal) {
    && s.b.checkContinuity == a.checkContinuity
    && s.b.writeSchemas == a.schemas
    && AllPublished(s.b.allDatasets, a.done)
    && StagedIs(s.open, s.b.columns, s.b.lastBlock, s.b.currentGenerations, a.cur)
    && DraftIs(s, a.draft)
  }

  lemma EnabledAlike(s: Session, a: Ideal, op: Op)
    requires Refines(s, a) && Enabled(s, op)
    ensures IdealEnabled(a, op)
  {
  }

  lemma RowsGrow(chunks: seq<Listed>, c: Listed)
    ensures Rows(chunks + [c]) == Rows(chunks) + [c.row]
    ensures Cores(Rows(chunks) + [c.row]) == Cores(Rows(chunks)) + [c.row.core]
  {
  }

  lemma {:induction false} ColumnsGrow(rows: seq<WorkerRow>, row: WorkerRow)
    requires WorkerFits(rows) && |rows| <= U32_MAX && 0 <= Span(row.core.id) <= U32_MAX && ListFits(rows + [row])
    ensures WorkerFits(rows + [row])
    ensures ColumnsOf(rows + [row]) == PushExtras(ColumnsOf(rows), PushRow(ColumnsOf(rows).core, row.core), row)
    ensures |ColumnsOf(rows).core.workerIndexes| + |row.core.workers| <= U32_MAX
  {
    FitsGrow(rows, row);
    ColumnsUnfold(rows + [row], rows, row);
    SharedColumns(rows);
    RefsGrow(rows, row);
  }

  lemma FitsGrow(rows: seq<WorkerRow>, row: WorkerRow)
    requires WorkerFits(rows) && |rows| <= U32_MAX && 0 <= Span(row.core.id) <= U32_MAX && ListFits(rows + [row])
    ensures WorkerFits(rows + [row])
  {
  }

  lemma ColumnsUnfold(all: seq<WorkerRow>, rows: seq<WorkerRow>, row: WorkerRow)
    requires WorkerFits(all) && all == rows + [row]
    ensures WorkerFits(rows)
    ensures ColumnsOf(all) == PushExtras(ColumnsOf(rows), PushRow(ColumnsOf(rows).core, row.core), row)
  {
  }

  lemma {:induction false} RefsGrow(rows: seq<WorkerRow>, row: WorkerRow)
    ensures WorkerRefs(Cores(rows + [row])) == WorkerRefs(Cores(rows)) + |row.core.workers|
  {
    var all := Cores(rows + [row]);
    assert all[..|all| - 1] == Cores(rows);
  }

  lemma PushWrites(checkContinuity: bool, lastBlock: Option<u64>, c: WorkerColumns, row: WorkerRow)
    requires |c.core.firstBlocks| <= U32_MAX && 0 <= Span(row.core.id) <= U32_MAX
    requires |c.core.workerIndexes| + |row.core.workers| <= U32_MAX
    requires Contiguous(lastBlock, row.core.id.firstBlock) || !checkContinuity
    ensures var p := PushWorker(checkContinuity, lastBlock, c, row);
            p.columns == PushExtras(c, PushRow(c.core, row.core), row) && p.lastBlock == Some(row.core.id.lastBlock)
  {
  }

  lemma {:induction false} SpoilBegins(rows: seq<WorkerRow>, row: WorkerRow)
    requires WorkerFits(rows) && |rows| <= U32_MAX && 0 <= Span(row.core.id) <= U32_MAX && !ListFits(rows + [row])
    ensures var c := ColumnsOf(rows); Lagging(PushExtras(c, PushRow(c.core, row.core), row).core)
  {
    SharedColumns(rows);
    RefsGrow(rows, row);
    LagBegins(Cores(rows), row.core);
  }

  lemma {:induction false} SpoilStays(checkContinuity: bool, lastBlock: Option<u64>, c: WorkerColumns, row: WorkerRow)
    requires Lagging(c.core) && row.core.id.firstBlock <= row.core.id.lastBlock
    ensures Lagging(PushWorker(checkContinuity, lastBlock, c, row).columns.core)
  {
    LagStays(checkContinuity, lastBlock, c.core, row.core);
  }

  /** A row reaches the columns: they stay those of the accepted list, or lag. */
  lemma {:induction false} PushMatches(checkContinuity: bool, rows: seq<WorkerRow>, row: WorkerRow)
    requires WorkerFits(rows) && 0 <= Span(row.core.id) && Acceptable(checkContinuity, rows, row)
    ensures var p := PushWorker(checkContinuity, LastBlockOf(rows), ColumnsOf(rows), row);
            ColumnsAre(p.columns, p.lastBlock, !ListFits(rows + [row]), rows + [row])
  {
    if ListFits(rows + [row]) {
      ColumnsGrow(rows, row);
      PushWrites(checkContinuity, LastBlockOf(rows), ColumnsOf(rows), row);
    } else {
      SpoilBegins(rows, row);
    }
  }

  lemma {:induction false} PushStages(
    checkContinuity: bool, lastBlock: Option<u64>, columns: WorkerColumns, d: Dataset, c: Listed)
    requires ColumnsAre(columns, lastBlock, d.spoiled, Rows(d.chunks))
    requires c.row.core.id.firstBlock <= c.row.core.id.lastBlock
    ensures var p := PushWorker(checkContinuity, lastBlock, columns, c.row);
            var d1 := if Acceptable(checkContinuity, Rows(d.chunks), c.row) then Grown(d, c) else d;
            ColumnsAre(p.columns, p.lastBlock, d1.spoiled, Rows(d1.chunks))
  {
    if d.spoiled {
      SpoilStays(checkContinuity, lastBlock, columns, c.row);
    } else if Acceptable(checkContinuity, Rows(d.chunks), c.row) {
      RowsGrow(d.chunks, c);
      PushMatches(checkContinuity, Rows(d.chunks), c.row);
    }
  }

  /** What finishing an open chunk does to the builder, and to the dataset it stages. */
  lemma {:induction false} ChunkStages(b: S.Builder, d: Dataset, draft: IdealDraft)
    requires ColumnsAre(b.columns, b.lastBlock, d.spoiled, Rows(d.chunks)) && b.currentGenerations == d.generations
    requires b.stagedWorkerIndexes == draft.workers && b.stagedTablesPresent == draft.bitmap
    requires S.ValidDraft(DraftOf(draft)) && draft.blockRange.Some? && draft.size.Some?
    ensures var b1 := S.FinishChunk(b, DraftOf(draft)).0;
            var d1 := AfterChunk(b.checkContinuity, b.writeSchemas, d, draft);
            && b1 == b.(columns := b1.columns, lastBlock := b1.lastBlock)
            && ColumnsAre(b1.columns, b1.lastBlock, d1.spoiled, Rows(d1.chunks))
  {
    ObjectionIff(b.writeSchemas, d.generations, draft);
    if Stageable(b.writeSchemas, d.generations, draft) {
      PushStages(b.checkContinuity, b.lastBlock, b.columns, d, Listed(RowFrom(draft), draft.tables));
    }
  }

  lemma {:induction false} FinishChunkRefines(s: Session, a: Ideal)
    requires Refines(s, a) && Enabled(s, FinishChunk) && IdealEnabled(a, FinishChunk)
    ensures Refines(CloseChunk(s), IdealCloseChunk(a))
  {
    ChunkStages(s.b, a.cur.value, a.draft.value);
    RefinesNext(s, a, S.FinishChunk(s.b, s.draft.value).0,
                AfterChunk(a.checkContinuity, a.schemas, a.cur.value, a.draft.value));
  }

  /** Only the columns and the open dataset move, and they still match. */
  lemma RefinesNext(s: Session, a: Ideal, b: S.Builder, d: Dataset)
    requires Refines(s, a) && a.cur.Some? && b == s.b.(columns := b.columns, lastBlock := b.lastBlock)
    requires d == a.cur.value.(chunks := d.chunks, spoiled := d.spoiled)
    requires ColumnsAre(b.columns, b.lastBlock, d.spoiled, Rows(d.chunks))
    ensures Refines(s.(b := b, draft := None), a.(cur := Some(d), draft := None))
  {
  }

  lemma ChunkKeepsSound(schemas: map<u32, seq<string>>, d: Dataset, c: Listed)
    requires DatasetSound(schemas, d) && Resolved(schemas, d.generations, c) && WorkerFits(Rows(d.chunks + [c]))
    ensures DatasetSound(schemas, d.(chunks := d.chunks + [c]))
  {
  }

  lemma {:induction false} AfterChunkSound(
    checkContinuity: bool, schemas: map<u32, seq<string>>, d: Dataset, draft: IdealDraft)
    requires DatasetSound(schemas, d) && DraftSound(schemas, draft)
    requires draft.size.Some?
    ensures DatasetSound(schemas, AfterChunk(checkContinuity, schemas, d, draft))
  {
    match Finished(checkContinuity, schemas, d, draft)
    case None =>
    case Some(c) =>
      assert Resolved(schemas, d.generations, c);
      RowsGrow(d.chunks, c);
      if ListFits(Rows(d.chunks) + [c.row]) {
        FitsGrow(Rows(d.chunks), c.row);
        ChunkKeepsSound(schemas, d, c);
      }
  }

  lemma {:induction false} FinishWhole(b: S.Builder, d: Dataset)
    requires !d.spoiled && d.chunks != [] && ColumnsAre(b.columns, b.lastBlock, false, Rows(d.chunks))
    requires b.currentGenerations == d.generations
    ensures S.LastBlockSet(b)
    ensures S.FinishDataset(b, d.id, d.baseUrl).0 == S.Discard(b).(allDatasets := b.allDatasets + [Published(d)])
    ensures Emitted(Published(d), d)
  {
    var rows := Rows(d.chunks);
    SharedColumns(rows);
    StagedRunsPass(Cores(rows));
    WorkerRoundTrip(d.id, d.baseUrl, d.generations, rows, LastBlockOf(rows).value, 0);
  }

  lemma {:induction false} FinishSpoiled(b: S.Builder, d: Dataset)
    requires d.spoiled && Lagging(b.columns.core) && S.LastBlockSet(b) && b.currentGenerations == d.generations
    ensures var e := EmitWorker(d.id, d.baseUrl, b.currentGenerations, b.columns, b.lastBlock.value);
            && S.FinishDataset(b, d.id, d.baseUrl).0 == S.Discard(b).(allDatasets := b.allDatasets + [e])
            && Emitted(e, d)
  {
    LagIsRejected(b.columns.core, b.lastBlock.value);
  }

  lemma PublishedGrows(emitted: seq<WorkerDataset>, done: seq<Dataset>, e: WorkerDataset, d: Dataset)
    requires AllPublished(emitted, done) && Emitted(e, d)
    ensures AllPublished(emitted + [e], done + [d])
  {
  }

  lemma {:induction false} FinishDatasetRefines(s: Session, a: Ideal)
    requires Refines(s, a) && Enabled(s, FinishDataset) && IdealEnabled(a, FinishDataset)
    ensures Refines(Step(s, FinishDataset), IdealStep(a, FinishDataset))
  {
    var d := a.cur.value;
    if d.spoiled {
      FinishSpoiled(s.b, d);
      var e := EmitWorker(d.id, d.baseUrl, s.b.currentGenerations, s.b.columns, s.b.lastBlock.value);
      PublishedGrows(s.b.allDatasets, a.done, e, d);
    } else if d.chunks != [] {
      FinishWhole(s.b, d);
      PublishedGrows(s.b.allDatasets, a.done, Published(d), d);
    } else {
      assert Rows(d.chunks) == [] && s.b.columns.core.firstBlocks == [];
    }
  }

  lemma GrowingSchemasKeepSound(a: Ideal, schema: u32, tables: seq<string>)
    requires Sound(a) && a.cur.None? && a.draft.None?
    ensures Sound(a.(schemas := AddSchema(a.schemas, schema, tables)))
  {
  }

  lemma GrowingGenerationsKeepSound(schemas: map<u32, seq<string>>, d: Dataset, version: u32, prefix: string)
    requires DatasetSound(schemas, d)
    ensures DatasetSound(schemas, AddGeneration(d, version, prefix))
  {
  }

  lemma SchemaRefines(s: Session, a: Ideal, schema: u32, tables: seq<string>)
    requires Refines(s, a)
    ensures Refines(s.(b := S.RegisterSchema(s.b, schema, tables).0),
                    a.(schemas := AddSchema(a.schemas, schema, tables)))
  {
  }

  lemma GenerationRefines(s: Session, a: Ideal, version: u32, prefix: string)
    requires Refines(s, a) && a.cur.Some?
    ensures Refines(s.(b := S.RegisterGeneration(s.b, version, prefix).0),
                    a.(cur := Some(AddGeneration(a.cur.value, version, prefix))))
  {
  }

  /** Opening starts from nothing staged; dropping goes back to it. */
  lemma OpenDropRefines(s: Session, a: Ideal, op: Op)
    requires op.OpenDataset? || op.DropDataset?
    requires Refines(s, a) && Enabled(s, op) && IdealEnabled(a, op)
    ensures Refines(Step(s, op), IdealStep(a, op))
  {
  }

  /** The calls on an open chunk touch the draft and its two buffers only. */
  lemma {:induction false} DraftStepRefines(s: Session, a: Ideal, op: Op)
    requires OnDraft(op) && Refines(s, a) && Enabled(s, op) && IdealEnabled(a, op)
    ensures Refines(DraftStep(s, op), IdealDraftStep(a, op))
  {
    var s1, a1 := DraftStep(s, op), IdealDraftStep(a, op);
    assert s1.open == s.open && a1.cur == a.cur && a1.done == a.done;
    assert StagedIs(s1.open, s1.b.columns, s1.b.lastBlock, s1.b.currentGenerations, a1.cur);
  }

  /** Every call, accepted or rejected, takes matching states to matching states. */
  lemma {:induction false} StepRefines(s: Session, a: Ideal, op: Op)
    requires Refines(s, a) && Sound(a) && Enabled(s, op) && IdealEnabled(a, op)
    ensures Refines(Step(s, op), IdealStep(a, op))
  {
    if op.FinishChunk? {
      FinishChunkRefines(s, a);
    } else if op.FinishDataset? {
      FinishDatasetRefines(s, a);
    } else if op.RegisterSchema? {
      SchemaRefines(s, a, op.schema, op.tables);
    } else if op.RegisterGeneration? {
      GenerationRefines(s, a, op.version, op.prefix);
    } else if op.OpenDataset? || op.DropDataset? {
      OpenDropRefines(s, a, op);
    } else {
      DraftStepRefines(s, a, op);
    }
  }

  lemma DraftStepSound(a: Ideal, op: Op)
    requires OnDraft(op) && Sound(a) && IdealEnabled(a, op)
    requires op.Set? && op.chunkId.Some? ==> Valid(op.chunkId.value)
    ensures Sound(IdealDraftStep(a, op))
  {
  }

  lemma {:induction false} StepSound(a: Ideal, op: Op)
    requires Sound(a) && IdealEnabled(a, op)
    requires op.Set? && op.chunkId.Some? ==> Valid(op.chunkId.value)
    ensures Sound(IdealStep(a, op))
  {
    if OnDraft(op) {
      DraftStepSound(a, op);
    } else {
      match op
      case RegisterSchema(schema, tables) => GrowingSchemasKeepSound(a, schema, tables);
      case RegisterGeneration(version, prefix) => GrowingGenerationsKeepSound(a.schemas, a.cur.value, version, prefix);
      case FinishChunk => AfterChunkSound(a.checkContinuity, a.schemas, a.cur.value, a.draft.value);
      case _ =>
    }
  }

  // ----- runs -----

  ghost predicate Legal(s: Session, ops: seq<Op>)
    decreases |ops|
  {
    ops != [] ==> Enabled(s, ops[0]) && Legal(Step(s, ops[0]), ops[1..])
  }

  ghost function Run(s: Session, ops: seq<Op>): Session
    requires Legal(s, ops)
    decreases |ops|
  {
    if ops == [] then s else Run(Step(s, ops[0]), ops[1..])
  }

  predicate IdealLegal(a: Ideal, ops: seq<Op>)
    decreases |ops|
  {
    ops != [] ==> IdealEnabled(a, ops[0]) && IdealLegal(IdealStep(a, ops[0]), ops[1..])
  }

  function IdealRun(a: Ideal, ops: seq<Op>): Ideal
    requires IdealLegal(a, ops)
    decreases |ops|
  {
    if ops == [] then a else IdealRun(IdealStep(a, ops[0]), ops[1..])
  }

  lemma {:induction false} RunRefines(s: Session, a: Ideal, ops: seq<Op>)
    requires Refines(s, a) && Sound(a) && Legal(s, ops)
    ensures IdealLegal(a, ops) && Refines(Run(s, ops), IdealRun(a, ops)) && Sound(IdealRun(a, ops))
    decreases |ops|
  {
    if ops != [] {
      EnabledAlike(s, a, ops[0]);
      StepRefines(s, a, ops[0]);
      StepSound(a, ops[0]);
      RunRefines(Step(s, ops[0]), IdealStep(a, ops[0]), ops[1..]);
    }
  }

  /**
   * The theorem of the builder: after any run, the assignment holds exactly the finished datasets in
   * order. Each is as if it had been built alone, unless a chunk took its worker list past u32: those
   * are exactly the ones the reader rejects. Between datasets the staging state is pristine.
   */
  lemma {:induction false} SessionRefinement(checkContinuity: bool, ops: seq<Op>)
    requires Legal(Start(checkContinuity), ops)
    ensures IdealLegal(IdealStart(checkContinuity), ops)
    ensures var s, a := Run(Start(checkContinuity), ops), IdealRun(IdealStart(checkContinuity), ops);
            && AllPublished(s.b.allDatasets, a.done)
            && (s.open.None? ==>
                  s.b.columns == NO_COLUMNS && s.b.lastBlock.None? && s.b.currentGenerations == map[])
  {
    RunRefines(Start(checkContinuity), IdealStart(checkContinuity), ops);
  }

  /** What the reader makes of chunk `j`, tables aside: the staged row, and every reference in it resolved. */
  ghost predicate Resolves(schemas: map<u32, seq<string>>, d: WorkerDataset, j: nat, from: Dataset)
    requires j < |from.chunks|
  {
    var c := from.chunks[j];
    var version := c.row.core.version;
    && WorkerAccepted(d) && j < |d.data.firstBlocks|
    && ReadWorkerRow(d, j) == c.row.(bitmap := ReadWorkerRow(d, j).bitmap)
    && (version == 0 || version in from.generations)
    && (version != 0 ==> GetGeneration(d, version) == Some(from.generations[version]))
    && Valid(c.row.core.id) && Id(d, j) == Some(Display(c.row.core.id))
    && Url(d, j) == Some(FilesUrl(from.baseUrl, from.generations, version, Display(c.row.core.id)))
    && c.row.writeSchemaId in schemas
  }

  /** The whole row comes back, and the tables it lists. */
  ghost predicate Reads(schemas: map<u32, seq<string>>, d: WorkerDataset, j: nat, from: Dataset)
    requires j < |from.chunks|
  {
    var c := from.chunks[j];
    && Resolves(schemas, d, j, from)
    && ReadWorkerRow(d, j) == c.row
    && ChunkTables(schemas, d, j)
       == Some(match c.tables case None => schemas[c.row.writeSchemaId] case Some(listed) => listed)
  }

  lemma {:induction false} ChunkResolves(schemas: map<u32, seq<string>>, dataset: Dataset, j: nat)
    requires DatasetSound(schemas, dataset) && j < |dataset.chunks|
    ensures Resolves(schemas, Published(dataset), j, dataset)
  {
    var rows, c := Rows(dataset.chunks), dataset.chunks[j];
    var last := LastBlockOf(rows).value;
    assert Resolved(schemas, dataset.generations, c) && rows[j] == c.row;
    WorkerRoundTrip(dataset.id, dataset.baseUrl, dataset.generations, rows, last, j);
    UrlRoundTrip(dataset.id, dataset.baseUrl, dataset.generations, rows, last, j);
  }

  lemma {:induction false} ChunkReads(schemas: map<u32, seq<string>>, dataset: Dataset, j: nat)
    requires DatasetSound(schemas, dataset) && j < |dataset.chunks| && BitmapReached(Rows(dataset.chunks), j)
    ensures Reads(schemas, Published(dataset), j, dataset)
  {
    var rows, c := Rows(dataset.chunks), dataset.chunks[j];
    ChunkResolves(schemas, dataset, j);
    assert Resolved(schemas, dataset.generations, c) && rows[j] == c.row;
    WorkerRoundTrip(dataset.id, dataset.baseUrl, dataset.generations, rows, LastBlockOf(rows).value, j);
    if c.tables.Some? {
      Tables.TablesRoundTrip(schemas[c.row.writeSchemaId], c.tables.value);
    }
  }

  /**
   * After any run, every reference of every chunk of every accepted dataset resolves, and the chunk
   * reads back whole where its bitmap column reaches.
   */
  lemma {:induction false} EveryReferenceResolves(checkContinuity: bool, ops: seq<Op>)
    requires Legal(Start(checkContinuity), ops)
    ensures IdealLegal(IdealStart(checkContinuity), ops)
    ensures var s, a := Run(Start(checkContinuity), ops), IdealRun(IdealStart(checkContinuity), ops);
            && |s.b.allDatasets| == |a.done|
            && forall i: nat, j: nat ::
                 i < |a.done| && WorkerAccepted(s.b.allDatasets[i]) && j < |a.done[i].chunks| ==>
                   && Resolves(s.b.writeSchemas, s.b.allDatasets[i], j, a.done[i])
                   && (BitmapReached(Rows(a.done[i].chunks), j) ==>
                         Reads(s.b.writeSchemas, s.b.allDatasets[i], j, a.done[i]))
  {
    RunRefines(Start(checkContinuity), IdealStart(checkContinuity), ops);
    var s, a := Run(Start(checkContinuity), ops), IdealRun(IdealStart(checkContinuity), ops);
    forall i: nat, j: nat | i < |a.done| && WorkerAccepted(s.b.allDatasets[i]) && j < |a.done[i].chunks|
      ensures Resolves(s.b.writeSchemas, s.b.allDatasets[i], j, a.done[i])
      ensures BitmapReached(Rows(a.done[i].chunks), j) ==> Reads(s.b.writeSchemas, s.b.allDatasets[i], j, a.done[i])
    {
      assert Emitted(s.b.allDatasets[i], a.done[i]);
      ChunkResolves(s.b.writeSchemas, a.done[i], j);
      if BitmapReached(Rows(a.done[i].chunks), j) {
        ChunkReads(s.b.writeSchemas, a.done[i], j);
      }
    }
  }

  /** The dataset is accepted and every chunk of it reads back whole. */
  ghost predicate ReadsWhole(schemas: map<u32, seq<string>>, e: WorkerDataset, d: Dataset) {
    WorkerAccepted(e) && forall j: nat :: j < |d.chunks| ==> Reads(schemas, e, j, d)
  }

  lemma {:induction false} PublishedReads(schemas: map<u32, seq<string>>, d: Dataset, j: nat)
    requires DatasetSound(schemas, d) && j < |d.chunks| && BitmapBytes(Rows(d.chunks)) <= U32_MAX
    ensures Reads(schemas, Published(d), j, d)
  {
    BytesOfPrefix(Rows(d.chunks), j + 1);
    ChunkReads(schemas, d, j);
  }

  lemma {:induction false} PublishedMisreads(schemas: map<u32, seq<string>>, d: Dataset) returns (j: nat)
    requires WorkerFits(Rows(d.chunks)) && d.chunks != [] && BitmapBytes(Rows(d.chunks)) > U32_MAX
    ensures j < |d.chunks| && !Reads(schemas, Published(d), j, d)
  {
    var rows := Rows(d.chunks);
    j := MisreadRow(d.id, d.baseUrl, d.generations, rows, LastBlockOf(rows).value);
    assert rows[j] == d.chunks[j].row;
  }

  lemma {:induction false} PublishedReadsIff(schemas: map<u32, seq<string>>, d: Dataset)
    requires DatasetSound(schemas, d) && d.chunks != [] && WorkerAccepted(Published(d))
    ensures ReadsWhole(schemas, Published(d), d) <==> BitmapBytes(Rows(d.chunks)) <= U32_MAX
  {
    if BitmapBytes(Rows(d.chunks)) <= U32_MAX {
      forall j: nat | j < |d.chunks| ensures Reads(schemas, Published(d), j, d) {
        PublishedReads(schemas, d, j);
      }
    } else {
      var j := PublishedMisreads(schemas, d);
    }
  }

  /**
   * After any run, a dataset reads back whole if and only if no chunk took its worker list past u32 and
   * u32 counts the bytes of its bitmaps. Past that the reader accepts it and misreads a bitmap.
   */
  lemma {:induction false} ReadsWholeIff(checkContinuity: bool, ops: seq<Op>, i: nat)
    requires Legal(Start(checkContinuity), ops) && i < |Run(Start(checkContinuity), ops).b.allDatasets|
    ensures IdealLegal(IdealStart(checkContinuity), ops)
    ensures var s, a := Run(Start(checkContinuity), ops), IdealRun(IdealStart(checkContinuity), ops);
            && |s.b.allDatasets| == |a.done|
            && var d := a.done[i];
               && (WorkerAccepted(s.b.allDatasets[i]) <==> !d.spoiled)
               && (ReadsWhole(s.b.writeSchemas, s.b.allDatasets[i], d)
                   <==> !d.spoiled && BitmapBytes(Rows(d.chunks)) <= U32_MAX)
  {
    RunRefines(Start(checkContinuity), IdealStart(checkContinuity), ops);
    var s, a := Run(Start(checkContinuity), ops), IdealRun(IdealStart(checkContinuity), ops);
    assert Emitted(s.b.allDatasets[i], a.done[i]);
    if !a.done[i].spoiled {
      PublishedReadsIff(s.b.writeSchemas, a.done[i]);
    }
  }

  function Ids(datasets: seq<WorkerDataset>): seq<string> {
    seq(|datasets|, i requires 0 <= i < |datasets| => datasets[i].id)
  }

  function FinishedIds(done: seq<Dataset>): seq<string> {
    seq(|done|, i requires 0 <= i < |done| => done[i].id)
  }

  lemma {:induction false} IdsKept(emitted: seq<WorkerDataset>, done: seq<Dataset>)
    requires AllPublished(emitted, done)
    ensures Ids(emitted) == FinishedIds(done)
  {
    forall i | 0 <= i < |done| ensures emitted[i].id == done[i].id {
      assert Emitted(emitted[i], done[i]);
    }
  }

  /** After any run every finished dataset is found by its id exactly when they were finished in order of id. */
  lemma {:induction false} FinishedAreFoundIff(checkContinuity: bool, ops: seq<Op>)
    requires Legal(Start(checkContinuity), ops)
    ensures IdealLegal(IdealStart(checkContinuity), ops)
    ensures var s, a := Run(Start(checkContinuity), ops), IdealRun(IdealStart(checkContinuity), ops);
            && Ids(s.b.allDatasets) == FinishedIds(a.done)
            && (AllFound(Ids(s.b.allDatasets)) <==> Tables.Ascending(FinishedIds(a.done)))
  {
    RunRefines(Start(checkContinuity), IdealStart(checkContinuity), ops);
    var s, a := Run(Start(checkContinuity), ops), IdealRun(IdealStart(checkContinuity), ops);
    IdsKept(s.b.allDatasets, a.done);
    FoundIffAscending(Ids(s.b.allDatasets));
  }
}
