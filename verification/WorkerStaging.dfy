/** The worker assignment builder as a value: what each call does to the fields it owns. */
module WorkerStaging {
  import opened Words
  import opened ChunkId
  import opened Columns
  import opened WorkerFormat
  import Tables

  datatype Error =
    | UnsortedRoster | RosterChanged
    | VersionZero | GenerationChanged
    | NoSchemaId | UnknownSchema | UnknownTable
    | NoId | IdDisagrees | UnknownGeneration | BitmapOfOtherSchema
    | Staging(cause: PushError)
    | NoChunks | BadTopRuns

  type Outcome = Result<(), Error>

  datatype Builder = Builder(
    checkContinuity: bool,
    lastBlock: Option<u64>,
    allDatasets: seq<WorkerDataset>,
    writeSchemas: map<u32, seq<string>>,
    currentGenerations: map<u32, string>,
    columns: WorkerColumns,
    stagedWorkerIndexes: seq<u16>,
    stagedTablesPresent: seq<bv8>)

  function RegisterSchema(b: Builder, schema: u32, tables: seq<string>): (Builder, Outcome) {
    if !Tables.Ascending(tables) then (b, Err(UnsortedRoster))
    else if schema !in b.writeSchemas then (b.(writeSchemas := b.writeSchemas[schema := tables]), Ok(()))
    else (b, if b.writeSchemas[schema] == tables then Ok(()) else Err(RosterChanged))
  }

  function RegisterGeneration(b: Builder, version: u32, baseUrl: string): (Builder, Outcome) {
    if version == 0 then (b, Err(VersionZero))
    else if version !in b.currentGenerations
    then (b.(currentGenerations := b.currentGenerations[version := baseUrl]), Ok(()))
    else (b, if b.currentGenerations[version] == baseUrl then Ok(()) else Err(GenerationChanged))
  }

  function Discard(b: Builder): Builder {
    b.(columns := NO_COLUMNS, lastBlock := None, currentGenerations := map[])
  }

  /** Staged chunks have set `last_block`; only a worker list beyond u32 can leave it unset. */
  predicate LastBlockSet(b: Builder) { b.columns.core.firstBlocks != [] ==> b.lastBlock.Some? }

  function EmitDataset(b: Builder, id: string, baseUrl: string): (Builder, Outcome)
    requires LastBlockSet(b)
  {
    if b.columns.core.firstBlocks == [] then (b, Err(NoChunks))
    else if !TopRunsOk(b.columns.core.tops) then (b, Err(BadTopRuns))
    else
      var d := EmitWorker(id, baseUrl, b.currentGenerations, b.columns, b.lastBlock.value);
      (Discard(b).(allDatasets := b.allDatasets + [d]), Ok(()))
  }

  /** A rejected dataset is discarded, so nothing of it reaches the next one. */
  function FinishDataset(b: Builder, id: string, baseUrl: string): (Builder, Outcome)
    requires LastBlockSet(b)
  {
    var (b', outcome) := EmitDataset(b, id, baseUrl);
    (if outcome.Err? then Discard(b') else b', outcome)
  }

  function NewChunk(b: Builder): Builder { b.(stagedWorkerIndexes := [], stagedTablesPresent := []) }

  /** The open chunk's own fields; `tablesPresent` is the schema its bitmap was encoded against. */
  datatype Draft = Draft(
    blockRange: Option<(u64, u64)>,
    id: Option<DataChunk>,
    size: Option<u32>,
    version: u32,
    writeSchemaId: Option<u32>,
    tablesPresent: Option<u32>)

  const NO_DRAFT := Draft(None, None, None, 0, None, None)

  ghost predicate ValidDraft(draft: Draft) { draft.id.Some? ==> Valid(draft.id.value) }

  /** On an unknown table the staged bitmap keeps the bits set so far. */
  function SetTables(b: Builder, draft: Draft, tables: seq<string>): (Builder, Result<Draft, Error>) {
    match draft.writeSchemaId
    case None => (b, Err(NoSchemaId))
    case Some(schema) =>
      if schema !in b.writeSchemas then (b, Err(UnknownSchema)) else
      var m := Tables.TablesPresent(b.writeSchemas[schema], tables);
      (b.(stagedTablesPresent := m.bits),
       if m.ok then Ok(draft.(tablesPresent := Some(schema))) else Err(UnknownTable))
  }

  /** What `finish` finds wrong with a chunk before staging it. */
  function Objection(schemas: map<u32, seq<string>>, generations: map<u32, string>, draft: Draft): Option<Error>
    requires draft.blockRange.Some?
  {
    if draft.id.None? then Some(NoId)
    else if (draft.id.value.firstBlock, draft.id.value.lastBlock) != draft.blockRange.value then Some(IdDisagrees)
    else if draft.writeSchemaId.None? then Some(NoSchemaId)
    else if draft.writeSchemaId.value !in schemas then Some(UnknownSchema)
    else if draft.version != 0 && draft.version !in generations then Some(UnknownGeneration)
    else if draft.tablesPresent.Some? && draft.tablesPresent != draft.writeSchemaId then Some(BitmapOfOtherSchema)
    else None
  }

  function RowOf(draft: Draft, workers: seq<u16>, bitmap: seq<bv8>): WorkerRow
    requires draft.id.Some? && draft.size.Some? && draft.writeSchemaId.Some?
  {
    WorkerRow(Row(draft.id.value, draft.version, workers), draft.size.value, draft.writeSchemaId.value, bitmap)
  }

  function PushChunk(b: Builder, row: WorkerRow): (Builder, Outcome)
    requires row.core.id.firstBlock <= row.core.id.lastBlock
  {
    var p := PushWorker(b.checkContinuity, b.lastBlock, b.columns, row);
    (b.(columns := p.columns, lastBlock := p.lastBlock),
     match p.outcome case Ok(_) => Ok(()) case Err(e) => Err(Staging(e)))
  }

  function FinishChunk(b: Builder, draft: Draft): (Builder, Outcome)
    requires draft.blockRange.Some? && draft.size.Some? && ValidDraft(draft)
  {
    match Objection(b.writeSchemas, b.currentGenerations, draft)
    case Some(e) => (b, Err(e))
    case None => PushChunk(b, RowOf(draft, b.stagedWorkerIndexes, b.stagedTablesPresent))
  }
}
