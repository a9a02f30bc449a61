/** The portal assignment builder as a value: what each call does to the fields it owns. */
module PortalStaging {
  import opened Words
  import opened ChunkId
  import opened Columns
  import opened PortalFormat

  datatype Error = NoId | IdDisagrees | Staging(cause: PushError) | NoChunks | BadTopRuns

  type Outcome = Result<(), Error>

  datatype Builder = Builder(
    checkContinuity: bool,
    lastBlock: Option<u64>,
    allDatasets: seq<PortalDataset>,
    columns: PortalColumns,
    stagedWorkerIndexes: seq<u16>)

  function Discard(b: Builder): Builder { b.(columns := NO_COLUMNS, lastBlock := None) }

  /** Staged chunks have set `last_block`; only a worker list beyond u32 can leave it unset. */
  predicate LastBlockSet(b: Builder) { b.columns.core.firstBlocks != [] ==> b.lastBlock.Some? }

  function EmitDataset(b: Builder, id: string, schema: u32, hash: Option<string>): (Builder, Outcome)
    requires LastBlockSet(b)
  {
    if b.columns.core.firstBlocks == [] then (b, Err(NoChunks))
    else if !TopRunsOk(b.columns.core.tops) then (b, Err(BadTopRuns))
    else
      var d := EmitPortal(id, schema, hash, b.columns, b.lastBlock.value);
      (Discard(b).(allDatasets := b.allDatasets + [d]), Ok(()))
  }

  function FinishDataset(b: Builder, id: string, schema: u32, hash: Option<string>): (Builder, Outcome)
    requires LastBlockSet(b)
  {
    var (b', outcome) := EmitDataset(b, id, schema, hash);
    (if outcome.Err? then Discard(b') else b', outcome)
  }

  function NewChunk(b: Builder): Builder { b.(stagedWorkerIndexes := []) }

  datatype Draft = Draft(blockRange: Option<(u64, u64)>, id: Option<DataChunk>, version: u32, timestamp: u64)

  const NO_DRAFT := Draft(None, None, 0, 0)

  ghost predicate ValidDraft(draft: Draft) { draft.id.Some? ==> Valid(draft.id.value) }

  function Objection(draft: Draft): Option<Error>
    requires draft.blockRange.Some?
  {
    if draft.id.None? then Some(NoId)
    else if (draft.id.value.firstBlock, draft.id.value.lastBlock) != draft.blockRange.value then Some(IdDisagrees)
    else None
  }

  function RowOf(draft: Draft, workers: seq<u16>): PortalRow
    requires draft.id.Some?
  {
    PortalRow(Row(draft.id.value, draft.version, workers), draft.timestamp)
  }

  function PushChunk(b: Builder, row: PortalRow): (Builder, Outcome)
    requires row.core.id.firstBlock <= row.core.id.lastBlock
  {
    var p := PushPortal(b.checkContinuity, b.lastBlock, b.columns, row);
    (b.(columns := p.columns, lastBlock := p.lastBlock),
     match p.outcome case Ok(_) => Ok(()) case Err(e) => Err(Staging(e)))
  }

  function FinishChunk(b: Builder, draft: Draft): (Builder, Outcome)
    requires draft.blockRange.Some? && ValidDraft(draft)
  {
    match Objection(draft)
    case Some(e) => (b, Err(e))
    case None => PushChunk(b, RowOf(draft, b.stagedWorkerIndexes))
  }
}
