/** The builder of the portal-facing assignment and the dataset and chunk builders it lends itself to. */
module PortalBuilder {
  import opened Words
  import opened ChunkId
  import opened Columns
  import opened PortalFormat
  import opened S = PortalStaging
  import WorkerBuilder

  class PortalAssignmentBuilder {
    const checkContinuity: bool
    var lastBlock: Option<u64>
    var allDatasets: seq<PortalDataset>
    var columns: PortalColumns
    var stagedWorkerIndexes: seq<u16>

    function View(): Builder
      reads this
    {
      Builder(checkContinuity, lastBlock, allDatasets, columns, stagedWorkerIndexes)
    }

    constructor (checkContinuity: bool)
      ensures View() == Builder(checkContinuity, None, [], NO_COLUMNS, [])
    {
      this.checkContinuity := checkContinuity;
      lastBlock := None;
      allDatasets := [];
      columns := NO_COLUMNS;
      stagedWorkerIndexes := [];
    }

    /** Forgets everything staged for the open dataset, so the next one starts clean. */
    method DiscardDataset()
      modifies this
      ensures View() == Discard(old(View()))
    {
      columns := NO_COLUMNS;
      lastBlock := None;
    }

    method EmitDataset(id: string, readSchemaId: u32, lastBlockHash: Option<string>) returns (r: Outcome)
      requires LastBlockSet(View())
      modifies this
      ensures (View(), r) == S.EmitDataset(old(View()), id, readSchemaId, lastBlockHash)
    {
      if |columns.core.firstBlocks| == 0 {
        return Err(NoChunks);
      }
      var runsOk := WorkerBuilder.CheckTopRuns(columns.core.tops);
      if !runsOk {
        return Err(BadTopRuns);
      }
      var taken := columns;
      columns := NO_COLUMNS;
      var versions := if AnyNonZero(taken.core.versions) then Some(taken.core.versions) else None;
      var workerOffsets := [0] + taken.core.workerEnds;
      var data := Data(lastBlock.value, taken.core.firstBlocks, taken.core.blockDeltas, taken.core.hashes,
                       taken.core.tops, versions, workerOffsets, taken.core.workerIndexes);
      lastBlock := None;
      allDatasets := allDatasets + [PortalDataset(id, readSchemaId, lastBlockHash, data, taken.timestamps)];
      return Ok(());
    }

    /** Appends one row across every column, error exits included. */
    method PushChunk(id: DataChunk, version: u32, timestamp: u64) returns (r: Outcome)
      requires Valid(id)
      modifies this
      ensures (View(), r) == S.PushChunk(old(View()), PortalRow(Row(id, version, stagedWorkerIndexes), timestamp))
    {
      var gap := !(lastBlock.None? || WrapAdd64(lastBlock.value, 1) == id.firstBlock);
      if gap && checkContinuity {
        return Err(Staging(Gap));
      }
      if |columns.core.firstBlocks| > U32_MAX {
        return Err(Staging(TooManyChunks));
      }
      if id.lastBlock - id.firstBlock > U32_MAX {
        return Err(Staging(SpanTooWide));
      }
      var core, fits := AppendRow(columns.core, Row(id, version, stagedWorkerIndexes));
      columns := PortalColumns(core, columns.timestamps + [timestamp]);
      if !fits {
        return Err(Staging(TooManyWorkers));
      }
      lastBlock := Some(id.lastBlock);
      return if gap then Err(Staging(Gap)) else Ok(());
    }
  }

  /** One dataset, open until finished or dropped. */
  class PortalDatasetBuilder {
    const p: PortalAssignmentBuilder
    const id: string
    const readSchemaId: u32
    var emitted: bool

    constructor (p: PortalAssignmentBuilder, id: string, readSchemaId: u32)
      ensures this.p == p && this.id == id && this.readSchemaId == readSchemaId && !emitted
    {
      this.p, this.id, this.readSchemaId, emitted := p, id, readSchemaId, false;
    }

    method Finish(lastBlockHash: Option<string>) returns (r: Outcome)
      requires LastBlockSet(p.View())
      modifies this, p
      ensures emitted && (p.View(), r) == FinishDataset(old(p.View()), id, readSchemaId, lastBlockHash)
    {
      emitted := true;
      r := p.EmitDataset(id, readSchemaId, lastBlockHash);
      if r.Err? {
        p.DiscardDataset();
      }
    }

    /** The destructor: cleans up only after a dataset that was never emitted. */
    method Drop()
      modifies p
      ensures p.View() == if emitted then old(p.View()) else Discard(old(p.View()))
    {
      if !emitted {
        p.DiscardDataset();
      }
    }
  }

  /** One chunk of the open dataset. Its plain setters assign the fields. */
  class PortalAssignmentChunkBuilder {
    const p: PortalAssignmentBuilder
    var draft: Draft

    constructor (p: PortalAssignmentBuilder)
      modifies p
      ensures this.p == p && draft == NO_DRAFT && p.View() == NewChunk(old(p.View()))
    {
      this.p, draft := p, NO_DRAFT;
      new;
      p.stagedWorkerIndexes := [];
    }

    method WorkerIndexes(indexes: seq<u16>)
      modifies p
      ensures p.View() == old(p.View()).(stagedWorkerIndexes := indexes)
    {
      p.stagedWorkerIndexes := indexes;
    }

    method Finish() returns (r: Outcome)
      requires draft.blockRange.Some? && ValidDraft(draft)
      modifies p
      ensures (p.View(), r) == FinishChunk(old(p.View()), draft)
    {
      var blockRange := draft.blockRange.value;
      if draft.id.None? {
        return Err(NoId);
      }
      var id := draft.id.value;
      if !(id.firstBlock == blockRange.0 && id.lastBlock == blockRange.1) {
        return Err(IdDisagrees);
      }
      r := p.PushChunk(id, draft.version, draft.timestamp);
    }
  }
}
