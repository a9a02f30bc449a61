/** The builder of the worker-facing assignment and the dataset and chunk builders it lends itself to. */
module WorkerBuilder {
  import opened Words
  import opened ChunkId
  import opened Columns
  import opened WorkerFormat
  import opened S = WorkerStaging
  import Tables

  /** Top runs must start at chunk 0 and strictly ascend. */
  method CheckTopRuns(runs: seq<TopRun>) returns (ok: bool)
    ensures ok <==> TopRunsOk(runs)
  {
    if runs == [] || runs[0].firstChunkIndex != 0 {
      return false;
    }
    for k := 0 to |runs| - 1
      invariant forall j :: 0 <= j < k ==> runs[j].firstChunkIndex < runs[j + 1].firstChunkIndex
    {
      if runs[k].firstChunkIndex >= runs[k + 1].firstChunkIndex {
        return false;
      }
    }
    return true;
  }

  class WorkerAssignmentBuilder {
    const checkContinuity: bool
    var lastBlock: Option<u64>
    var allDatasets: seq<WorkerDataset>
    var writeSchemas: map<u32, seq<string>>
    var currentGenerations: map<u32, string>
    var columns: WorkerColumns
    var stagedWorkerIndexes: seq<u16>
    var stagedTablesPresent: seq<bv8>

    function View(): Builder
      reads this
    {
      Builder(checkContinuity, lastBlock, allDatasets, writeSchemas, currentGenerations, columns,
              stagedWorkerIndexes, stagedTablesPresent)
    }

    constructor (checkContinuity: bool)
      ensures View() == Builder(checkContinuity, None, [], map[], map[], NO_COLUMNS, [], [])
    {
      this.checkContinuity := checkContinuity;
      lastBlock := None;
      allDatasets := [];
      writeSchemas, currentGenerations := map[], map[];
      columns := NO_COLUMNS;
      stagedWorkerIndexes, stagedTablesPresent := [], [];
    }

    method RegisterWriteSchema(schema: u32, tables: seq<string>) returns (r: Outcome)
      modifies this
      ensures (View(), r) == RegisterSchema(old(View()), schema, tables)
    {
      if !Tables.Ascending(tables) {
        return Err(UnsortedRoster);
      }
      if schema in writeSchemas {
        if writeSchemas[schema] != tables {
          return Err(RosterChanged);
        }
      } else {
        writeSchemas := writeSchemas[schema := tables];
      }
      return Ok(());
    }

    /** Forgets everything staged for the open dataset, so the next one starts clean. */
    method DiscardDataset()
      modifies this
      ensures View() == Discard(old(View()))
    {
      columns := NO_COLUMNS;
      lastBlock := None;
      currentGenerations := map[];
    }

    method EmitDataset(id: string, baseUrl: string) returns (r: Outcome)
      requires LastBlockSet(View())
      modifies this
      ensures (View(), r) == S.EmitDataset(old(View()), id, baseUrl)
    {
      if |columns.core.firstBlocks| == 0 {
        return Err(NoChunks);
      }
      var runsOk := CheckTopRuns(columns.core.tops);
      if !runsOk {
        return Err(BadTopRuns);
      }
      var taken := columns;
      columns := NO_COLUMNS;
      var generations := if currentGenerations == map[] then None else Some(currentGenerations);
      var tablesPresentOffsets, tablesPresent := None, None;
      if taken.anyTablesTrimmed {
        tablesPresentOffsets := Some([0] + taken.tablesPresentEnds);
        tablesPresent := Some(taken.tablesPresent);
      }
      var versions := if AnyNonZero(taken.core.versions) then Some(taken.core.versions) else None;
      var workerOffsets := [0] + taken.core.workerEnds;
      var data := Data(lastBlock.value, taken.core.firstBlocks, taken.core.blockDeltas, taken.core.hashes,
                       taken.core.tops, versions, workerOffsets, taken.core.workerIndexes);
      lastBlock := None;
      allDatasets := allDatasets
        + [WorkerDataset(id, baseUrl, generations, data, taken.sizes, taken.writeSchemaIds,
                         tablesPresentOffsets, tablesPresent)];
      currentGenerations := map[];
      return Ok(());
    }

    /** Appends one row across every column, error exits included. */
    method PushChunk(id: DataChunk, size: u32, writeSchemaId: u32, version: u32) returns (r: Outcome)
      requires Valid(id)
      modifies this
      ensures (View(), r) == S.PushChunk(old(View()),
                WorkerRow(Row(id, version, stagedWorkerIndexes), size, writeSchemaId, stagedTablesPresent))
    {
      var gap := !(lastBlock.None? || WrapAdd64(lastBlock.value, 1) == id.firstBlock);
      if gap && checkContinuity {
        return Err(Staging(Gap));
      }
      if |columns.core.firstBlocks| > U32_MAX {
        return Err(Staging(TooManyChunks));
      }
      if id.lastBlock - id.firstBlock > U32_MAX {
        return Err(Staging(SpanTooWide));
      }

      var fits := PushRow(id, size, writeSchemaId, version);
      if !fits {
        return Err(Staging(TooManyWorkers));
      }

      lastBlock := Some(id.lastBlock);
      return if gap then Err(Staging(Gap)) else Ok(());
    }

    /** The pushes onto the columns; `fits` is whether the worker list's end could be recorded. */
    method PushRow(id: DataChunk, size: u32, writeSchemaId: u32, version: u32) returns (fits: bool)
      requires Valid(id) && |columns.core.firstBlocks| <= U32_MAX && Span(id) <= U32_MAX
      modifies this`columns
      ensures var row := Row(id, version, stagedWorkerIndexes);
              var core := Columns.PushRow(old(columns.core), row);
              && columns == PushExtras(old(columns), core, WorkerRow(row, size, writeSchemaId, stagedTablesPresent))
              && (fits <==> |core.workerIndexes| <= U32_MAX)
    {
      var core;
      core, fits := AppendRow(columns.core, Row(id, version, stagedWorkerIndexes));
      columns := columns.(core := core);
      columns := columns.(sizes := columns.sizes + [size]);
      columns := columns.(writeSchemaIds := columns.writeSchemaIds + [writeSchemaId]);
      columns := columns.(anyTablesTrimmed := columns.anyTablesTrimmed || stagedTablesPresent != []);
      PushBitmap(stagedTablesPresent);
    }

    /** An empty bitmap keeps an empty slice, which is how "every table present" travels. */
    method PushBitmap(bits: seq<bv8>)
      modifies this`columns
      ensures columns == old(columns).(
                tablesPresent := old(columns.tablesPresent) + bits,
                tablesPresentEnds := old(columns.tablesPresentEnds)
                                     + [Truncate32(|old(columns.tablesPresent)| + |bits|)])
    {
      columns := columns.(tablesPresent := columns.tablesPresent + bits);
      columns := columns.(tablesPresentEnds := columns.tablesPresentEnds + [Truncate32(|columns.tablesPresent|)]);
    }
  }

  /** One dataset, open until finished or dropped. */
  class WorkerDatasetBuilder {
    const p: WorkerAssignmentBuilder
    const id: string
    const baseUrl: string
    var emitted: bool

    constructor (p: WorkerAssignmentBuilder, id: string, baseUrl: string)
      ensures this.p == p && this.id == id && this.baseUrl == baseUrl && !emitted
    {
      this.p, this.id, this.baseUrl, emitted := p, id, baseUrl, false;
    }

    method RegisterGeneration(version: u32, baseUrl: string) returns (r: Outcome)
      modifies p
      ensures (p.View(), r) == S.RegisterGeneration(old(p.View()), version, baseUrl)
    {
      if version == 0 {
        return Err(VersionZero);
      }
      if version in p.currentGenerations {
        if p.currentGenerations[version] != baseUrl {
          return Err(GenerationChanged);
        }
      } else {
        p.currentGenerations := p.currentGenerations[version := baseUrl];
      }
      return Ok(());
    }

    method Finish() returns (r: Outcome)
      requires LastBlockSet(p.View())
      modifies this, p
      ensures emitted && (p.View(), r) == FinishDataset(old(p.View()), id, baseUrl)
    {
      emitted := true;
      r := p.EmitDataset(id, baseUrl);
      if r.Err? {
        p.DiscardDataset();
      }
    }

    /** The destructor: cleans up only after a dataset that was never emitted. */
    method Drop()
      modifies p
      ensures p.View() == if emitted then old(p.View()) else Discard(old(p.View()))
    {
      if !emitted {
        p.DiscardDataset();
      }
    }
  }

  /** One chunk of the open dataset. Its plain setters assign the fields. */
  class WorkerAssignmentChunkBuilder {
    const p: WorkerAssignmentBuilder
    var draft: Draft

    constructor (p: WorkerAssignmentBuilder)
      modifies p
      ensures this.p == p && draft == NO_DRAFT && p.View() == NewChunk(old(p.View()))
    {
      this.p, draft := p, NO_DRAFT;
      new;
      p.stagedWorkerIndexes := [];
      p.stagedTablesPresent := [];
    }

    method TablesPresent(tables: seq<string>) returns (r: Result<Draft, Error>)
      modifies this, p
      ensures (p.View(), r) == SetTables(old(p.View()), old(draft), tables)
      ensures draft == if r.Ok? then r.value else old(draft)
    {
      match draft.writeSchemaId {
        case None => return Err(NoSchemaId);
        case Some(schema) =>
          if schema !in p.writeSchemas {
            return Err(UnknownSchema);
          }
          var m := Tables.EncodeTables(p.writeSchemas[schema], tables);
          p.stagedTablesPresent := m.bits;
          if !m.ok {
            return Err(UnknownTable);
          }
          draft := draft.(tablesPresent := Some(schema));
          return Ok(draft);
      }
    }

    method WorkerIndexes(indexes: seq<u16>)
      modifies p
      ensures p.View() == old(p.View()).(stagedWorkerIndexes := indexes)
    {
      p.stagedWorkerIndexes := indexes;
    }

    method Finish() returns (r: Outcome)
      requires draft.blockRange.Some? && draft.size.Some? && ValidDraft(draft)
      modifies p
      ensures (p.View(), r) == FinishChunk(old(p.View()), draft)
    {
      var blockRange := draft.blockRange.value;
      if draft.id.None? {
        return Err(NoId);
      }
      var id := draft.id.value;
      if !(id.firstBlock == blockRange.0 && id.lastBlock == blockRange.1) {
        return Err(IdDisagrees);
      }
      if draft.writeSchemaId.None? {
        return Err(NoSchemaId);
      }
      var schema := draft.writeSchemaId.value;
      if schema !in p.writeSchemas {
        return Err(UnknownSchema);
      }
      if !(draft.version == 0 || draft.version in p.currentGenerations) {
        return Err(UnknownGeneration);
      }
      if draft.tablesPresent.Some? && draft.tablesPresent.value != schema {
        return Err(BitmapOfOtherSchema);
      }
      r := p.PushChunk(id, draft.size.value, schema, draft.version);
    }
  }
}
