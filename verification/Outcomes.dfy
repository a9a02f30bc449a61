/** What the builders' calls report, and when. */
module Outcomes {
  import opened Words
  import opened ChunkId
  import opened Columns
  import Tables
  import W = WorkerStaging
  import WF = WorkerFormat
  import P = PortalStaging
  import PF = PortalFormat

  /** The chunk starts right behind the last block, or is the first; the sum wraps at the top. */
  predicate Follows(lastBlock: Option<u64>, first: u64) {
    match lastBlock
    case None => true
    case Some(last) => if last == U64_MAX then first == 0 else first == last + 1
  }

  /** Everything a push reports, by the limit that fails first. */
  lemma {:induction false} PushReports(checkContinuity: bool, lastBlock: Option<u64>, c: Core, row: Row)
    requires row.id.firstBlock <= row.id.lastBlock
    ensures var p := Push(checkContinuity, lastBlock, c, row);
            var follows := Follows(lastBlock, row.id.firstBlock);
            var refs := |c.workerIndexes| + |row.workers|;
            if !follows && checkContinuity then p == Pushed(c, lastBlock, Err(Gap))
            else if |c.firstBlocks| > U32_MAX then p == Pushed(c, lastBlock, Err(TooManyChunks))
            else if row.id.lastBlock - row.id.firstBlock > U32_MAX then p == Pushed(c, lastBlock, Err(SpanTooWide))
            else
              && p.Wrote(c)
              && (refs > U32_MAX ==> p.lastBlock == lastBlock && p.outcome == Err(TooManyWorkers))
              && (refs <= U32_MAX ==>
                    p.lastBlock == Some(row.id.lastBlock) && p.outcome == if follows then Ok(()) else Err(Gap))
  {
    assert lastBlock.Some? ==>
      WrapAdd64(lastBlock.value, 1) == if lastBlock.value == U64_MAX then 0 else lastBlock.value + 1;
  }

  /** A roster is taken if its names strictly ascend and its id is new, or repeats one; otherwise nothing changes. */
  lemma SchemaReports(b: W.Builder, schema: u32, tables: seq<string>)
    ensures var (b1, r) := W.RegisterSchema(b, schema, tables);
            && (r == Ok(()) <==>
                  Tables.Ascending(tables) && (schema in b.writeSchemas ==> b.writeSchemas[schema] == tables))
            && (r == Err(W.UnsortedRoster) <==> !Tables.Ascending(tables))
            && (r == Err(W.RosterChanged) <==>
                  Tables.Ascending(tables) && schema in b.writeSchemas && b.writeSchemas[schema] != tables)
            && b1 == if r == Ok(()) then b.(writeSchemas := b.writeSchemas[schema := tables]) else b
  {
  }

  /** A prefix is taken for a version above 0 that has none, or has the same one. */
  lemma GenerationReports(b: W.Builder, version: u32, prefix: string)
    ensures var (b1, r) := W.RegisterGeneration(b, version, prefix);
            && (r == Ok(()) <==>
                  version != 0 && (version in b.currentGenerations ==> b.currentGenerations[version] == prefix))
            && (r == Err(W.VersionZero) <==> version == 0)
            && (r == Err(W.GenerationChanged) <==>
                  version != 0 && version in b.currentGenerations && b.currentGenerations[version] != prefix)
            && b1 == if r == Ok(()) then b.(currentGenerations := b.currentGenerations[version := prefix]) else b
  {
  }

  /**
   * A table list is refused without a schema, with an unknown one, or for what the roster says; the
   * bits set until then stay staged.
   */
  lemma {:induction false} TablesReport(b: W.Builder, draft: W.Draft, tables: seq<string>)
    requires forall schema :: schema in b.writeSchemas ==> Tables.Ascending(b.writeSchemas[schema])
    ensures W.SetTables(b, draft, tables).0 ==
              if draft.writeSchemaId.None? || draft.writeSchemaId.value !in b.writeSchemas then b
              else
                var roster := b.writeSchemas[draft.writeSchemaId.value];
                b.(stagedTablesPresent := Tables.TablesPresent(roster, tables).bits)
    ensures var r := W.SetTables(b, draft, tables).1;
            var schema := draft.writeSchemaId;
            if schema.None? then r == Err(W.NoSchemaId)
            else if schema.value !in b.writeSchemas then r == Err(W.UnknownSchema)
            else if Tables.Ascending(tables) && forall t :: t in tables ==> t in b.writeSchemas[schema.value]
            then r == Ok(draft.(tablesPresent := schema))
            else r == Err(W.UnknownTable)
  {
    if draft.writeSchemaId.Some? && draft.writeSchemaId.value in b.writeSchemas {
      Tables.TablesPresentExact(b.writeSchemas[draft.writeSchemaId.value], tables);
    }
  }

  /** Each objection to a chunk means what it says, in the order the builder looks. */
  lemma ObjectionMeans(schemas: map<u32, seq<string>>, generations: map<u32, string>, d: W.Draft)
    requires d.blockRange.Some?
    ensures var r := W.Objection(schemas, generations, d);
            if d.id.None? then r == Some(W.NoId)
            else if d.id.value.firstBlock != d.blockRange.value.0 || d.id.value.lastBlock != d.blockRange.value.1
            then r == Some(W.IdDisagrees)
            else if d.writeSchemaId.None? then r == Some(W.NoSchemaId)
            else if d.writeSchemaId.value !in schemas then r == Some(W.UnknownSchema)
            else if d.version > 0 && d.version !in generations then r == Some(W.UnknownGeneration)
            else if d.tablesPresent.Some? && d.tablesPresent.value != d.writeSchemaId.value
            then r == Some(W.BitmapOfOtherSchema)
            else r == None
  {
  }

  lemma PortalObjectionMeans(d: P.Draft)
    requires d.blockRange.Some?
    ensures var r := P.Objection(d);
            if d.id.None? then r == Some(P.NoId)
            else if d.id.value.firstBlock != d.blockRange.value.0 || d.id.value.lastBlock != d.blockRange.value.1
            then r == Some(P.IdDisagrees)
            else r == None
  {
  }

  /** Finishing a chunk reports the objection, or what the push reports. */
  lemma ChunkReports(b: W.Builder, d: W.Draft)
    requires d.blockRange.Some? && d.size.Some? && W.ValidDraft(d)
    ensures var objection := W.Objection(b.writeSchemas, b.currentGenerations, d);
            var (b1, r) := W.FinishChunk(b, d);
            && (objection.Some? ==> b1 == b && r == Err(objection.value))
            && (objection.None? ==>
                  var row := Row(d.id.value, d.version, b.stagedWorkerIndexes);
                  var pushed := Push(b.checkContinuity, b.lastBlock, b.columns.core, row);
                  && (r.Ok? <==> pushed.outcome.Ok?) && (r.Err? ==> r.error == W.Staging(pushed.outcome.error))
                  && b1.lastBlock == pushed.lastBlock && b1.columns.core == pushed.core)
  {
  }

  lemma PortalChunkReports(b: P.Builder, d: P.Draft)
    requires d.blockRange.Some? && P.ValidDraft(d)
    ensures var objection := P.Objection(d);
            var (b1, r) := P.FinishChunk(b, d);
            && (objection.Some? ==> b1 == b && r == Err(objection.value))
            && (objection.None? ==>
                  var row := Row(d.id.value, d.version, b.stagedWorkerIndexes);
                  var pushed := Push(b.checkContinuity, b.lastBlock, b.columns.core, row);
                  && (r.Ok? <==> pushed.outcome.Ok?) && (r.Err? ==> r.error == P.Staging(pushed.outcome.error))
                  && b1.lastBlock == pushed.lastBlock && b1.columns.core == pushed.core)
  {
  }

  /** Finishing a dataset succeeds exactly when one is added; otherwise it had no chunks or bad runs. */
  lemma DatasetReports(b: W.Builder, id: string, baseUrl: string)
    requires W.LastBlockSet(b)
    ensures var (b1, r) := W.FinishDataset(b, id, baseUrl);
            && (r == Ok(()) <==> |b1.allDatasets| == |b.allDatasets| + 1)
            && (r == Err(W.NoChunks) <==> b.columns.core.firstBlocks == [])
            && (r.Err? ==> b1.allDatasets == b.allDatasets && (r.error == W.NoChunks || r.error == W.BadTopRuns))
            && b1.columns == WF.NO_COLUMNS && b1.lastBlock == None && b1.currentGenerations == map[]
  {
  }

  lemma PortalDatasetReports(b: P.Builder, id: string, schema: u32, hash: Option<string>)
    requires P.LastBlockSet(b)
    ensures var (b1, r) := P.FinishDataset(b, id, schema, hash);
            && (r == Ok(()) <==> |b1.allDatasets| == |b.allDatasets| + 1)
            && (r == Err(P.NoChunks) <==> b.columns.core.firstBlocks == [])
            && (r.Err? ==> b1.allDatasets == b.allDatasets && (r.error == P.NoChunks || r.error == P.BadTopRuns))
            && b1.columns == PF.NO_COLUMNS && b1.lastBlock == None
  {
  }

  /** The check of runs asks that they begin at chunk 0 and that every later run starts later. */
  lemma {:induction false} TopRunsOkIff(runs: seq<TopRun>)
    ensures TopRunsOk(runs) <==>
              && runs != [] && runs[0].firstChunkIndex == 0
              && forall j, k :: 0 <= j < k < |runs| ==> runs[j].firstChunkIndex < runs[k].firstChunkIndex
  {
    if TopRunsOk(runs) {
      forall j, k | 0 <= j < k < |runs| ensures runs[j].firstChunkIndex < runs[k].firstChunkIndex {
        RunsClimb(runs, j, k);
      }
    }
  }

  lemma {:induction false} RunsClimb(runs: seq<TopRun>, j: nat, k: nat)
    requires TopRunsOk(runs) && j < k < |runs|
    ensures runs[j].firstChunkIndex < runs[k].firstChunkIndex
    decreases k - j
  {
    if j + 1 < k {
      RunsClimb(runs, j, k - 1);
    }
  }
}
