# Verified models of the SQD network components

A Dafny 4.11 model of the parts of the SQD network code where state, ordering and arithmetic are
hardest to get right, with proofs of what they keep over every input and every run:

- **Assignments**: the worker and portal assignment builders, the columns they write, the readers of
  those columns, the block and timestamp searches, chunk ids and table bitmaps
  (`Words`, `Sequences`, `Search`, `ChunkId`, `Tables`, `Columns`, `DatasetLookup`, `WorkerFormat`,
  `WorkerStaging`, `WorkerBuilder`, `WorkerSession`, `PortalFormat`, `PortalStaging`, `PortalBuilder`,
  `PortalSession`, `Outcomes`, `Legacy`).
- **Reconnect scheduler**: the delay queue, the lookup queue, the bounded lookups, the connection
  counters and the address cache that together keep worker connections up
  (`AddressCache`, `Reconnect`, `BaseBehaviour`, `ReconnectSession`, `Cooldown`).
- **Stream opening**: the shared channels, handlers, control and behaviour that carry a request to a
  connection of the peer it asks for, with the dials behind them
  (`Streams`, `StreamBehaviour`, `StreamSession`, `StreamPlaces`, `StreamRoutes`, `StreamRuns`,
  `StreamAnswers`).
- **Messages and clients**: range sets, signing payloads, the gossip rate limiter and the merge of
  portal clusters (`RangeSet`, `Signing`, `Gossip`, `ClusterMerge`).

Every component that the source updates in place is a class whose methods are proved equal to
functions on values. The theorems about runs are about those functions: a run is a sequence of steps,
and each theorem holds after every run the environment allows. Machine integers are mathematical
integers with the width written out; sums that can overflow wrap, as they do in a release build, and
where wrapping breaks a property the exact condition is proved.

The column accessors are functions whose only preconditions are that the dataset passed the load check
and that the index is below the chunk count, whatever the columns hold; that they are well defined is
the proof that no accessor reads out of bounds.

`dafny verify dfyconfig.toml` checks everything.

## Where code and documentation differ

- `crates/messages/proto/messages.proto:43` says a query's signature covers all fields above it. The
  request id stands above it and is not in the payload (`RequestIdNotCovered`); `PayloadsEqualIff`
  states exactly which fields are covered. Of the fields below the signature, which the comment
  promises nothing about, engine and format are covered, and compression and chunk version
  are not.
- `crates/transport/src/behaviour/pubsub.rs:36` reads as a limit on any stretch of `min_interval`. The
  code restarts its count at the first message after an interval, so a stretch can hold up to
  `2 * max_burst - 1` messages, or one for a burst of zero; `RateLimit` proves that bound for every
  run, with `max_burst + 1` more for each wrap of the 32-bit counter, which takes 2^32 messages.
  `AtMostBurstIff` proves exactly which configurations meet the documented reading: a burst of one, no
  interval, or an interval of one tick with a burst above zero.
- `crates/messages/src/range.rs:57-73` keeps ranges separated except next to a range that ends at the
  largest `u64`, where `end + 1` wraps; `ExtendCanonicalIff` gives the exact condition.
- `crates/assignments/src/reader.rs:170-204` treats a missing timestamp as 0 when it searches and as
  absent when it walks back, so at timestamp 0 it need not return the first chunk; `ZeroTimestamp`
  gives the exact condition, from the number of chunks and of leading zeros.
- `crates/assignments/src/reader.rs:745-749` finds a dataset by bisection on its id, while the builders
  emit datasets in the order they are finished. `FinishedAreFoundIff` proves that after any run every
  finished dataset is found if and only if that order is strictly ascending; `OutOfOrderIsLost` is an
  order that loses one.
- `crates/assignments/src/builder.rs:1094` casts the end of a bitmap to `u32`, where every other limit
  is checked. A dataset whose bitmaps take more than `u32` counts is staged without an error and
  accepted by `crates/assignments/src/reader.rs:317-342`, and the chunk at which the column passes
  `u32` reads back fewer bits than it was given: none, which means every table, unless that one bitmap
  is longer than `u32` itself (`MisreadRow`). `RowsComeBackIff` proves that all rows come back exactly
  up to that limit, and `ReadsWholeIff` the same after any run of the builder.
- `crates/assignments/benches/assignment.rs:332-341` walks by asking for one past each last block. The
  sum wraps after a chunk that ends at the largest `u64`; `WalkEndsIff` proves that the walk ends
  unless such a dataset begins at block 0. That takes 2^32 chunks (`StartingOverTakes`), and
  `FullRangeStartsOver` is such a dataset.
- `crates/assignments/src/assignment_fb.rs:65` promises exactly one separator between url segments. The
  code adds or trims slashes on one side only; `OneSeparator` states that the promise fails exactly for
  a left side that already ends in two, and `TwoSlashesStay` gives one.
- A dial that is skipped or aborted does not put its worker back on the reconnect schedule.
  `NoWorkerForgotten` proves the promise of `crates/transport/src/behaviour/base.rs:386-414` for every
  run in which each dial ends in a connection or as unreachable and maintaining starts before the first
  node update, and `NoStrandedWorker` for exactly the runs whose steps resume. `SkippedDialStrands` is
  a run that strands a worker, and `NodesUpdateHeals` shows that the next node update picks it up.

## Model

| member | source | states |
|---|---|---|
| `Search.PartitionIndex` | crates/assignments/src/reader.rs:930-942 | The bisection settles on an index whose left neighbour satisfies the predicate and which itself does not, for any predicate |
| `Search.PartitionPoint` | crates/assignments/src/reader.rs:930-942 | The loop returns that index |
| `Search.BisectBy` | crates/assignments/src/reader.rs:1045-1078 | A hit compares equal; a miss lies between a smaller and a greater item, or before the first |
| `Search.BinarySearchBy` | crates/assignments/src/reader.rs:1045-1078 | The loop returns that outcome |
| `Search.LookupIndexByKey` | crates/assignments/src/reader.rs:994-1021 | The loop returns what the bisection from both ends leads to; on ascending keys it finds a match if and only if there is one |
| `Search.KeyFound` | crates/assignments/src/reader.rs:994-1021 | On ascending keys no match is missed, from any bounds that hold it |
| `ChunkId.HashRoundTrip` | crates/data-chunk/src/lib.rs:15-53 | Every valid hash survives NUL padding and trimming |
| `ChunkId.PrintParse` | crates/data-chunk/src/lib.rs:56-90 | Parsing a printed chunk id gives the chunk back, for all chunks |
| `ChunkId.ParseExact` | crates/data-chunk/src/lib.rs:15-90 | A text of three numbers of any width and a hash parses if and only if the numbers ascend and fit and the hash is five to eight word characters; it parses to those values |
| `ChunkId.DisplayInjective` | crates/data-chunk/src/lib.rs:56-67 | No two chunks print alike |
| `ChunkId.FillDigits` | crates/assignments/src/reader.rs:898-913 | The digit loop fills the buffer with exactly the low digits |
| `ChunkId.PushPadded` | crates/assignments/src/reader.rs:898-913 | The hand-written padding appends what the standard ten-digit format prints, for all of u64 |
| `ChunkId.PushChunkId` | crates/assignments/src/reader.rs:916-928 | The appended id is the one the chunk type prints |
| `ChunkId.IdRebuilt` | crates/assignments/src/builder.rs:1365-1370 | A chunk's printed id can be rebuilt from its numbers and the stored hash bytes |
| `Tables.EncodeTables` | crates/assignments/src/builder.rs:924-960 | The in-place loop computes the merge of roster and listed tables |
| `Tables.TablesPresentExact` | crates/assignments/src/builder.rs:924-960 | A list is accepted if and only if it is strictly ascending and drawn from the roster; then bit i is set exactly for listed tables |
| `Tables.BitIs` | crates/assignments/src/reader.rs:441-443 | Bit i is bit i modulo 8 of byte i / 8, low end first |
| `Tables.TablesRoundTrip` | crates/assignments/src/reader.rs:434-446 | The reader lists exactly the tables the builder was given, and the whole roster for an absent bitmap |
| `Tables.ListedIff` | crates/assignments/src/reader.rs:434-446 | For any bitmap exactly the roster names whose bit is set are listed |
| `Columns.AppendRow` | crates/assignments/src/builder.rs:1034-1087 | The pushes leave the columns of the row list extended by the row |
| `Columns.CoreRepresents` | crates/assignments/src/builder.rs:1267-1324 | Staging any fitting rows one by one leaves columns that represent exactly those rows: dense columns, run-length tops and versions, worker slices |
| `Columns.StagedRunsPass` | crates/assignments/src/builder.rs:837-849 | Runs that staging produces always pass the builder's own check of runs |
| `Columns.RunsAreShortest` | crates/assignments/src/builder.rs:1034-1087 | A run is written only where the top changes: neighbouring runs differ |
| `Columns.VersionsTravelIff` | crates/assignments/src/builder.rs:507-576 | The version column travels if and only if some chunk has a version |
| `Columns.CheckColumns` | crates/assignments/src/reader.rs:27-52 | The loop of checks accepts exactly the datasets whose columns agree |
| `Columns.TopAlwaysFound` | crates/assignments/src/reader.rs:572-577 | In every accepted dataset each chunk has a top |
| `Columns.WorkersAnywhere` | crates/assignments/src/reader.rs:543-550 | In any accepted dataset a chunk's workers are those between its offsets, as far as the list goes |
| `Columns.LastBlockAnywhere` | crates/assignments/src/reader.rs:470-472 | In any accepted dataset the last block is first block plus delta on u64 |
| `Columns.RowRoundTrip` | crates/assignments/src/reader.rs:457-577 | Reading chunk i through the accessors gives the row staged as chunk i |
| `Columns.HoldingsExact` | crates/assignments/src/reader.rs:623-638 | A worker's holdings are exactly the chunks that list it |
| `Columns.HoldingsIncrease` | crates/assignments/src/reader.rs:623-638 | They come in increasing order, each once |
| `Columns.HoldingsRoundTrip` | crates/assignments/src/reader.rs:623-638 | They are exactly the rows that were staged with the worker |
| `Columns.OverflowBreaksColumns` | crates/assignments/src/builder.rs:1034-1087 | A written row makes the columns unreadable if and only if its push reports too many workers, which is exactly when the worker list passes u32 |
| `Columns.LagBegins` | crates/assignments/src/builder.rs:1034-1087 | The push that takes the worker list past u32 leaves the worker offsets short of the chunks |
| `Columns.LagStays` | crates/assignments/src/builder.rs:1034-1087 | No later push, accepted or refused, makes up for it |
| `Columns.LagIsRejected` | crates/assignments/src/reader.rs:27-52 | Such columns pass the builder's check of runs, so they are emitted, and the reader rejects them |
| `DatasetLookup.FindDataset` | crates/assignments/src/reader.rs:745-749 | A dataset that is found carries the id asked for |
| `DatasetLookup.FoundIffAscending` | crates/assignments/src/reader.rs:745-749 | Every dataset is found under its own id if and only if the ids are strictly ascending |
| `DatasetLookup.OutOfOrderIsLost` | crates/assignments/src/reader.rs:745-749 | Two datasets in the other order, of which the second is not found |
| `WorkerFormat.FromOwned` | crates/assignments/src/reader.rs:304-346 | The load loop accepts exactly when every dataset's columns agree, the extra worker columns included |
| `WorkerFormat.ColumnsRepresent` | crates/assignments/src/builder.rs:1034-1101 | Staging worker rows within the checked limits leaves columns that represent exactly those rows: the shared ones, sizes, schemas, and a flat column of bitmaps whose recorded ends are taken modulo 2^32 |
| `WorkerFormat.OneSeparator` | crates/assignments/src/assignment_fb.rs:65-71 | A joined segment has lost exactly its leading slashes and follows a slash, which is doubled exactly when the left side already ended in two |
| `WorkerFormat.TwoSlashesStay` | crates/assignments/src/assignment_fb.rs:65-71 | A left side after which two slashes remain |
| `WorkerFormat.WorkerRoundTrip` | crates/assignments/src/reader.rs:457-577 | Every accessor of chunk i gives back what was staged as chunk i; for its bitmap that is so if the bitmap is empty or the column up to it fits in u32 |
| `WorkerFormat.MisreadRow` | crates/assignments/src/builder.rs:1090-1096 | If the bitmaps take more than u32 counts, the reader accepts the dataset and gives back too few bits for some chunk, and no bitmap at all unless that chunk's alone passes u32 |
| `WorkerFormat.RowsComeBackIff` | crates/assignments/src/reader.rs:317-577 | The reader accepts the dataset, and every row comes back if and only if the bitmaps take no more bytes than u32 counts |
| `WorkerFormat.OptionalColumnsIff` | crates/assignments/src/builder.rs:507-576 | Bitmaps travel if and only if some chunk has one, generations if and only if one is registered |
| `WorkerFormat.TablesAnywhere` | crates/assignments/src/reader.rs:434-446 | In any accepted dataset tables are missing exactly for an unknown schema, and otherwise are those the bitmap shows |
| `WorkerFormat.BitmapAnywhere` | crates/assignments/src/reader.rs:514-522 | In any accepted dataset a bitmap is read exactly where its offsets enclose bytes of the column |
| `WorkerFormat.UrlRoundTrip` | crates/assignments/src/reader.rs:508-541 | The id of chunk i is the printed id of the staged row, its generation the registered prefix, and its url that of base url, prefix and id; there is no url exactly for an unregistered version |
| `WorkerBuilder.CheckTopRuns` | crates/assignments/src/builder.rs:837-849 | The loop accepts exactly strictly ascending runs that start at 0 |
| `WorkerBuilder.WorkerAssignmentBuilder.RegisterWriteSchema` | crates/assignments/src/builder.rs:456-486 | A sorted roster is registered under a new id; an unsorted one, or a differing one under a known id, is refused and changes nothing |
| `WorkerBuilder.WorkerAssignmentBuilder.DiscardDataset` | crates/assignments/src/builder.rs:500-505 | Staged chunks, last block and generations are gone, everything else stays |
| `WorkerBuilder.WorkerAssignmentBuilder.EmitDataset` | crates/assignments/src/builder.rs:507-576 | An emitted dataset holds the staged columns and leaves none staged; an empty or misordered one is refused with the staging state as it was |
| `WorkerBuilder.WorkerAssignmentBuilder.PushChunk` | crates/assignments/src/builder.rs:1034-1087 | Gap, chunk-count, span and worker limits in the order of the code, with what each failure leaves written |
| `WorkerBuilder.WorkerDatasetBuilder.RegisterGeneration` | crates/assignments/src/builder.rs:788-803 | A version keeps one prefix; version 0 and a differing prefix are refused |
| `WorkerBuilder.WorkerDatasetBuilder.Finish` | crates/assignments/src/builder.rs:817-825 | The dataset is emitted and its staging state is clean afterwards, refused or not |
| `WorkerBuilder.WorkerDatasetBuilder.Drop` | crates/assignments/src/builder.rs:827-834 | Dropping an unfinished builder discards what it staged |
| `WorkerBuilder.WorkerAssignmentChunkBuilder.TablesPresent` | crates/assignments/src/builder.rs:924-960 | The chunk's bitmap is the merge against its schema; an unknown schema or a bad list is refused |
| `WorkerBuilder.WorkerAssignmentChunkBuilder.Finish` | crates/assignments/src/builder.rs:980-1022 | A chunk with a dangling schema, version or mismatched bitmap is refused before anything is staged |
| `WorkerSession.ObjectionIff` | crates/assignments/src/builder.rs:980-1022 | The builder objects to a chunk if and only if its id is missing or names other blocks, its schema or generation is not registered, or its bitmap was encoded against another schema |
| `WorkerSession.EnabledAlike` | crates/assignments/src/builder.rs:771-834 | What the builders' borrows allow is allowed on the plain list |
| `WorkerSession.StepRefines` | crates/assignments/src/builder.rs:420-1101 | Every builder call acts on the reused buffers as it would on a plain list of rows, a worker list that passes u32 included |
| `WorkerSession.SessionRefinement` | crates/assignments/src/builder.rs:488-834 | After any run the assignment holds exactly the finished datasets in order, with their base url, generations and last block; each is as if built alone, unless its worker list passed u32, and those are exactly the ones the reader rejects; between datasets the staging state is pristine |
| `WorkerSession.EveryReferenceResolves` | crates/assignments/src/reader.rs:400-577 | After any run every chunk of every accepted dataset gives back the staged row, the registered generation, the id, the url made of them and a known schema; and its bitmap and tables, if the bitmap column up to it fits in u32 |
| `WorkerSession.ReadsWholeIff` | crates/assignments/src/reader.rs:317-577 | After any run a dataset is accepted and every chunk of it reads back whole if and only if its worker list did not pass u32 and neither do its bitmaps |
| `WorkerSession.FinishedAreFoundIff` | crates/assignments/src/reader.rs:400-404 | After any run every finished dataset is found by its id if and only if they were finished in strictly ascending order of id |
| `PortalFormat.FromOwned` | crates/assignments/src/reader.rs:672-706 | The load loop accepts exactly when every dataset's columns agree, timestamps included |
| `PortalFormat.PortalRoundTrip` | crates/assignments/src/reader.rs:816-895 | Every accessor of chunk i gives back what was staged as chunk i |
| `PortalFormat.FindChunkExact` | crates/assignments/src/reader.rs:761-780 | On disjoint chunks a hit is the one chunk holding the block, and each error means what it says: before the first, after the last, or between two neighbours |
| `PortalFormat.FindChunkIsScan` | crates/assignments/src/reader.rs:761-780 | The bisection finds what a linear scan finds |
| `PortalFormat.GaplessFindsEveryBlock` | crates/assignments/src/reader.rs:761-780 | Without gaps every block in range is found |
| `PortalFormat.WalkVisitsAll` | crates/assignments/benches/assignment.rs:332-341 | Asking again for one past each chunk's last block visits every later chunk once, in order, and stops; it goes on with chunk 0 exactly when that sum wraps to a block of chunk 0 |
| `PortalFormat.WalkEndsIff` | crates/assignments/benches/assignment.rs:332-341 | The walk from the first block ends if and only if the dataset does not span from block 0 to the largest u64 |
| `PortalFormat.StartingOverTakes` | crates/assignments/benches/assignment.rs:332-341 | A walk that starts over has at least 2^32 chunks, as a delta spans at most u32 |
| `PortalFormat.FullRangeStartsOver` | crates/assignments/benches/assignment.rs:332-341 | A dataset of 2^32 chunks whose walk does |
| `PortalFormat.DatasetWalkEnds` | crates/assignments/benches/assignment.rs:332-341 | In an accepted dataset without gaps and with fewer chunks the walk visits each chunk once, in order, and stops |
| `PortalFormat.OrderIffNoWrap` | crates/assignments/src/builder.rs:1267-1324 | Rows that passed the continuity check are in block order if and only if no chunk before the last ends at the largest block number |
| `PortalFormat.ContinuousDataset` | crates/assignments/src/reader.rs:672-780 | A dataset of consecutive rows is accepted and found at every block in range, and its chunks are disjoint without gaps, as the walk needs them |
| `PortalFormat.TimestampsBefore` | crates/assignments/src/reader.rs:786-805 | The timestamp bisection stops between a smaller and a not smaller timestamp |
| `PortalBuilder.PortalAssignmentBuilder.EmitDataset` | crates/assignments/src/builder.rs:1177-1228 | An emitted dataset holds the staged columns and timestamps and leaves none staged; an empty or misordered one is refused |
| `PortalBuilder.PortalAssignmentBuilder.PushChunk` | crates/assignments/src/builder.rs:1267-1324 | The limits in the order of the code, with what each failure leaves written |
| `PortalBuilder.PortalDatasetBuilder.Finish` | crates/assignments/src/builder.rs:1347-1355 | The dataset is emitted and its staging state is clean afterwards |
| `PortalBuilder.PortalAssignmentChunkBuilder.Finish` | crates/assignments/src/builder.rs:1440-1458 | A chunk whose range disagrees with its id is refused before anything is staged |
| `PortalSession.EnabledAlike` | crates/assignments/src/builder.rs:1134-1363 | What the builders' borrows allow is allowed on the plain list |
| `PortalSession.StepRefines` | crates/assignments/src/builder.rs:1134-1458 | Every builder call acts on the reused buffers as it would on a plain list of rows |
| `PortalSession.SessionRefinement` | crates/assignments/src/builder.rs:1134-1363 | After any run the assignment holds exactly the finished datasets in order, with their read schema, last block hash and last block; each is as if built alone and reads back whole, unless its worker list passed u32, and those are exactly the ones the reader rejects |
| `PortalSession.FinishedAreFoundIff` | crates/assignments/src/reader.rs:745-749 | After any run every finished dataset is found by its id if and only if they were finished in strictly ascending order of id |
| `PortalSession.CheckedDatasetsAreSearchable` | crates/assignments/src/builder.rs:1267-1324 | Every block in range of an accepted dataset from a continuity-checking builder is found, if no inner chunk ends at the largest block |
| `Outcomes.PushReports` | crates/assignments/src/builder.rs:1034-1087 | A push reports the first limit that fails; a written row reports a gap if and only if it does not follow the last one, and too many workers if and only if the list passes u32 |
| `Outcomes.SchemaReports` | crates/assignments/src/builder.rs:456-486 | A roster is refused if and only if it is unsorted or differs from the one under its id; a refused one changes nothing |
| `Outcomes.GenerationReports` | crates/assignments/src/builder.rs:788-803 | A prefix is refused if and only if the version is 0 or has another prefix; a refused one changes nothing |
| `Outcomes.TablesReport` | crates/assignments/src/builder.rs:924-960 | A table list is refused without a schema, for an unknown one, and otherwise if and only if it does not ascend or leaves the roster |
| `Outcomes.ObjectionMeans` | crates/assignments/src/builder.rs:980-1022 | Each objection means the condition it names, in the order of the code |
| `Outcomes.PortalObjectionMeans` | crates/assignments/src/builder.rs:1440-1458 | The same for the portal's chunks |
| `Outcomes.ChunkReports` | crates/assignments/src/builder.rs:980-1022 | Finishing a chunk reports the objection and stages nothing, or reports what the push does |
| `Outcomes.PortalChunkReports` | crates/assignments/src/builder.rs:1440-1458 | The same for the portal's chunks |
| `Outcomes.DatasetReports` | crates/assignments/src/builder.rs:507-576 | Finishing a dataset succeeds if and only if one dataset is added, and reports missing chunks exactly without chunks |
| `Outcomes.PortalDatasetReports` | crates/assignments/src/builder.rs:1177-1228 | The same for the portal's datasets |
| `Outcomes.TopRunsOkIff` | crates/assignments/src/builder.rs:837-849 | The check of runs accepts exactly runs from chunk 0 of which every later one starts later |
| `Legacy.WalkToFirst` | crates/assignments/src/reader.rs:170-204 | The walk back stops at the start of the run of equal recorded timestamps |
| `Legacy.UnknownIff` | crates/assignments/src/reader.rs:146-204 | All four lookups report an unknown dataset exactly for a dataset that is not there |
| `Legacy.BlockSearchesAgree` | crates/assignments/src/reader.rs:146-168 | On ascending chunks the legacy and the portal search agree except in a gap, where the legacy one returns the chunk before it: that chunk ends before the block and the next one starts after it |
| `Legacy.TimestampSearchesAgree` | crates/assignments/src/reader.rs:170-204 | On ascending timestamps and for ts > 0 both lookups return the first chunk at or after ts, runs of equal stamps included |
| `Legacy.ZeroTimestamp` | crates/assignments/src/reader.rs:170-204 | At ts = 0 the legacy lookup returns the first chunk if and only if no chunk counts as 0, or the chunk that the numbers of chunks and of leading zeros determine is the first, or every chunk up to it records 0 |
| `Legacy.ZeroTimestampDisagrees` | crates/assignments/src/reader.rs:170-204 | Three chunks without timestamps for which it does not |
| `Ranges.CompactInPlace` | crates/messages/src/range.rs:57-73 | The two-index loop over the sorted array computes the compaction |
| `Ranges.RangeSet.Extend` | crates/messages/src/range.rs:57-73 | The stored list becomes the normalised list of old and new ranges |
| `Ranges.ExtendCoversUnion` | crates/messages/src/range.rs:57-73 | Extending covers exactly the points covered before or by the new ranges |
| `Ranges.ExtendCanonicalIff` | crates/messages/src/range.rs:57-73 | The result is sorted and separated if and only if no range reaching the largest u64 sorts before another that does not begin at 0 |
| `Ranges.TopRangeStaysApart` | crates/messages/src/range.rs:57-73 | Two ranges for which it is not |
| `Ranges.BelowTopIsCanonical` | crates/messages/src/range.rs:57-73 | Ranges that end below the largest u64 always normalise to a sorted, separated list |
| `Ranges.CanonicalUnique` | crates/messages/src/range.rs:57-73 | A separated list is determined by the points it covers |
| `Ranges.SameInputSameList` | crates/messages/src/range.rs:48-73 | Inputs that cover the same points normalise to the same list, in any order, split or overlap |
| `Ranges.HasIffCovered` | crates/messages/src/range.rs:17-37 | The bisection finds a point if and only if some range covers it |
| `Ranges.IncludesIffCovered` | crates/messages/src/range.rs:39-45 | A range is included if and only if all of its points are covered |
| `Signing.MsgToSign` | crates/messages/src/signatures.rs:51-97 | The appends produce the encoding of the signed fields, and nothing exactly for a malformed query id or an enum value beyond a byte |
| `Signing.DecodeInvertsEncode` | crates/messages/src/signatures.rs:51-97 | Every payload decodes to what was signed |
| `Signing.EncodeInvertsDecode` | crates/messages/src/signatures.rs:51-97 | The decoder accepts nothing but payloads |
| `Signing.TailBack` | crates/messages/src/signatures.rs:80-95 | The optional range, engine and format stay unambiguous in all four shapes |
| `Signing.PayloadExistsIff` | crates/messages/src/signatures.rs:51-97 | A query has a payload if and only if its id has 36 bytes and engine and format fit in a byte |
| `Signing.PayloadLayout` | crates/messages/src/signatures.rs:51-97 | Where each field lies in the payload: id, worker, time stamp, then dataset, query and chunk id behind their lengths |
| `Signing.PayloadsEqualIff` | crates/messages/src/signatures.rs:51-97 | Two queries have the same payload if and only if they agree on worker, id, time stamp, dataset, query, chunk id, block range, engine and format |
| `Signing.RequestIdNotCovered` | crates/messages/src/signatures.rs:51-97 | Queries that differ only in the request id have the same payload |
| `Signing.FinishedVerifiesAlike` | crates/messages/src/signatures.rs:100-169 | A log entry verifies if and only if the result it was made from does |
| `Signing.FinishedCarries` | crates/messages/src/signatures.rs:100-169 | A log entry carries worker, query id, time, signature, and size, hash and last block or the error |
| `Signing.ResultPayloadsEqual` | crates/messages/src/signatures.rs:115-126 | A result payload pins the query and either data hash and last block or which of the five errors it is; data and errors never collide |
| `Signing.ResultPayloadBytes` | crates/messages/src/signatures.rs:183-212 | The payload is the query id followed by hash and last block, low byte first, or by the byte 1 to 5 of the error |
| `Signing.ResultPayloadExistsIff` | crates/messages/src/signatures.rs:115-126 | A result has a payload if and only if its query id has 36 bytes and it has data or a known error |
| `Gossip.RateLimit` | crates/transport/src/behaviour/pubsub.rs:126-161 | In any run no stretch of one interval holds more than twice the burst less one accepted messages, and the burst plus one more for each wrap of the counter, of which there is at most one per 2^32 messages |
| `Gossip.WrapsAreRare` | crates/transport/src/behaviour/pubsub.rs:135-160 | The counter wraps at most once per 2^32 messages |
| `Gossip.AtMostBurstIff` | crates/transport/src/behaviour/pubsub.rs:33-42 | At most one burst per stretch holds over all runs without a wrap if and only if the burst is one, there is no interval, or the interval is one tick and the burst is not zero; in all other cases a run that breaks it is built |
| `Gossip.ZeroBurst` | crates/transport/src/behaviour/pubsub.rs:126-188 | With a burst of zero at most the unchecked first message passes, and one more for each wrap |
| `Gossip.NoStaleMessage` | crates/transport/src/behaviour/pubsub.rs:135-160 | An accepted message exceeds every earlier accepted one, give or take `keep_last`, and is not from the future |
| `Gossip.StateStandsFor` | crates/transport/src/behaviour/pubsub.rs:126-188 | After any run a peer's state is the start of its interval, the count since then on 32 bits and the largest accepted number, and acceptance is decided by these |
| `Gossip.VerdictIff` | crates/transport/src/behaviour/pubsub.rs:135-188 | Every verdict: the custom one if it refuses, acceptance of a first message, invalid exactly for a number that is 0 or from the future, ignored exactly for an old or an over-burst one |
| `Gossip.PeersAreIndependent` | crates/transport/src/behaviour/pubsub.rs:174-188 | In any topic run a peer's state is that of its own messages alone |
| `Gossip.TopicAcceptsAlone` | crates/transport/src/behaviour/pubsub.rs:174-188 | In any topic run a message is accepted if and only if it would be with the sender's own messages alone |
| `Gossip.TopicCountsAlone` | crates/transport/src/behaviour/pubsub.rs:174-188 | In any topic run and any stretch the topic accepts as many messages of a peer as it would accept from that peer alone |
| `Gossip.TopicRateLimit` | crates/transport/src/behaviour/pubsub.rs:174-188 | Whatever others send, the messages of a peer that the topic accepts stay within its rate |
| `GossipState.PeerState.ValidateMsg` | crates/transport/src/behaviour/pubsub.rs:135-160 | The updates and the verdict are those of the check |
| `GossipState.TopicState.ValidateMsg` | crates/transport/src/behaviour/pubsub.rs:174-188 | Custom validation first, then the peer's own state; other peers are untouched |
| `ClusterMerge.MergeActivePortals` | crates/contract-client/src/merge.rs:18-28 | Each peer once, in the order of its first listing, the new registry's list first |
| `ClusterMerge.UpsertCluster` | crates/contract-client/src/merge.rs:86-107 | The entry gains the missing peers in order and the units, capped |
| `ClusterMerge.MergePortalClusters` | crates/contract-client/src/merge.rs:46-82 | One cluster per operator in ascending order; its peers are exactly those listed for it, its units the capped total, its list free of repeats exactly when its first contribution is |
| `ClusterMerge.MergedEntries` | crates/contract-client/src/merge.rs:46-122 | Each map entry is what its operator's contributions make it |
| `ClusterMerge.TotalOfInputs` | crates/contract-client/src/merge.rs:110-122 | An operator's total is all of its new units and only its first surviving legacy row |
| `ClusterMerge.MigratedPeersStay` | crates/contract-client/src/merge.rs:50-74 | A peer of the new registry is listed under exactly the operators the new registry gives it |
| `ClusterMerge.PeersExact` | crates/contract-client/src/merge.rs:46-82 | A cluster lists a peer if and only if the new registry does so for its operator, or a legacy row of the operator does and the new registry lists the peer nowhere |
| `ClusterMerge.UnitsExact` | crates/contract-client/src/merge.rs:46-122 | Its units are those of all its new clusters plus its first legacy row that still counts, capped |
| `ClusterMerge.UnitsWithoutLegacy` | crates/contract-client/src/merge.rs:46-122 | Without such a row they are those of its new clusters, capped |
| `ClusterMerge.OperatorsExact` | crates/contract-client/src/merge.rs:46-82 | An operator is in the result if and only if the new registry names it or a legacy row of it still counts |
| `Addresses.PutEffect` | crates/transport/src/behaviour/addr_cache.rs:31-49 | A peer becomes known only with a reachable address; other peers change only by the least recently used one being dropped |
| `Addresses.EvictEffect` | crates/transport/src/behaviour/addr_cache.rs:51-53 | Eviction removes one peer and nothing else |
| `CacheHistory.InOrderOfUse` | crates/transport/src/behaviour/addr_cache.rs:31-104 | After any history of uses the entries stand in order of their last use |
| `CacheHistory.OldestIsDropped` | crates/transport/src/behaviour/addr_cache.rs:31-49 | A peer is dropped to make room only if every other known peer was learned or resolved after it |
| `AddressCache.AddressCache.Put` | crates/transport/src/behaviour/addr_cache.rs:31-49 | Entries never have empty address sets and never exceed the capacity |
| `AddressCache.AddressCache.OnDialFailure` | crates/transport/src/behaviour/addr_cache.rs:59-71 | Exactly the three unreachable errors evict |
| `AddressCache.AddressCache.HandlePendingOutboundConnection` | crates/transport/src/behaviour/addr_cache.rs:88-104 | A dial gets addresses exactly when the peer is known |
| `Reconnect.PollKeeps` | crates/transport/src/behaviour/base.rs:321-353 | Polling keeps every scheduled peer in exactly one queue, exactly once, and lookups one-to-one |
| `Reconnect.PollCapped` | crates/transport/src/behaviour/base.rs:335-347 | Polling never takes the lookups above the cap, and leaves no peer waiting while a slot is free |
| `Reconnect.FailedDialIsLookedUp` | crates/transport/src/behaviour/base.rs:386-401 | An unreachable worker is scheduled again, and its retry starts a lookup rather than a dial to the old address |
| `Reconnect.PollTracks` | crates/transport/src/behaviour/base.rs:321-353 | Polling forgets no worker except the one whose dial it hands out |
| `Reconnect.NodesUpdateTracks` | crates/transport/src/behaviour/base.rs:567-595 | In maintain mode an update picks up every registered worker |
| `BaseBehaviour.BaseBehaviour.MaintainWorkerConnections` | crates/transport/src/behaviour/base.rs:227-230 | Only the mode changes |
| `BaseBehaviour.BaseBehaviour.FindAndDial` | crates/transport/src/behaviour/base.rs:244-259 | A cached peer is queued for dialing, an unknown one is looked up once |
| `BaseBehaviour.BaseBehaviour.ScheduleReconnect` | crates/transport/src/behaviour/base.rs:403-414 | A needed peer is delayed once at a time |
| `BaseBehaviour.BaseBehaviour.OnConnectionClosed` | crates/transport/src/behaviour/base.rs:369-384 | The counter drops and a reconnect is scheduled if none is left |
| `BaseBehaviour.BaseBehaviour.OnDialFailure` | crates/transport/src/behaviour/base.rs:389-401 | The cache forgets the peer before the retry is scheduled |
| `BaseBehaviour.BaseBehaviour.OnLookupProgress` | crates/transport/src/behaviour/base.rs:473-543 | A lookup that ends is removed, its addresses are kept and its peer is dialed; other queries change nothing |
| `BaseBehaviour.BaseBehaviour.OnNodesUpdate` | crates/transport/src/behaviour/base.rs:567-595 | The loop queues exactly the workers that are neither connected nor scheduled |
| `BaseBehaviour.BaseBehaviour.Poll` | crates/transport/src/behaviour/base.rs:321-353 | Both loops and the one dial handed out |
| `ReconnectSession.StepSound` | crates/transport/src/behaviour/base.rs:244-595 | Every event keeps the books: queues, lookups, cache, and each counter equal to the open dialed connections |
| `ReconnectSession.CloseKeepsCount` | crates/transport/src/behaviour/base.rs:369-384 | A close always finds its counter above zero |
| `ReconnectSession.RunSound` | crates/transport/src/behaviour/base.rs:244-595 | The books are right in every reachable state |
| `ReconnectSession.StepCoveredIff` | crates/transport/src/behaviour/base.rs:321-595 | From a covered state a step leaves every worker covered if and only if it is no unresumed dial failure and no late start of maintaining |
| `ReconnectSession.NoStrandedWorker` | crates/transport/src/behaviour/base.rs:321-595 | In a run every registered worker is always connected, scheduled, looked up, or has a dial queued or in flight, if and only if every step of the run resumes |
| `ReconnectSession.NoWorkerForgotten` | crates/transport/src/behaviour/base.rs:321-595 | If each of our dials ends in a connection or as unreachable and maintaining starts before the first node update, every registered worker is always connected, scheduled, looked up, or has a dial queued or in flight |
| `ReconnectSession.NodesUpdateHeals` | crates/transport/src/behaviour/base.rs:567-595 | A node update in maintain mode covers every worker, whatever came before |
| `ReconnectSession.SkippedDialStrands` | crates/transport/src/behaviour/base.rs:389-401 | A run in which a skipped dial leaves a worker uncovered |
| `Cooldown.PollExact` | crates/transport/src/behaviour/base.rs:321-353 | A poll without its loops: waiting peers are taken in order while slots are free; each is skipped if connected, dialed if its address is known, looked up otherwise; the oldest dial is handed out |
| `Cooldown.CooldownIff` | crates/transport/src/behaviour/base.rs:321-414 | A peer is in the delay queue after a step if and only if it was and its cooldown has not ended, or the step closed its last dialed connection or failed to reach it unconnected, in maintain mode, for a worker not yet scheduled |
| `Cooldown.PendingOnlyAfter` | crates/transport/src/behaviour/base.rs:321-595 | Only a node update or a poll changes who waits for a lookup slot |
| `Cooldown.PolledPending` | crates/transport/src/behaviour/base.rs:321-353 | A poll lets only unconnected workers wait for a slot whose cooldown has ended |
| `Cooldown.CooldownIsQuiet` | crates/transport/src/behaviour/base.rs:321-353 | During a peer's cooldown no poll looks it up or makes a dial to it |
| `Cooldown.CooldownLasts` | crates/transport/src/behaviour/base.rs:321-414 | Over any run a peer stays in the delay queue until a poll lists its cooldown as ended |
| `Cooldown.NodesExact` | crates/transport/src/behaviour/base.rs:567-595 | In maintain mode a node update lets exactly the workers wait that are neither connected nor scheduled, each once |
| `Cooldown.FindExact` | crates/transport/src/behaviour/base.rs:244-259 | A peer with a known address is dialed, any other looked up, and nothing else changes |
| `Cooldown.LookupEnds` | crates/transport/src/behaviour/base.rs:473-543 | A lookup that finds addresses or runs out is removed, its peer is dialed, and its known addresses grow by exactly the reachable found ones; anything else changes nothing |
| `Cooldown.ForgottenIff` | crates/transport/src/behaviour/addr_cache.rs:59-71 | A failed dial makes exactly an unreachable peer forgotten |
| `Cooldown.ConnectionIsLearned` | crates/transport/src/behaviour/addr_cache.rs:31-71 | A dialed connection makes its reachable address known; an accepted one changes nothing |
| `Streams.CutOneByOne` | crates/transport/src/libp2p_stream/shared.rs:109-120 | Answering the requests of a channel one by one equals ending it at once |
| `Streams.ForwardOneByOne` | crates/transport/src/libp2p_stream/shared.rs:125-141 | Forwarding the requests of a channel one by one equals joining the queues |
| `StreamBehaviour.Shared.ConnectedSender` | crates/transport/src/libp2p_stream/shared.rs:143-150 | The sender of some connection to the peer, whichever is picked; none without a connection |
| `StreamBehaviour.Shared.Sender` | crates/transport/src/libp2p_stream/shared.rs:157-185 | A caller gets a connection's channel, the pending one, or a new one with its dial; none once dials are closed |
| `StreamBehaviour.Shared.Receiver` | crates/transport/src/libp2p_stream/shared.rs:187-205 | A connection takes over the pending channel of its peer, or gets a new one |
| `StreamBehaviour.Shared.OnDialFailure` | crates/transport/src/libp2p_stream/shared.rs:109-120 | The loop answers exactly the requests of the peer's pending channel |
| `StreamBehaviour.Shared.OnDialSkipped` | crates/transport/src/libp2p_stream/shared.rs:125-141 | The loop moves them, in order, to a connection of the peer, if it has one |
| `StreamBehaviour.Handler.Poll` | crates/transport/src/libp2p_stream/handler.rs:61-86 | One request at a time is taken, oldest first |
| `StreamBehaviour.Handler.OnFullyNegotiatedOutbound` | crates/transport/src/libp2p_stream/handler.rs:92-114 | The request under negotiation gets the stream |
| `StreamBehaviour.Handler.OnDialUpgradeError` | crates/transport/src/libp2p_stream/handler.rs:115-136 | The request under negotiation gets the error |
| `StreamBehaviour.Behaviour.HandleEstablishedConnection` | crates/transport/src/libp2p_stream/behaviour.rs:73-100 | The new handler serves the connection's peer and receives from the channel its sender feeds |
| `StreamBehaviour.Behaviour.OnSwarmEvent` | crates/transport/src/libp2p_stream/behaviour.rs:102-134 | Skipped and failed dials are told apart; other events update only the connections |
| `StreamBehaviour.Behaviour.Poll` | crates/transport/src/libp2p_stream/behaviour.rs:145-158 | Dials leave the queue oldest first |
| `StreamBehaviour.Behaviour.Drop` | crates/transport/src/libp2p_stream/behaviour.rs:49-55 | The dial queue closes before the pending channels end |
| `StreamBehaviour.Control.OpenStream` | crates/transport/src/libp2p_stream/control.rs:44-65 | A request is sent on the channel it was given, or answered with the error |
| `StreamRuns.StepSound` | crates/transport/src/libp2p_stream/shared.rs:100-205 | Every step keeps each request in one place, on its way to its peer, with a dial behind each pending channel |
| `StreamRuns.StartInvariant` | crates/transport/src/libp2p_stream/shared.rs:42-50 | The initial state is sound |
| `StreamRuns.RunInvariant` | crates/transport/src/libp2p_stream/shared.rs:100-205 | That holds in every reachable state |
| `StreamRuns.OnePlace` | crates/transport/src/libp2p_stream/control.rs:44-65 | Each request made is at its caller, in one channel, in one negotiation or answered, exactly once in all; no other request exists |
| `StreamRuns.RightPeer` | crates/transport/src/libp2p_stream/handler.rs:61-136 | A request reaches only handlers whose remote is the peer it asked for, and a stream comes only from that peer |
| `StreamRuns.OneReceiver` | crates/transport/src/libp2p_stream/shared.rs:157-205 | Each live channel is received by exactly one pending peer or connection |
| `StreamRuns.PendingHasDial` | crates/transport/src/libp2p_stream/behaviour.rs:102-158 | A pending channel always has a dial queued or in flight; every connection has a sender |
| `StreamRuns.UnansweredIff` | crates/transport/src/libp2p_stream/control.rs:44-65 | A request is unanswered if and only if its caller has not sent it, a handler has it, or it waits in the pending channel of its peer with a dial behind it |
| `StreamRuns.NothingLeftUnanswered` | crates/transport/src/libp2p_stream/shared.rs:109-141 | When no caller, connection or dial is left, exactly the requests made are answered |
| `StreamRuns.OneDialPerChannel` | crates/transport/src/libp2p_stream/shared.rs:157-185 | Asking queues exactly one dial when it makes a channel, and none otherwise |
| `StreamRuns.RunKeepsAnswers` | crates/transport/src/libp2p_stream/handler.rs:92-136 | An answer is final: no run answers a request twice |
| `StreamRuns.DroppedStaysQuiet` | crates/transport/src/libp2p_stream/behaviour.rs:49-55 | After the behaviour is dropped nothing is pending, in every continuation |
| `StreamRuns.SharedIsApart` | crates/transport/src/libp2p_stream/shared.rs:125-141 | A pending channel is live and is never the one it would be forwarded to, as the shared object's methods require |
| `StreamAnswers.AnswersExact` | crates/transport/src/libp2p_stream/handler.rs:61-136 | Every step answers exactly the requests it ends, each with the answer for that end: the stream, the negotiation error, not connected for a failed or denied dial, a reset connection for a dropped receiver |
| `StreamAnswers.OpenedIff` | crates/transport/src/libp2p_stream/handler.rs:92-114 | A step answers a request with a stream if and only if it completes the negotiation of that request, and the stream is to the peer asked for |
| `StreamAnswers.OrderKept` | crates/transport/src/libp2p_stream/shared.rs:109-141 | A request ahead of another in a channel stays ahead of it, also when they are forwarded, until it leaves |
| `StreamAnswers.SentGoesLast` | crates/transport/src/libp2p_stream/control.rs:44-65 | A request that is sent goes behind all that wait in its channel |
| `StreamAnswers.OldestIsTaken` | crates/transport/src/libp2p_stream/handler.rs:61-86 | A free handler takes up a request exactly when one waits, and the one ahead of all others; a busy one takes none |
| `StreamAnswers.AskGoesTo` | crates/transport/src/libp2p_stream/shared.rs:157-185 | A caller is given a channel of a connection if the peer has one, else the pending one, else a new one with a dial at the end of the queue, else the error |
| `StreamAnswers.BuildServes` | crates/transport/src/libp2p_stream/shared.rs:187-205 | A new handler serves its peer on the pending channel with all that waits in it, or on a new empty one |
| `StreamAnswers.EstablishConnects` | crates/transport/src/libp2p_stream/shared.rs:100-102 | The peer of an established connection counts as connected |
| `StreamAnswers.CloseForgets` | crates/transport/src/libp2p_stream/shared.rs:104-107 | A closed connection is no longer used, and nothing else changes |

## Left out

- The FlatBuffers encoding itself, with its limit on the size of a buffer: vectors are sequences of any length, and a keyed table is a map or a bisected sequence.
- Encrypted headers, worker entries and the random generator of the assignment builders.
- The legacy assignment builder; only the legacy reader's searches are modelled, as the reference the portal searches are compared with.
- The plain field setters of the chunk builders: a run sets all fields in one step.
- Dataset builders that are leaked instead of finished or dropped.
- Overflow checks of debug builds, which panic where a release build wraps, and debug assertions.
- Columns of more than 2^32 chunks, which the chunk limit of the builders excludes.
- Text beyond ASCII: chunk hashes with other bytes read as absent, and strings are compared by character.
- The confidence steps of the base behaviour, bootstrap, ping, autonat and whitelisting.
- The suffix a cached address gets with its peer id.
- The delay queue's clock: which peers have expired is a parameter of each poll, and the order in which a set is walked is a parameter of each node update.
- Kademlia: a lookup's outcome is a parameter, and query ids are fresh numbers.
- Signing.MsgToSign: a peer id is a multihash with one-byte code and length, as all libp2p ids are; the hash and the signature scheme are parameters.
- Inbound streams, protocol names and timeouts of the stream protocol; a caller that stops waiting, whose answer is discarded.
- The mutex around the shared state: each of its operations is one step, and callers and connection tasks may act between any two, also between a connection's handler and its event.
- StreamSession.Next: the swarm is assumed to skip a dial only when the peer is connected or already being dialed, and to deliver events one at a time, as libp2p does.
- StreamBehaviour.Behaviour.Drop: closes the queue and ends the channels in one call; in the runs these are two steps with others between.
- Contract calls, the gossip network, request servers and the actors built on these components.
