/** The worker-facing dataset: what is staged, what travels, and what the reader makes of it. */
module WorkerFormat {
  import opened Words
  import opened ChunkId
  import opened Columns
  import Tables

  /** One chunk as the worker format carries it; an empty bitmap means every table is present. */
  datatype WorkerRow = WorkerRow(core: Row, size: u32, writeSchemaId: u32, bitmap: seq<bv8>)

  // ----- staging -----

  datatype WorkerColumns = WorkerColumns(
    core: Core,
    sizes: seq<u32>,
    writeSchemaIds: seq<u32>,
    tablesPresent: seq<bv8>,
    tablesPresentEnds: seq<u32>,
    anyTablesTrimmed: bool)

  const NO_COLUMNS := WorkerColumns(EMPTY, [], [], [], [], false)

  /** The columns beside the shared ones; the end of a bitmap is cast, not checked. */
  function PushExtras(c: WorkerColumns, core: Core, row: WorkerRow): WorkerColumns {
    var bits := c.tablesPresent + row.bitmap;
    WorkerColumns(
      core,
      c.sizes + [row.size],
      c.writeSchemaIds + [row.writeSchemaId],
      bits,
      c.tablesPresentEnds + [Truncate32(|bits|)],
      c.anyTablesTrimmed || row.bitmap != [])
  }

  datatype PushedWorker = PushedWorker(columns: WorkerColumns, lastBlock: Option<u64>, outcome: Result<(), PushError>)

  function PushWorker(checkContinuity: bool, lastBlock: Option<u64>, c: WorkerColumns, row: WorkerRow): PushedWorker
    requires row.core.id.firstBlock <= row.core.id.lastBlock
  {
    var p := Push(checkContinuity, lastBlock, c.core, row.core);
    PushedWorker(if p.Wrote(c.core) then PushExtras(c, p.core, row) else c, p.lastBlock, p.outcome)
  }

  // ----- the columns of a list of rows -----

  function Cores(rows: seq<WorkerRow>): seq<Row> {
    seq(|rows|, i requires 0 <= i < |rows| => rows[i].core)
  }

  function BitmapBytes(rows: seq<WorkerRow>): nat {
    if rows == [] then 0 else BitmapBytes(rows[..|rows| - 1]) + |rows[|rows| - 1].bitmap|
  }

  /** The limits that staging checks; the size of the bitmap column is not among them. */
  predicate WorkerFits(rows: seq<WorkerRow>) {
    rows == [] ||
    var front, last := rows[..|rows| - 1], rows[|rows| - 1];
    && WorkerFits(front) && |front| <= U32_MAX
    && 0 <= Span(last.core.id) <= U32_MAX
    && WorkerRefs(Cores(rows)) <= U32_MAX
  }

  function ColumnsOf(rows: seq<WorkerRow>): (c: WorkerColumns)
    requires WorkerFits(rows)
    ensures |c.core.firstBlocks| == |rows| && |c.tablesPresent| == BitmapBytes(rows)
  {
    if rows == [] then NO_COLUMNS else
    var front := ColumnsOf(rows[..|rows| - 1]);
    PushExtras(front, PushRow(front.core, rows[|rows| - 1].core), rows[|rows| - 1])
  }

  /** The shared columns are those of the rows' shared parts. */
  lemma {:induction false} SharedColumns(rows: seq<WorkerRow>)
    requires WorkerFits(rows)
    ensures Fits(Cores(rows)) && ColumnsOf(rows).core == CoreOf(Cores(rows))
  {
    if rows != [] {
      SharedColumns(rows[..|rows| - 1]);
      assert Cores(rows)[..|rows| - 1] == Cores(rows[..|rows| - 1]);
    }
  }

  /** Where the bitmap of row `i` lies in the flat column, and its end as recorded, modulo 2^32. */
  ghost predicate BitmapAt(c: WorkerColumns, rows: seq<WorkerRow>, i: nat) {
    && i < |rows| == |c.tablesPresentEnds|
    && var start, end := BitmapBytes(rows[..i]), BitmapBytes(rows[..i + 1]);
       && c.tablesPresentEnds[i] == Truncate32(end)
       && start <= end <= |c.tablesPresent| && c.tablesPresent[start..end] == rows[i].bitmap
  }

  ghost predicate SizesAndSchemas(c: WorkerColumns, rows: seq<WorkerRow>) {
    && |c.sizes| == |c.writeSchemaIds| == |rows|
    && (forall i :: 0 <= i < |rows| ==>
      c.sizes[i] == rows[i].size && c.writeSchemaIds[i] == rows[i].writeSchemaId)
  }

  ghost predicate BitmapsLie(c: WorkerColumns, rows: seq<WorkerRow>) {
    && |c.tablesPresentEnds| == |rows| && |c.tablesPresent| == BitmapBytes(rows)
    && (forall i: nat :: i < |rows| ==> BitmapAt(c, rows, i))
  }

  predicate TrimsNone(rows: seq<WorkerRow>) { forall i :: 0 <= i < |rows| ==> rows[i].bitmap == [] }

  /** The columns beside the shared ones hold the rows. */
  ghost predicate Extras(c: WorkerColumns, rows: seq<WorkerRow>) {
    SizesAndSchemas(c, rows) && BitmapsLie(c, rows) && (!c.anyTablesTrimmed <==> TrimsNone(rows))
  }

  lemma {:induction false} BytesGrow(rows: seq<WorkerRow>, row: WorkerRow)
    ensures BitmapBytes(rows + [row]) == BitmapBytes(rows) + |row.bitmap|
  {
    var all := rows + [row];
    assert all[..|all| - 1] == rows;
  }

  lemma {:induction false} PushKeepsBitmap(
    c: WorkerColumns, core: Core, rows: seq<WorkerRow>, row: WorkerRow, i: nat)
    requires BitmapAt(c, rows, i)
    ensures BitmapAt(PushExtras(c, core, row), rows + [row], i)
  {
    var all := rows + [row];
    assert all[..i] == rows[..i] && all[..i + 1] == rows[..i + 1];
  }

  lemma {:induction false} PushAddsBitmap(c: WorkerColumns, core: Core, rows: seq<WorkerRow>, row: WorkerRow)
    requires |c.tablesPresentEnds| == |rows| && |c.tablesPresent| == BitmapBytes(rows)
    ensures BitmapAt(PushExtras(c, core, row), rows + [row], |rows|)
  {
    var all := rows + [row];
    BytesGrow(rows, row);
    assert all[..|rows|] == rows && all[..|rows| + 1] == all;
  }

  lemma {:induction false} PushKeepsBitmaps(c: WorkerColumns, core: Core, rows: seq<WorkerRow>, row: WorkerRow)
    requires BitmapsLie(c, rows)
    ensures BitmapsLie(PushExtras(c, core, row), rows + [row])
  {
    BytesGrow(rows, row);
    forall i: nat | i < |rows| ensures BitmapAt(PushExtras(c, core, row), rows + [row], i) {
      PushKeepsBitmap(c, core, rows, row, i);
    }
    PushAddsBitmap(c, core, rows, row);
  }

  lemma PushKeepsSizes(c: WorkerColumns, core: Core, rows: seq<WorkerRow>, row: WorkerRow)
    requires SizesAndSchemas(c, rows)
    ensures SizesAndSchemas(PushExtras(c, core, row), rows + [row])
  {
  }

  lemma {:induction false} TrimsNoneGrows(rows: seq<WorkerRow>, row: WorkerRow)
    ensures TrimsNone(rows + [row]) <==> TrimsNone(rows) && row.bitmap == []
  {
    var all := rows + [row];
    assert all[|rows|] == row;
    if i :| 0 <= i < |rows| && rows[i].bitmap != [] {
      assert all[i].bitmap != [];
    }
  }

  lemma {:induction false} PushKeepsExtras(c: WorkerColumns, core: Core, rows: seq<WorkerRow>, row: WorkerRow)
    requires Extras(c, rows)
    ensures Extras(PushExtras(c, core, row), rows + [row])
  {
    PushKeepsSizes(c, core, rows, row);
    PushKeepsBitmaps(c, core, rows, row);
    TrimsNoneGrows(rows, row);
  }

  lemma {:induction false} ExtrasRepresent(rows: seq<WorkerRow>)
    requires WorkerFits(rows)
    ensures Extras(ColumnsOf(rows), rows)
  {
    if rows != [] {
      var front, last := rows[..|rows| - 1], rows[|rows| - 1];
      ExtrasRepresent(front);
      var c := ColumnsOf(front);
      PushKeepsExtras(c, PushRow(c.core, last.core), front, last);
      assert rows == front + [last];
    }
  }

  /** Every list of worker rows that fits is represented column by column, the shared columns included. */
  lemma {:induction false} ColumnsRepresent(rows: seq<WorkerRow>)
    requires WorkerFits(rows)
    ensures Represents(ColumnsOf(rows).core, Cores(rows)) && Extras(ColumnsOf(rows), rows)
  {
    SharedColumns(rows);
    CoreRepresents(Cores(rows));
    ExtrasRepresent(rows);
  }

  // ----- the emitted dataset -----

  datatype WorkerDataset = WorkerDataset(
    id: string,
    baseUrl: string,
    generations: Option<map<u32, string>>,
    data: Data,
    sizes: seq<u32>,
    writeSchemaIds: seq<u32>,
    tablesPresentOffsets: Option<seq<u32>>,
    tablesPresent: Option<seq<bv8>>)

  /** Bitmaps are dropped when no chunk trimmed its tables, generations when none is registered. */
  function EmitWorker(id: string, baseUrl: string, generations: map<u32, string>, c: WorkerColumns, lastBlock: u64)
    : WorkerDataset
  {
    WorkerDataset(
      id, baseUrl,
      if generations == map[] then None else Some(generations),
      Emit(c.core, lastBlock), c.sizes, c.writeSchemaIds,
      if c.anyTablesTrimmed then Some([0] + c.tablesPresentEnds) else None,
      if c.anyTablesTrimmed then Some(c.tablesPresent) else None)
  }

  // ----- the reader -----

  predicate WorkerAccepted(d: WorkerDataset) {
    && Accepted(d.data)
    && |d.sizes| == |d.writeSchemaIds| == |d.data.firstBlocks|
    && (d.tablesPresentOffsets.Some? ==> SaturatingPred(|d.tablesPresentOffsets.value|) == |d.data.firstBlocks|)
  }

  /** The column lists `from_owned` hands to the check for one dataset. */
  method CheckDataset(d: WorkerDataset) returns (r: Result<(), ColumnError>)
    ensures r.Ok? <==> WorkerAccepted(d)
  {
    var dense := [
      ("block_deltas", |d.data.blockDeltas|),
      ("hashes", |d.data.hashes|),
      ("sizes", |d.sizes|),
      ("write_schema_ids", |d.writeSchemaIds|),
      ("worker_offsets", SaturatingPred(|d.data.workerOffsets|))];
    var versions := if d.data.versions.Some? then [("versions", |d.data.versions.value|)] else [];
    var tables := if d.tablesPresentOffsets.Some?
      then [("tables_present_offsets", SaturatingPred(|d.tablesPresentOffsets.value|))] else [];
    var columns := dense + versions + tables;
    var runs := [("tops", FirstRun(d.data))];
    r := CheckColumns(|d.data.firstBlocks|, columns, runs);
    assert columns[0] == dense[0] && columns[1] == dense[1] && columns[2] == dense[2]
        && columns[3] == dense[3] && columns[4] == dense[4];
    assert d.data.versions.Some? ==> columns[5] == versions[0];
    assert d.tablesPresentOffsets.Some? ==> columns[|columns| - 1] == tables[0];
    assert runs[0].1 == FirstRun(d.data);
  }

  /** Loading stops at the first dataset whose columns disagree. */
  method FromOwned(datasets: seq<WorkerDataset>) returns (r: Result<(), (string, ColumnError)>)
    ensures r.Ok? <==> forall d :: d in datasets ==> WorkerAccepted(d)
    ensures r.Err? ==> exists d :: d in datasets && d.id == r.error.0 && !WorkerAccepted(d)
  {
    for k := 0 to |datasets|
      invariant forall j :: 0 <= j < k ==> WorkerAccepted(datasets[j])
    {
      var d := datasets[k];
      var checked := CheckDataset(d);
      match checked {
        case Err(e) =>
          assert d in datasets;
          return Err((d.id, e));
        case Ok(_) =>
      }
    }
    return Ok(());
  }

  function TablesPresent(d: WorkerDataset, i: nat): Option<seq<bv8>>
    requires WorkerAccepted(d) && i < |d.data.firstBlocks|
  {
    match (d.tablesPresentOffsets, d.tablesPresent)
    case (Some(offsets), Some(bytes)) =>
      var start, end := offsets[i], offsets[i + 1];
      if start < end <= |bytes| then Some(bytes[start..end]) else None
    case _ => None
  }

  /** Everything a worker dataset says about chunk `i`. */
  function ReadWorkerRow(d: WorkerDataset, i: nat): WorkerRow
    requires WorkerAccepted(d) && i < |d.data.firstBlocks|
  {
    WorkerRow(ReadRow(d.data, i), d.sizes[i], d.writeSchemaIds[i],
              match TablesPresent(d, i) case None => [] case Some(bits) => bits)
  }

  function GetGeneration(d: WorkerDataset, version: u32): Option<string> {
    match d.generations
    case Some(entries) => if version in entries then Some(entries[version]) else None
    case None => None
  }

  predicate EndsWithSlash(s: string) { s != [] && s[|s| - 1] == '/' }

  function TrimLeadingSlashes(s: string): string {
    if s != [] && s[0] == '/' then TrimLeadingSlashes(s[1..]) else s
  }

  function Slashed(s: string): string { if EndsWithSlash(s) then s else s + "/" }

  predicate EndsInTwo(s: string) { |s| >= 2 && s[|s| - 1] == s[|s| - 2] == '/' }

  /** A segment is joined with exactly one separator, unless the left side already ends in two. */
  lemma {:induction false} OneSeparator(url: string, segment: string)
    ensures EndsWithSlash(Slashed(url)) && (EndsInTwo(Slashed(url)) <==> EndsInTwo(url))
    ensures var rest := TrimLeadingSlashes(segment);
            && (rest != [] ==> rest[0] != '/')
            && |rest| <= |segment| && segment[|segment| - |rest|..] == rest
            && forall k :: 0 <= k < |segment| - |rest| ==> segment[k] == '/'
  {
    if segment != [] && segment[0] == '/' {
      OneSeparator(url, segment[1..]);
    }
  }

  /** A left side for which it is not so: both of its slashes stay. */
  lemma {:induction false} TwoSlashesStay()
    ensures Slashed("a//") + TrimLeadingSlashes("/b") == "a//b"
  {
    assert TrimLeadingSlashes("b") == "b" && "/b"[1..] == "b";
  }

  /** The chunk id, rebuilt from the columns. */
  function Id(d: WorkerDataset, i: nat): Option<string>
    requires WorkerAccepted(d) && i < |d.data.firstBlocks|
  {
    var id := ReadRow(d.data, i).id;
    match HashText(id.lastHash)
    case None => None
    case Some(hash) => Some(ChunkIdText(id.top, id.firstBlock, id.lastBlock, hash))
  }

  /** The prefix a version's files hang under; `None` for a version without a generation. */
  function VersionBase(d: WorkerDataset, version: u32): Option<string> {
    if version == 0 then Some(Slashed(d.baseUrl)) else
    match GetGeneration(d, version)
    case None => None
    case Some(prefix) => Some(Slashed(Slashed(d.baseUrl) + TrimLeadingSlashes(prefix)))
  }

  /** Where the chunk's files live: base url, the prefix of its generation, then the chunk id. */
  function Url(d: WorkerDataset, i: nat): Option<string>
    requires WorkerAccepted(d) && i < |d.data.firstBlocks|
  {
    match Id(d, i)
    case None => None
    case Some(id) =>
      match VersionBase(d, Version(d.data, i))
      case None => None
      case Some(base) => Some(base + id)
  }

  /** `None` when the write schema has no roster in the assignment. */
  function ChunkTables(schemas: map<u32, seq<string>>, d: WorkerDataset, i: nat): Option<seq<string>>
    requires WorkerAccepted(d) && i < |d.data.firstBlocks|
  {
    var schema := d.writeSchemaIds[i];
    if schema in schemas then Some(Tables.ChunkTables(schemas[schema], TablesPresent(d, i))) else None
  }

  /** What the reader makes of the tables of any accepted dataset: none at all exactly for an unknown schema. */
  lemma {:induction false} TablesAnywhere(schemas: map<u32, seq<string>>, d: WorkerDataset, i: nat, name: string)
    requires WorkerAccepted(d) && i < |d.data.firstBlocks|
    ensures ChunkTables(schemas, d, i).Some? <==> d.writeSchemaIds[i] in schemas
    ensures ChunkTables(schemas, d, i).Some? ==>
              (name in ChunkTables(schemas, d, i).value <==>
                 exists k: nat :: Tables.Shows(schemas[d.writeSchemaIds[i]], TablesPresent(d, i), name, k))
  {
    if d.writeSchemaIds[i] in schemas {
      Tables.ListedIff(schemas[d.writeSchemaIds[i]], TablesPresent(d, i), name);
    }
  }

  /** A bitmap is read only where both offsets lie inside the column and leave something between them. */
  lemma BitmapAnywhere(d: WorkerDataset, i: nat)
    requires WorkerAccepted(d) && i < |d.data.firstBlocks|
    ensures TablesPresent(d, i).Some? <==>
              && d.tablesPresentOffsets.Some? && d.tablesPresent.Some?
              && var start, end := d.tablesPresentOffsets.value[i], d.tablesPresentOffsets.value[i + 1];
                 start < end && end <= |d.tablesPresent.value|
    ensures TablesPresent(d, i).Some? ==>
              var start, bits := d.tablesPresentOffsets.value[i], TablesPresent(d, i).value;
              && |bits| == d.tablesPresentOffsets.value[i + 1] - start
              && forall k :: 0 <= k < |bits| ==> bits[k] == d.tablesPresent.value[start + k]
  {
  }

  // ----- round trip -----

  /** The recorded bounds of bitmap `i`. */
  lemma {:induction false} BoundsOf(c: WorkerColumns, rows: seq<WorkerRow>, i: nat)
    requires Extras(c, rows) && i < |rows|
    ensures var offsets := [0] + c.tablesPresentEnds;
            && offsets[i] == Truncate32(BitmapBytes(rows[..i]))
            && offsets[i + 1] == Truncate32(BitmapBytes(rows[..i + 1]))
  {
    assert BitmapAt(c, rows, i);
    if i > 0 {
      assert BitmapAt(c, rows, i - 1);
    }
  }

  /** The dataset carries the bitmap columns of `c`. */
  predicate Carries(d: WorkerDataset, c: WorkerColumns) {
    && d.tablesPresentOffsets == (if c.anyTablesTrimmed then Some([0] + c.tablesPresentEnds) else None)
    && d.tablesPresent == (if c.anyTablesTrimmed then Some(c.tablesPresent) else None)
  }

  /** The bitmap of row `i` is empty, or the column up to its end is no longer than u32 counts. */
  predicate BitmapReached(rows: seq<WorkerRow>, i: nat)
    requires i < |rows|
  {
    rows[i].bitmap == [] || BitmapBytes(rows[..i + 1]) <= U32_MAX
  }

  lemma {:induction false} BitmapResolves(c: WorkerColumns, rows: seq<WorkerRow>, d: WorkerDataset, i: nat)
    requires Extras(c, rows) && i < |rows| == |d.data.firstBlocks| && WorkerAccepted(d) && Carries(d, c)
    requires BitmapReached(rows, i)
    ensures TablesPresent(d, i) == if rows[i].bitmap == [] then None else Some(rows[i].bitmap)
  {
    if c.anyTablesTrimmed {
      assert BitmapAt(c, rows, i);
      BoundsOf(c, rows, i);
      var start, end := BitmapBytes(rows[..i]), BitmapBytes(rows[..i + 1]);
      if rows[i].bitmap == [] {
        assert start == end;
      } else {
        assert Truncate32(start) == start < end == Truncate32(end);
      }
    }
  }

  /** Row `i` is the one whose bitmap takes the column past u32. */
  predicate Crosses(rows: seq<WorkerRow>, i: nat) {
    i < |rows| && BitmapBytes(rows[..i]) <= U32_MAX < BitmapBytes(rows[..i + 1])
  }

  lemma CastFallsBack(start: nat, end: nat)
    requires start <= U32_MAX < end
    ensures Truncate32(start) == start && Truncate32(end) < end
    ensures end - start <= U32_MAX ==> Truncate32(end) < start
  {
  }

  /** Its end was cast, so the reader finds too few bits there, or none. */
  lemma {:induction false} CrossingIsMisread(c: WorkerColumns, rows: seq<WorkerRow>, d: WorkerDataset, i: nat)
    requires Extras(c, rows) && Crosses(rows, i) && i < |d.data.firstBlocks| && WorkerAccepted(d) && Carries(d, c)
    ensures |ReadWorkerRow(d, i).bitmap| < |rows[i].bitmap|
    ensures |rows[i].bitmap| <= U32_MAX ==> TablesPresent(d, i) == None
  {
    assert BitmapAt(c, rows, i);
    BoundsOf(c, rows, i);
    CastFallsBack(BitmapBytes(rows[..i]), BitmapBytes(rows[..i + 1]));
  }

  lemma {:induction false} SomeRowCrosses(rows: seq<WorkerRow>) returns (i: nat)
    requires BitmapBytes(rows) > U32_MAX
    ensures Crosses(rows, i)
  {
    var front := rows[..|rows| - 1];
    if BitmapBytes(front) > U32_MAX {
      i := SomeRowCrosses(front);
      assert front[..i] == rows[..i] && front[..i + 1] == rows[..i + 1];
    } else {
      i := |front|;
      assert rows[..i + 1] == rows;
    }
  }

  lemma {:induction false} BytesOfPrefix(rows: seq<WorkerRow>, i: nat)
    requires i <= |rows|
    ensures BitmapBytes(rows[..i]) <= BitmapBytes(rows)
  {
    if i < |rows| {
      BytesOfPrefix(rows[..|rows| - 1], i);
      assert rows[..|rows| - 1][..i] == rows[..i];
    } else {
      assert rows[..i] == rows;
    }
  }

  /**
   * The full round trip: the emitted dataset is accepted and gives back every staged row; the bitmap,
   * where the column reaches it.
   */
  lemma {:induction false} WorkerRoundTrip(
    id: string, baseUrl: string, gens: map<u32, string>, rows: seq<WorkerRow>, lastBlock: u64, i: nat)
    requires WorkerFits(rows) && i < |rows|
    ensures var d := EmitWorker(id, baseUrl, gens, ColumnsOf(rows), lastBlock);
            && WorkerAccepted(d) && |d.data.firstBlocks| == |rows|
            && ReadWorkerRow(d, i) == rows[i].(bitmap := ReadWorkerRow(d, i).bitmap)
            && (BitmapReached(rows, i) ==>
                  && ReadWorkerRow(d, i) == rows[i]
                  && TablesPresent(d, i) == if rows[i].bitmap == [] then None else Some(rows[i].bitmap))
  {
    var c := ColumnsOf(rows);
    ColumnsRepresent(rows);
    SharedColumns(rows);
    RowRoundTrip(Cores(rows), lastBlock, i);
    if BitmapReached(rows, i) {
      BitmapResolves(c, rows, EmitWorker(id, baseUrl, gens, c, lastBlock), i);
    }
  }

  lemma {:induction false} MisreadRow(
    id: string, baseUrl: string, gens: map<u32, string>, rows: seq<WorkerRow>, lastBlock: u64) returns (i: nat)
    requires WorkerFits(rows) && BitmapBytes(rows) > U32_MAX
    ensures var d := EmitWorker(id, baseUrl, gens, ColumnsOf(rows), lastBlock);
            && i < |rows| && WorkerAccepted(d) && |d.data.firstBlocks| == |rows|
            && |ReadWorkerRow(d, i).bitmap| < |rows[i].bitmap|
            && (|rows[i].bitmap| <= U32_MAX ==> TablesPresent(d, i) == None)
  {
    i := SomeRowCrosses(rows);
    WorkerRoundTrip(id, baseUrl, gens, rows, lastBlock, i);
    ColumnsRepresent(rows);
    CrossingIsMisread(ColumnsOf(rows), rows, EmitWorker(id, baseUrl, gens, ColumnsOf(rows), lastBlock), i);
  }

  /** Bitmaps travel exactly when some chunk has one, and generations exactly when one is registered. */
  lemma {:induction false} OptionalColumnsIff(
    id: string, baseUrl: string, gens: map<u32, string>, rows: seq<WorkerRow>, lastBlock: u64)
    requires WorkerFits(rows)
    ensures var d := EmitWorker(id, baseUrl, gens, ColumnsOf(rows), lastBlock);
            && (d.tablesPresent.Some? <==> exists i :: 0 <= i < |rows| && rows[i].bitmap != [])
            && (d.tablesPresentOffsets.Some? <==> d.tablesPresent.Some?)
            && (d.generations.Some? <==> gens != map[])
  {
    ColumnsRepresent(rows);
  }

  /** Every row comes back if and only if u32 can count the bytes of all bitmaps. */
  lemma {:induction false} RowsComeBackIff(
    id: string, baseUrl: string, gens: map<u32, string>, rows: seq<WorkerRow>, lastBlock: u64)
    requires WorkerFits(rows) && rows != []
    ensures var d := EmitWorker(id, baseUrl, gens, ColumnsOf(rows), lastBlock);
            && WorkerAccepted(d) && |d.data.firstBlocks| == |rows|
            && ((forall i: nat :: i < |rows| ==> ReadWorkerRow(d, i) == rows[i]) <==> BitmapBytes(rows) <= U32_MAX)
  {
    var d := EmitWorker(id, baseUrl, gens, ColumnsOf(rows), lastBlock);
    WorkerRoundTrip(id, baseUrl, gens, rows, lastBlock, 0);
    if BitmapBytes(rows) <= U32_MAX {
      forall i: nat | i < |rows| ensures ReadWorkerRow(d, i) == rows[i] {
        BytesOfPrefix(rows, i + 1);
        WorkerRoundTrip(id, baseUrl, gens, rows, lastBlock, i);
      }
    } else {
      var i := MisreadRow(id, baseUrl, gens, rows, lastBlock);
      assert ReadWorkerRow(d, i) != rows[i];
    }
  }

  /** Where a chunk's files live, from what the dataset was opened with and its generations. */
  function FilesUrl(baseUrl: string, gens: map<u32, string>, version: u32, id: string): string
    requires version == 0 || version in gens
  {
    (if version == 0 then Slashed(baseUrl) else Slashed(Slashed(baseUrl) + TrimLeadingSlashes(gens[version]))) + id
  }

  /** The id, the generation and the url come back too; there is no url exactly for an unregistered version. */
  lemma {:induction false} UrlRoundTrip(
    id: string, baseUrl: string, gens: map<u32, string>, rows: seq<WorkerRow>, lastBlock: u64, i: nat)
    requires WorkerFits(rows) && i < |rows| && Valid(rows[i].core.id)
    ensures var d := EmitWorker(id, baseUrl, gens, ColumnsOf(rows), lastBlock);
            var version := rows[i].core.version;
            && WorkerAccepted(d) && |d.data.firstBlocks| == |rows|
            && Id(d, i) == Some(Display(rows[i].core.id))
            && GetGeneration(d, version) == (if version in gens then Some(gens[version]) else None)
            && Url(d, i) == if version == 0 || version in gens
                            then Some(FilesUrl(baseUrl, gens, version, Display(rows[i].core.id))) else None
  {
    WorkerRoundTrip(id, baseUrl, gens, rows, lastBlock, i);
    UrlOfRow(EmitWorker(id, baseUrl, gens, ColumnsOf(rows), lastBlock), i, rows[i].core);
  }

  lemma {:induction false} UrlOfRow(d: WorkerDataset, i: nat, row: Row)
    requires WorkerAccepted(d) && i < |d.data.firstBlocks| && ReadRow(d.data, i) == row && Valid(row.id)
    ensures Id(d, i) == Some(Display(row.id))
    ensures Url(d, i) == match VersionBase(d, row.version)
                         case None => None
                         case Some(base) => Some(base + Display(row.id))
  {
    IdRebuilt(row.id);
  }
}
