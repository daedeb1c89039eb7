/**
  The row encoding of the processors profile log: one record of per-processor
  execution statistics (`ProcessorProfileLogElement`), the fixed list of
  sixteen named, typed columns it is stored under (`Schema`), and the
  operation that appends one record as one row across those columns
  (`AppendToBlock`).

  The pure row a record turns into is `EncodeRow`; `DecodeRow` reads a row
  back and is its inverse.  A block is the sequence of columns the log writes
  into, one sequence of cells per column.
*/
module ProcessorsProfileLog {
  import opened Wrappers
  import opened ColumnTypes

  /** One processor's execution record, with the fields the encoder reads. */
  datatype ProcessorProfileLogElement = ProcessorProfileLogElement(
    eventTime: int,               // seconds
    eventTimeMicroseconds: int,   // ticks of a DateTime64 with scale 6
    id: uint64,
    parentIds: seq<uint64>,
    planStep: uint64,
    planGroup: uint64,
    queryId: string,
    processorName: string,
    elapsedUs: uint64,
    inputWaitElapsedUs: uint64,
    outputWaitElapsedUs: uint64,
    inputRows: uint64,
    inputBytes: uint64,
    outputRows: uint64,
    outputBytes: uint64)

  /** The timezone table's day-number conversion, supplied by the caller. */
  type DayNumOf = int -> uint16

  // ---------------------------------------------------------------------
  // Schema

  /** The declared columns, in order: name and data type. */
  function Schema(): (s: seq<(string, ColType)>)
    ensures |s| == 16
  {
    [ ("event_date", Date),
      ("event_time", DateTime),
      ("event_time_microseconds", DateTime64(6)),
      ("id", UInt64),
      ("parent_ids", Array(UInt64)),
      ("plan_step", UInt64),
      ("plan_group", UInt64),
      ("query_id", String),
      ("name", LowCardinality(String)),
      ("elapsed_us", UInt64),
      ("input_wait_elapsed_us", UInt64),
      ("output_wait_elapsed_us", UInt64),
      ("input_rows", UInt64),
      ("input_bytes", UInt64),
      ("output_rows", UInt64),
      ("output_bytes", UInt64) ]
  }

  /** No two columns of the schema share a name. */
  lemma SchemaNamesDistinct()
    ensures forall j, k :: 0 <= j < k < |Schema()| ==> Schema()[j].0 != Schema()[k].0
  {
  }

  /** The position of the column called `name`, searching from `from` on. */
  function FindColumn(name: string, from: nat): (k: Option<nat>)
    requires from <= |Schema()|
    ensures k.Some? ==> from <= k.value < |Schema()| && Schema()[k.value].0 == name
    ensures k.None? ==> forall j :: from <= j < |Schema()| ==> Schema()[j].0 != name
    decreases |Schema()| - from
  {
    if from == |Schema()| then None
    else if Schema()[from].0 == name then Some(from)
    else FindColumn(name, from + 1)
  }

  /** The position of the column called `name`, if the schema declares one. */
  function ColumnIndex(name: string): Option<nat> {
    FindColumn(name, 0)
  }

  /** A row fits the schema: one cell per column, each of its column's type. */
  predicate MatchesSchema(row: seq<Cell>) {
    && |row| == |Schema()|
    && forall k :: 0 <= k < |row| ==> HasType(row[k], Schema()[k].1)
  }

  // ---------------------------------------------------------------------
  // Encoding one record

  /** The array value built from `parent_ids`, one UInt64 per id. */
  function ParentIdsCells(ids: seq<uint64>): (cells: seq<Cell>)
    ensures |cells| == |ids|
    ensures forall k :: 0 <= k < |ids| ==> cells[k] == UInt64Cell(ids[k])
  {
    if ids == [] then [] else ParentIdsCells(ids[..|ids| - 1]) + [UInt64Cell(ids[|ids| - 1])]
  }

  /** The cells `AppendToBlock` appends, column by column. */
  function EncodeRow(e: ProcessorProfileLogElement, toDayNum: DayNumOf): seq<Cell> {
    [ DateCell(toDayNum(e.eventTime)),
      DateTimeCell(e.eventTime),
      DateTime64Cell(e.eventTimeMicroseconds),
      UInt64Cell(e.id),
      ArrayCell(ParentIdsCells(e.parentIds)),
      UInt64Cell(e.planStep),
      UInt64Cell(e.planGroup),
      StringCell(e.queryId),
      StringCell(e.processorName),
      UInt64Cell(e.elapsedUs),
      UInt64Cell(e.inputWaitElapsedUs),
      UInt64Cell(e.outputWaitElapsedUs),
      UInt64Cell(e.inputRows),
      UInt64Cell(e.inputBytes),
      UInt64Cell(e.outputRows),
      UInt64Cell(e.outputBytes) ]
  }

  /**
    The row a record encodes to fits the schema: sixteen cells, each of the
    type its column declares (the id array into the Array(UInt64) column,
    strings into the String and LowCardinality(String) columns, and so on).
  */
  lemma EncodeRowMatchesSchema(e: ProcessorProfileLogElement, toDayNum: DayNumOf)
    ensures MatchesSchema(EncodeRow(e, toDayNum))
  {
  }

  /**
    The value a record gives to the column called `name`, looked up by name
    rather than by position; None for a name the log does not have.
  */
  function NamedValue(e: ProcessorProfileLogElement, toDayNum: DayNumOf, name: string): Option<Cell> {
    match name
    case "event_date" => Some(DateCell(toDayNum(e.eventTime)))
    case "event_time" => Some(DateTimeCell(e.eventTime))
    case "event_time_microseconds" => Some(DateTime64Cell(e.eventTimeMicroseconds))
    case "id" => Some(UInt64Cell(e.id))
    case "parent_ids" => Some(ArrayCell(ParentIdsCells(e.parentIds)))
    case "plan_step" => Some(UInt64Cell(e.planStep))
    case "plan_group" => Some(UInt64Cell(e.planGroup))
    case "query_id" => Some(StringCell(e.queryId))
    case "name" => Some(StringCell(e.processorName))
    case "elapsed_us" => Some(UInt64Cell(e.elapsedUs))
    case "input_wait_elapsed_us" => Some(UInt64Cell(e.inputWaitElapsedUs))
    case "output_wait_elapsed_us" => Some(UInt64Cell(e.outputWaitElapsedUs))
    case "input_rows" => Some(UInt64Cell(e.inputRows))
    case "input_bytes" => Some(UInt64Cell(e.inputBytes))
    case "output_rows" => Some(UInt64Cell(e.outputRows))
    case "output_bytes" => Some(UInt64Cell(e.outputBytes))
    case _ => None
  }

  /** The cell a schema-shaped row holds in the column called `name`. */
  function ColumnValue(row: seq<Cell>, name: string): Option<Cell>
    requires |row| == |Schema()|
  {
    match ColumnIndex(name)
    case Some(k) => Some(row[k])
    case None => None
  }

  /**
    Schema and row agree by name: every column the schema declares receives
    the field its name stands for.
  */
  lemma EncodeRowFollowsNames(e: ProcessorProfileLogElement, toDayNum: DayNumOf)
    ensures forall k :: 0 <= k < |Schema()| ==>
      NamedValue(e, toDayNum, Schema()[k].0) == Some(EncodeRow(e, toDayNum)[k])
  {
  }

  /**
    Looking a column up by name in an encoded row gives the field that name
    stands for, and nothing for a name the schema does not declare.
  */
  lemma ColumnValueOfEncodedRow(e: ProcessorProfileLogElement, toDayNum: DayNumOf, name: string)
    ensures ColumnValue(EncodeRow(e, toDayNum), name) == NamedValue(e, toDayNum, name)
  {
    var s := Schema();
    match ColumnIndex(name)
    case Some(k) =>
      EncodeRowFollowsNames(e, toDayNum);
    case None =>
      assert s[0].0 != name && s[1].0 != name && s[2].0 != name && s[3].0 != name;
      assert s[4].0 != name && s[5].0 != name && s[6].0 != name && s[7].0 != name;
      assert s[8].0 != name && s[9].0 != name && s[10].0 != name && s[11].0 != name;
      assert s[12].0 != name && s[13].0 != name && s[14].0 != name && s[15].0 != name;
  }

  // ---------------------------------------------------------------------
  // Decoding one row

  /** Reads the ids back out of a `parent_ids` array value. */
  function IdsOf(cells: seq<Cell>): (ids: seq<uint64>)
    requires forall k :: 0 <= k < |cells| ==> cells[k].UInt64Cell?
    ensures ParentIdsCells(ids) == cells
  {
    seq(|cells|, k requires 0 <= k < |cells| => cells[k].value)
  }

  /** Reads a row back: its event_date and the record the other columns hold. */
  function DecodeRow(row: seq<Cell>): Option<(uint16, ProcessorProfileLogElement)> {
    if |row| == |Schema()|
      && row[0].DateCell? && row[1].DateTimeCell? && row[2].DateTime64Cell?
      && row[3].UInt64Cell? && row[4].ArrayCell? && (forall k :: 0 <= k < |row[4].elems| ==> row[4].elems[k].UInt64Cell?)
      && row[5].UInt64Cell? && row[6].UInt64Cell? && row[7].StringCell? && row[8].StringCell?
      && row[9].UInt64Cell? && row[10].UInt64Cell? && row[11].UInt64Cell?
      && row[12].UInt64Cell? && row[13].UInt64Cell? && row[14].UInt64Cell? && row[15].UInt64Cell?
    then
      Some((row[0].dayNum, ProcessorProfileLogElement(
        row[1].seconds, row[2].ticks, row[3].value, IdsOf(row[4].elems),
        row[5].value, row[6].value, row[7].chars, row[8].chars,
        row[9].value, row[10].value, row[11].value,
        row[12].value, row[13].value, row[14].value, row[15].value)))
    else
      None
  }

  /** A row can be read back exactly when it fits the schema. */
  lemma DecodeRowAcceptsSchemaRows(row: seq<Cell>)
    ensures DecodeRow(row).Some? <==> MatchesSchema(row)
  {
  }

  /** For example, the ids [3, 7] become the array value [3, 7]. */
  lemma ParentIdsExample()
    ensures ParentIdsCells([3, 7]) == [UInt64Cell(3), UInt64Cell(7)]
  {
  }

  /** The id array of a record reads back as the same ids, in the same order. */
  lemma ParentIdsRoundTrip(ids: seq<uint64>)
    ensures IdsOf(ParentIdsCells(ids)) == ids
  {
  }

  /**
    Decoding an encoded record gives back the record, field for field, with
    the day number of its event time as event_date.
  */
  lemma EncodeDecodeRoundTrip(e: ProcessorProfileLogElement, toDayNum: DayNumOf)
    ensures DecodeRow(EncodeRow(e, toDayNum)) == Some((toDayNum(e.eventTime), e))
  {
    ParentIdsRoundTrip(e.parentIds);
  }

  /**
    A row that decodes to a record, and whose event_date is that record's day
    number, is exactly the row that record encodes to.
  */
  lemma DecodeThenEncode(row: seq<Cell>, toDayNum: DayNumOf, eventDate: uint16, e: ProcessorProfileLogElement)
    requires DecodeRow(row) == Some((eventDate, e))
    requires eventDate == toDayNum(e.eventTime)
    ensures EncodeRow(e, toDayNum) == row
  {
  }

  // ---------------------------------------------------------------------
  // Blocks of columns

  /** Every cell of every column has the type the schema declares for it. */
  predicate WellTyped(cols: seq<seq<Cell>>) {
    && |cols| == |Schema()|
    && forall k, n :: 0 <= k < |cols| && 0 <= n < |cols[k]| ==> HasType(cols[k][n], Schema()[k].1)
  }

  /** Every column holds `rows` cells. */
  predicate Rectangular(cols: seq<seq<Cell>>, rows: nat) {
    forall k :: 0 <= k < |cols| ==> |cols[k]| == rows
  }

  /** The first `n` columns get their cell of `row` at the end; the others stay as they are. */
  function AppendFirst(cols: seq<seq<Cell>>, row: seq<Cell>, n: nat): seq<seq<Cell>>
    requires n <= |row| <= |cols|
  {
    seq(|cols|, k requires 0 <= k < |cols| => if k < n then cols[k] + [row[k]] else cols[k])
  }

  /** Column k gets `row[k]` at its end; columns past the row stay as they are. */
  function AppendRow(cols: seq<seq<Cell>>, row: seq<Cell>): seq<seq<Cell>>
    requires |row| <= |cols|
  {
    AppendFirst(cols, row, |row|)
  }

  /**
    Appending a row grows each of its columns by exactly one cell, that
    column's cell of the row, keeps what the column held before it, and
    leaves every other column as it was.
  */
  lemma AppendRowGrowsByOne(cols: seq<seq<Cell>>, row: seq<Cell>)
    requires |row| <= |cols|
    ensures |AppendRow(cols, row)| == |cols|
    ensures forall k :: 0 <= k < |row| ==>
      && |AppendRow(cols, row)[k]| == |cols[k]| + 1
      && AppendRow(cols, row)[k][..|cols[k]|] == cols[k]
      && AppendRow(cols, row)[k][|cols[k]|] == row[k]
    ensures forall k :: |row| <= k < |cols| ==> AppendRow(cols, row)[k] == cols[k]
  {
  }

  /** The n-th row of a block: the n-th cell of each column. */
  function RowAt(cols: seq<seq<Cell>>, n: nat): (row: seq<Cell>)
    requires forall k :: 0 <= k < |cols| ==> n < |cols[k]|
  {
    seq(|cols|, k requires 0 <= k < |cols| => cols[k][n])
  }

  /**
    Appending a row that fits the schema keeps a block well typed and
    rectangular, adds exactly one row, leaves the rows already there as they
    were, and puts the appended row last.
  */
  lemma AppendRowToBlock(cols: seq<seq<Cell>>, rows: nat, row: seq<Cell>)
    requires WellTyped(cols) && Rectangular(cols, rows) && MatchesSchema(row)
    ensures WellTyped(AppendRow(cols, row)) && Rectangular(AppendRow(cols, row), rows + 1)
    ensures forall n :: 0 <= n < rows ==> RowAt(AppendRow(cols, row), n) == RowAt(cols, n)
    ensures RowAt(AppendRow(cols, row), rows) == row
  {
  }

  /** A block with all sixteen columns and no rows. */
  function EmptyBlock(): (cols: seq<seq<Cell>>)
    ensures WellTyped(cols) && Rectangular(cols, 0)
  {
    seq(|Schema()|, _ => [])
  }

  /** The block obtained by appending `es` one after another to an empty block. */
  function BlockOf(es: seq<ProcessorProfileLogElement>, toDayNum: DayNumOf): (cols: seq<seq<Cell>>)
    ensures |cols| == |Schema()|
  {
    if es == [] then EmptyBlock()
    else AppendRow(BlockOf(es[..|es| - 1], toDayNum), EncodeRow(es[|es| - 1], toDayNum))
  }

  /** A block built from a list of records is well typed and has one row per record. */
  lemma {:induction false} BlockOfShape(es: seq<ProcessorProfileLogElement>, toDayNum: DayNumOf)
    ensures WellTyped(BlockOf(es, toDayNum)) && Rectangular(BlockOf(es, toDayNum), |es|)
  {
    if es != [] {
      var init, row := es[..|es| - 1], EncodeRow(es[|es| - 1], toDayNum);
      BlockOfShape(init, toDayNum);
      EncodeRowMatchesSchema(es[|es| - 1], toDayNum);
      AppendRowToBlock(BlockOf(init, toDayNum), |init|, row);
    }
  }

  /** In a block built from a list of records, row n is exactly record n's encoding. */
  lemma {:induction false} BlockOfRows(es: seq<ProcessorProfileLogElement>, toDayNum: DayNumOf)
    ensures Rectangular(BlockOf(es, toDayNum), |es|)
    ensures forall n :: 0 <= n < |es| ==> RowAt(BlockOf(es, toDayNum), n) == EncodeRow(es[n], toDayNum)
  {
    BlockOfShape(es, toDayNum);
    if es != [] {
      var init, row := es[..|es| - 1], EncodeRow(es[|es| - 1], toDayNum);
      BlockOfRows(init, toDayNum);
      BlockOfShape(init, toDayNum);
      EncodeRowMatchesSchema(es[|es| - 1], toDayNum);
      AppendRowToBlock(BlockOf(init, toDayNum), |init|, row);
      forall n | 0 <= n < |init| ensures es[n] == init[n] {}
    }
  }

  /** Rows that are the encodings of records read back as those records. */
  lemma DecodeEncodedRows(cols: seq<seq<Cell>>, es: seq<ProcessorProfileLogElement>, toDayNum: DayNumOf)
    requires Rectangular(cols, |es|)
    requires forall n :: 0 <= n < |es| ==> RowAt(cols, n) == EncodeRow(es[n], toDayNum)
    ensures forall n :: 0 <= n < |es| ==> DecodeRow(RowAt(cols, n)) == Some((toDayNum(es[n].eventTime), es[n]))
  {
    forall n | 0 <= n < |es|
      ensures DecodeRow(RowAt(cols, n)) == Some((toDayNum(es[n].eventTime), es[n]))
    {
      EncodeDecodeRoundTrip(es[n], toDayNum);
    }
  }

  /**
    Every row of a block built from a list of records reads back as the
    record at the same position: no record is lost, duplicated, or mixed
    with another.
  */
  lemma BlockOfDecodes(es: seq<ProcessorProfileLogElement>, toDayNum: DayNumOf)
    ensures Rectangular(BlockOf(es, toDayNum), |es|)
    ensures forall n :: 0 <= n < |es| ==>
      DecodeRow(RowAt(BlockOf(es, toDayNum), n)) == Some((toDayNum(es[n].eventTime), es[n]))
  {
    BlockOfRows(es, toDayNum);
    DecodeEncodedRows(BlockOf(es, toDayNum), es, toDayNum);
  }

  // ---------------------------------------------------------------------
  // The imperative operation

  /** Builds the `parent_ids` array value element by element. */
  method BuildParentIdsArray(ids: seq<uint64>) returns (arr: seq<Cell>)
    ensures arr == ParentIdsCells(ids)
  {
    arr := [];
    for i := 0 to |ids|
      invariant arr == ParentIdsCells(ids[..i])
    {
      assert ids[..i + 1][..i] == ids[..i];
      arr := arr + [UInt64Cell(ids[i])];
    }
    assert ids[..|ids|] == ids;
  }

  /**
    The columns a block is being built in: one sequence of cells per column,
    each updated in place by `Insert`.
  */
  class MutableColumns {
    var columns: seq<seq<Cell>>

    constructor (initial: seq<seq<Cell>>)
      ensures columns == initial
    {
      columns := initial;
    }

    /**
      One column insert of `AppendToBlock`: column `i` receives `c`, the cell
      the row being appended holds at position `i`.  The ghost parameters are
      the columns before the row and the row itself: after the insert the
      first `i + 1` columns have their new cell and no other column changed.
    */
    method Insert(i: nat, c: Cell, ghost before: seq<seq<Cell>>, ghost row: seq<Cell>)
      requires i < |row| <= |before|
      requires columns == AppendFirst(before, row, i)
      requires c == row[i]
      modifies this
      ensures columns == AppendFirst(before, row, i + 1)
    {
      columns := columns[i := columns[i] + [c]];
    }
  }

  /**
    Appends one record as one row: each of the sixteen columns receives
    exactly one cell, the one `EncodeRow` gives for its position, and no
    other column changes.  The running index ends at the schema's length.
  */
  method AppendToBlock(e: ProcessorProfileLogElement, columns: MutableColumns, toDayNum: DayNumOf)
    requires |columns.columns| >= |Schema()|
    modifies columns
    ensures columns.columns == AppendRow(old(columns.columns), EncodeRow(e, toDayNum))
  {
    ghost var before, row := columns.columns, EncodeRow(e, toDayNum);
    assert columns.columns == AppendFirst(before, row, 0);
    var i: nat := 0;

    columns.Insert(i, DateCell(toDayNum(e.eventTime)), before, row); i := i + 1;
    columns.Insert(i, DateTimeCell(e.eventTime), before, row); i := i + 1;
    columns.Insert(i, DateTime64Cell(e.eventTimeMicroseconds), before, row); i := i + 1;

    columns.Insert(i, UInt64Cell(e.id), before, row); i := i + 1;
    {
      var parentIdsArray := BuildParentIdsArray(e.parentIds);
      columns.Insert(i, ArrayCell(parentIdsArray), before, row); i := i + 1;
    }
    columns.Insert(i, UInt64Cell(e.planStep), before, row); i := i + 1;
    columns.Insert(i, UInt64Cell(e.planGroup), before, row); i := i + 1;
    columns.Insert(i, StringCell(e.queryId), before, row); i := i + 1;
    columns.Insert(i, StringCell(e.processorName), before, row); i := i + 1;
    columns.Insert(i, UInt64Cell(e.elapsedUs), before, row); i := i + 1;
    columns.Insert(i, UInt64Cell(e.inputWaitElapsedUs), before, row); i := i + 1;
    columns.Insert(i, UInt64Cell(e.outputWaitElapsedUs), before, row); i := i + 1;
    columns.Insert(i, UInt64Cell(e.inputRows), before, row); i := i + 1;
    columns.Insert(i, UInt64Cell(e.inputBytes), before, row); i := i + 1;
    columns.Insert(i, UInt64Cell(e.outputRows), before, row); i := i + 1;
    columns.Insert(i, UInt64Cell(e.outputBytes), before, row); i := i + 1;

    assert i == |Schema()|;
  }
}
