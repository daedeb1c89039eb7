# Processors profile log: row encoding

This project models how the processors profile log stores one processor's
execution record.  `ProcessorProfileLogElement` holds the statistics of one
processor instance: its id, the ids of its parent processors, its plan
step and group, the query id, the processor name, three timings and four
volume counters, and the event time at second and microsecond precision.
`getNamesAndTypes` declares the table's sixteen named, typed columns.
`appendToBlock` appends one record as one row: one cell to each of the
sixteen columns, walking a running column index.

The model has three modules:

- `ColumnTypes`: the column data types (Date, DateTime, DateTime64 with its
  scale, UInt64, String, Array of a type, LowCardinality of a type), the
  cells a column holds, and `HasType`, which says which cells fit a type.
- `ProcessorsProfileLog`: the record, `Schema`, the pure encoding of a
  record as a row (`EncodeRow`), its inverse `DecodeRow`, blocks of columns,
  and the imperative `AppendToBlock` over a `MutableColumns` object whose
  columns it updates in place.
- `Wrappers`: the `Option` type used by lookups and by the decoder.

The proofs show that the schema has sixteen distinct column names, and that
every row `appendToBlock` emits matches the schema position by position and
type by type.  They show that looking a column up by name gives the field of
that name, and that the `parent_ids` array keeps its ids, in order.  They
show that a row decodes back to exactly the record it came from, numbers and
strings unchanged.  `AppendToBlock` adds exactly one cell to each of the
sixteen columns and changes nothing else; its body also asserts that the
running index ends at the schema's length.  Appending records one after another gives a well-typed
block whose row n reads back as record n.

`appendToBlock` does not check that `query_id` is non-empty, and neither does
the model.

## Model

| member | source | states |
|---|---|---|
| `ProcessorsProfileLog.Schema` | src/Interpreters/ProcessorsProfileLog.cpp:34-56 | The schema has exactly 16 columns. The list is a constant, so every call gives the same list. |
| `ProcessorsProfileLog.SchemaNamesDistinct` | src/Interpreters/ProcessorsProfileLog.cpp:36-55 | No two columns of the schema have the same name. |
| `ProcessorsProfileLog.ParentIdsCells` | src/Interpreters/ProcessorsProfileLog.cpp:68-72 | The parent array has as many elements as the record has parent ids, and element k is the UInt64 of id k, so order is kept. |
| `ProcessorsProfileLog.ParentIdsExample` | src/Interpreters/ProcessorsProfileLog.cpp:68-72 | The ids [3, 7] become the array [3, 7]. |
| `ProcessorsProfileLog.BuildParentIdsArray` | src/Interpreters/ProcessorsProfileLog.cpp:67-73 | The element-by-element loop builds exactly the parent array of the ids, in order. |
| `ProcessorsProfileLog.EncodeRowMatchesSchema` | src/Interpreters/ProcessorsProfileLog.cpp:36-84 | The emitted row has one cell per schema column, and cell k has the type declared for column k: the id array goes into the Array(UInt64) column, `query_id` into the String column, `processor_name` into the LowCardinality(String) column, and so on. |
| `ProcessorsProfileLog.EncodeRowFollowsNames` | src/Interpreters/ProcessorsProfileLog.cpp:36-84 | At each position the emitted cell is the field the column's name stands for. The first three cells are the day number of `event_time`, `event_time` and `event_time_microseconds`, in that order. |
| `ProcessorsProfileLog.ColumnValueOfEncodedRow` | src/Interpreters/ProcessorsProfileLog.cpp:36-84 | Looking a column up by name in an emitted row gives the field of that name. A name the schema does not declare gives nothing. |
| `ProcessorsProfileLog.DecodeRowAcceptsSchemaRows` | src/Interpreters/ProcessorsProfileLog.cpp:36-55 | A row can be read back exactly when it fits the declared column types. |
| `ProcessorsProfileLog.ParentIdsRoundTrip` | src/Interpreters/ProcessorsProfileLog.cpp:68-72 | Reading the parent array back gives the same ids in the same order. |
| `ProcessorsProfileLog.EncodeDecodeRoundTrip` | src/Interpreters/ProcessorsProfileLog.cpp:60-84 | Decoding an emitted row gives back the record field for field: numbers unclamped, strings in full, parent ids in order. Its event_date is the day number of its event time. |
| `ProcessorsProfileLog.DecodeThenEncode` | src/Interpreters/ProcessorsProfileLog.cpp:60-84 | A row that decodes to a record, with that record's day number as event_date, is exactly the row the record is encoded as. |
| `ProcessorsProfileLog.AppendRowGrowsByOne` | src/Interpreters/ProcessorsProfileLog.cpp:60-84 | Appending a row grows each of its columns by exactly one cell (that column's cell), keeps the column's earlier cells, and leaves other columns unchanged. |
| `ProcessorsProfileLog.AppendRowToBlock` | src/Interpreters/ProcessorsProfileLog.cpp:58-85 | Appending a schema-shaped row keeps a block well typed and rectangular. It adds exactly one row, leaves earlier rows unchanged, and puts the new row last. |
| `ProcessorsProfileLog.BlockOfShape` | src/Interpreters/ProcessorsProfileLog.cpp:58-85 | A block built by appending records one after another is well typed and has one row per record. |
| `ProcessorsProfileLog.BlockOfRows` | src/Interpreters/ProcessorsProfileLog.cpp:58-85 | In such a block, row n is exactly the encoding of record n. |
| `ProcessorsProfileLog.DecodeEncodedRows` | src/Interpreters/ProcessorsProfileLog.cpp:58-85 | Rows that are encodings of records read back as those records, position by position. |
| `ProcessorsProfileLog.BlockOfDecodes` | src/Interpreters/ProcessorsProfileLog.cpp:58-85 | Every row of a block built from a list of records reads back as the record at the same position. No record is lost, duplicated or mixed with another. |
| `ProcessorsProfileLog.MutableColumns.Insert` | src/Interpreters/ProcessorsProfileLog.cpp:62-84 | One `columns[i++]->insert(...)` step. Before it, the first i columns already hold their cells of the row. Afterwards column i also ends with the row's cell i, and no other column changes. |
| `ProcessorsProfileLog.AppendToBlock` | src/Interpreters/ProcessorsProfileLog.cpp:58-85 | Each of the first 16 columns receives exactly one cell, the row the record encodes to, in schema order. Every other column is unchanged. (The body also asserts that the running index ends at 16.) |

## Left out

- The buffering and flushing that `ProcessorsProfileLog` inherits from `SystemLog<ProcessorProfileLogElement>` (src/Interpreters/ProcessorsProfileLog.cpp:87-93) are not modelled. That covers its queue, flush thread, flush interval and final flush; they are concurrency and storage plumbing.
- The timezone table's day-number conversion (`DateLUT::instance().toDayNum`) is a parameter `toDayNum` of type `int -> uint16`. Its timezone rules are foreign code.
- The data type and column classes are library code. A column is a sequence of abstract cells. The LowCardinality column's dictionary encoding is a plain string cell.
- How the library stores each cell is left out: `event_time` in a 32-bit DateTime column, `event_time_microseconds` as a scale-6 decimal. The model keeps both as the integers the record gives.
- The record's declaration (ProcessorsProfileLog.h) is not modelled. Field types follow their use in `appendToBlock`: the two times are integers, the ids and counters are unsigned 64-bit, and the names are strings.
- `query_id` and `processor_name` are byte strings in the source, copied with `insertData(data(), size())`. The model uses Dafny `string` and leaves the byte-versus-character encoding open. No behaviour is lost, because the copy is verbatim either way.
- `parent_ids_array.reserve(...)` only reserves capacity and has no observable effect, so it is not modelled.
- Rebuilding the execution graph from `(id, parent_ids)` is the reader's job, not this code's. The model only proves that the linkage data is stored faithfully.
