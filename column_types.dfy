/**
  The column types a system-log table declares, and the values (cells) a
  column holds.  The type library itself is not modelled: a column is a
  sequence of abstract cells, and `HasType` says which cells a column of a
  given type may hold.  A LowCardinality column stores a dictionary-encoded
  string; at this level of abstraction it holds plain string cells.
*/
module ColumnTypes {

  newtype uint16 = x: int | 0 <= x < 0x1_0000
  newtype uint64 = x: int | 0 <= x < 0x1_0000_0000_0000_0000

  /** The data types of the schema, nested as the type objects are. */
  datatype ColType =
    | Date
    | DateTime
    | DateTime64(scale: nat)
    | UInt64
    | String
    | Array(nested: ColType)
    | LowCardinality(dictionary: ColType)

  /** One value inserted into a column. */
  datatype Cell =
    | DateCell(dayNum: uint16)
    | DateTimeCell(seconds: int)
    | DateTime64Cell(ticks: int)
    | UInt64Cell(value: uint64)
    | StringCell(chars: string)
    | ArrayCell(elems: seq<Cell>)

  /** Whether a column of type `t` can hold cell `c`. */
  predicate HasType(c: Cell, t: ColType)
    decreases t
  {
    match t
    case Date => c.DateCell?
    case DateTime => c.DateTimeCell?
    case DateTime64(_) => c.DateTime64Cell?
    case UInt64 => c.UInt64Cell?
    case String => c.StringCell?
    case Array(nested) => c.ArrayCell? && forall j :: 0 <= j < |c.elems| ==> HasType(c.elems[j], nested)
    case LowCardinality(dictionary) => HasType(c, dictionary)
  }
}
