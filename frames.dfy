/** The in-memory transaction table: named columns, each tagged with the
    dtype pandas gave it, holding one cell per row. */
module Frames {
  import opened Calendar

  const TransactionDate: string := "transaction_date"
  const TransactionId: string := "transaction_id"
  const TransactionAmount: string := "transaction_amount"

  /** The dtype of a column. How pandas infers it from the CSV text is not
      modelled: the tag is part of the table the reader hands over. */
  datatype DType = Object | Int64 | Float64 | Boolean | DateTime64

  datatype Cell =
    | Text(text: string)
    | Whole(n: int)
    | Fraction(x: real)
    | Flag(b: bool)
    | Stamp(date: Date)

  datatype Column = Column(name: string, dtype: DType, cells: seq<Cell>)

  datatype Frame = Frame(columns: seq<Column>)

  /** A cell belongs in a column of the given dtype. */
  predicate Fits(t: DType, c: Cell) {
    match t
    case Object => c.Text?
    case Int64 => c.Whole?
    case Float64 => c.Fraction?
    case Boolean => c.Flag?
    case DateTime64 => c.Stamp? && ValidDate(c.date)
  }

  predicate ColumnFits(c: Column) {
    forall i :: 0 <= i < |c.cells| ==> Fits(c.dtype, c.cells[i])
  }

  function Names(f: Frame): (ns: seq<string>)
    ensures |ns| == |f.columns|
    ensures forall k :: 0 <= k < |ns| ==> ns[k] == f.columns[k].name
  {
    seq(|f.columns|, k requires 0 <= k < |f.columns| => f.columns[k].name)
  }

  function RowCount(f: Frame): nat {
    if |f.columns| == 0 then 0 else |f.columns[0].cells|
  }

  /** A table as the CSV reader produces it: distinct column names, one cell
      per row in every column, every cell of its column's dtype. */
  predicate WellFormed(f: Frame) {
    && (forall i, j :: 0 <= i < j < |f.columns| ==> f.columns[i].name != f.columns[j].name)
    && (forall k :: 0 <= k < |f.columns| ==> |f.columns[k].cells| == RowCount(f))
    && (forall k :: 0 <= k < |f.columns| ==> ColumnFits(f.columns[k]))
  }

  /** Position of the first occurrence of `x` in `s`. */
  function IndexOf(s: seq<string>, x: string): (k: nat)
    requires x in s
    ensures k < |s| && s[k] == x && x !in s[..k]
  {
    if s[0] == x then 0 else 1 + IndexOf(s[1..], x)
  }

  /** `df[name]`: the column of that name. */
  function ColumnNamed(f: Frame, name: string): (c: Column)
    requires name in Names(f)
    ensures c in f.columns && c.name == name
  {
    f.columns[IndexOf(Names(f), name)]
  }
}
