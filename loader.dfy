/** Loading the transaction table: the file checks and the strict date
    conversion of the transaction date column. Reading the file is not
    modelled; its outcome is the `Source` handed in. */
module Loader {
  import opened Errors
  import opened Calendar
  import opened Frames

  /** What reading the path yields: no file there, or the table the CSV
      reader parsed. A file with nothing to parse yields a table with no
      columns, which is how the reader's "no columns to parse" shows here. */
  datatype Source = Missing | Present(frame: Frame)

  /** One cell through the `%Y-%m-%d` conversion: text must be a zero-padded
      date, a timestamp is kept, and a number or flag does not convert. (A
      number turned into its text never has the date form; a flag column
      makes the converter raise a type error, which this model reports as a
      failed conversion.) */
  function ParseCell(c: Cell): (r: Option<Date>)
    ensures r.Some? ==> ValidDate(r.value)
    ensures c.Text? ==> r == ParseDate(c.text)
    ensures c.Whole? || c.Fraction? || c.Flag? ==> r.None?
  {
    match c
    case Text(s) => ParseDate(s)
    case Stamp(d) => if ValidDate(d) then Some(d) else None
    case _ => None
  }

  /** The whole column converted to timestamps, or None if any cell fails. */
  function ToDatetime(c: Column): (r: Option<Column>)
    ensures r.None? <==> exists i :: 0 <= i < |c.cells| && ParseCell(c.cells[i]).None?
    ensures r.Some? ==>
      && r.value.name == c.name
      && r.value.dtype == DateTime64
      && |r.value.cells| == |c.cells|
      && ColumnFits(r.value)
      && forall i :: 0 <= i < |c.cells| ==> r.value.cells[i] == Stamp(ParseCell(c.cells[i]).value)
  {
    if forall i :: 0 <= i < |c.cells| ==> ParseCell(c.cells[i]).Some? then
      Some(Column(c.name, DateTime64,
                  seq(|c.cells|, i requires 0 <= i < |c.cells| => Stamp(ParseCell(c.cells[i]).value))))
    else
      None
  }

  /** Some cell of the transaction date column does not convert. */
  predicate HasBadDate(f: Frame)
    requires TransactionDate in Names(f)
  {
    var c := ColumnNamed(f, TransactionDate);
    exists i :: 0 <= i < |c.cells| && ParseCell(c.cells[i]).None?
  }

  /** The table `load_transactions` leaves behind, or the exception it raises:
      a missing file first, then an empty file, then a malformed date. A table
      without a date column loads unchanged; the validator reports it. */
  function Load(src: Source): (r: Result<Frame>)
    ensures r == Failure(FileNotFound) <==> src.Missing?
    ensures r == Failure(EmptyDataFrame) <==> src.Present? && |src.frame.columns| == 0
    ensures r == Failure(WrongTransactionDateType) <==>
      && src.Present? && |src.frame.columns| > 0
      && TransactionDate in Names(src.frame) && HasBadDate(src.frame)
    ensures r.Failure? ==> r.error in {FileNotFound, EmptyDataFrame, WrongTransactionDateType}
    ensures r.Success? ==>
      && src.Present?
      && Names(r.value) == Names(src.frame)
      && RowCount(r.value) == RowCount(src.frame)
      && (forall k :: 0 <= k < |src.frame.columns| && src.frame.columns[k].name != TransactionDate ==>
            r.value.columns[k] == src.frame.columns[k])
      && (WellFormed(src.frame) ==> WellFormed(r.value))
    ensures r.Success? && TransactionDate in Names(r.value) ==>
      var c := ColumnNamed(r.value, TransactionDate);
      var raw := ColumnNamed(src.frame, TransactionDate);
      && c.dtype == DateTime64
      && |c.cells| == |raw.cells|
      && forall i :: 0 <= i < |c.cells| ==> c.cells[i] == Stamp(ParseCell(raw.cells[i]).value)
  {
    match src
    case Missing => Failure(FileNotFound)
    case Present(f) =>
      if |f.columns| == 0 then Failure(EmptyDataFrame)
      else if TransactionDate !in Names(f) then Success(f)
      else
        var k := IndexOf(Names(f), TransactionDate);
        match ToDatetime(f.columns[k])
        case None => Failure(WrongTransactionDateType)
        case Some(c) =>
          var g := Frame(f.columns[k := c]);
          assert Names(g) == Names(f);
          assert IndexOf(Names(g), TransactionDate) == k;
          Success(g)
  }
}
