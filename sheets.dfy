/**
 * The worksheet view the server writes through: a sheet is a sequence of rows
 * with the header at index 0 (sheet row 1). Values are converted to cells
 * before writing, new rows go in at sheet row 2, and a sheet gets its header
 * row when it is created or found without one.
 */
module Sheets {
  import opened Wrappers

  /** The Python values a submitted row is built from. */
  datatype PyValue =
    | PyNone
    | PyBool(b: bool)
    | PyInt(i: int)
    | PyFloat(f: real)
    | PyStr(s: string)
    | PyObject(str: string)  // any other object, with what str() gives for it

  /** What a spreadsheet cell holds. */
  datatype Cell = Text(s: string) | Int(i: int) | Float(f: real) | Bool(b: bool)

  type Row = seq<Cell>

  /**
   * insert_row_at_top's conversion of one value: None becomes "", numbers
   * (bool among them, being a subclass of int) are kept, anything else is
   * written as its str().
   */
  function ConvertValue(v: PyValue): (c: Cell)
    ensures v.PyNone? ==> c == Text("")
    ensures v.PyBool? || v.PyInt? || v.PyFloat? ==> !c.Text?
    ensures v.PyStr? || v.PyObject? || v.PyNone? ==> c.Text?
  {
    match v
    case PyNone => Text("")
    case PyBool(b) => Bool(b)
    case PyInt(i) => Int(i)
    case PyFloat(f) => Float(f)
    case PyStr(s) => Text(s)
    case PyObject(str) => Text(str)
  }

  /** The value a cell stands for, read back as Python sees it. */
  function CellValue(c: Cell): PyValue {
    match c
    case Text(s) => PyStr(s)
    case Int(i) => PyInt(i)
    case Float(f) => PyFloat(f)
    case Bool(b) => PyBool(b)
  }

  /** Conversion loses nothing but the difference between None and "", and an object's type. */
  lemma ConvertValueKeepsValue(v: PyValue)
    ensures !v.PyNone? && !v.PyObject? ==> CellValue(ConvertValue(v)) == v
    ensures v.PyNone? ==> CellValue(ConvertValue(v)) == PyStr("")
    ensures v.PyObject? ==> CellValue(ConvertValue(v)) == PyStr(v.str)
  {
  }

  /** A row of values, each converted. */
  function Converted(data: seq<PyValue>): (row: Row)
    ensures |row| == |data|
  {
    seq(|data|, i requires 0 <= i < |data| => ConvertValue(data[i]))
  }

  /** The conversion loop of insert_row_at_top. */
  method ConvertRow(data: seq<PyValue>) returns (converted: Row)
    ensures |converted| == |data|
    ensures forall i :: 0 <= i < |data| ==> converted[i] == ConvertValue(data[i])
    ensures converted == Converted(data)
  {
    converted := [];
    for k := 0 to |data|
      invariant |converted| == k
      invariant forall i :: 0 <= i < k ==> converted[i] == ConvertValue(data[i])
    {
      var item := data[k];
      if item.PyNone? {
        converted := converted + [Text("")];
      } else if item.PyBool? || item.PyInt? || item.PyFloat? {
        converted := converted + [ConvertValue(item)];
      } else {
        converted := converted + [Text(if item.PyStr? then item.s else item.str)];
      }
    }
  }

  /** A row of header names as append_row writes it. */
  function HeaderRow(headers: seq<string>): (row: Row)
    ensures |row| == |headers|
    ensures forall i :: 0 <= i < |headers| ==> row[i] == Text(headers[i])
  {
    if headers == [] then [] else HeaderRow(headers[..|headers| - 1]) + [Text(headers[|headers| - 1])]
  }

  /**
   * A first row that row_values(1) reads as empty: it drops trailing empty
   * cells, so a row of nothing but empty text reads as no row at all.
   */
  predicate BlankRow(r: Row) {
    forall i :: 0 <= i < |r| ==> r[i] == Text("")
  }

  /**
   * The rows of a sheet after ensure_sheet_exists: a missing sheet is created
   * holding only the headers, and a sheet whose first row is blank gets the
   * headers appended; a sheet with a first row is left alone.
   */
  function WithHeaders(existing: Option<seq<Row>>, headers: seq<string>): seq<Row> {
    match existing
    case None => [HeaderRow(headers)]
    case Some(rows) => if rows == [] || BlankRow(rows[0]) then rows + [HeaderRow(headers)] else rows
  }

  /** worksheet.insert_row(row, index=2): the new row becomes sheet row 2. */
  function InsertAtRowTwo(rows: seq<Row>, row: Row): (r: seq<Row>)
    ensures |r| == if rows == [] then 2 else |rows| + 1
    ensures r[1] == row
  {
    if rows == [] then [[], row] else rows[..1] + [row] + rows[1..]
  }

  /** Inserting each row of a batch at row 2, first to last. */
  function InsertEachAtRowTwo(rows: seq<Row>, batch: seq<Row>): seq<Row>
    decreases |batch|
  {
    if batch == [] then rows
    else InsertAtRowTwo(InsertEachAtRowTwo(rows, batch[..|batch| - 1]), batch[|batch| - 1])
  }

  function Reversed<T>(s: seq<T>): (r: seq<T>)
    ensures |r| == |s|
  {
    if s == [] then [] else [s[|s| - 1]] + Reversed(s[..|s| - 1])
  }

  /**
   * A batch inserted row by row at row 2 ends up between the header and the
   * older rows, newest first; the header and the older rows are unchanged.
   */
  lemma {:induction false} InsertEachShape(rows: seq<Row>, batch: seq<Row>)
    requires |rows| >= 1
    ensures InsertEachAtRowTwo(rows, batch) == rows[..1] + Reversed(batch) + rows[1..]
    decreases |batch|
  {
    if batch != [] {
      var init := batch[..|batch| - 1];
      InsertEachShape(rows, init);
      var mid := rows[..1] + Reversed(init) + rows[1..];
      assert mid[..1] == rows[..1];
      assert mid[1..] == Reversed(init) + rows[1..];
    }
  }

  lemma {:induction false} ReversedAt<T>(s: seq<T>, k: nat)
    requires k < |s|
    ensures Reversed(s)[k] == s[|s| - 1 - k]
  {
    if k > 0 {
      ReversedAt(s[..|s| - 1], k - 1);
    }
  }

  /** A spreadsheet: its worksheets by title. */
  class Spreadsheet {
    var sheets: map<string, seq<Row>>

    constructor (initial: map<string, seq<Row>>)
      ensures sheets == initial
    {
      sheets := initial;
    }

    /** ensure_sheet_exists: afterwards the sheet exists and has a first row. */
    method EnsureSheetExists(title: string, headers: seq<string>)
      modifies this
      ensures sheets == old(sheets)[title := WithHeaders(if title in old(sheets) then Some(old(sheets)[title]) else None, headers)]
      ensures |sheets[title]| >= 1
      ensures title in old(sheets) && old(sheets)[title] != [] && !BlankRow(old(sheets)[title][0]) ==> sheets == old(sheets)
    {
      if title !in sheets {
        sheets := sheets[title := [HeaderRow(headers)]];
        return;
      }
      var rows := sheets[title];
      if rows == [] || BlankRow(rows[0]) {
        sheets := sheets[title := rows + [HeaderRow(headers)]];
      }
    }

    /** insert_row_at_top: convert the values and insert them as sheet row 2. */
    method InsertRowAtTop(title: string, data: seq<PyValue>)
      requires title in sheets
      modifies this
      ensures sheets == old(sheets)[title := InsertAtRowTwo(old(sheets)[title], Converted(data))]
    {
      var converted := ConvertRow(data);
      sheets := sheets[title := InsertAtRowTwo(sheets[title], converted)];
    }
  }
}
