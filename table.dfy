/**
 * The fixed-width tables every list function prints: a blank line, a header
 * line, one line per item, a blank line and a "Total <kind>: <n>" trailer.
 * Each field is written with `%-Ns`, so it is padded to its column's width
 * and never cut; fields are separated by one blank.
 */
module Table {
  import opened Wrappers
  import opened Text

  datatype Column = Column(title: string, width: nat)

  /** The columns of one resource kind and the plural its trailer names. */
  datatype Schema = Schema(plural: string, columns: seq<Column>)

  /** The display fields of one item, one per column. */
  type Row = seq<string>

  function Widths(columns: seq<Column>): (ws: seq<nat>)
    ensures |ws| == |columns|
    ensures forall i :: 0 <= i < |columns| ==> ws[i] == columns[i].width
  {
    seq(|columns|, i requires 0 <= i < |columns| => columns[i].width)
  }

  function Titles(columns: seq<Column>): (ts: Row)
    ensures |ts| == |columns|
    ensures forall i :: 0 <= i < |columns| ==> ts[i] == columns[i].title
  {
    seq(|columns|, i requires 0 <= i < |columns| => columns[i].title)
  }

  /** Each field written with its column's `%-Ns`. */
  function Cells(widths: seq<nat>, fields: Row): (cells: seq<string>)
    requires |widths| == |fields|
    ensures |cells| == |fields|
    ensures forall i :: 0 <= i < |fields| ==> cells[i] == PadRight(fields[i], widths[i])
  {
    seq(|fields|, i requires 0 <= i < |fields| => PadRight(fields[i], widths[i]))
  }

  /** The cells one after the other, one blank between two cells. */
  function Join(cells: seq<string>): (line: string)
    requires |cells| > 0
    ensures |line| == CellStart(cells, |cells| - 1) + |cells[|cells| - 1]|
  {
    if |cells| == 1 then cells[0] else cells[0] + " " + Join(cells[1..])
  }

  /** Where cell i starts on the joined line. */
  function CellStart(cells: seq<string>, i: nat): nat
    requires i < |cells|
  {
    if i == 0 then 0 else |cells[0]| + 1 + CellStart(cells[1..], i - 1)
  }

  /** Where column i starts when no field before it overflows its width. */
  function ColumnStart(widths: seq<nat>, i: nat): nat
    requires i < |widths|
  {
    if i == 0 then 0 else widths[0] + 1 + ColumnStart(widths[1..], i - 1)
  }

  /** Where the last column ends: all widths and the blanks between them. */
  function LineWidth(widths: seq<nat>): nat
    requires |widths| > 0
  {
    ColumnStart(widths, |widths| - 1) + widths[|widths| - 1]
  }

  /**
   * One printed line: every field padded to its width, one blank between
   * fields. It is never shorter than the columns, and exactly as long when
   * no field overflows.
   */
  function FormatLine(widths: seq<nat>, fields: Row): (line: string)
    requires |widths| == |fields| > 0
    ensures |line| >= LineWidth(widths)
    ensures Fits(widths, fields) ==> |line| == LineWidth(widths)
  {
    var first := PadRight(fields[0], widths[0]);
    if |fields| == 1 then first else first + " " + FormatLine(widths[1..], fields[1..])
  }

  /** The printed line is the padded cells joined with single blanks. */
  lemma {:induction false} FormatLineJoinsCells(widths: seq<nat>, fields: Row)
    requires |widths| == |fields| > 0
    ensures FormatLine(widths, fields) == Join(Cells(widths, fields))
    decreases |fields|
  {
    var cells := Cells(widths, fields);
    if |fields| > 1 {
      FormatLineJoinsCells(widths[1..], fields[1..]);
      assert cells[1..] == Cells(widths[1..], fields[1..]);
    }
  }

  lemma SliceAfterPrefix(x: string, y: string, lo: nat, hi: nat)
    requires |x| <= lo <= hi <= |x| + |y|
    ensures (x + y)[lo..hi] == y[lo - |x|..hi - |x|]
  {
  }

  lemma SliceOfPrefix(x: string, y: string, z: string)
    ensures (x + y + z)[..|x|] == x
  {
  }

  /** Every cell sits whole at its start on the joined line: nothing is cut and nothing moves. */
  lemma {:induction false} CellInPlace(cells: seq<string>, i: nat)
    requires i < |cells|
    ensures CellStart(cells, i) + |cells[i]| <= |Join(cells)|
    ensures Join(cells)[CellStart(cells, i)..CellStart(cells, i) + |cells[i]|] == cells[i]
    decreases i
  {
    if |cells| == 1 {
      assert Join(cells)[0..|cells[0]|] == cells[0];
    } else {
      var rest := Join(cells[1..]);
      assert Join(cells) == cells[0] + " " + rest;
      if i == 0 {
        SliceOfPrefix(cells[0], " ", rest);
      } else {
        CellInPlace(cells[1..], i - 1);
        var start := CellStart(cells[1..], i - 1);
        assert cells[1..][i - 1] == cells[i];
        SliceAfterPrefix(cells[0] + " ", rest, |cells[0]| + 1 + start, |cells[0]| + 1 + start + |cells[i]|);
      }
    }
  }

  predicate Fits(widths: seq<nat>, fields: Row)
    requires |widths| == |fields|
  {
    forall i :: 0 <= i < |fields| ==> |fields[i]| <= widths[i]
  }

  /** When every cell is exactly as wide as its column, cell i starts where column i starts. */
  lemma {:induction false} ExactCellsStartAtColumns(cells: seq<string>, widths: seq<nat>, i: nat)
    requires |cells| == |widths| && i < |cells|
    requires forall j :: 0 <= j < |cells| ==> |cells[j]| == widths[j]
    ensures CellStart(cells, i) == ColumnStart(widths, i)
    decreases i
  {
    if i > 0 {
      assert |cells[0]| == widths[0];
      forall j | 0 <= j < |cells| - 1 ensures |cells[1..][j]| == widths[1..][j] {
        assert |cells[j + 1]| == widths[j + 1];
      }
      ExactCellsStartAtColumns(cells[1..], widths[1..], i - 1);
    }
  }

  /** A field is never cut: on its line it appears whole and padded, starting at its cell. */
  lemma FieldInPlace(widths: seq<nat>, fields: Row, i: nat)
    requires |widths| == |fields| && i < |fields|
    ensures var cells := Cells(widths, fields);
      var start := CellStart(cells, i);
      && start + |cells[i]| <= |FormatLine(widths, fields)|
      && FormatLine(widths, fields)[start..start + |cells[i]|] == PadRight(fields[i], widths[i])
  {
    FormatLineJoinsCells(widths, fields);
    CellInPlace(Cells(widths, fields), i);
  }

  /** While no field overflows its width, cell i is exactly column i, wherever the values are. */
  lemma FittingCellsAreColumns(widths: seq<nat>, fields: Row, i: nat)
    requires |widths| == |fields| && i < |fields|
    requires Fits(widths, fields)
    ensures var cells := Cells(widths, fields);
      CellStart(cells, i) == ColumnStart(widths, i) && |cells[i]| == widths[i]
  {
    var cells := Cells(widths, fields);
    forall j | 0 <= j < |cells| ensures |cells[j]| == widths[j] {
      assert |fields[j]| <= widths[j];
      assert cells[j] == PadRight(fields[j], widths[j]);
    }
    ExactCellsStartAtColumns(cells, widths, i);
  }

  predicate WellShaped(schema: Schema, rows: seq<Row>) {
    && |schema.columns| > 0
    && forall r :: r in rows ==> |r| == |schema.columns|
  }

  /** The header line: the titles padded to their widths. */
  function HeaderLine(schema: Schema): (line: string)
    requires |schema.columns| > 0
    ensures |line| >= LineWidth(Widths(schema.columns))
    ensures Fits(Widths(schema.columns), Titles(schema.columns)) ==> |line| == LineWidth(Widths(schema.columns))
  {
    FormatLine(Widths(schema.columns), Titles(schema.columns))
  }

  /** One item's line: its fields padded to the widths of the columns. */
  function RowLine(schema: Schema, row: Row): (line: string)
    requires |schema.columns| > 0 && |row| == |schema.columns|
    ensures |line| >= LineWidth(Widths(schema.columns))
    ensures Fits(Widths(schema.columns), row) ==> |line| == LineWidth(Widths(schema.columns))
  {
    FormatLine(Widths(schema.columns), row)
  }

  const TotalPrefix: string := "Total "

  /** "Total <plural>: <count>", whose number reads back as the count. */
  function TrailerLine(plural: string, count: int): (line: string)
    ensures var prefix := TotalPrefix + plural + ": ";
      && |prefix| < |line|
      && line[..|prefix|] == prefix
      && IsDecimal(line[|prefix|..])
      && ParseInt(line[|prefix|..]) == Some(count)
  {
    var prefix := TotalPrefix + plural + ": ";
    var digits := IntToString(count);
    assert (prefix + digits)[..|prefix|] == prefix && (prefix + digits)[|prefix|..] == digits;
    prefix + digits
  }

  /** The lines printed once the header and the first i rows are out. */
  function TablePrefix(schema: Schema, rows: seq<Row>, i: nat): (lines: seq<string>)
    requires WellShaped(schema, rows) && i <= |rows|
    ensures |lines| == i + 2
  {
    ["", HeaderLine(schema)] + seq(i, k requires 0 <= k < i => RowLine(schema, rows[k]))
  }

  /** The whole table printed for one successful fetch. */
  function TableLines(schema: Schema, rows: seq<Row>): (lines: seq<string>)
    requires WellShaped(schema, rows)
    ensures |lines| == |rows| + 4
  {
    TablePrefix(schema, rows, |rows|) + ["", TrailerLine(schema.plural, |rows|)]
  }

  /** Printing row i extends the printed prefix by exactly that row's line. */
  lemma PrefixStep(schema: Schema, rows: seq<Row>, i: nat)
    requires WellShaped(schema, rows) && i < |rows|
    ensures TablePrefix(schema, rows, i + 1) == TablePrefix(schema, rows, i) + [RowLine(schema, rows[i])]
  {
    var next := TablePrefix(schema, rows, i + 1);
    var extended := TablePrefix(schema, rows, i) + [RowLine(schema, rows[i])];
    forall k | 0 <= k < i + 3 ensures next[k] == extended[k] {
    }
  }

  /** The print loop: header first, then the items one by one, then the count. */
  method EmitTable(schema: Schema, rows: seq<Row>) returns (lines: seq<string>)
    requires WellShaped(schema, rows)
    ensures lines == TableLines(schema, rows)
  {
    lines := ["", HeaderLine(schema)];
    assert lines == TablePrefix(schema, rows, 0);
    for i := 0 to |rows|
      invariant lines == TablePrefix(schema, rows, i)
    {
      PrefixStep(schema, rows, i);
      lines := lines + [RowLine(schema, rows[i])];
    }
    lines := lines + ["", TrailerLine(schema.plural, |rows|)];
  }

  /**
   * The layout of a table: the header, every row in fetch order, and a
   * trailer whose count is the number of rows, also when there are none.
   */
  lemma TableLayout(schema: Schema, rows: seq<Row>)
    requires WellShaped(schema, rows)
    ensures var lines := TableLines(schema, rows);
      && |lines| == |rows| + 4
      && lines[0] == "" && lines[1] == HeaderLine(schema)
      && (forall k :: 0 <= k < |rows| ==> lines[k + 2] == RowLine(schema, rows[k]))
      && lines[|rows| + 2] == ""
      && ParseInt(lines[|rows| + 3][|TotalPrefix + schema.plural + ": "|..]) == Some(|rows|)
  {
  }

  /** With no rows the table is still printed, with a trailer counting zero. */
  lemma EmptyTableCountsZero(schema: Schema)
    requires |schema.columns| > 0
    ensures var lines := TableLines(schema, []);
      |lines| == 4 && lines[3] == TotalPrefix + schema.plural + ": 0"
  {
    assert IntToString(0) == "0" by {
      assert NatToString(0) == [DigitChar(0)];
    }
  }

  /**
   * Header and rows line up column by column: when the titles and a row's
   * fields all fit their widths, column i of both lines starts at the same
   * position and holds the padded title and the padded field.
   */
  lemma ColumnsAlign(schema: Schema, row: Row, i: nat)
    requires |schema.columns| > 0 && |row| == |schema.columns| && i < |row|
    requires Fits(Widths(schema.columns), Titles(schema.columns))
    requires Fits(Widths(schema.columns), row)
    ensures var ws := Widths(schema.columns);
      var start := ColumnStart(ws, i);
      && start + ws[i] <= |HeaderLine(schema)|
      && start + ws[i] <= |RowLine(schema, row)|
      && HeaderLine(schema)[start..start + ws[i]] == PadRight(schema.columns[i].title, ws[i])
      && RowLine(schema, row)[start..start + ws[i]] == PadRight(row[i], ws[i])
  {
    var ws, ts := Widths(schema.columns), Titles(schema.columns);
    FieldInPlace(ws, ts, i);
    FittingCellsAreColumns(ws, ts, i);
    FieldInPlace(ws, row, i);
    FittingCellsAreColumns(ws, row, i);
  }
}
