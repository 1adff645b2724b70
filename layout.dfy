/** Layout of a table: how many columns it has, how wide each column is, how
    a cell's text is placed in its column, and the synthetic auto-index column. */
module Layout {
  import opened Cells

  /** The display lines of every cell of a row. */
  type TextRow = seq<seq<string>>

  function Max(a: nat, b: nat): nat {
    if a >= b then a else b
  }

  // ---------------------------------------------------------------------
  // Column count and ragged rows

  /** The effective column count: the length of the widest row. */
  function ColumnCount(rows: seq<Row>): (n: nat)
    ensures forall r :: 0 <= r < |rows| ==> |rows[r]| <= n
    ensures |rows| == 0 ==> n == 0
    ensures |rows| > 0 ==> exists r :: 0 <= r < |rows| && |rows[r]| == n
    decreases |rows|
  {
    if |rows| == 0 then 0
    else Max(|rows[|rows| - 1]|, ColumnCount(rows[..|rows| - 1]))
  }

  /** A row extended with blank cells to n columns; a longer row is kept whole. */
  function PadRow(row: Row, n: nat): (r: Row)
    ensures |r| == Max(|row|, n)
    ensures r[..|row|] == row
    ensures forall k :: |row| <= k < |r| ==> r[k] == Nil
  {
    if |row| >= n then row else row + seq(n - |row|, _ => Nil)
  }

  function PadRows(rows: seq<Row>, n: nat): (rs: seq<Row>)
    ensures |rs| == |rows|
    ensures forall r :: 0 <= r < |rs| ==> rs[r] == PadRow(rows[r], n)
  {
    seq(|rows|, r requires 0 <= r < |rows| => PadRow(rows[r], n))
  }

  /** Padded to the column count, every row has exactly that many cells. */
  lemma PaddedRowsRectangular(rows: seq<Row>)
    ensures var n := ColumnCount(rows);
      forall r :: 0 <= r < |rows| ==> |PadRows(rows, n)[r]| == n
  {
  }

  // ---------------------------------------------------------------------
  // Column widths

  function TextRowOf(row: Row, upper: bool): (t: TextRow)
    ensures |t| == |row|
    ensures forall c :: 0 <= c < |row| ==> t[c] == CellLines(row[c], upper)
  {
    seq(|row|, c requires 0 <= c < |row| => CellLines(row[c], upper))
  }

  function TextRowsOf(rows: seq<Row>, upper: bool): (ts: seq<TextRow>)
    ensures |ts| == |rows|
    ensures forall r :: 0 <= r < |rows| ==> ts[r] == TextRowOf(rows[r], upper)
  {
    seq(|rows|, r requires 0 <= r < |rows| => TextRowOf(rows[r], upper))
  }

  /** The width of the widest of some lines (0 for none). */
  function MaxLen(ls: seq<string>): (w: nat)
    ensures forall k :: 0 <= k < |ls| ==> |ls[k]| <= w
    ensures w == 0 || exists k :: 0 <= k < |ls| && |ls[k]| == w
    decreases |ls|
  {
    if |ls| == 0 then 0 else Max(|ls[|ls| - 1]|, MaxLen(ls[..|ls| - 1]))
  }

  /** The content width of column c: its longest cell line over all rows. */
  function ColumnWidth(rows: seq<TextRow>, c: nat): (w: nat)
    ensures forall r, k :: 0 <= r < |rows| && c < |rows[r]| && 0 <= k < |rows[r][c]| ==> |rows[r][c][k]| <= w
    decreases |rows|
  {
    if |rows| == 0 then 0
    else
      var last := rows[|rows| - 1];
      var init := rows[..|rows| - 1];
      var here := if c < |last| then MaxLen(last[c]) else 0;
      assert forall r :: 0 <= r < |init| ==> init[r] == rows[r];
      Max(here, ColumnWidth(init, c))
  }

  /** A column's width is that of one of its lines (or 0 when it has no text). */
  lemma {:induction false} ColumnWidthAttained(rows: seq<TextRow>, c: nat)
    ensures var w := ColumnWidth(rows, c);
      w == 0 || exists r, k :: 0 <= r < |rows| && c < |rows[r]| && 0 <= k < |rows[r][c]| && |rows[r][c][k]| == w
    decreases |rows|
  {
    if |rows| > 0 {
      var last := rows[|rows| - 1];
      var init := rows[..|rows| - 1];
      var here := if c < |last| then MaxLen(last[c]) else 0;
      var w := ColumnWidth(rows, c);
      ColumnWidthAttained(init, c);
      if w > 0 {
        if w == here {
          var k :| 0 <= k < |last[c]| && |last[c][k]| == w;
          assert rows[|rows| - 1] == last;
        } else {
          assert w == ColumnWidth(init, c);
          var r, k :| 0 <= r < |init| && c < |init[r]| && 0 <= k < |init[r][c]| && |init[r][c][k]| == w;
          assert rows[r] == init[r];
        }
      }
    }
  }

  function ColumnWidths(rows: seq<TextRow>, n: nat): (ws: seq<nat>)
    ensures |ws| == n
    ensures forall c :: 0 <= c < n ==> ws[c] == ColumnWidth(rows, c)
  {
    seq(n, c requires 0 <= c < n => ColumnWidth(rows, c))
  }

  /** Column widths known one by one make up the whole width list. */
  lemma ColumnWidthsAre(rows: seq<TextRow>, ws: seq<nat>)
    requires forall c :: 0 <= c < |ws| ==> ColumnWidth(rows, c) == ws[c]
    ensures ColumnWidths(rows, |ws|) == ws
  {
  }

  /** Every cell line fits in its column, and each column's width is attained
      by some line of that column (or is 0 when the column has no text). */
  lemma WidthsAreMaxima(rows: seq<TextRow>, n: nat, c: nat)
    requires c < n
    ensures var ws := ColumnWidths(rows, n);
      (forall r, k :: 0 <= r < |rows| && c < |rows[r]| && 0 <= k < |rows[r][c]| ==> |rows[r][c][k]| <= ws[c])
      && (ws[c] == 0 || exists r, k :: 0 <= r < |rows| && c < |rows[r]| && 0 <= k < |rows[r][c]| && |rows[r][c][k]| == ws[c])
  {
    ColumnWidthAttained(rows, c);
  }

  // ---------------------------------------------------------------------
  // Alignment of a line of text within its column

  datatype Align = AlignDefault | AlignLeft | AlignCenter | AlignRight

  function Spaces(n: nat): (s: string)
    ensures |s| == n && forall k :: 0 <= k < n ==> s[k] == ' '
  {
    seq(n, _ => ' ')
  }

  /** Where text of a column is placed, given the number of blank cells to fill:
      left-aligned text starts at the left edge, right-aligned text ends at the
      right edge, centred text gets the extra blank on its left. */
  function Offset(a: Align, pad: nat): (o: nat)
    ensures o <= pad
    ensures a == AlignRight ==> o == pad
    ensures a == AlignLeft || a == AlignDefault ==> o == 0
    ensures a == AlignCenter ==> o == pad - pad / 2 && (o == pad / 2 || o == pad / 2 + 1)
  {
    match a
    case AlignRight => pad
    case AlignCenter => pad - pad / 2
    case _ => 0
  }

  function AlignText(t: string, w: nat, a: Align): (r: string)
    requires |t| <= w
    ensures |r| == w
    ensures var o := Offset(a, w - |t|);
      (r[o..o + |t|] == t && forall k :: 0 <= k < w && !(o <= k < o + |t|) ==> r[k] == ' ')
  {
    var pad := w - |t|;
    var o := Offset(a, pad);
    var r := Spaces(o) + t + Spaces(pad - o);
    assert r[o..o + |t|] == t;
    r
  }

  /** How the cells of a column are aligned: numbers to the right everywhere; in the
      synthetic letter header of an auto-indexed table other columns are centred;
      all other text is left-aligned. */
  datatype RowKind = HeaderRow | LetterRow | BodyRow | FooterRow

  function ColumnAlign(numeric: bool, kind: RowKind): (a: Align)
    ensures numeric <==> a == AlignRight
    ensures !numeric ==> (a == AlignCenter <==> kind == LetterRow)
  {
    if numeric then AlignRight else if kind == LetterRow then AlignCenter else AlignLeft
  }

  /** A column is numeric when every body cell present in it is a number;
      header and footer cells do not take part, nor do missing trailing cells. */
  predicate NumericColumn(body: seq<Row>, c: nat) {
    forall r :: 0 <= r < |body| && c < |body[r]| ==> IsNumber(body[r][c])
  }

  function NumericColumns(body: seq<Row>, n: nat): (ns: seq<bool>)
    ensures |ns| == n && forall c :: 0 <= c < n ==> (ns[c] <==> NumericColumn(body, c))
  {
    seq(n, c requires 0 <= c < n => NumericColumn(body, c))
  }

  // ---------------------------------------------------------------------
  // Auto-index: column letters and the index column

  /** The letter name of a column: A..Z, then AA, AB, ... (bijective base 26). */
  function ColumnID(c: nat): (id: string)
    ensures |id| >= 1
    ensures forall k :: 0 <= k < |id| ==> 'A' <= id[k] <= 'Z'
    ensures id[|id| - 1] as int - 'A' as int == c % 26
    decreases c
  {
    (if c >= 26 then ColumnID(c / 26 - 1) else "") + [(('A' as int) + c % 26) as char]
  }

  lemma ColumnIDSingleLetter(c: nat)
    requires c < 26
    ensures ColumnID(c) == [(('A' as int) + c) as char]
  {
  }

  /** Reads a letter name back: one more than the column it names (0 for ""). */
  function LetterValue(id: string): nat
    decreases |id|
  {
    if |id| == 0 then 0
    else
      var d := id[|id| - 1] as int - 'A' as int + 1;
      LetterValue(id[..|id| - 1]) * 26 + (if d < 0 then 0 else d)
  }

  /** The letter name of column c reads back as c + 1. */
  lemma {:induction false} ColumnIDRoundTrip(c: nat)
    ensures LetterValue(ColumnID(c)) == c + 1
    decreases c
  {
    var q, r := c / 26, c % 26;
    var id := ColumnID(c);
    var front := if c >= 26 then ColumnID(q - 1) else "";
    assert id == front + [(('A' as int) + r) as char];
    assert id[..|id| - 1] == front;
    if c >= 26 {
      ColumnIDRoundTrip(q - 1);
    }
    assert LetterValue(front) == q;
    assert LetterValue(id) == q * 26 + (r + 1);
  }

  /** Different columns get different letter names. */
  lemma ColumnIDInjective(a: nat, b: nat)
    requires ColumnID(a) == ColumnID(b)
    ensures a == b
  {
    ColumnIDRoundTrip(a);
    ColumnIDRoundTrip(b);
  }

  /** The synthetic header naming each of n columns by its letters. */
  function LetterHeader(n: nat): (r: Row)
    ensures |r| == n && forall c :: 0 <= c < n ==> r[c] == Str(ColumnID(c))
  {
    seq(n, c requires 0 <= c < n => Str(ColumnID(c)))
  }

  /** Body rows with their 1-based row number in front. */
  function NumberRows(rows: seq<Row>): (rs: seq<Row>)
    ensures |rs| == |rows|
    ensures forall r :: 0 <= r < |rows| ==> rs[r] == [Int(r + 1)] + rows[r]
  {
    seq(|rows|, r requires 0 <= r < |rows| => [Int(r + 1)] + rows[r])
  }

  /** Header or footer rows with a blank cell in front. */
  function BlankIndexRows(rows: seq<Row>): (rs: seq<Row>)
    ensures |rs| == |rows|
    ensures forall r :: 0 <= r < |rows| ==> rs[r] == [Nil] + rows[r]
  {
    seq(|rows|, r requires 0 <= r < |rows| => [Nil] + rows[r])
  }

  /** The index column adds exactly one column to the table. */
  lemma {:induction false} IndexAddsOneColumn(rows: seq<Row>)
    requires |rows| > 0
    ensures ColumnCount(NumberRows(rows)) == ColumnCount(rows) + 1
    ensures ColumnCount(BlankIndexRows(rows)) == ColumnCount(rows) + 1
  {
    var n := ColumnCount(rows);
    var nr, br := NumberRows(rows), BlankIndexRows(rows);
    var m1, m2 := ColumnCount(nr), ColumnCount(br);
    var r1 :| 0 <= r1 < |nr| && |nr[r1]| == m1;
    var r2 :| 0 <= r2 < |br| && |br[r2]| == m2;
    var r0 :| 0 <= r0 < |rows| && |rows[r0]| == n;
    assert |nr[r0]| == n + 1 && |br[r0]| == n + 1;
    assert |rows[r1]| <= n && |rows[r2]| <= n;
  }

  /** The index column is numeric: its body cells are the numbers 1..N. */
  lemma IndexColumnNumeric(rows: seq<Row>)
    ensures NumericColumn(NumberRows(rows), 0)
  {
  }

  /** Shifting every row right by one cell keeps each data column's kind. */
  lemma IndexKeepsNumericColumns(rows: seq<Row>, c: nat)
    ensures NumericColumn(NumberRows(rows), c + 1) <==> NumericColumn(rows, c)
  {
    var nr := NumberRows(rows);
    if NumericColumn(rows, c) {
      forall r | 0 <= r < |nr| && c + 1 < |nr[r]| ensures IsNumber(nr[r][c + 1]) {
        assert nr[r][c + 1] == rows[r][c];
      }
    }
    if NumericColumn(nr, c + 1) {
      forall r | 0 <= r < |rows| && c < |rows[r]| ensures IsNumber(rows[r][c]) {
        assert nr[r][c + 1] == rows[r][c];
      }
    }
  }
}
