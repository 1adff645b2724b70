/** The behaviour the table's unit tests assert, replayed on the model: each
    method builds a fresh Table, drives it as the test does, and promises the
    values the test compares. */
module TableScenarios {
  import opened Cells
  import opened Layout
  import opened Render
  import opened RenderFacts
  import opened TableModel
  import Grid

  // ---------------------------------------------------------------------
  // The rows of the tests

  const TestRows: seq<Row> := [
    [Int(1), Str("Arya"), Str("Stark"), Int(3000)],
    [Int(20), Str("Jon"), Str("Snow"), Int(2000), Str("You know nothing, Jon Snow!")],
    [Int(300), Str("Tyrion"), Str("Lannister"), Int(5000)]]

  const TestHeader: Row := [Str("#"), Str("First Name"), Str("Last Name"), Str("Salary")]

  const TestFooter: Row := [Str(""), Str(""), Str("Total"), Int(10000)]

  /** The display text of every cell of the test rows, padded to five columns. */
  const TestTexts: seq<seq<string>> := [
    ["1", "Arya", "Stark", "3000", ""],
    ["20", "Jon", "Snow", "2000", "You know nothing, Jon Snow!"],
    ["300", "Tyrion", "Lannister", "5000", ""]]

  lemma PlainLine(s: string)
    requires '\n' !in s && '\r' !in s
    ensures CellLines(Str(s), false) == [s]
  {
    SplitJoin([s], '\n');
  }

  lemma NumberLine(i: nat, s: string)
    requires NatToString(i) == s
    ensures CellLines(Int(i), false) == [s]
  {
    IntToStringIsOneLine(i);
  }

  lemma TestNumbers()
    ensures NatToString(1) == "1" && NatToString(20) == "20" && NatToString(300) == "300"
    ensures NatToString(2000) == "2000" && NatToString(3000) == "3000" && NatToString(5000) == "5000"
  {
    assert NatToString(2) == "2" && NatToString(3) == "3" && NatToString(5) == "5";
    assert NatToString(30) == "30" && NatToString(200) == "200";
    assert NatToString(300) == "300" && NatToString(500) == "500";
  }

  /** A row whose cells each show one line of known text, padded to n columns. */
  lemma PaddedRowText(row: Row, texts: seq<string>, n: nat)
    requires |row| <= n && |texts| == n
    requires forall c :: 0 <= c < |row| ==> CellLines(row[c], false) == [texts[c]]
    requires forall c :: |row| <= c < n ==> texts[c] == ""
    ensures var tr := TextRowOf(PadRow(row, n), false);
      |tr| == n && forall c :: 0 <= c < n ==> tr[c] == [texts[c]]
  {
    var padded := PadRow(row, n);
    SplitJoin([""], '\n');
    forall c | 0 <= c < n ensures CellLines(padded[c], false) == [texts[c]] {
      if c < |row| {
        assert padded[..|row|][c] == row[c];
      }
    }
  }

  /** A test row of numbers and one-line texts, as the plan shows it. */
  lemma FourCellRow(i: nat, a: string, b: string, j: nat, si: string, sj: string)
    requires NatToString(i) == si && NatToString(j) == sj
    requires '\n' !in a && '\r' !in a && '\n' !in b && '\r' !in b
    ensures TextRowOf(PadRow([Int(i), Str(a), Str(b), Int(j)], 5), false) == [[si], [a], [b], [sj], [""]]
  {
    var row := [Int(i), Str(a), Str(b), Int(j)];
    var texts := [si, a, b, sj, ""];
    forall c | 0 <= c < |row| ensures CellLines(row[c], false) == [texts[c]] {
      if c == 0 { NumberLine(i, si); }
      else if c == 1 { PlainLine(a); }
      else if c == 2 { PlainLine(b); }
      else { NumberLine(j, sj); }
    }
    PaddedRowText(row, texts, 5);
    var tr := TextRowOf(PadRow(row, 5), false);
    FiveLines(tr, si, a, b, sj, "");
  }

  lemma FiveCellRow(i: nat, a: string, b: string, j: nat, d: string, si: string, sj: string)
    requires NatToString(i) == si && NatToString(j) == sj
    requires '\n' !in a && '\r' !in a && '\n' !in b && '\r' !in b && '\n' !in d && '\r' !in d
    ensures TextRowOf(PadRow([Int(i), Str(a), Str(b), Int(j), Str(d)], 5), false) == [[si], [a], [b], [sj], [d]]
  {
    var row := [Int(i), Str(a), Str(b), Int(j), Str(d)];
    var texts := [si, a, b, sj, d];
    forall c | 0 <= c < |row| ensures CellLines(row[c], false) == [texts[c]] {
      if c == 0 { NumberLine(i, si); }
      else if c == 1 { PlainLine(a); }
      else if c == 2 { PlainLine(b); }
      else if c == 3 { NumberLine(j, sj); }
      else { PlainLine(d); }
    }
    PaddedRowText(row, texts, 5);
    var tr := TextRowOf(PadRow(row, 5), false);
    FiveLines(tr, si, a, b, sj, d);
  }

  /** A five-cell text row of one line per cell, written out. */
  lemma FiveLines(tr: TextRow, x0: string, x1: string, x2: string, x3: string, x4: string)
    requires |tr| == 5
    requires tr[0] == [x0] && tr[1] == [x1] && tr[2] == [x2] && tr[3] == [x3] && tr[4] == [x4]
    ensures tr == [[x0], [x1], [x2], [x3], [x4]]
  {
  }

  lemma TestRowsText(rows: seq<Row>)
    requires IsTestRows(rows)
    ensures IsTestText(TextRowsOf(PadRows(rows, 5), false))
  {
    TestRow0(); TestRow1(); TestRow2();
  }

  lemma TestRow0()
    ensures TextRowOf(PadRow(TestRows[0], 5), false) == [["1"], ["Arya"], ["Stark"], ["3000"], [""]]
  {
    TestNumbers();
    FourCellRow(1, "Arya", "Stark", 3000, "1", "3000");
  }

  lemma TestRow1()
    ensures TextRowOf(PadRow(TestRows[1], 5), false) == [["20"], ["Jon"], ["Snow"], ["2000"], ["You know nothing, Jon Snow!"]]
  {
    TestNumbers();
    NoBreaks("You know nothing, Jon Snow!");
    FiveCellRow(20, "Jon", "Snow", 2000, "You know nothing, Jon Snow!", "20", "2000");
  }

  lemma NoBreaks(d: string)
    requires d == "You know nothing, Jon Snow!"
    ensures '\n' !in d && '\r' !in d && |d| == 27
  {
  }

  lemma TestRow2()
    ensures TextRowOf(PadRow(TestRows[2], 5), false) == [["300"], ["Tyrion"], ["Lannister"], ["5000"], [""]]
  {
    TestNumbers();
    FourCellRow(300, "Tyrion", "Lannister", 5000, "300", "5000");
  }

  /** In three rows of one-line cells, a column is as wide as its longest line. */
  lemma ThreeRowWidth(rows: seq<TextRow>, c: nat, x: string, y: string, z: string)
    requires |rows| == 3 && c < |rows[0]| && c < |rows[1]| && c < |rows[2]|
    requires rows[0][c] == [x] && rows[1][c] == [y] && rows[2][c] == [z]
    ensures ColumnWidth(rows, c) == Max(|x|, Max(|y|, |z|))
  {
    var w := ColumnWidth(rows, c);
    assert |rows[0][c][0]| <= w && |rows[1][c][0]| <= w && |rows[2][c][0]| <= w;
    ColumnWidthAttained(rows, c);
  }

  /** The test rows, stated row by row. */
  predicate IsTestRows(rows: seq<Row>) {
    |rows| == 3 && rows[0] == TestRows[0] && rows[1] == TestRows[1] && rows[2] == TestRows[2]
  }

  /** The body text rows of the plan of the test rows: one line per cell. */
  predicate IsTestText(t: seq<TextRow>) {
    && |t| == 3
    && t[0] == [["1"], ["Arya"], ["Stark"], ["3000"], [""]]
    && t[1] == [["20"], ["Jon"], ["Snow"], ["2000"], ["You know nothing, Jon Snow!"]]
    && t[2] == [["300"], ["Tyrion"], ["Lannister"], ["5000"], [""]]
  }

  lemma Width0(t: seq<TextRow>) requires IsTestText(t) ensures ColumnWidth(t, 0) == 3 {
    ThreeRowWidth(t, 0, "1", "20", "300");
  }

  lemma Width1(t: seq<TextRow>) requires IsTestText(t) ensures ColumnWidth(t, 1) == 6 {
    ThreeRowWidth(t, 1, "Arya", "Jon", "Tyrion");
  }

  lemma Width2(t: seq<TextRow>) requires IsTestText(t) ensures ColumnWidth(t, 2) == 9 {
    ThreeRowWidth(t, 2, "Stark", "Snow", "Lannister");
  }

  lemma Width3(t: seq<TextRow>) requires IsTestText(t) ensures ColumnWidth(t, 3) == 4 {
    ThreeRowWidth(t, 3, "3000", "2000", "5000");
  }

  lemma Width4(t: seq<TextRow>) requires IsTestText(t) ensures ColumnWidth(t, 4) == 27 {
    NoBreaks("You know nothing, Jon Snow!");
    ThreeRowWidth(t, 4, "", "You know nothing, Jon Snow!", "");
  }

  lemma TestTextWidths(t: seq<TextRow>)
    requires IsTestText(t)
    ensures ColumnWidths(t, 5) == [3, 6, 9, 4, 27]
  {
    var ws: seq<nat> := [3, 6, 9, 4, 27];
    forall c | 0 <= c < 5 ensures ColumnWidth(t, c) == ws[c] {
      if c == 0 { Width0(t); }
      else if c == 1 { Width1(t); }
      else if c == 2 { Width2(t); }
      else if c == 3 { Width3(t); }
      else { Width4(t); }
    }
    ColumnWidthsAre(t, ws);
  }

  lemma TestColumnCount(rows: seq<Row>)
    requires IsTestRows(rows)
    ensures ColumnCount([] + rows + []) == 5
  {
    assert [] + rows + [] == rows;
    var n := ColumnCount(rows);
    assert |rows[0]| == 4 && |rows[1]| == 5 && |rows[2]| == 4;
  }

  lemma TestColumnKinds(rows: seq<Row>)
    requires IsTestRows(rows)
    ensures NumericColumns(rows, 5) == [true, false, false, true, false]
  {
    var ns := NumericColumns(rows, 5);
    assert !NumericColumn(rows, 1) by { assert !IsNumber(rows[0][1]); }
    assert !NumericColumn(rows, 2) by { assert !IsNumber(rows[0][2]); }
    assert !NumericColumn(rows, 4) by { assert !IsNumber(rows[1][4]); }
    assert ns[0] && ns[3];
  }

  /** The test rows: five columns of widths 3, 6, 9, 4 and 27, numbers
      right-aligned and texts left-aligned, each row one line high. */
  lemma TestPlan(rows: seq<Row>)
    requires IsTestRows(rows)
    ensures var p := MakePlan([], rows, [], StyleTest, false);
      && p.widths == [3, 6, 9, 4, 27]
      && p.header == [] && p.footer == [] && IsTestText(p.body)
      && p.bodyAligns == [AlignRight, AlignLeft, AlignLeft, AlignRight, AlignLeft]
  {
    TestPlanBody(rows);
    TestPlanWidths(rows);
    TestPlanAligns(rows);
  }

  lemma TestPlanBody(rows: seq<Row>)
    requires IsTestRows(rows)
    ensures var p := MakePlan([], rows, [], StyleTest, false);
      p.header == [] && p.footer == [] && IsTestText(p.body)
  {
    TestColumnCount(rows);
    TestRowsText(rows);
    PlanHeader([], rows, [], StyleTest, false);
    PlanBody([], rows, [], StyleTest, false);
    PlanFooter([], rows, [], StyleTest, false);
  }

  lemma TestPlanWidths(rows: seq<Row>)
    requires IsTestRows(rows)
    ensures MakePlan([], rows, [], StyleTest, false).widths == [3, 6, 9, 4, 27]
  {
    var p := MakePlan([], rows, [], StyleTest, false);
    TestColumnCount(rows);
    TestPlanBody(rows);
    PlanWidths([], rows, [], StyleTest, false);
    PlanRowsOrder(p.header, p.body, p.footer);
    BodyOnly(p.body, p.footer);
    TestTextWidths(p.body);
  }

  lemma BodyOnly(b: seq<TextRow>, f: seq<TextRow>)
    requires f == []
    ensures b + f == b
  {
  }

  lemma TestPlanAligns(rows: seq<Row>)
    requires IsTestRows(rows)
    ensures MakePlan([], rows, [], StyleTest, false).bodyAligns == [AlignRight, AlignLeft, AlignLeft, AlignRight, AlignLeft]
  {
    TestColumnCount(rows);
    TestColumnKinds(rows);
    BodyAligns([], rows, [], StyleTest);
    TestBodyAligns(MakePlan([], rows, [], StyleTest, false).bodyAligns, rows);
  }

  lemma TestBodyAligns(a: seq<Align>, rows: seq<Row>)
    requires |a| == 5 && forall c :: 0 <= c < 5 ==> a[c] == if NumericColumn(rows, c) then AlignRight else AlignLeft
    requires NumericColumns(rows, 5) == [true, false, false, true, false]
    ensures a == [AlignRight, AlignLeft, AlignLeft, AlignRight, AlignLeft]
  {
    assert NumericColumn(rows, 0) && !NumericColumn(rows, 1) && !NumericColumn(rows, 2);
    assert NumericColumn(rows, 3) && !NumericColumn(rows, 4);
    assert a[0] == AlignRight && a[1] == AlignLeft && a[2] == AlignLeft && a[3] == AlignRight && a[4] == AlignLeft;
  }

  /** The test table is 65 characters wide in the test style. */
  lemma TestTableWidth()
    ensures TableWidth([3, 6, 9, 4, 27], StyleTest.box) == 65
  {
    TableWidthFormula([3, 6, 9, 4, 27], StyleTest.box);
    assert Sum([3, 6, 9, 4, 27]) == 49;
  }

  /** The unclipped render of the test rows has five lines of 65 characters:
      the top border, one line per row, the bottom border. */
  lemma TestLines(rows: seq<Row>)
    requires IsTestRows(rows)
    ensures var lines := TableLines([], rows, [], StyleTest, false);
      |lines| == 5 && forall k :: 0 <= k < 5 ==> |lines[k]| == 65
  {
    TestPlan(rows);
    TestColumnCount(rows);
    PresetsUniform();
    TableLinesWidth([], rows, [], StyleTest, false);
    TestTableWidth();
    TestTextOneLine(MakePlan([], rows, [], StyleTest, false).body);
    BodyOnlyLines(MakePlan([], rows, [], StyleTest, false), StyleTest);
  }

  lemma TestTextOneLine(t: seq<TextRow>)
    requires IsTestText(t)
    ensures forall r, c :: 0 <= r < |t| && 0 <= c < |t[r]| ==> |t[r][c]| == 1
  {
    forall r, c | 0 <= r < |t| && 0 <= c < |t[r]| ensures |t[r][c]| == 1 {
      assert |t[r]| == 5;
      assert c == 0 || c == 1 || c == 2 || c == 3 || c == 4;
    }
  }

  /** A plan without header and footer, whose cells are one line each: the
      two borders and one line per row. */
  lemma BodyOnlyLines(p: Plan, style: Style)
    requires ValidPlan(p) && p.header == [] && p.footer == [] && !style.options.separateRows
    requires forall r, c :: 0 <= r < |p.body| && 0 <= c < |p.body[r]| ==> |p.body[r][c]| == 1
    ensures |PlanLines(p, style)| == |p.body| + 2
  {
    OneLineRowsBlock(p.body, p.widths, p.bodyAligns, style.box);
  }

  // ---------------------------------------------------------------------
  // Allowed row length

  const TestMarker := StyleTest.box.unfinishedRow

  /** The unclipped render of the test rows in the test style. */
  function TestLinesOf(rows: seq<Row>): seq<string> {
    TableLines([], rows, [], StyleTest, false)
  }

  /** No limit, or one at least the table's width, renders the lines unclipped. */
  lemma TestRenderUnclipped(rows: seq<Row>, limit: int)
    requires IsTestRows(rows) && (limit == 0 || limit >= 65)
    ensures RenderText([], rows, [], StyleTest, false, limit) == JoinOn(TestLinesOf(rows), "\n")
  {
    TestPlan(rows);
    TestTableWidth();
    PresetsUniform();
    WideLimitIsUnclipped([], rows, [], StyleTest, false, limit);
  }

  /** A limit equal to the marker's length renders nothing. */
  lemma TestRenderAtMarker(rows: seq<Row>)
    requires IsTestRows(rows)
    ensures RenderText([], rows, [], StyleTest, false, |TestMarker|) == ""
  {
    TestPlan(rows);
    TestTableWidth();
    PresetsUniform();
    MarkerLengthLimitRendersEmpty([], rows, [], StyleTest, false);
  }

  /** A limit between the marker's length and the table's width keeps the first
      (limit - 4) characters of every line, then the marker. */
  lemma TestRenderClipped(rows: seq<Row>, limit: int, marker: string)
    requires IsTestRows(rows) && marker == TestMarker && |marker| < limit < 65
    ensures var lines := TestLinesOf(rows);
      && RenderText([], rows, [], StyleTest, false, limit) == JoinOn(ClippedLines(lines, limit, marker), "\n")
      && forall k :: 0 <= k < |lines| ==> |lines[k]| == 65 && ClippedLines(lines, limit, marker)[k] == lines[k][..limit - |marker|] + marker
  {
    TestLines(rows);
    ClippedEqualLines(TestLinesOf(rows), 65, limit, marker);
  }

  /** The test table at a limit of five: each line keeps its first glyph, then
      the marker. */
  const LimitFiveText := "( ~~~" + "\n" + "[ ~~~" + "\n" + "[ ~~~" + "\n" + "[ ~~~" + "\n" + "\\ ~~~"

  /** The first glyph of each line of the test table: the top-left corner, the
      left border of each of the three rows, the bottom-left corner. */
  lemma TestEdges(rows: seq<Row>)
    requires IsTestRows(rows)
    ensures var lines := TestLinesOf(rows);
      && |lines| == 5 && (forall k :: 0 <= k < 5 ==> |lines[k]| == 65)
      && lines[0][0] == '(' && lines[1][0] == '[' && lines[2][0] == '[' && lines[3][0] == '[' && lines[4][0] == '\\'
  {
    TestLines(rows);
    TestColumnCount(rows);
    TestPlanBody(rows);
    PresetsUniform();
    BodyOnlyEdges(MakePlan([], rows, [], StyleTest, false), StyleTest);
  }

  /** Five lines so clipped at five characters give the text of the test. */
  lemma LimitFive(lines: seq<string>)
    requires |lines| == 5 && forall k :: 0 <= k < 5 ==> |lines[k]| == 65
    requires lines[0][0] == '(' && lines[1][0] == '[' && lines[2][0] == '[' && lines[3][0] == '[' && lines[4][0] == '\\'
    ensures JoinOn(ClippedLines(lines, 5, TestMarker), "\n") == LimitFiveText
  {
    ClippedFive(lines);
    JoinFive("( ~~~", "[ ~~~", "[ ~~~", "[ ~~~", "\\ ~~~", "\n");
  }

  /** Clipped to 5 characters, each line keeps its first glyph and the marker. */
  lemma ClippedFive(lines: seq<string>)
    requires |lines| == 5 && forall k :: 0 <= k < 5 ==> |lines[k]| == 65
    requires lines[0][0] == '(' && lines[1][0] == '[' && lines[2][0] == '[' && lines[3][0] == '[' && lines[4][0] == '\\'
    ensures ClippedLines(lines, 5, TestMarker) == ["( ~~~", "[ ~~~", "[ ~~~", "[ ~~~", "\\ ~~~"]
  {
    var cs := ClippedLines(lines, 5, TestMarker);
    ClippedGlyphs(lines);
    MarkedGlyphs();
    FiveStrings(cs, "( ~~~", "[ ~~~", "[ ~~~", "[ ~~~", "\\ ~~~");
  }

  lemma ClippedGlyphs(lines: seq<string>)
    requires |lines| == 5 && forall k :: 0 <= k < 5 ==> |lines[k]| == 65
    ensures var cs := ClippedLines(lines, 5, TestMarker);
      |cs| == 5 && forall k :: 0 <= k < 5 ==> cs[k] == [lines[k][0]] + " ~~~"
  {
    ClippedEqualLines(lines, 65, 5, TestMarker);
    forall k | 0 <= k < 5 ensures lines[k][..5 - |TestMarker|] + TestMarker == [lines[k][0]] + " ~~~" {
      ClipGlyph(lines[k]);
    }
  }

  lemma ClipGlyph(line: string)
    requires |line| > 0
    ensures line[..5 - |TestMarker|] + TestMarker == [line[0]] + " ~~~"
  {
    assert TestMarker == " ~~~";
    assert line[..1] == [line[0]];
  }

  lemma MarkedGlyphs()
    ensures ['('] + " ~~~" == "( ~~~" && ['['] + " ~~~" == "[ ~~~" && ['\\'] + " ~~~" == "\\ ~~~"
  {
  }

  lemma FiveStrings(cs: seq<string>, a: string, b: string, c: string, d: string, e: string)
    requires |cs| == 5 && cs[0] == a && cs[1] == b && cs[2] == c && cs[3] == d && cs[4] == e
    ensures cs == [a, b, c, d, e]
  {
  }

  /** Five pieces joined by a separator. */
  lemma JoinFive(a: string, b: string, c: string, d: string, e: string, sep: string)
    ensures JoinOn([a, b, c, d, e], sep) == a + sep + b + sep + c + sep + d + sep + e
  {
    JoinOnSnoc([a], b, sep);
    assert [a] + [b] == [a, b];
    JoinOnSnoc([a, b], c, sep);
    assert [a, b] + [c] == [a, b, c];
    JoinOnSnoc([a, b, c], d, sep);
    assert [a, b, c] + [d] == [a, b, c, d];
    JoinOnSnoc([a, b, c, d], e, sep);
    assert [a, b, c, d] + [e] == [a, b, c, d, e];
  }

  /** The allowed-row-length test: no limit and a limit of 300 render the same
      five lines of 65 characters; a limit equal to the marker's length renders
      nothing; limits of 5 and 30 cut every line to 1 and 26 characters and the
      marker. */
  method AllowedRowLengthTest(rows: seq<Row>) returns (noLimit: string, atMarker: string, five: string, thirty: string, wide: string)
    requires IsTestRows(rows)
    ensures var lines := TestLinesOf(rows);
      && |lines| == 5 && (forall k :: 0 <= k < 5 ==> |lines[k]| == 65)
      && noLimit == JoinOn(lines, "\n") && wide == noLimit
      && atMarker == ""
      && five == JoinOn(ClippedLines(lines, 5, TestMarker), "\n") && five == LimitFiveText
      && (forall k :: 0 <= k < 5 ==> ClippedLines(lines, 5, TestMarker)[k] == lines[k][..1] + TestMarker)
      && thirty == JoinOn(ClippedLines(lines, 30, TestMarker), "\n")
      && (forall k :: 0 <= k < 5 ==> ClippedLines(lines, 30, TestMarker)[k] == lines[k][..26] + TestMarker)
  {
    var t := new Table();
    t.AppendRows(rows, None);
    assert t.rowsRaw == [] + rows == rows;
    t.SetStyle(StyleTest);
    noLimit := RenderWithLimit(t, 0);
    atMarker := RenderWithLimit(t, |TestMarker|);
    five := RenderWithLimit(t, 5);
    thirty := RenderWithLimit(t, 30);
    wide := RenderWithLimit(t, 300);
    TestRenderUnclipped(rows, 0);
    TestRenderUnclipped(rows, 300);
    TestRenderAtMarker(rows);
    TestRenderClipped(rows, 5, TestMarker);
    TestRenderClipped(rows, 30, TestMarker);
    TestLines(rows);
    TestEdges(rows);
    LimitFive(TestLinesOf(rows));
  }

  /** Sets the allowed row length of a table without header and footer and renders it. */
  method RenderWithLimit(t: Table, limit: int) returns (out: string)
    requires t.outputMirror == null && t.rowsHeaderRaw == [] && t.rowsFooterRaw == []
    requires t.style == Some(StyleTest) && !t.autoIndex
    modifies t
    ensures t.outputMirror == null && t.Snapshot() == old(t.Snapshot()).(allowedRowLength := limit)
    ensures out == RenderText([], t.rowsRaw, [], StyleTest, false, limit)
  {
    t.SetAllowedRowLength(limit);
    out := t.Render();
  }

  // ---------------------------------------------------------------------
  // Appending, counting and resetting rows

  const Merge := Some(RowConfig(true, AlignDefault))

  /** Three empty footers, the last one configured to merge: the footer count
      grows by one each time, the header count and the length stay 0, and only
      the last footer merges. */
  method AppendFooterTest() returns (lengths: seq<nat>, footers: seq<nat>, headers: seq<nat>, merges: seq<bool>)
    ensures lengths == [0, 0, 0] && footers == [1, 2, 3] && headers == [0, 0, 0]
    ensures merges == [false, false, true]
  {
    var t := new Table();
    t.AppendFooter([], None);
    var l1, f1, h1 := t.Length(), |t.rowsFooterRaw|, |t.rowsHeaderRaw|;
    t.AppendFooter([], None);
    var l2, f2, h2 := t.Length(), |t.rowsFooterRaw|, |t.rowsHeaderRaw|;
    t.AppendFooter([], Merge);
    lengths, footers, headers := [l1, l2, t.Length()], [f1, f2, |t.rowsFooterRaw|], [h1, h2, |t.rowsHeaderRaw|];
    var m := t.rowsFooterConfigMap;
    merges := [ConfigAt(m, 0).autoMerge, ConfigAt(m, 1).autoMerge, ConfigAt(m, 2).autoMerge];
  }

  /** The same for headers. */
  method AppendHeaderTest() returns (lengths: seq<nat>, footers: seq<nat>, headers: seq<nat>, merges: seq<bool>)
    ensures lengths == [0, 0, 0] && footers == [0, 0, 0] && headers == [1, 2, 3]
    ensures merges == [false, false, true]
  {
    var t := new Table();
    t.AppendHeader([], None);
    var l1, f1, h1 := t.Length(), |t.rowsFooterRaw|, |t.rowsHeaderRaw|;
    t.AppendHeader([], None);
    var l2, f2, h2 := t.Length(), |t.rowsFooterRaw|, |t.rowsHeaderRaw|;
    t.AppendHeader([], Merge);
    lengths, footers, headers := [l1, l2, t.Length()], [f1, f2, |t.rowsFooterRaw|], [h1, h2, |t.rowsHeaderRaw|];
    var m := t.rowsHeaderConfigMap;
    merges := [ConfigAt(m, 0).autoMerge, ConfigAt(m, 1).autoMerge, ConfigAt(m, 2).autoMerge];
  }

  /** Three empty body rows, the last one configured to merge: the length goes
      1, 2, 3 and no header or footer row appears. */
  method AppendRowTest() returns (lengths: seq<nat>, footers: seq<nat>, headers: seq<nat>, merges: seq<bool>)
    ensures lengths == [1, 2, 3] && footers == [0, 0, 0] && headers == [0, 0, 0]
    ensures merges == [false, false, true]
  {
    var t := new Table();
    t.AppendRow([], None);
    var l1, f1, h1 := t.Length(), |t.rowsFooterRaw|, |t.rowsHeaderRaw|;
    t.AppendRow([], None);
    var l2, f2, h2 := t.Length(), |t.rowsFooterRaw|, |t.rowsHeaderRaw|;
    t.AppendRow([], Merge);
    lengths, footers, headers := [l1, l2, t.Length()], [f1, f2, |t.rowsFooterRaw|], [h1, h2, |t.rowsHeaderRaw|];
    var m := t.rowsConfigMap;
    merges := [ConfigAt(m, 0).autoMerge, ConfigAt(m, 1).autoMerge, ConfigAt(m, 2).autoMerge];
  }

  /** One row, one row, then two rows configured to merge: the length goes 1,
      2, 4 and both rows of the last call merge. */
  method AppendRowsTest() returns (lengths: seq<nat>, footers: seq<nat>, headers: seq<nat>, merges: seq<bool>)
    ensures lengths == [1, 2, 4] && footers == [0, 0, 0] && headers == [0, 0, 0]
    ensures merges == [false, false, true, true]
  {
    var t := new Table();
    t.AppendRows([[]], None);
    var l1, f1, h1 := t.Length(), |t.rowsFooterRaw|, |t.rowsHeaderRaw|;
    t.AppendRows([[]], None);
    var l2, f2, h2 := t.Length(), |t.rowsFooterRaw|, |t.rowsHeaderRaw|;
    t.AppendRows([[], []], Merge);
    lengths, footers, headers := [l1, l2, t.Length()], [f1, f2, |t.rowsFooterRaw|], [h1, h2, |t.rowsHeaderRaw|];
    var m := t.rowsConfigMap;
    merges := [ConfigAt(m, 0).autoMerge, ConfigAt(m, 1).autoMerge, ConfigAt(m, 2).autoMerge, ConfigAt(m, 3).autoMerge];
  }

  /** Only body rows count: two rows and then a header give a length of 2. */
  method LengthTest() returns (lengths: seq<nat>)
    ensures lengths == [0, 1, 2, 2]
  {
    var t := new Table();
    lengths := [t.Length()];
    t.AppendRow(TestRows[0], None);
    lengths := lengths + [t.Length()];
    t.AppendRow(TestRows[1], None);
    lengths := lengths + [t.Length()];
    t.AppendHeader(TestHeader, None);
    lengths := lengths + [t.Length()];
  }

  /** Each reset empties its own collection. */
  method ResetTest() returns (before: seq<nat>, after: seq<nat>)
    ensures |before| == 3 && before[0] > 0 && before[1] > 0 && before[2] > 0
    ensures after == [0, 0, 0]
  {
    var t := new Table();
    t.AppendFooter(TestFooter, None);
    before := [|t.rowsFooterRaw|];
    t.ResetFooters();
    after := [|t.rowsFooterRaw|];
    t.AppendHeader(TestHeader, None);
    before := before + [|t.rowsHeaderRaw|];
    t.ResetHeaders();
    after := after + [|t.rowsHeaderRaw|];
    t.AppendRows(TestRows, None);
    before := before + [t.Length()];
    t.ResetRows();
    after := after + [t.Length()];
  }

  // ---------------------------------------------------------------------
  // Settings

  /** A new table uses the default style until another is set. */
  method NewTableStyleTest() returns (initial: Style, afterBold: Style, afterDefault: Style)
    ensures initial == StyleDefault && afterBold == StyleBold && afterDefault == StyleDefault
  {
    var t := new Table();
    initial := t.Style();
    t.SetStyle(StyleBold);
    afterBold := t.Style();
    t.SetStyle(StyleDefault);
    afterDefault := t.Style();
  }

  /** The setters store exactly the value given. */
  method SettersTest() returns (captions: seq<string>, configCounts: seq<nat>, classes: seq<string>,
                                pageSizes: seq<int>, sortCounts: seq<nat>)
    ensures captions == ["", "A Song of Ice and Fire"]
    ensures configCounts == [0, 3]
    ensures classes == ["", "test-css-class"]
    ensures pageSizes == [0, 13]
    ensures sortCounts == [0, 1, 2]
  {
    var t := new Table();
    captions, configCounts, classes := [t.caption], [|t.columnConfigs|], [t.htmlCSSClass];
    pageSizes, sortCounts := [t.pageSize], [|t.sortBy|];
    t.SetCaption("A Song of Ice and Fire");
    captions := captions + [t.caption];
    var blank := ColumnConfig("", 0, AlignDefault, false, false, 0, 0);
    t.SetColumnConfigs([blank, blank, blank]);
    configCounts := configCounts + [|t.columnConfigs|];
    t.SetHTMLCSSClass("test-css-class");
    classes := classes + [t.htmlCSSClass];
    t.SetPageSize(13);
    pageSizes := pageSizes + [t.pageSize];
    t.SortBy([SortBy("#", 0, Asc)]);
    sortCounts := sortCounts + [|t.sortBy|];
    t.SortBy([SortBy("First Name", 0, Dsc), SortBy("Last Name", 0, Asc)]);
    sortCounts := sortCounts + [|t.sortBy|];
  }
}
