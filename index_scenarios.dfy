/** The auto-index test replayed on the model: the test rows with the index
    column switched on. */
module IndexScenarios {
  import opened Cells
  import opened Layout
  import opened Render
  import opened RenderFacts
  import opened TableScenarios
  import opened TableModel

  /** The index column of the test rows: a blank header cell over the numbers
      1, 2 and 3, so one character wide. */
  lemma TestIndexWidth(rows: seq<Row>)
    requires IsTestRows(rows)
    ensures var p := MakePlan([], rows, [], StyleTest, true); |p.widths| > 0 && p.widths[0] == 1
  {
    var p := MakePlan([], rows, [], StyleTest, true);
    TestColumnCount(rows);
    PlanWidth([], rows, [], StyleTest, true, 0);
    AutoIndexLetterHeader([], rows, [], StyleTest, 0);
    TestIndexCells(rows);
    IndexColumnWidth(p.header, p.body, p.footer);
  }

  lemma TestIndexCells(rows: seq<Row>)
    requires IsTestRows(rows)
    ensures var p := MakePlan([], rows, [], StyleTest, true);
      && |p.footer| == 0 && |p.body| == 3
      && |p.body[0]| > 0 && p.body[0][0] == ["1"]
      && |p.body[1]| > 0 && p.body[1][0] == ["2"]
      && |p.body[2]| > 0 && p.body[2][0] == ["3"]
  {
    TestColumnCount(rows);
    AutoIndexColumn([], rows, [], StyleTest);
    NumbersOneToThree(MakePlan([], rows, [], StyleTest, true).body);
  }

  lemma NumbersOneToThree(b: seq<TextRow>)
    requires |b| == 3 && forall r :: 0 <= r < 3 ==> |b[r]| > 0 && b[r][0] == [IntToString(r + 1)]
    ensures |b[0]| > 0 && b[0][0] == ["1"] && |b[1]| > 0 && b[1][0] == ["2"] && |b[2]| > 0 && b[2][0] == ["3"]
  {
    assert b[0][0] == [IntToString(1)] && b[1][0] == [IntToString(2)] && b[2][0] == [IntToString(3)];
    assert IntToString(1) == "1" && IntToString(2) == "2" && IntToString(3) == "3";
  }

  lemma IndexColumnWidth(h: seq<TextRow>, b: seq<TextRow>, f: seq<TextRow>)
    requires |h| == 1 && |h[0]| > 0 && h[0][0] == [""] && |f| == 0
    requires |b| == 3 && |b[0]| > 0 && b[0][0] == ["1"] && |b[1]| > 0 && b[1][0] == ["2"]
    requires |b[2]| > 0 && b[2][0] == ["3"]
    ensures ColumnWidth(h + b + f, 0) == 1
  {
    PlanRowsOrder(h, b, f);
    assert b + f == b;
    ColumnWidthConcat([h[0]], b, 0);
    OneRowWidth(h[0], 0);
    assert MaxLen([""]) == 0 by { assert [""][..0] == []; }
    ThreeRowWidth(b, 0, "1", "2", "3");
  }

  /** The data columns keep their widths: every letter is narrower than the
      text below it. */
  lemma TestIndexedWidths(rows: seq<Row>)
    requires IsTestRows(rows)
    ensures MakePlan([], rows, [], StyleTest, true).widths == [1, 3, 6, 9, 4, 27]
  {
    TestColumnCount(rows);
    TestPlan(rows);
    TestIndexWidth(rows);
    AutoIndexLetterWidths([], rows, [], StyleTest);
    SingleLetters();
    WidthsWithLetters(MakePlan([], rows, [], StyleTest, true).widths, MakePlan([], rows, [], StyleTest, false).widths);
  }

  lemma WidthsWithLetters(pw: seq<nat>, qw: seq<nat>)
    requires qw == [3, 6, 9, 4, 27] && |pw| == 6 && pw[0] == 1
    requires forall c :: 0 <= c < 5 ==> pw[c + 1] == Max(1, qw[c])
    ensures pw == [1, 3, 6, 9, 4, 27]
  {
    assert pw[1] == Max(1, qw[0]) && pw[2] == Max(1, qw[1]) && pw[3] == Max(1, qw[2]);
    assert pw[4] == Max(1, qw[3]) && pw[5] == Max(1, qw[4]);
  }

  lemma SingleLetters()
    ensures forall c :: 0 <= c < 26 ==> |ColumnID(c)| == 1
  {
    forall c | 0 <= c < 26 ensures |ColumnID(c)| == 1 {
      ColumnIDSingleLetter(c);
    }
  }

  /** The synthetic header row: a blank over the index, then A to E. */
  lemma TestLetterRow(rows: seq<Row>)
    requires IsTestRows(rows)
    ensures MakePlan([], rows, [], StyleTest, true).header == [[[""], ["A"], ["B"], ["C"], ["D"], ["E"]]]
  {
    TestColumnCount(rows);
    AutoIndexLetterRow([], rows, [], StyleTest);
    var h := MakePlan([], rows, [], StyleTest, true).header;
    LettersAtoE(h[0]);
    assert h == [h[0]];
  }

  lemma LettersAtoE(h: TextRow)
    requires |h| == 6 && h[0] == [""] && forall c :: 0 <= c < 5 ==> h[c + 1] == [ColumnID(c)]
    ensures h == [[""], ["A"], ["B"], ["C"], ["D"], ["E"]]
  {
    ColumnIDSingleLetter(0); ColumnIDSingleLetter(1); ColumnIDSingleLetter(2);
    ColumnIDSingleLetter(3); ColumnIDSingleLetter(4);
    assert h[1] == [ColumnID(0)] && h[2] == [ColumnID(1)] && h[3] == [ColumnID(2)];
    assert h[4] == [ColumnID(3)] && h[5] == [ColumnID(4)];
  }

  /** The letter row is right-aligned over the index and the number columns and
      centred over the text columns. */
  lemma TestIndexedAligns(rows: seq<Row>)
    requires IsTestRows(rows)
    ensures MakePlan([], rows, [], StyleTest, true).headerAligns
      == [AlignRight, AlignRight, AlignCenter, AlignCenter, AlignRight, AlignCenter]
  {
    TestColumnCount(rows);
    NumericTestColumns(rows);
    AutoIndexLetterAligns([], rows, [], StyleTest);
    LetterAligns(MakePlan([], rows, [], StyleTest, true).headerAligns, rows);
  }

  lemma LetterAligns(a: seq<Align>, rows: seq<Row>)
    requires |a| == 6 && a[0] == AlignRight
    requires forall c :: 0 <= c < 5 ==> a[c + 1] == if NumericColumn(rows, c) then AlignRight else AlignCenter
    requires NumericColumn(rows, 0) && !NumericColumn(rows, 1) && !NumericColumn(rows, 2)
    requires NumericColumn(rows, 3) && !NumericColumn(rows, 4)
    ensures a == [AlignRight, AlignRight, AlignCenter, AlignCenter, AlignRight, AlignCenter]
  {
    assert a[1] == AlignRight && a[2] == AlignCenter && a[3] == AlignCenter;
    assert a[4] == AlignRight && a[5] == AlignCenter;
  }

  lemma NumericTestColumns(rows: seq<Row>)
    requires IsTestRows(rows)
    ensures NumericColumn(rows, 0) && !NumericColumn(rows, 1) && !NumericColumn(rows, 2)
    ensures NumericColumn(rows, 3) && !NumericColumn(rows, 4)
  {
    TestColumnKinds(rows);
  }

  /** The auto-indexed test table: widths 1, 3, 6, 9, 4 and 27; the letters A to
      E over the columns, right-aligned over the number columns and centred
      over the others. */
  lemma TestIndexedPlan(rows: seq<Row>)
    requires IsTestRows(rows)
    ensures var p := MakePlan([], rows, [], StyleTest, true);
      && p.widths == [1, 3, 6, 9, 4, 27]
      && p.header == [[[""], ["A"], ["B"], ["C"], ["D"], ["E"]]]
      && p.headerAligns == [AlignRight, AlignRight, AlignCenter, AlignCenter, AlignRight, AlignCenter]
  {
    TestIndexedWidths(rows);
    TestLetterRow(rows);
    TestIndexedAligns(rows);
  }

  /** The auto-index test: a new table does not index; switched on, its render
      is that of the indexed plan above. */
  method SetAutoIndexTest(rows: seq<Row>) returns (initially: bool, indexed: bool, plain: string, numbered: string)
    requires IsTestRows(rows)
    ensures !initially && indexed
    ensures plain == RenderText([], rows, [], StyleTest, false, 0)
    ensures numbered == RenderText([], rows, [], StyleTest, true, 0)
    ensures var p := MakePlan([], rows, [], StyleTest, true);
      && p.widths == [1, 3, 6, 9, 4, 27]
      && p.header == [[[""], ["A"], ["B"], ["C"], ["D"], ["E"]]]
      && p.headerAligns == [AlignRight, AlignRight, AlignCenter, AlignCenter, AlignRight, AlignCenter]
  {
    var t := new Table();
    t.AppendRows(rows, None);
    assert t.rowsRaw == [] + rows == rows;
    t.SetStyle(StyleTest);
    initially := t.autoIndex;
    plain := RenderTestTable(t);
    t.SetAutoIndex(true);
    indexed := t.autoIndex;
    numbered := RenderTestTable(t);
    TestIndexedPlan(rows);
  }

  /** Renders a table of body rows only, in the test style, without a limit. */
  method RenderTestTable(t: Table) returns (out: string)
    requires t.outputMirror == null && t.rowsHeaderRaw == [] && t.rowsFooterRaw == []
    requires t.style == Some(StyleTest) && t.allowedRowLength == 0
    ensures out == RenderText([], t.rowsRaw, [], StyleTest, t.autoIndex, 0)
  {
    out := t.Render();
  }

  // ---------------------------------------------------------------------
  // A header and a multi-line row under the index column

  /** The multi-line test row: its last cell spans three lines. */
  const TestRowMultiLine: Row :=
    [Int(0), Str("Winter"), Str("Is"), Int(0),
     Str("Coming." + "\r\n" + "The North Remembers!" + "\n" + "This is known.")]

  /** What the index column shows in an auto-indexed plan with one header row
      and a row numbered n: a blank index cell in front of the upper-cased
      header, and n on the first physical line of that row only. */
  ghost predicate IndexShown(p: Plan, header: Row, r: nat, n: string) {
    && |p.header| == 1 && |p.header[0]| > |header| && p.header[0][0] == [""]
    && (forall c :: 0 <= c < |header| ==> p.header[0][c + 1] == CellLines(header[c], true))
    && r < |p.body| && |p.body[r]| > 0
    && forall k: nat :: LineAt(p.body[r], k)[0] == if k == 0 then n else ""
  }

  /** The plan facts behind IndexShown, for any style that upper-cases headers. */
  lemma IndexedHeaderAndRow(header: Row, body: seq<Row>, style: Style, r: nat, n: string)
    requires style.format.headerUpper && |header| > 0 && r < |body| && IntToString(r + 1) == n
    ensures IndexShown(MakePlan([header], body, [], style, true), header, r, n)
  {
    IndexedHeaderCells(header, body, style);
    IndexedRowNumber(header, body, style, r, n);
  }

  lemma IndexedHeaderCells(header: Row, body: seq<Row>, style: Style)
    requires style.format.headerUpper
    ensures var p := MakePlan([header], body, [], style, true);
      && |p.header| == 1 && |p.header[0]| > |header| && p.header[0][0] == [""]
      && forall c :: 0 <= c < |header| ==> p.header[0][c + 1] == CellLines(header[c], true)
  {
    var p := MakePlan([header], body, [], style, true);
    var all := [header] + body + [];
    assert all[0] == header;
    assert |p.header[0]| == |p.widths|;
    forall c | 0 <= c < |header| ensures p.header[0][c + 1] == CellLines(header[c], true) {
      AutoIndexKeepsHeader([header], body, [], style, 0, c);
    }
    if |header| > 0 {
      AutoIndexKeepsHeader([header], body, [], style, 0, 0);
    } else {
      assert p.header[0][0] == [""] by {
        PlanHeader([header], body, [], style, true);
        BlankIsOneLine(true);
      }
    }
  }

  lemma IndexedRowNumber(header: Row, body: seq<Row>, style: Style, r: nat, n: string)
    requires |header| > 0 && r < |body| && IntToString(r + 1) == n
    ensures var p := MakePlan([header], body, [], style, true);
      r < |p.body| && |p.body[r]| > 0 && forall k: nat :: LineAt(p.body[r], k)[0] == if k == 0 then n else ""
  {
    var all := [header] + body + [];
    assert all[0] == header;
    forall k: nat ensures LineAt(MakePlan([header], body, [], style, true).body[r], k)[0] == if k == 0 then n else "" {
      AutoIndexFirstLineOnly([header], body, [], style, r, k);
    }
  }

  /** The auto-index test continued: the header, the multi-line row and then
      the light style are added to the indexed test table, and each is rendered. */
  method AutoIndexHeaderTest(rows: seq<Row>) returns (withHeader: string, withMultiLine: string, light: string)
    requires IsTestRows(rows)
    ensures withHeader == RenderText([TestHeader], rows, [], StyleTest, true, 0)
    ensures withMultiLine == RenderText([TestHeader], rows + [TestRowMultiLine], [], StyleTest, true, 0)
    ensures light == RenderText([TestHeader], rows + [TestRowMultiLine], [], StyleLight, true, 0)
    ensures HeaderLayout(MakePlan([TestHeader], rows, [], StyleTest, true))
    ensures HeaderLayout(MakePlan([TestHeader], rows + [TestRowMultiLine], [], StyleTest, true))
    ensures MultiLineShown(MakePlan([TestHeader], rows + [TestRowMultiLine], [], StyleTest, true))
    ensures HeaderLayout(MakePlan([TestHeader], rows + [TestRowMultiLine], [], StyleLight, true))
    ensures MultiLineShown(MakePlan([TestHeader], rows + [TestRowMultiLine], [], StyleLight, true))
  {
    var t := new Table();
    t.AppendRows(rows, None);
    assert t.rowsRaw == [] + rows == rows;
    t.SetStyle(StyleTest);
    t.SetAutoIndex(true);
    t.AppendHeader(TestHeader, None);
    assert t.rowsHeaderRaw == [TestHeader];
    withHeader := RenderStyled(t, StyleTest);
    t.AppendRow(TestRowMultiLine, None);
    withMultiLine := RenderStyled(t, StyleTest);
    t.SetStyle(StyleLight);
    light := RenderStyled(t, StyleLight);
    AutoIndexHeaderPlans(rows);
  }

  /** What those renders show in the index column: a blank cell in front of the
      upper-cased header, and the multi-line row's number 4 on its first line
      only. */
  lemma AutoIndexHeaderShown(rows: seq<Row>)
    requires IsTestRows(rows)
    ensures IndexShown(MakePlan([TestHeader], rows, [], StyleTest, true), TestHeader, 0, "1")
    ensures IndexShown(MakePlan([TestHeader], rows + [TestRowMultiLine], [], StyleTest, true), TestHeader, 3, "4")
    ensures IndexShown(MakePlan([TestHeader], rows + [TestRowMultiLine], [], StyleLight, true), TestHeader, 3, "4")
  {
    IndexNumbers();
    IndexedHeaderAndRow(TestHeader, rows, StyleTest, 0, "1");
    IndexedHeaderAndRow(TestHeader, rows + [TestRowMultiLine], StyleTest, 3, "4");
    IndexedHeaderAndRow(TestHeader, rows + [TestRowMultiLine], StyleLight, 3, "4");
  }

  lemma IndexNumbers()
    ensures IntToString(1) == "1" && IntToString(4) == "4"
  {
  }

  // ---------------------------------------------------------------------
  // The plans behind those renders

  /** The test header, told by its cells. */
  predicate IsTestHeaderRow(h: Row) {
    |h| == 4 && h[0] == Str("#") && h[1] == Str("First Name") && h[2] == Str("Last Name") && h[3] == Str("Salary")
  }

  /** The multi-line test row, told by its cells. */
  predicate IsMultiLineRow(m: Row) {
    && |m| == 5 && m[0] == Int(0) && m[1] == Str("Winter") && m[2] == Str("Is") && m[3] == Int(0)
    && m[4] == Str("Coming." + "\r\n" + "The North Remembers!" + "\n" + "This is known.")
  }

  /** The bodies of the renders: the test rows, then the multi-line row after them. */
  predicate IsHeaderTestBody(body: seq<Row>) {
    || IsTestRows(body)
    || (|body| == 4 && IsTestRows(body[..3]) && IsMultiLineRow(body[3]))
  }

  /** The test header as an upper-casing style shows it, padded to five columns. */
  const HeaderText: TextRow := [["#"], ["FIRST NAME"], ["LAST NAME"], ["SALARY"], [""]]

  /** The multi-line test row as the plan shows it: one line in every cell but
      the last, which shows three. */
  const MultiLineText: TextRow :=
    [["0"], ["Winter"], ["Is"], ["0"], ["Coming.", "The North Remembers!", "This is known."]]

  lemma UpperLine(s: string, u: string)
    requires '\n' !in s && '\r' !in s && Upper(s) == u
    ensures CellLines(Str(s), true) == [u]
  {
    assert '\n' !in u && '\r' !in u by {
      forall k | 0 <= k < |u| ensures u[k] != '\n' && u[k] != '\r' {
        assert u[k] == UpperChar(s[k]);
      }
    }
    SplitJoin([u], '\n');
  }

  /** The header names, upper-cased, each on one line. */
  lemma HeaderNameLines()
    ensures CellLines(Str("#"), true) == ["#"]
    ensures CellLines(Str("First Name"), true) == ["FIRST NAME"]
    ensures CellLines(Str("Last Name"), true) == ["LAST NAME"]
    ensures CellLines(Str("Salary"), true) == ["SALARY"]
  {
    HashLine();
    FirstNameLine();
    LastNameLine();
    SalaryLine();
  }

  lemma HashLine() ensures CellLines(Str("#"), true) == ["#"] {
    assert Upper("#") == "#";
    UpperLine("#", "#");
  }

  lemma FirstNameLine() ensures CellLines(Str("First Name"), true) == ["FIRST NAME"] {
    assert Upper("First Name") == "FIRST NAME";
    UpperLine("First Name", "FIRST NAME");
  }

  lemma LastNameLine() ensures CellLines(Str("Last Name"), true) == ["LAST NAME"] {
    assert Upper("Last Name") == "LAST NAME";
    UpperLine("Last Name", "LAST NAME");
  }

  lemma SalaryLine() ensures CellLines(Str("Salary"), true) == ["SALARY"] {
    assert Upper("Salary") == "SALARY";
    UpperLine("Salary", "SALARY");
  }

  lemma HeaderRowText(hd: Row)
    requires IsTestHeaderRow(hd)
    ensures TextRowOf(PadRow(hd, 5), true) == HeaderText
  {
    HeaderNameLines();
    BlankIsOneLine(true);
    var pr := PadRow(hd, 5);
    assert pr[..4] == hd;
    assert pr[0] == hd[0] && pr[1] == hd[1] && pr[2] == hd[2] && pr[3] == hd[3] && pr[4] == Nil;
    FiveLines(TextRowOf(pr, true), "#", "FIRST NAME", "LAST NAME", "SALARY", "");
  }

  lemma MultiLineRowText(m: Row)
    requires IsMultiLineRow(m)
    ensures TextRowOf(PadRow(m, 5), false) == MultiLineText
  {
    assert PadRow(m, 5) == m;
    MultiLineCells(m);
    var tr := TextRowOf(m, false);
    var t := MultiLineText;
    assert tr[0] == t[0] && tr[1] == t[1] && tr[2] == t[2] && tr[3] == t[3] && tr[4] == t[4];
    SameFive(tr, t);
  }

  lemma MultiLineCells(m: Row)
    requires IsMultiLineRow(m)
    ensures CellLines(m[0], false) == ["0"] && CellLines(m[1], false) == ["Winter"]
    ensures CellLines(m[2], false) == ["Is"] && CellLines(m[3], false) == ["0"]
    ensures CellLines(m[4], false) == ["Coming.", "The North Remembers!", "This is known."]
  {
    assert NatToString(0) == "0";
    NumberLine(0, "0");
    PlainLine("Winter");
    PlainLine("Is");
    MultiLineCellExample();
  }

  lemma SameFive(a: TextRow, b: TextRow)
    requires |a| == |b| == 5 && a[0] == b[0] && a[1] == b[1] && a[2] == b[2] && a[3] == b[3] && a[4] == b[4]
    ensures a == b
  {
  }

  lemma HeaderTestColumns(hd: Row, body: seq<Row>)
    requires IsTestHeaderRow(hd) && IsHeaderTestBody(body)
    ensures ColumnCount([hd] + body + []) == 5
  {
    var all := [hd] + body + [];
    assert all[2] == body[1] && |body[1]| == 5;
    forall r | 0 <= r < |all| ensures |all[r]| <= 5 {
      if r > 0 { assert all[r] == body[r - 1]; }
    }
  }

  /** The display rows of the body, padded to five columns. */
  lemma HeaderTestBodyText(body: seq<Row>)
    requires IsHeaderTestBody(body)
    ensures var bt := TextRowsOf(PadRows(body, 5), false);
      IsTestText(bt) || (|bt| == 4 && IsTestText(bt[..3]) && bt[3] == MultiLineText)
  {
    var bt := TextRowsOf(PadRows(body, 5), false);
    if IsTestRows(body) {
      TestRowsText(body);
    } else {
      TestRowsText(body[..3]);
      MultiLineRowText(body[3]);
      var it := TextRowsOf(PadRows(body[..3], 5), false);
      assert bt[..3] == it by {
        forall r | 0 <= r < 3 ensures bt[r] == it[r] {
          assert body[..3][r] == body[r];
        }
      }
    }
  }

  /** A one-line-per-cell row is as wide in each column as that cell's line. */
  lemma SingleLineWidth(tr: TextRow, c: nat, s: string)
    requires c < |tr| && tr[c] == [s]
    ensures ColumnWidth([tr], c) == |s|
  {
    OneRowWidth(tr, c);
    assert [s][..0] == [];
  }

  lemma ThreeLinesWidth(ls: seq<string>)
    requires ls == ["Coming.", "The North Remembers!", "This is known."]
    ensures MaxLen(ls) == 20
  {
    assert ls[..2][..1][..0] == [];
    assert ls[..2][..1] == ["Coming."];
    assert ls[..2] == ["Coming.", "The North Remembers!"];
  }

  lemma MultiLineWidths(c: nat)
    requires c < 5
    ensures ColumnWidth([MultiLineText], c) == [1, 6, 2, 1, 20][c]
  {
    var t := MultiLineText;
    if c < 4 {
      SingleLineWidth(t, c, t[c][0]);
    } else {
      OneRowWidth(t, 4);
      ThreeLinesWidth(t[4]);
    }
  }

  lemma HeaderTextWidths(c: nat)
    requires c < 5
    ensures ColumnWidth([HeaderText], c) == [1, 10, 9, 6, 0][c]
  {
    SingleLineWidth(HeaderText, c, HeaderText[c][0]);
  }

  /** The test header widens the second to fourth columns to its names. */
  lemma HeaderBodyWidths(bt: seq<TextRow>)
    requires forall c :: 0 <= c < 5 ==> ColumnWidth(bt, c) == [3, 6, 9, 4, 27][c]
    ensures ColumnWidths([HeaderText] + bt, 5) == [3, 10, 9, 6, 27]
  {
    var ws: seq<nat> := [3, 10, 9, 6, 27];
    forall c | 0 <= c < 5 ensures ColumnWidth([HeaderText] + bt, c) == ws[c] {
      ColumnWidthConcat([HeaderText], bt, c);
      HeaderTextWidths(c);
    }
    ColumnWidthsAre([HeaderText] + bt, ws);
  }

  /** The body alone has the test rows' widths; the multi-line row widens
      nothing. */
  lemma BodyWidths(bt: seq<TextRow>)
    requires IsTestText(bt) || (|bt| == 4 && IsTestText(bt[..3]) && bt[3] == MultiLineText)
    ensures forall c :: 0 <= c < 5 ==> ColumnWidth(bt, c) == [3, 6, 9, 4, 27][c]
  {
    if |bt| == 3 {
      TestRowsWidths(bt);
    } else {
      TestRowsWidths(bt[..3]);
      MultiLineBodyWidths(bt);
    }
  }

  lemma TestRowsWidths(bt: seq<TextRow>)
    requires IsTestText(bt)
    ensures forall c :: 0 <= c < 5 ==> ColumnWidth(bt, c) == [3, 6, 9, 4, 27][c]
  {
    TestTextWidths(bt);
    var ws := ColumnWidths(bt, 5);
    forall c | 0 <= c < 5 ensures ColumnWidth(bt, c) == [3, 6, 9, 4, 27][c] {
      assert ws[c] == ColumnWidth(bt, c);
    }
  }

  lemma MultiLineBodyWidths(bt: seq<TextRow>)
    requires |bt| == 4 && bt[3] == MultiLineText
    requires forall c :: 0 <= c < 5 ==> ColumnWidth(bt[..3], c) == [3, 6, 9, 4, 27][c]
    ensures forall c :: 0 <= c < 5 ==> ColumnWidth(bt, c) == [3, 6, 9, 4, 27][c]
  {
    assert bt == bt[..3] + [bt[3]];
    MultiLineNarrower();
    RowNarrower(bt[..3], bt[3], [3, 6, 9, 4, 27]);
  }

  lemma MultiLineNarrower()
    ensures forall c :: 0 <= c < 5 ==> ColumnWidth([MultiLineText], c) <= [3, 6, 9, 4, 27][c]
  {
    forall c | 0 <= c < 5 ensures ColumnWidth([MultiLineText], c) <= [3, 6, 9, 4, 27][c] {
      MultiLineWidths(c);
    }
  }

  /** A row no wider than the rows above it in any column leaves the widths as
      they were. */
  lemma RowNarrower(init: seq<TextRow>, row: TextRow, ws: seq<nat>)
    requires forall c :: 0 <= c < |ws| ==> ColumnWidth(init, c) == ws[c] && ColumnWidth([row], c) <= ws[c]
    ensures forall c :: 0 <= c < |ws| ==> ColumnWidth(init + [row], c) == ws[c]
  {
    forall c | 0 <= c < |ws| ensures ColumnWidth(init + [row], c) == ws[c] {
      ColumnWidthConcat(init, [row], c);
    }
  }

  /** Without the index, the plan of a header render: the header cells
      upper-cased, and widths 3, 10, 9, 6 and 27. */
  lemma HeaderTestPlan(hd: Row, body: seq<Row>, style: Style)
    requires IsTestHeaderRow(hd) && IsHeaderTestBody(body) && style.format.headerUpper
    ensures var q := MakePlan([hd], body, [], style, false);
      && q.header == [HeaderText] && q.footer == []
      && (IsTestText(q.body) || (|q.body| == 4 && IsTestText(q.body[..3]) && q.body[3] == MultiLineText))
      && q.widths == [3, 10, 9, 6, 27]
  {
    var q := MakePlan([hd], body, [], style, false);
    HeaderPlanRows(hd, body, style);
    PlanWidths([hd], body, [], style, false);
    assert q.header + q.body + q.footer == [HeaderText] + q.body;
    BodyWidths(q.body);
    HeaderBodyWidths(q.body);
  }

  lemma HeaderPlanRows(hd: Row, body: seq<Row>, style: Style)
    requires IsTestHeaderRow(hd) && IsHeaderTestBody(body) && style.format.headerUpper
    ensures var q := MakePlan([hd], body, [], style, false);
      && q.header == [HeaderText] && q.footer == []
      && (IsTestText(q.body) || (|q.body| == 4 && IsTestText(q.body[..3]) && q.body[3] == MultiLineText))
  {
    HeaderTestColumns(hd, body);
    HeaderPlanHeader(hd, body, style);
    HeaderPlanBody(hd, body, style);
  }

  lemma HeaderPlanHeader(hd: Row, body: seq<Row>, style: Style)
    requires ColumnCount([hd] + body + []) == 5 && IsTestHeaderRow(hd) && style.format.headerUpper
    ensures MakePlan([hd], body, [], style, false).header == [HeaderText]
  {
    PlanHeader([hd], body, [], style, false);
    HeaderRowText(hd);
    assert PadRows([hd], 5) == [PadRow(hd, 5)];
  }

  lemma HeaderPlanBody(hd: Row, body: seq<Row>, style: Style)
    requires ColumnCount([hd] + body + []) == 5 && IsHeaderTestBody(body)
    ensures var q := MakePlan([hd], body, [], style, false);
      IsTestText(q.body) || (|q.body| == 4 && IsTestText(q.body[..3]) && q.body[3] == MultiLineText)
  {
    PlanBody([hd], body, [], style, false);
    HeaderTestBodyText(body);
  }

  /** An index column of one-digit numbers under a blank header cell is one
      character wide. */
  lemma IndexWidthOne(rows: seq<TextRow>, r0: nat)
    requires forall r :: 0 <= r < |rows| ==> |rows[r]| > 0 && |rows[r][0]| == 1 && |rows[r][0][0]| <= 1
    requires r0 < |rows| && |rows[r0][0][0]| == 1
    ensures ColumnWidth(rows, 0) == 1
  {
    ColumnWidthAttained(rows, 0);
  }

  lemma SmallNumbers(n: nat)
    requires 1 <= n <= 9
    ensures |IntToString(n)| == 1
  {
  }

  /** With one header row and at most nine body rows, the index column is one
      character wide. */
  lemma IndexWidthWithHeader(header: Row, body: seq<Row>, style: Style)
    requires |header| > 0 && 0 < |body| <= 9
    ensures var p := MakePlan([header], body, [], style, true); |p.widths| > 0 && p.widths[0] == 1
  {
    var p := MakePlan([header], body, [], style, true);
    PlanWidth([header], body, [], style, true, 0);
    IndexColumnCells(header, body, style);
    IndexRowsWidth(p.header + p.body + p.footer, p.header, p.body, p.footer);
  }

  lemma IndexColumnCells(header: Row, body: seq<Row>, style: Style)
    requires |header| > 0
    ensures var p := MakePlan([header], body, [], style, true);
      && |p.header| == 1 && |p.header[0]| > 0 && p.header[0][0] == [""] && p.footer == []
      && forall r :: 0 <= r < |body| ==> |p.body[r]| > 0 && p.body[r][0] == [IntToString(r + 1)]
  {
    assert ([header] + body + [])[0] == header;
    AutoIndexKeepsHeader([header], body, [], style, 0, 0);
    AutoIndexColumn([header], body, [], style);
  }

  lemma IndexRowsWidth(all: seq<TextRow>, h: seq<TextRow>, b: seq<TextRow>, f: seq<TextRow>)
    requires all == h + b + f && |h| == 1 && |h[0]| > 0 && h[0][0] == [""] && f == []
    requires 0 < |b| <= 9 && forall r :: 0 <= r < |b| ==> |b[r]| > 0 && b[r][0] == [IntToString(r + 1)]
    ensures ColumnWidth(all, 0) == 1
  {
    assert all == [h[0]] + b;
    forall r | 0 <= r < |all| ensures |all[r]| > 0 && |all[r][0]| == 1 && |all[r][0][0]| <= 1 {
      if r > 0 {
        assert all[r] == b[r - 1];
        SmallNumbers(r);
      }
    }
    assert all[1] == b[0];
    SmallNumbers(1);
    IndexWidthOne(all, 1);
  }

  /** With the index, the widths of a header render: the index column, then
      the header plan's widths. */
  lemma HeaderTestWidths(hd: Row, body: seq<Row>, style: Style)
    requires IsTestHeaderRow(hd) && IsHeaderTestBody(body) && style.format.headerUpper
    ensures MakePlan([hd], body, [], style, true).widths == [1, 3, 10, 9, 6, 27]
  {
    var p := MakePlan([hd], body, [], style, true);
    var q := MakePlan([hd], body, [], style, false);
    HeaderTestPlan(hd, body, style);
    IndexWidthWithHeader(hd, body, style);
    HeaderTestColumns(hd, body);
    forall c | 0 <= c < 5 ensures p.widths[c + 1] == q.widths[c] {
      AutoIndexWidthsWithHeader([hd], body, [], style, c);
    }
    IndexedWidths(p.widths, q.widths);
  }

  lemma IndexedWidths(pw: seq<nat>, qw: seq<nat>)
    requires qw == [3, 10, 9, 6, 27] && |pw| == 6 && pw[0] == 1
    requires forall c :: 0 <= c < 5 ==> pw[c + 1] == qw[c]
    ensures pw == [1, 3, 10, 9, 6, 27]
  {
    assert pw[1] == qw[0] && pw[2] == qw[1] && pw[3] == qw[2] && pw[4] == qw[3] && pw[5] == qw[4];
  }

  /** With a header, auto-index makes the index column right-aligned and keeps
      every other column's alignment, the same in header and body rows: right
      over numbers, left elsewhere. */
  lemma IndexedAlignsWithHeader(header: seq<Row>, body: seq<Row>, footer: seq<Row>, style: Style)
    requires |header| > 0
    ensures var p := MakePlan(header, body, footer, style, true);
      var n := ColumnCount(header + body + footer);
      && |p.bodyAligns| == n + 1 && p.headerAligns == p.bodyAligns
      && p.bodyAligns[0] == AlignRight
      && forall c :: 0 <= c < n ==> p.bodyAligns[c + 1] == if NumericColumn(body, c) then AlignRight else AlignLeft
  {
    var p := MakePlan(header, body, footer, style, true);
    var n := ColumnCount(header + body + footer);
    IndexColumnNumeric(body);
    IndexedAlignment(header, body, footer, style, 0);
    forall c | 0 <= c < n ensures p.bodyAligns[c + 1] == if NumericColumn(body, c) then AlignRight else AlignLeft {
      IndexedAlignment(header, body, footer, style, c + 1);
      IndexKeepsNumericColumns(body, c);
    }
    forall c | 0 <= c < n + 1 ensures p.headerAligns[c] == p.bodyAligns[c] {
      IndexedAlignment(header, body, footer, style, c);
    }
  }

  /** With a header and the index, header and body rows align each column by
      the kind of the numbered body's column. */
  lemma IndexedAlignment(header: seq<Row>, body: seq<Row>, footer: seq<Row>, style: Style, c: nat)
    requires |header| > 0 && c < ColumnCount(header + body + footer) + 1
    ensures var p := MakePlan(header, body, footer, style, true);
      var numeric := NumericColumn(NumberRows(body), c);
      p.headerAligns[c] == ColumnAlign(numeric, HeaderRow) && p.bodyAligns[c] == ColumnAlign(numeric, BodyRow)
  {
  }

  lemma HeaderTestKinds(body: seq<Row>)
    requires IsHeaderTestBody(body)
    ensures NumericColumn(body, 0) && !NumericColumn(body, 1) && !NumericColumn(body, 2)
    ensures NumericColumn(body, 3) && !NumericColumn(body, 4)
  {
    assert !IsNumber(body[0][1]) && !IsNumber(body[0][2]) && !IsNumber(body[1][4]);
    forall r | 0 <= r < |body| ensures |body[r]| > 3 && IsNumber(body[r][0]) && IsNumber(body[r][3]) {
    }
  }

  lemma LayoutAligns(a: seq<Align>, body: seq<Row>)
    requires |a| == 6 && a[0] == AlignRight
    requires forall c :: 0 <= c < 5 ==> a[c + 1] == if NumericColumn(body, c) then AlignRight else AlignLeft
    requires NumericColumn(body, 0) && !NumericColumn(body, 1) && !NumericColumn(body, 2)
    requires NumericColumn(body, 3) && !NumericColumn(body, 4)
    ensures a == [AlignRight, AlignRight, AlignLeft, AlignLeft, AlignRight, AlignLeft]
  {
    assert a[1] == AlignRight && a[2] == AlignLeft && a[3] == AlignLeft && a[4] == AlignRight && a[5] == AlignLeft;
  }

  /** The alignments of a header render: right over the index and the number
      columns, left over the names and the quote. */
  lemma HeaderTestAligns(hd: Row, body: seq<Row>, style: Style)
    requires IsTestHeaderRow(hd) && IsHeaderTestBody(body)
    ensures var p := MakePlan([hd], body, [], style, true);
      && p.headerAligns == [AlignRight, AlignRight, AlignLeft, AlignLeft, AlignRight, AlignLeft]
      && p.bodyAligns == p.headerAligns
  {
    var p := MakePlan([hd], body, [], style, true);
    HeaderTestColumns(hd, body);
    HeaderTestKinds(body);
    IndexedAlignsWithHeader([hd], body, [], style);
    LayoutAligns(p.bodyAligns, body);
  }

  /** The multi-line row, numbered 4 by the index, takes three physical lines. */
  lemma MultiLineHeight(hd: Row, body: seq<Row>, style: Style)
    requires IsTestHeaderRow(hd) && |body| == 4 && IsHeaderTestBody(body) && style.format.headerUpper
    ensures var p := MakePlan([hd], body, [], style, true);
      && p.body[3] == [["4"]] + MultiLineText
      && Height(p.body[3]) == 3
  {
    var p := MakePlan([hd], body, [], style, true);
    var q := MakePlan([hd], body, [], style, false);
    HeaderTestColumns(hd, body);
    HeaderTestPlan(hd, body, style);
    forall c | 0 <= c < 5 ensures p.body[3][c + 1] == MultiLineText[c] {
      AutoIndexBody([hd], body, [], style, 3, c);
    }
    AutoIndexBody([hd], body, [], style, 3, 0);
    assert IntToString(4) == "4";
    ShiftedMultiLine(p.body[3]);
  }

  lemma ShiftedMultiLine(tr: TextRow)
    requires |tr| == 6 && tr[0] == ["4"] && forall c :: 0 <= c < 5 ==> tr[c + 1] == MultiLineText[c]
    ensures tr == [["4"]] + MultiLineText && Height(tr) == 3
  {
    assert tr[1..] == MultiLineText;
    assert |tr[5]| == 3;
  }

  /** The layout of a header render: widths 1, 3, 10, 9, 6 and 27, and the
      index and number columns right-aligned, the others left-aligned, in the
      header as in the body. */
  predicate HeaderLayout(p: Plan) {
    && p.widths == [1, 3, 10, 9, 6, 27]
    && p.headerAligns == [AlignRight, AlignRight, AlignLeft, AlignLeft, AlignRight, AlignLeft]
    && p.bodyAligns == p.headerAligns
  }

  /** The multi-line row of a render with the index: numbered 4, three lines high. */
  predicate MultiLineShown(p: Plan) {
    |p.body| == 4 && p.body[3] == [["4"]] + MultiLineText && Height(p.body[3]) == 3
  }

  lemma HeaderRenderPlan(hd: Row, body: seq<Row>, style: Style)
    requires IsTestHeaderRow(hd) && IsHeaderTestBody(body) && style.format.headerUpper
    ensures HeaderLayout(MakePlan([hd], body, [], style, true))
    ensures |body| == 4 ==> MultiLineShown(MakePlan([hd], body, [], style, true))
  {
    HeaderTestWidths(hd, body, style);
    HeaderTestAligns(hd, body, style);
    if |body| == 4 {
      MultiLineHeight(hd, body, style);
    }
  }

  lemma TestRowsShapes(rows: seq<Row>)
    requires IsTestRows(rows)
    ensures IsTestHeaderRow(TestHeader) && IsMultiLineRow(TestRowMultiLine)
    ensures IsHeaderTestBody(rows) && IsHeaderTestBody(rows + [TestRowMultiLine])
  {
    var b := rows + [TestRowMultiLine];
    assert b[..3] == rows;
  }

  /** The plans of the three header renders share one layout, and the
      multi-line row shows its three lines under the number 4. */
  lemma AutoIndexHeaderPlans(rows: seq<Row>)
    requires IsTestRows(rows)
    ensures HeaderLayout(MakePlan([TestHeader], rows, [], StyleTest, true))
    ensures HeaderLayout(MakePlan([TestHeader], rows + [TestRowMultiLine], [], StyleTest, true))
    ensures MultiLineShown(MakePlan([TestHeader], rows + [TestRowMultiLine], [], StyleTest, true))
    ensures HeaderLayout(MakePlan([TestHeader], rows + [TestRowMultiLine], [], StyleLight, true))
    ensures MultiLineShown(MakePlan([TestHeader], rows + [TestRowMultiLine], [], StyleLight, true))
  {
    TestRowsShapes(rows);
    HeaderRenderPlan(TestHeader, rows, StyleTest);
    HeaderRenderPlan(TestHeader, rows + [TestRowMultiLine], StyleTest);
    HeaderRenderPlan(TestHeader, rows + [TestRowMultiLine], StyleLight);
  }

  /** Right-aligned in those columns, "#" shows as "  #" in its column of 3 and
      3000 as "  3000" in its column of 6. */
  lemma RightAlignedCells()
    ensures AlignText("#", 3, AlignRight) == "  #" && AlignText("3000", 6, AlignRight) == "  3000"
  {
    assert Spaces(2) == "  ";
  }

  /** Renders a table without footer in the given style, without a limit. */
  method RenderStyled(t: Table, st: Style) returns (out: string)
    requires t.outputMirror == null && t.rowsFooterRaw == []
    requires t.style == Some(st) && t.allowedRowLength == 0
    ensures out == RenderText(t.rowsHeaderRaw, t.rowsRaw, [], st, t.autoIndex, 0)
  {
    out := t.Render();
  }
}
