/** The separated-rows tables the grid-import tests render: grids of one-digit
    numbers (and blanks) in the default style with a rule between body rows,
    derived line by line and then as the literal text the tests expect. */
module GridOutput {
  import opened Cells
  import opened Layout
  import opened Render
  import opened RenderFacts
  import OutputScenarios

  /** The default style with a separator line between body rows. */
  const SeparatedDefault := StyleDefault.(options := Options(true))

  // ---------------------------------------------------------------------
  // Grids of one-digit numbers

  /** A cell one character wide at most: a one-digit number or a nil cell. */
  predicate SmallCell(c: Cell) {
    c == Nil || (c.Int? && 0 <= c.i < 10)
  }

  /** What a small cell shows in a column one character wide. */
  function Glyph(c: Cell): (g: string)
    requires SmallCell(c)
    ensures |g| == 1
  {
    if c.Int? then [DigitChar(c.i)] else " "
  }

  /** Rows of n small cells each, the first of them all numbers, so that every
      column is one character wide. */
  predicate SmallGrid(rows: seq<Row>, n: nat) {
    && |rows| > 0 && n > 0
    && (forall r :: 0 <= r < |rows| ==> |rows[r]| == n)
    && (forall r, c :: 0 <= r < |rows| && 0 <= c < |rows[r]| ==> SmallCell(rows[r][c]))
    && (forall c :: 0 <= c < |rows[0]| ==> rows[0][c].Int?)
  }

  /** The rule of n one-character columns in the default style. */
  function RuleText(n: nat): string {
    "+" + JoinOn(seq(n, _ => "---"), "+") + "+"
  }

  /** The line of a row of small cells in the default style. */
  function GlyphLine(row: Row): string
    requires forall c :: 0 <= c < |row| ==> SmallCell(row[c])
  {
    "|" + JoinOn(seq(|row|, c requires 0 <= c < |row| => " " + Glyph(row[c]) + " "), "|") + "|"
  }

  /** Each row's line, one block per row. */
  function GlyphBlocks(rows: seq<Row>): (bs: seq<seq<string>>)
    requires forall r, c :: 0 <= r < |rows| && 0 <= c < |rows[r]| ==> SmallCell(rows[r][c])
    ensures |bs| == |rows| && forall r :: 0 <= r < |rows| ==> bs[r] == [GlyphLine(rows[r])]
  {
    seq(|rows|, r requires 0 <= r < |rows| => [GlyphLine(rows[r])])
  }

  /** A grid of small cells renders, with separated rows in the default style,
      as a rule above, between and below rows that each take one line. */
  lemma SmallGridLines(rows: seq<Row>, n: nat)
    requires SmallGrid(rows, n)
    ensures TableLines([], rows, [], SeparatedDefault, false)
         == [RuleText(n)] + Separated(GlyphBlocks(rows), RuleText(n)) + [RuleText(n)]
  {
    SmallColumnCount(rows, n);
    var p := MakePlan([], rows, [], SeparatedDefault, false);
    SmallPlan(rows, n);
    SmallPlanLines(p, rows, n);
  }

  lemma SmallColumnCount(rows: seq<Row>, n: nat)
    requires SmallGrid(rows, n)
    ensures ColumnCount([] + rows + []) == n
  {
    assert [] + rows + [] == rows;
  }

  /** The plan of a small grid: no header or footer, the cells' texts as the
      body, and every column one character wide. */
  lemma SmallPlan(rows: seq<Row>, n: nat)
    requires SmallGrid(rows, n) && ColumnCount([] + rows + []) == n
    ensures var p := MakePlan([], rows, [], SeparatedDefault, false);
      && p.header == [] && p.footer == [] && p.body == TextRowsOf(rows, false)
      && p.widths == seq(n, _ => 1)
  {
    var p := MakePlan([], rows, [], SeparatedDefault, false);
    PlanHeader([], rows, [], SeparatedDefault, false);
    PlanFooter([], rows, [], SeparatedDefault, false);
    PlanBody([], rows, [], SeparatedDefault, false);
    assert PadRows(rows, n) == rows;
    PlanWidths([], rows, [], SeparatedDefault, false);
    assert p.header + p.body + p.footer == p.body;
    SmallTexts(rows);
    SmallWidths(p.body, n);
  }

  /** A small cell displays as the one line of its digit, or one empty line. */
  lemma SmallCellLines(c: Cell)
    requires SmallCell(c)
    ensures CellLines(c, false) == [if c.Int? then Glyph(c) else ""]
  {
    if c.Int? {
      IntToStringIsOneLine(c.i);
    } else {
      BlankIsOneLine(false);
    }
  }

  lemma SmallTexts(rows: seq<Row>)
    requires forall r, c :: 0 <= r < |rows| && 0 <= c < |rows[r]| ==> SmallCell(rows[r][c])
    ensures forall r, c :: 0 <= r < |rows| && 0 <= c < |rows[r]| ==>
      TextRowsOf(rows, false)[r][c] == [if rows[r][c].Int? then Glyph(rows[r][c]) else ""]
  {
    forall r, c | 0 <= r < |rows| && 0 <= c < |rows[r]| {
      SmallCellLines(rows[r][c]);
    }
  }

  /** Columns of lines at most one character long, each with a line of one
      character in the first row, are one character wide. */
  lemma SmallWidths(t: seq<TextRow>, n: nat)
    requires |t| > 0 && |t[0]| == n
    requires forall r, c :: 0 <= r < |t| && 0 <= c < |t[r]| ==> |t[r][c]| == 1 && |t[r][c][0]| <= 1
    requires forall c :: 0 <= c < n ==> |t[0][c][0]| == 1
    ensures ColumnWidths(t, n) == seq(n, _ => 1)
  {
    forall c | 0 <= c < n ensures ColumnWidths(t, n)[c] == 1 {
      WidthsAreMaxima(t, n, c);
      var w := ColumnWidths(t, n)[c];
      assert |t[0][c][0]| <= w;
    }
  }

  /** The lines of a body-only plan of one-line rows in a style that separates
      rows. */
  lemma SmallPlanLines(p: Plan, rows: seq<Row>, n: nat)
    requires SmallGrid(rows, n) && ValidPlan(p)
    requires p.header == [] && p.footer == [] && p.body == TextRowsOf(rows, false) && p.widths == seq(n, _ => 1)
    ensures PlanLines(p, SeparatedDefault)
         == [RuleText(n)] + Separated(GlyphBlocks(rows), RuleText(n)) + [RuleText(n)]
  {
    SeparatedBodyLines(p, SeparatedDefault);
    SmallRules(n);
    SmallBody(p.body, rows, p.widths, p.bodyAligns, RuleText(n));
  }

  /** A body-only plan in a style that separates rows: the top border, the
      body rows with the middle rule between them, the bottom border. */
  lemma SeparatedBodyLines(p: Plan, style: Style)
    requires ValidPlan(p) && p.header == [] && p.footer == [] && style.options.separateRows
    ensures PlanLines(p, style)
         == [BorderLine(p.widths, style.box, Top)]
            + Block(p.body, p.widths, p.bodyAligns, style.box, Some(BorderLine(p.widths, style.box, Middle)))
            + [BorderLine(p.widths, style.box, Bottom)]
  {
    var box := style.box;
    var top, mid, bottom := BorderLine(p.widths, box, Top), BorderLine(p.widths, box, Middle), BorderLine(p.widths, box, Bottom);
    var h := Block(p.header, p.widths, p.headerAligns, box, None);
    var b := Block(p.body, p.widths, p.bodyAligns, box, Some(mid));
    assert h == [];
    assert PlanLines(p, style) == [top] + h + [] + b + [] + [bottom];
    EmptyPieces([top], b, [bottom]);
  }

  lemma EmptyPieces<T>(a: seq<T>, b: seq<T>, c: seq<T>)
    ensures a + [] + [] + b + [] + c == a + b + c
  {
  }

  /** Rows of small cells in one-character columns, with a separator between
      them: each row's one line, separated. */
  lemma SmallBody(body: seq<TextRow>, rows: seq<Row>, ws: seq<nat>, aligns: seq<Align>, sep: string)
    requires forall r, c :: 0 <= r < |rows| && 0 <= c < |rows[r]| ==> SmallCell(rows[r][c])
    requires forall r :: 0 <= r < |rows| ==> |rows[r]| == |ws|
    requires |aligns| == |ws| && forall c :: 0 <= c < |ws| ==> ws[c] == 1
    requires body == TextRowsOf(rows, false) && Fits(body, ws)
    ensures Block(body, ws, aligns, StyleDefault.box, Some(sep)) == Separated(GlyphBlocks(rows), sep)
  {
    var box := StyleDefault.box;
    SeparatedBlock(body, ws, aligns, box, sep);
    SmallTexts(rows);
    forall r | 0 <= r < |rows|
      ensures RowBlocks(body, ws, aligns, box)[r] == [GlyphLine(rows[r])]
    {
      SmallRow(rows[r], body[r], ws, aligns);
    }
    assert RowBlocks(body, ws, aligns, box) == GlyphBlocks(rows);
  }

  /** Every rule of one-character columns in the default style is the same. */
  lemma SmallRules(n: nat)
    ensures BorderLine(seq(n, _ => 1), StyleDefault.box, Top) == RuleText(n)
    ensures BorderLine(seq(n, _ => 1), StyleDefault.box, Middle) == RuleText(n)
    ensures BorderLine(seq(n, _ => 1), StyleDefault.box, Bottom) == RuleText(n)
  {
    var ws: seq<nat> := seq(n, _ => 1);
    forall c | 0 <= c < n ensures Segments(ws, StyleDefault.box)[c] == "---" {
      OutputScenarios.RepeatIs('-', "---");
    }
    assert Segments(ws, StyleDefault.box) == seq(n, _ => "---");
  }

  /** A row of small cells in one-character columns takes the one line
      GlyphLine writes, whatever the alignments. */
  lemma SmallRow(row: Row, tr: TextRow, ws: seq<nat>, aligns: seq<Align>)
    requires forall c :: 0 <= c < |row| ==> SmallCell(row[c])
    requires |tr| == |row| == |ws| == |aligns| && forall c :: 0 <= c < |ws| ==> ws[c] == 1
    requires forall c :: 0 <= c < |row| ==> tr[c] == [if row[c].Int? then Glyph(row[c]) else ""]
    ensures FitsRow(tr, ws) && RowLines(tr, ws, aligns, StyleDefault.box) == [GlyphLine(row)]
  {
    assert FitsRow(tr, ws);
    assert Height(tr) == 1;
    var texts := LineAt(tr, 0);
    SmallCells(row, texts, ws, aligns);
    var ls := RowLines(tr, ws, aligns, StyleDefault.box);
    assert ls == [ls[0]];
  }

  /** The padded cells of such a row: each glyph between two blanks. */
  lemma SmallCells(row: Row, texts: seq<string>, ws: seq<nat>, aligns: seq<Align>)
    requires forall c :: 0 <= c < |row| ==> SmallCell(row[c])
    requires |texts| == |row| == |ws| == |aligns| && forall c :: 0 <= c < |ws| ==> ws[c] == 1
    requires forall c :: 0 <= c < |row| ==> texts[c] == if row[c].Int? then Glyph(row[c]) else ""
    ensures FitsLine(texts, ws) && CellsLine(texts, ws, aligns, StyleDefault.box) == GlyphLine(row)
  {
    var ps := PaddedCells(texts, ws, aligns, StyleDefault.box);
    forall c | 0 <= c < |row| ensures ps[c] == " " + Glyph(row[c]) + " " {
      OneWide(texts[c], Glyph(row[c]), aligns[c]);
    }
    assert ps == seq(|row|, c requires 0 <= c < |row| => " " + Glyph(row[c]) + " ");
  }

  /** A text of at most one character in a column one wide: itself, or a blank. */
  lemma OneWide(t: string, g: string, a: Align)
    requires |t| <= 1 && |g| == 1 && (t == g || (t == "" && g == " "))
    ensures AlignText(t, 1, a) == g
  {
    if |t| == 1 {
      OutputScenarios.FullWidth(t, a);
    }
  }

  // ---------------------------------------------------------------------
  // Lines of one, two and three rows

  /** Three one-line rows with a separator between consecutive ones. */
  lemma SeparatedThree(x: string, y: string, z: string, sep: string)
    ensures Separated([[x], [y], [z]], sep) == [x, sep, y, sep, z]
  {
    assert [[x], [y], [z]][1..] == [[y], [z]];
    SeparatedTwo(y, z, sep);
  }

  lemma SeparatedTwo(x: string, y: string, sep: string)
    ensures Separated([[x], [y]], sep) == [x, sep, y]
  {
    assert [[x], [y]][1..] == [[y]];
    assert Separated([[y]], sep) == [y];
  }

  /** A rule above, between and below three one-line rows. */
  lemma FramedThree(ls: seq<string>, blocks: seq<seq<string>>, rule: string, x: string, y: string, z: string)
    requires ls == [rule] + Separated(blocks, rule) + [rule] && blocks == [[x], [y], [z]]
    ensures ls == [rule, x, rule, y, rule, z, rule]
  {
    SeparatedThree(x, y, z, rule);
  }

  lemma FramedTwo(ls: seq<string>, blocks: seq<seq<string>>, rule: string, x: string, y: string)
    requires ls == [rule] + Separated(blocks, rule) + [rule] && blocks == [[x], [y]]
    ensures ls == [rule, x, rule, y, rule]
  {
    SeparatedTwo(x, y, rule);
  }

  /** Without a limit, a line after a non-empty last line is emitted after a
      line feed. */
  lemma DocumentSnoc(lines: seq<string>, l: string, marker: string)
    requires |lines| > 0 && |lines[|lines| - 1]| > 0
    ensures Document(lines + [l], 0, marker) == Document(lines, 0, marker) + "\n" + l
  {
    assert (lines + [l])[..|lines|] == lines;
    assert |Document(lines, 0, marker)| >= |lines[|lines| - 1]|;
  }

  lemma DocumentFive(a: string, b: string, c: string, d: string, e: string, marker: string)
    requires |a| > 0 && |b| > 0 && |c| > 0 && |d| > 0
    ensures Document([a, b, c, d, e], 0, marker) == a + "\n" + b + "\n" + c + "\n" + d + "\n" + e
  {
    assert [a][..0] == [];
    assert Document([a], 0, marker) == a;
    DocumentSnoc([a], b, marker);
    assert [a] + [b] == [a, b];
    DocumentSnoc([a, b], c, marker);
    assert [a, b] + [c] == [a, b, c];
    DocumentSnoc([a, b, c], d, marker);
    assert [a, b, c] + [d] == [a, b, c, d];
    DocumentSnoc([a, b, c, d], e, marker);
    assert [a, b, c, d] + [e] == [a, b, c, d, e];
  }

  lemma DocumentSeven(a: string, b: string, c: string, d: string, e: string, f: string, g: string, marker: string)
    requires |a| > 0 && |b| > 0 && |c| > 0 && |d| > 0 && |e| > 0 && |f| > 0
    ensures Document([a, b, c, d, e, f, g], 0, marker)
         == a + "\n" + b + "\n" + c + "\n" + d + "\n" + e + "\n" + f + "\n" + g
  {
    DocumentFive(a, b, c, d, e, marker);
    DocumentSnoc([a, b, c, d, e], f, marker);
    assert [a, b, c, d, e] + [f] == [a, b, c, d, e, f];
    DocumentSnoc([a, b, c, d, e, f], g, marker);
    assert [a, b, c, d, e, f] + [g] == [a, b, c, d, e, f, g];
  }

  // ---------------------------------------------------------------------
  // The texts the grid-import tests expect

  const Rule1 := "+---+"
  const Rule3 := "+---+---+---+"
  const Row123 := "| 1 | 2 | 3 |"
  const Row456 := "| 4 | 5 | 6 |"
  const Row789 := "| 7 | 8 | 9 |"
  const Row45 := "| 4 | 5 |   |"

  /** The "valid 1d" table: the numbers 1, 2 and 3 in a column. */
  const Grid1DText := Rule1 + "\n" + "| 1 |" + "\n" + Rule1 + "\n" + "| 2 |" + "\n" + Rule1 + "\n" + "| 3 |" + "\n" + Rule1

  /** The "valid 2d" table: the rows 1 2 3, 4 5 6 and 7 8 9. */
  const Grid2DText := Rule3 + "\n" + Row123 + "\n" + Rule3 + "\n" + Row456 + "\n" + Rule3 + "\n" + Row789 + "\n" + Rule3

  /** The "valid 2d with nil rows" table: the rows 1 2 3 and 4 5 6. */
  const NilRowsText := Rule3 + "\n" + Row123 + "\n" + Rule3 + "\n" + Row456 + "\n" + Rule3

  /** The "valid 2d with nil columns and rows" table: the rows 1 2 3 and 4 5 blank. */
  const NilColumnsText := Rule3 + "\n" + Row123 + "\n" + Rule3 + "\n" + Row45 + "\n" + Rule3

  lemma RuleOne()
    ensures RuleText(1) == Rule1
  {
    assert seq(1, _ => "---") == ["---"];
  }

  lemma RuleThree()
    ensures RuleText(3) == Rule3
  {
    var ss := seq(3, _ => "---");
    assert ss == ["---", "---", "---"];
    assert ss[1..] == ["---", "---"];
    assert ["---", "---"][1..] == ["---"];
    assert JoinOn(ss, "+") == "---" + "+" + ("---" + "+" + "---");
  }

  /** A row of one small cell. */
  lemma OneCellLine(row: Row)
    requires |row| == 1 && SmallCell(row[0])
    ensures GlyphLine(row) == "|" + (" " + Glyph(row[0]) + " ") + "|"
  {
    var ps := seq(|row|, c requires 0 <= c < |row| => " " + Glyph(row[c]) + " ");
    assert ps == [" " + Glyph(row[0]) + " "];
  }

  /** A row of three small cells. */
  lemma ThreeCellLine(row: Row)
    requires |row| == 3 && SmallCell(row[0]) && SmallCell(row[1]) && SmallCell(row[2])
    ensures var a, b, c := " " + Glyph(row[0]) + " ", " " + Glyph(row[1]) + " ", " " + Glyph(row[2]) + " ";
      GlyphLine(row) == "|" + (a + "|" + (b + "|" + c)) + "|"
  {
    var a, b, c := " " + Glyph(row[0]) + " ", " " + Glyph(row[1]) + " ", " " + Glyph(row[2]) + " ";
    var ps := seq(|row|, k requires 0 <= k < |row| => " " + Glyph(row[k]) + " ");
    assert ps == [a, b, c];
    assert ps[1..] == [b, c];
    assert [b, c][1..] == [c];
    assert JoinOn([b, c], "|") == b + "|" + c;
    assert JoinOn(ps, "|") == a + "|" + (b + "|" + c);
  }

  /** A row of exactly the cells x, y and z. */
  predicate Row3(row: Row, x: Cell, y: Cell, z: Cell) {
    |row| == 3 && row[0] == x && row[1] == y && row[2] == z
  }

  lemma Line123(row: Row)
    requires Row3(row, Int(1), Int(2), Int(3))
    ensures GlyphLine(row) == Row123
  {
    ThreeCellLine(row);
    assert Glyph(row[0]) == "1" && Glyph(row[1]) == "2" && Glyph(row[2]) == "3";
    assert "|" + (" 1 " + "|" + (" 2 " + "|" + " 3 ")) + "|" == Row123;
  }

  lemma Line456(row: Row)
    requires Row3(row, Int(4), Int(5), Int(6))
    ensures GlyphLine(row) == Row456
  {
    ThreeCellLine(row);
    assert Glyph(row[0]) == "4" && Glyph(row[1]) == "5" && Glyph(row[2]) == "6";
    assert "|" + (" 4 " + "|" + (" 5 " + "|" + " 6 ")) + "|" == Row456;
  }

  lemma Line789(row: Row)
    requires Row3(row, Int(7), Int(8), Int(9))
    ensures GlyphLine(row) == Row789
  {
    ThreeCellLine(row);
    assert Glyph(row[0]) == "7" && Glyph(row[1]) == "8" && Glyph(row[2]) == "9";
    assert "|" + (" 7 " + "|" + (" 8 " + "|" + " 9 ")) + "|" == Row789;
  }

  /** A nil cell shows as a blank column. */
  lemma Line45(row: Row)
    requires Row3(row, Int(4), Int(5), Nil)
    ensures GlyphLine(row) == Row45
  {
    ThreeCellLine(row);
    assert Glyph(row[0]) == "4" && Glyph(row[1]) == "5" && Glyph(row[2]) == " ";
    assert "|" + (" 4 " + "|" + (" 5 " + "|" + "   ")) + "|" == Row45;
  }

  /** A row of the one-digit number d. */
  lemma OneDigitLine(row: Row, d: int, s: string)
    requires |row| == 1 && row[0] == Int(d) && 0 <= d < 10 && s == "| " + [DigitChar(d)] + " |"
    ensures GlyphLine(row) == s
  {
    OneCellLine(row);
  }

  lemma Grid1DBlocks(rows: seq<Row>)
    requires |rows| == 3 && forall r :: 0 <= r < 3 ==> rows[r] == [Int(r + 1)]
    ensures SmallGrid(rows, 1) && GlyphBlocks(rows) == [["| 1 |"], ["| 2 |"], ["| 3 |"]]
  {
    OneDigitLine(rows[0], 1, "| 1 |");
    OneDigitLine(rows[1], 2, "| 2 |");
    OneDigitLine(rows[2], 3, "| 3 |");
  }

  /** Three rows of one-line blocks in one-character columns, as lines. */
  lemma ThreeRowLines(rows: seq<Row>, n: nat, rule: string, x: string, y: string, z: string)
    requires SmallGrid(rows, n) && RuleText(n) == rule && GlyphBlocks(rows) == [[x], [y], [z]]
    ensures TableLines([], rows, [], SeparatedDefault, false) == [rule, x, rule, y, rule, z, rule]
  {
    SmallGridLines(rows, n);
    FramedThree(TableLines([], rows, [], SeparatedDefault, false), GlyphBlocks(rows), rule, x, y, z);
  }

  lemma TwoRowLines(rows: seq<Row>, n: nat, rule: string, x: string, y: string)
    requires SmallGrid(rows, n) && RuleText(n) == rule && GlyphBlocks(rows) == [[x], [y]]
    ensures TableLines([], rows, [], SeparatedDefault, false) == [rule, x, rule, y, rule]
  {
    SmallGridLines(rows, n);
    FramedTwo(TableLines([], rows, [], SeparatedDefault, false), GlyphBlocks(rows), rule, x, y);
  }

  /** The rows 1, 2 and 3 of the "valid 1d" test render as the text it expects. */
  lemma Grid1DRender(rows: seq<Row>)
    requires |rows| == 3 && forall r :: 0 <= r < 3 ==> rows[r] == [Int(r + 1)]
    ensures RenderText([], rows, [], SeparatedDefault, false, 0) == Grid1DText
  {
    Grid1DBlocks(rows);
    RuleOne();
    ThreeRowLines(rows, 1, Rule1, "| 1 |", "| 2 |", "| 3 |");
    DocumentSeven(Rule1, "| 1 |", Rule1, "| 2 |", Rule1, "| 3 |", Rule1, SeparatedDefault.box.unfinishedRow);
  }

  lemma Grid2DBlocks(rows: seq<Row>)
    requires |rows| == 3 && Row3(rows[0], Int(1), Int(2), Int(3))
    requires Row3(rows[1], Int(4), Int(5), Int(6)) && Row3(rows[2], Int(7), Int(8), Int(9))
    ensures SmallGrid(rows, 3) && GlyphBlocks(rows) == [[Row123], [Row456], [Row789]]
  {
    Line123(rows[0]);
    Line456(rows[1]);
    Line789(rows[2]);
  }

  /** The rows 1 2 3, 4 5 6 and 7 8 9 of the "valid 2d" test render as the
      text it expects. */
  lemma Grid2DRender(rows: seq<Row>)
    requires |rows| == 3 && Row3(rows[0], Int(1), Int(2), Int(3))
    requires Row3(rows[1], Int(4), Int(5), Int(6)) && Row3(rows[2], Int(7), Int(8), Int(9))
    ensures RenderText([], rows, [], SeparatedDefault, false, 0) == Grid2DText
  {
    Grid2DBlocks(rows);
    RuleThree();
    ThreeRowLines(rows, 3, Rule3, Row123, Row456, Row789);
    DocumentSeven(Rule3, Row123, Rule3, Row456, Rule3, Row789, Rule3, SeparatedDefault.box.unfinishedRow);
  }

  lemma NilRowsBlocks(rows: seq<Row>)
    requires |rows| == 2 && Row3(rows[0], Int(1), Int(2), Int(3)) && Row3(rows[1], Int(4), Int(5), Int(6))
    ensures SmallGrid(rows, 3) && GlyphBlocks(rows) == [[Row123], [Row456]]
  {
    Line123(rows[0]);
    Line456(rows[1]);
  }

  /** The rows 1 2 3 and 4 5 6 left by the "valid 2d with nil rows" test render
      as the text it expects. */
  lemma NilRowsRender(rows: seq<Row>)
    requires |rows| == 2 && Row3(rows[0], Int(1), Int(2), Int(3)) && Row3(rows[1], Int(4), Int(5), Int(6))
    ensures RenderText([], rows, [], SeparatedDefault, false, 0) == NilRowsText
  {
    NilRowsBlocks(rows);
    RuleThree();
    TwoRowLines(rows, 3, Rule3, Row123, Row456);
    DocumentFive(Rule3, Row123, Rule3, Row456, Rule3, SeparatedDefault.box.unfinishedRow);
  }

  lemma NilColumnsBlocks(rows: seq<Row>)
    requires |rows| == 2 && Row3(rows[0], Int(1), Int(2), Int(3)) && Row3(rows[1], Int(4), Int(5), Nil)
    ensures SmallGrid(rows, 3) && GlyphBlocks(rows) == [[Row123], [Row45]]
  {
    Line123(rows[0]);
    Line45(rows[1]);
  }

  /** The rows 1 2 3 and 4 5 nil of the "valid 2d with nil columns and rows"
      test render as the text it expects, the nil cell as a blank column. */
  lemma NilColumnsRender(rows: seq<Row>)
    requires |rows| == 2 && Row3(rows[0], Int(1), Int(2), Int(3)) && Row3(rows[1], Int(4), Int(5), Nil)
    ensures RenderText([], rows, [], SeparatedDefault, false, 0) == NilColumnsText
  {
    NilColumnsBlocks(rows);
    RuleThree();
    TwoRowLines(rows, 3, Rule3, Row123, Row45);
    DocumentFive(Rule3, Row123, Rule3, Row45, Rule3, SeparatedDefault.box.unfinishedRow);
  }
}
