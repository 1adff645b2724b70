/** What the text renderer guarantees: how clipping to the allowed row length
    changes the document, that every line of a table has one width, and what
    the auto-index column adds. */
module RenderFacts {
  import opened Cells
  import opened Layout
  import opened Render

  // ---------------------------------------------------------------------
  // The document is the clipped lines joined by line feeds

  function ClippedLines(lines: seq<string>, limit: int, marker: string): (cs: seq<string>)
    ensures |cs| == |lines|
    ensures forall k :: 0 <= k < |lines| ==> cs[k] == ClipLine(lines[k], limit, marker)
  {
    seq(|lines|, k requires 0 <= k < |lines| => ClipLine(lines[k], limit, marker))
  }

  lemma {:induction false} JoinOnSnoc(xs: seq<string>, y: string, sep: string)
    requires |xs| >= 1
    ensures JoinOn(xs + [y], sep) == JoinOn(xs, sep) + sep + y
    decreases |xs|
  {
    if |xs| == 1 {
      assert xs + [y] == [xs[0], y];
      assert [xs[0], y][1..] == [y];
    } else {
      assert (xs + [y])[1..] == xs[1..] + [y];
      JoinOnSnoc(xs[1..], y, sep);
    }
  }

  /** When no clipped line is empty, the document is exactly the clipped lines
      joined with line feeds. */
  lemma {:induction false} DocumentIsJoin(lines: seq<string>, limit: int, marker: string)
    requires forall k :: 0 <= k < |lines| ==> |ClipLine(lines[k], limit, marker)| > 0
    ensures Document(lines, limit, marker) == JoinOn(ClippedLines(lines, limit, marker), "\n")
    decreases |lines|
  {
    if |lines| > 0 {
      var init := lines[..|lines| - 1];
      var cl := ClipLine(lines[|lines| - 1], limit, marker);
      assert forall k :: 0 <= k < |init| ==> init[k] == lines[k];
      DocumentIsJoin(init, limit, marker);
      var cs := ClippedLines(lines, limit, marker);
      var ci := ClippedLines(init, limit, marker);
      ClippedSnoc(lines, limit, marker);
      var d := Document(init, limit, marker);
      assert Document(lines, limit, marker) == Emit(d, cl);
      if |init| > 0 {
        JoinOnSnoc(ci, cl, "\n");
        assert |d| > 0 by { JoinOnNonEmpty(ci, "\n"); }
        assert Emit(d, cl) == d + "\n" + cl;
      } else {
        assert d == "" && cs == [cl];
        assert Emit(d, cl) == cl;
      }
    }
  }

  lemma ClippedSnoc(lines: seq<string>, limit: int, marker: string)
    requires |lines| > 0
    ensures ClippedLines(lines, limit, marker)
         == ClippedLines(lines[..|lines| - 1], limit, marker) + [ClipLine(lines[|lines| - 1], limit, marker)]
  {
    var init := lines[..|lines| - 1];
    assert forall k :: 0 <= k < |init| ==> init[k] == lines[k];
  }

  lemma {:induction false} JoinOnNonEmpty(xs: seq<string>, sep: string)
    requires |xs| >= 1 && |xs[0]| > 0
    ensures |JoinOn(xs, sep)| > 0
  {
    if |xs| > 1 {
      assert JoinOn(xs, sep) == xs[0] + sep + JoinOn(xs[1..], sep);
    }
  }

  /** An allowed row length of 0 (or less) reproduces the unclipped render. */
  lemma NoLimitIsUnclipped(lines: seq<string>, limit: int, marker: string)
    requires limit <= 0
    requires forall k :: 0 <= k < |lines| ==> |lines[k]| > 0
    ensures Document(lines, limit, marker) == JoinOn(lines, "\n")
  {
    DocumentIsJoin(lines, limit, marker);
    assert ClippedLines(lines, limit, marker) == lines;
  }

  /** A limit that every line fits in leaves the render as it is without a limit. */
  lemma {:induction false} FittingLimitIsUnclipped(lines: seq<string>, limit: int, marker: string)
    requires forall k :: 0 <= k < |lines| ==> |lines[k]| <= limit
    ensures Document(lines, limit, marker) == Document(lines, 0, marker)
    decreases |lines|
  {
    if |lines| > 0 {
      FittingLimitIsUnclipped(lines[..|lines| - 1], limit, marker);
    }
  }

  /** A positive limit no longer than the marker drops every line that exceeds
      it; when every line does, the render is empty. */
  lemma {:induction false} MarkerLimitIsEmpty(lines: seq<string>, limit: int, marker: string)
    requires 0 < limit <= |marker|
    requires forall k :: 0 <= k < |lines| ==> |lines[k]| > limit
    ensures Document(lines, limit, marker) == ""
    decreases |lines|
  {
    if |lines| > 0 {
      MarkerLimitIsEmpty(lines[..|lines| - 1], limit, marker);
    }
  }

  /** With a limit longer than the marker, the document read back line by line
      is the clipped lines: as many lines as before, none longer than the limit,
      each over-long one cut to its first (limit - |marker|) characters and the marker. */
  lemma ClippedDocumentLines(lines: seq<string>, limit: int, marker: string)
    requires limit > |marker|
    requires forall k :: 0 <= k < |lines| ==> |lines[k]| > 0 && '\n' !in lines[k]
    requires '\n' !in marker
    requires |lines| >= 1
    ensures var out := SplitOn(Document(lines, limit, marker), '\n');
      && out == ClippedLines(lines, limit, marker)
      && forall k :: 0 <= k < |out| ==> |out[k]| <= limit
  {
    var cs := ClippedLines(lines, limit, marker);
    AllClipsOneLine(lines, limit, marker);
    DocumentIsJoin(lines, limit, marker);
    SplitJoin(cs, '\n');
  }

  lemma AllClipsOneLine(lines: seq<string>, limit: int, marker: string)
    requires limit > |marker| && '\n' !in marker
    requires forall k :: 0 <= k < |lines| ==> |lines[k]| > 0 && '\n' !in lines[k]
    ensures var cs := ClippedLines(lines, limit, marker);
      forall k :: 0 <= k < |cs| ==> |cs[k]| > 0 && '\n' !in cs[k] && |cs[k]| <= limit
  {
    var cs := ClippedLines(lines, limit, marker);
    forall k | 0 <= k < |cs| ensures |cs[k]| > 0 && '\n' !in cs[k] && |cs[k]| <= limit {
      ClipKeepsOneLine(lines[k], limit, marker);
    }
  }

  /** Clipping a non-empty line that has no line feed, with room for the marker,
      gives a non-empty line without a line feed. */
  lemma ClipKeepsOneLine(l: string, limit: int, marker: string)
    requires limit > |marker| && |l| > 0 && '\n' !in l && '\n' !in marker
    ensures var r := ClipLine(l, limit, marker); |r| > 0 && '\n' !in r
  {
    if |l| > limit {
      var p := l[..limit - |marker|];
      var r := p + marker;
      assert ClipLine(l, limit, marker) == r;
      forall j | 0 <= j < |r| ensures r[j] != '\n' {
        if j < |p| {
          assert r[j] == l[j] && l[j] in l;
        } else {
          assert r[j] == marker[j - |p|] && marker[j - |p|] in marker;
        }
      }
    }
  }

  /** Lines of one width w, with a limit between the marker's length and w: the
      document is the lines each cut to (limit - |marker|) characters and the
      marker, joined by line feeds. */
  lemma ClippedEqualLines(lines: seq<string>, w: nat, limit: int, marker: string)
    requires |marker| < limit < w
    requires forall k :: 0 <= k < |lines| ==> |lines[k]| == w
    ensures Document(lines, limit, marker) == JoinOn(ClippedLines(lines, limit, marker), "\n")
    ensures forall k :: 0 <= k < |lines| ==>
      ClippedLines(lines, limit, marker)[k] == lines[k][..limit - |marker|] + marker
  {
    var cs := ClippedLines(lines, limit, marker);
    forall k | 0 <= k < |lines| ensures |cs[k]| > 0 && cs[k] == lines[k][..limit - |marker|] + marker {
      var c := cs[k];
      assert c == c[..limit - |marker|] + c[limit - |marker|..];
    }
    DocumentIsJoin(lines, limit, marker);
  }

  // ---------------------------------------------------------------------
  // Every line of a table has the same width

  lemma {:induction false} JoinSameLength(xs: seq<string>, ys: seq<string>, sx: string, sy: string)
    requires |xs| == |ys| && |sx| == |sy|
    requires forall k :: 0 <= k < |xs| ==> |xs[k]| == |ys[k]|
    ensures |JoinOn(xs, sx)| == |JoinOn(ys, sy)|
    decreases |xs|
  {
    if |xs| > 1 {
      JoinSameLength(xs[1..], ys[1..], sx, sy);
    }
  }

  /** The width of every line of a table drawn with these column widths. */
  function TableWidth(widths: seq<nat>, box: BoxStyle): nat {
    |BorderLine(widths, box, Top)|
  }

  function Sum(ws: seq<nat>): nat
    decreases |ws|
  {
    if |ws| == 0 then 0 else ws[0] + Sum(ws[1..])
  }

  /** The width of a table: the corner glyphs, every column's content width and
      padding, and one separator between consecutive columns. */
  lemma TableWidthFormula(widths: seq<nat>, box: BoxStyle)
    requires |widths| > 0
    ensures TableWidth(widths, box)
         == |box.topLeft| + |box.topRight| + Sum(widths)
            + |widths| * (|box.paddingLeft| + |box.paddingRight|) + (|widths| - 1) * |box.topSeparator|
  {
    SegmentsLength(widths, box);
  }

  lemma {:induction false} SegmentsLength(widths: seq<nat>, box: BoxStyle)
    requires |widths| > 0
    ensures |JoinOn(Segments(widths, box), box.topSeparator)|
         == Sum(widths) + |widths| * (|box.paddingLeft| + |box.paddingRight|) + (|widths| - 1) * |box.topSeparator|
    decreases |widths|
  {
    var ss := Segments(widths, box);
    var sep := box.topSeparator;
    if |widths| > 1 {
      SegmentsLength(widths[1..], box);
      assert ss[1..] == Segments(widths[1..], box);
      assert JoinOn(ss, sep) == ss[0] + sep + JoinOn(ss[1..], sep);
      SegmentsStep(|widths|, |box.paddingLeft| + |box.paddingRight|, |sep|, widths[0], Sum(widths[1..]),
                   |JoinOn(ss[1..], sep)|);
    }
  }

  /** The arithmetic of one more column: its segment and one separator. */
  lemma SegmentsStep(n: int, pad: int, sep: int, w: int, rest: int, tail: int)
    requires n > 1
    requires tail == rest + (n - 1) * pad + (n - 2) * sep
    ensures (w + pad) + sep + tail == (w + rest) + n * pad + (n - 1) * sep
  {
  }

  lemma BorderWidths(widths: seq<nat>, box: BoxStyle, kind: Border)
    requires Uniform(box)
    ensures |BorderLine(widths, box, kind)| == TableWidth(widths, box)
  {
    var s := Segments(widths, box);
    JoinSameLength(s, s, box.middleSeparator, box.topSeparator);
    JoinSameLength(s, s, box.bottomSeparator, box.topSeparator);
  }

  lemma CellsLineWidth(texts: seq<string>, widths: seq<nat>, aligns: seq<Align>, box: BoxStyle)
    requires Uniform(box) && FitsLine(texts, widths) && |aligns| == |widths|
    ensures |CellsLine(texts, widths, aligns, box)| == TableWidth(widths, box)
  {
    var ps := PaddedCells(texts, widths, aligns, box);
    var s := Segments(widths, box);
    JoinSameLength(ps, s, box.middleVertical, box.topSeparator);
  }

  lemma RowLinesWidth(tr: TextRow, widths: seq<nat>, aligns: seq<Align>, box: BoxStyle)
    requires Uniform(box) && FitsRow(tr, widths) && |aligns| == |widths|
    ensures forall k :: 0 <= k < |RowLines(tr, widths, aligns, box)| ==>
      |RowLines(tr, widths, aligns, box)[k]| == TableWidth(widths, box)
  {
    var ls := RowLines(tr, widths, aligns, box);
    forall k | 0 <= k < |ls| ensures |ls[k]| == TableWidth(widths, box) {
      CellsLineWidth(LineAt(tr, k), widths, aligns, box);
    }
  }

  lemma {:induction false} BlockWidth(rows: seq<TextRow>, widths: seq<nat>, aligns: seq<Align>, box: BoxStyle, separator: Option<string>)
    requires Uniform(box) && Fits(rows, widths) && |aligns| == |widths|
    requires separator.Some? ==> |separator.value| == TableWidth(widths, box)
    ensures forall k :: 0 <= k < |Block(rows, widths, aligns, box, separator)| ==>
      |Block(rows, widths, aligns, box, separator)[k]| == TableWidth(widths, box)
    decreases |rows|
  {
    if |rows| > 0 {
      RowLinesWidth(rows[0], widths, aligns, box);
      BlockWidth(rows[1..], widths, aligns, box, separator);
    }
  }

  /** A row whose cells all have a single line takes one physical line; so a
      block of such rows without separators has one line per row. */
  lemma {:induction false} OneLineRowsBlock(rows: seq<TextRow>, widths: seq<nat>, aligns: seq<Align>, box: BoxStyle)
    requires Fits(rows, widths) && |aligns| == |widths|
    requires forall r, c :: 0 <= r < |rows| && 0 <= c < |rows[r]| ==> |rows[r][c]| == 1
    ensures |Block(rows, widths, aligns, box, None)| == |rows|
    decreases |rows|
  {
    if |rows| > 0 {
      assert Height(rows[0]) == 1;
      OneLineRowsBlock(rows[1..], widths, aligns, box);
    }
  }

  /** Blocks of lines laid end to end, with a separator line between each two
      consecutive blocks. */
  function Separated(blocks: seq<seq<string>>, sep: string): seq<string>
    decreases |blocks|
  {
    if |blocks| == 0 then []
    else if |blocks| == 1 then blocks[0]
    else blocks[0] + [sep] + Separated(blocks[1..], sep)
  }

  /** The physical lines of each row, row by row. */
  function RowBlocks(rows: seq<TextRow>, widths: seq<nat>, aligns: seq<Align>, box: BoxStyle): (bs: seq<seq<string>>)
    requires Fits(rows, widths) && |aligns| == |widths|
    ensures |bs| == |rows| && forall r :: 0 <= r < |rows| ==> bs[r] == RowLines(rows[r], widths, aligns, box)
  {
    seq(|rows|, r requires 0 <= r < |rows| => RowLines(rows[r], widths, aligns, box))
  }

  /** The physical lines all rows take together. */
  function TotalHeight(rows: seq<TextRow>): nat
    decreases |rows|
  {
    if |rows| == 0 then 0 else Height(rows[0]) + TotalHeight(rows[1..])
  }

  /** With a separator, a block is each row's lines with the separator between
      consecutive rows; it takes the rows' heights plus one line per gap. */
  lemma {:induction false} SeparatedBlock(rows: seq<TextRow>, widths: seq<nat>, aligns: seq<Align>, box: BoxStyle, sep: string)
    requires Fits(rows, widths) && |aligns| == |widths|
    ensures Block(rows, widths, aligns, box, Some(sep)) == Separated(RowBlocks(rows, widths, aligns, box), sep)
    ensures |rows| > 0 ==> |Block(rows, widths, aligns, box, Some(sep))| == TotalHeight(rows) + |rows| - 1
    decreases |rows|
  {
    if |rows| > 0 {
      var rest := rows[1..];
      var bs := RowBlocks(rows, widths, aligns, box);
      SeparatedBlock(rest, widths, aligns, box, sep);
      assert bs[1..] == RowBlocks(rest, widths, aligns, box);
      if |rows| == 1 {
        assert Block(rest, widths, aligns, box, Some(sep)) == [];
        assert TotalHeight(rest) == 0;
      }
    }
  }

  /** Every line of rows without separators starts with the left border glyph. */
  lemma {:induction false} BlockLeftEdge(rows: seq<TextRow>, widths: seq<nat>, aligns: seq<Align>, box: BoxStyle)
    requires Fits(rows, widths) && |aligns| == |widths| && |box.left| > 0
    ensures forall k :: 0 <= k < |Block(rows, widths, aligns, box, None)| ==>
      |Block(rows, widths, aligns, box, None)[k]| > 0 && Block(rows, widths, aligns, box, None)[k][0] == box.left[0]
    decreases |rows|
  {
    if |rows| > 0 {
      BlockLeftEdge(rows[1..], widths, aligns, box);
      var ls := RowLines(rows[0], widths, aligns, box);
      assert forall k :: 0 <= k < |ls| ==> ls[k] == CellsLine(LineAt(rows[0], k), widths, aligns, box);
    }
  }

  /** A table without header, footer or row separators: its first line starts
      with the top-left glyph, its last with the bottom-left glyph, and every
      line between with the left border glyph. */
  lemma BodyOnlyEdges(p: Plan, style: Style)
    requires ValidPlan(p) && p.header == [] && p.footer == [] && !style.options.separateRows && Uniform(style.box)
    ensures var ls := PlanLines(p, style);
      && |ls| >= 2 && (forall k :: 0 <= k < |ls| ==> |ls[k]| > 0)
      && ls[0][0] == style.box.topLeft[0] && ls[|ls| - 1][0] == style.box.bottomLeft[0]
      && forall k :: 0 < k < |ls| - 1 ==> ls[k][0] == style.box.left[0]
  {
    var box := style.box;
    var b := Block(p.body, p.widths, p.bodyAligns, box, None);
    BlockLeftEdge(p.body, p.widths, p.bodyAligns, box);
    assert Block(p.header, p.widths, p.headerAligns, box, None) == [];
    var ls := PlanLines(p, style);
    assert ls == [BorderLine(p.widths, box, Top)] + b + [BorderLine(p.widths, box, Bottom)];
    assert forall k :: 0 < k < |ls| - 1 ==> ls[k] == b[k - 1];
  }

  /** All physical lines of a planned table have the table's width. */
  lemma PlanLinesWidth(p: Plan, style: Style)
    requires ValidPlan(p) && Uniform(style.box)
    ensures forall k :: 0 <= k < |PlanLines(p, style)| ==> |PlanLines(p, style)[k]| == TableWidth(p.widths, style.box)
  {
    var box := style.box;
    var mid := BorderLine(p.widths, box, Middle);
    BorderWidths(p.widths, box, Middle);
    BorderWidths(p.widths, box, Bottom);
    var sep := if style.options.separateRows then Some(mid) else None;
    BlockWidth(p.header, p.widths, p.headerAligns, box, None);
    BlockWidth(p.body, p.widths, p.bodyAligns, box, sep);
    BlockWidth(p.footer, p.widths, p.footerAligns, box, None);
  }

  /** Every rendered line is as wide as the table; the table is at least as
      wide as its left border, so no line is empty. */
  lemma TableLinesWidth(header: seq<Row>, body: seq<Row>, footer: seq<Row>, style: Style, autoIndex: bool)
    requires Uniform(style.box)
    ensures var lines := TableLines(header, body, footer, style, autoIndex);
      forall k :: 0 <= k < |lines| ==>
        |lines[k]| == TableWidth(MakePlan(header, body, footer, style, autoIndex).widths, style.box) && |lines[k]| > 0
  {
    if ColumnCount(header + body + footer) > 0 {
      var p := MakePlan(header, body, footer, style, autoIndex);
      PlanLinesWidth(p, style);
    }
  }

  /** Lines of one positive width are left as they are by a limit of 0 or one
      at least that width. */
  lemma EqualLinesUnclipped(lines: seq<string>, w: nat, limit: int, marker: string)
    requires w > 0 && forall k :: 0 <= k < |lines| ==> |lines[k]| == w
    requires limit <= 0 || limit >= w
    ensures Document(lines, limit, marker) == JoinOn(lines, "\n")
  {
    if limit > 0 {
      FittingLimitIsUnclipped(lines, limit, marker);
    }
    NoLimitIsUnclipped(lines, 0, marker);
  }

  /** An allowed row length of 0, or one at least the table's width, renders
      exactly the unclipped lines joined by line feeds. */
  lemma WideLimitIsUnclipped(header: seq<Row>, body: seq<Row>, footer: seq<Row>, style: Style, autoIndex: bool, limit: int)
    requires Uniform(style.box)
    requires limit <= 0 || limit >= TableWidth(MakePlan(header, body, footer, style, autoIndex).widths, style.box)
    ensures RenderText(header, body, footer, style, autoIndex, limit)
         == JoinOn(TableLines(header, body, footer, style, autoIndex), "\n")
  {
    var lines := TableLines(header, body, footer, style, autoIndex);
    var w := TableWidth(MakePlan(header, body, footer, style, autoIndex).widths, style.box);
    TableLinesWidth(header, body, footer, style, autoIndex);
    assert w >= |style.box.topLeft| > 0;
    EqualLinesUnclipped(lines, w, limit, style.box.unfinishedRow);
  }

  /** A limit equal to the marker's length, on a table wider than that, renders
      the empty string. */
  lemma MarkerLengthLimitRendersEmpty(header: seq<Row>, body: seq<Row>, footer: seq<Row>, style: Style, autoIndex: bool)
    requires Uniform(style.box) && |style.box.unfinishedRow| > 0
    requires TableWidth(MakePlan(header, body, footer, style, autoIndex).widths, style.box) > |style.box.unfinishedRow|
    ensures RenderText(header, body, footer, style, autoIndex, |style.box.unfinishedRow|) == ""
  {
    TableLinesWidth(header, body, footer, style, autoIndex);
    MarkerLengthLimitEmptyLines(TableLines(header, body, footer, style, autoIndex),
      TableWidth(MakePlan(header, body, footer, style, autoIndex).widths, style.box), style.box.unfinishedRow);
  }

  lemma MarkerLengthLimitEmptyLines(lines: seq<string>, w: nat, marker: string)
    requires 0 < |marker| < w && forall k :: 0 <= k < |lines| ==> |lines[k]| == w
    ensures Document(lines, |marker|, marker) == ""
  {
    MarkerLimitIsEmpty(lines, |marker|, marker);
  }

  // ---------------------------------------------------------------------
  // Column count, ragged rows and alignment in the plan

  /** A body cell missing from a short row is rendered blank. */
  lemma RaggedRowsBlank(header: seq<Row>, body: seq<Row>, footer: seq<Row>, style: Style, r: nat, c: nat)
    requires r < |body| && |body[r]| <= c < ColumnCount(header + body + footer)
    ensures MakePlan(header, body, footer, style, false).body[r][c] == [""]
  {
    PlanBody(header, body, footer, style, false);
    PaddedCellBlank(body, ColumnCount(header + body + footer), r, c);
  }

  lemma PaddedCellBlank(rows: seq<Row>, n: nat, r: nat, c: nat)
    requires r < |rows| && |rows[r]| <= c < n
    ensures TextRowsOf(PadRows(rows, n), false)[r][c] == [""]
  {
    var padded := PadRows(rows, n);
    assert padded[r][c] == Nil;
    assert TextRowsOf(padded, false)[r] == TextRowOf(padded[r], false);
    assert CellLines(Nil, false) == [""];
  }

  /** A body cell that is present is rendered from its own display lines. */
  lemma PresentCellsKept(header: seq<Row>, body: seq<Row>, footer: seq<Row>, style: Style, r: nat, c: nat)
    requires r < |body| && c < |body[r]|
    ensures MakePlan(header, body, footer, style, false).body[r][c] == CellLines(body[r][c], false)
  {
    var n := ColumnCount(header + body + footer);
    assert PadRows(body, n)[r][..|body[r]|] == body[r];
    assert PadRows(body, n)[r][c] == body[r][c];
  }

  /** Numbers are right-aligned and text is left-aligned in body rows. */
  lemma BodyAlignment(header: seq<Row>, body: seq<Row>, footer: seq<Row>, style: Style, c: nat)
    requires c < ColumnCount(header + body + footer)
    ensures var a := MakePlan(header, body, footer, style, false).bodyAligns[c];
      (NumericColumn(body, c) ==> a == AlignRight) && (!NumericColumn(body, c) ==> a == AlignLeft)
  {
  }

  // ---------------------------------------------------------------------
  // Auto-index

  /** With auto-index on, body row r gains one leading cell showing r + 1 on a
      single line, and every other cell moves one column to the right unchanged. */
  lemma AutoIndexBody(header: seq<Row>, body: seq<Row>, footer: seq<Row>, style: Style, r: nat, c: nat)
    requires r < |body| && c < ColumnCount(header + body + footer)
    ensures var p := MakePlan(header, body, footer, style, true);
      var q := MakePlan(header, body, footer, style, false);
      |p.widths| == |q.widths| + 1
      && p.body[r][0] == [IntToString(r + 1)]
      && p.body[r][c + 1] == q.body[r][c]
  {
    PlanBody(header, body, footer, style, true);
    PlanBody(header, body, footer, style, false);
    NumberedRowText(body, ColumnCount(header + body + footer), r, c);
  }

  lemma NumberedRowText(body: seq<Row>, n: nat, r: nat, c: nat)
    requires r < |body| && c < n
    ensures var pt := TextRowsOf(PadRows(NumberRows(body), n + 1), false);
      var qt := TextRowsOf(PadRows(body, n), false);
      && pt[r][0] == [IntToString(r + 1)]
      && c + 1 < |pt[r]| && c < |qt[r]| && pt[r][c + 1] == qt[r][c]
  {
    var nb := NumberRows(body);
    var pr := PadRows(nb, n + 1)[r];
    var qr := PadRows(body, n)[r];
    assert pr[..|nb[r]|] == nb[r];
    assert pr[0] == Int(r + 1);
    IntToStringIsOneLine(r + 1);
    if c < |body[r]| {
      assert pr[c + 1] == nb[r][c + 1] == body[r][c];
      assert qr[..|body[r]|] == body[r];
      assert qr[c] == body[r][c];
    } else {
      assert pr[c + 1] == Nil;
      assert qr[c] == Nil;
    }
    assert TextRowsOf(PadRows(nb, n + 1), false)[r] == TextRowOf(pr, false);
    assert TextRowsOf(PadRows(body, n), false)[r] == TextRowOf(qr, false);
  }

  lemma IntToStringIsOneLine(i: int)
    ensures CellLines(Int(i), false) == [IntToString(i)]
  {
    var s := IntToString(i);
    assert '\r' !in s && '\n' !in s by {
      forall k | 0 <= k < |s| ensures s[k] != '\r' && s[k] != '\n' {
        assert IsDigit(s[k]) || (k == 0 && s[k] == '-');
      }
    }
    SplitJoin([s], '\n');
  }

  /** The row number appears on the first physical line of a body row only;
      its continuation lines show a blank index. */
  lemma AutoIndexFirstLineOnly(header: seq<Row>, body: seq<Row>, footer: seq<Row>, style: Style, r: nat, k: nat)
    requires r < |body| && ColumnCount(header + body + footer) > 0
    ensures var p := MakePlan(header, body, footer, style, true);
      LineAt(p.body[r], k)[0] == if k == 0 then IntToString(r + 1) else ""
  {
    AutoIndexBody(header, body, footer, style, r, 0);
  }

  /** A column's letter name is one upper-case display line. */
  lemma ColumnIDIsOneLine(c: nat, upper: bool)
    ensures CellLines(Str(ColumnID(c)), upper) == [ColumnID(c)]
  {
    var id := ColumnID(c);
    assert Upper(id) == id;
    assert '\r' !in id && '\n' !in id by {
      forall k | 0 <= k < |id| ensures id[k] != '\r' && id[k] != '\n' {
        assert 'A' <= id[k] <= 'Z';
      }
    }
    SplitJoin([id], '\n');
  }

  lemma BlankIsOneLine(upper: bool)
    ensures CellLines(Nil, upper) == [""]
  {
    SplitJoin([""], '\n');
  }

  /** Without a header, auto-index synthesises one header row: a blank index
      cell, then the letters naming each column. */
  lemma AutoIndexLetterHeader(header: seq<Row>, body: seq<Row>, footer: seq<Row>, style: Style, c: nat)
    requires |header| == 0 && c < ColumnCount(header + body + footer)
    ensures var p := MakePlan(header, body, footer, style, true);
      && |p.header| == 1
      && p.header[0][0] == [""]
      && p.header[0][c + 1] == [ColumnID(c)]
  {
    var n := ColumnCount(header + body + footer);
    var h := BlankIndexRows([LetterHeader(n)]);
    assert h[0] == [Nil] + LetterHeader(n);
    var hr := PadRows(h, n + 1)[0];
    assert hr == h[0];
    assert hr[c + 1] == Str(ColumnID(c));
    ColumnIDIsOneLine(c, style.format.headerUpper);
    BlankIsOneLine(style.format.headerUpper);
  }

  /** In the synthetic letter header, numeric columns are right-aligned and all
      others centred; the index column itself is numeric. */
  lemma AutoIndexLetterAlignment(header: seq<Row>, body: seq<Row>, footer: seq<Row>, style: Style, c: nat)
    requires |header| == 0 && c < ColumnCount(header + body + footer)
    ensures var p := MakePlan(header, body, footer, style, true);
      && p.headerAligns[0] == AlignRight
      && (NumericColumn(body, c) ==> p.headerAligns[c + 1] == AlignRight)
      && (!NumericColumn(body, c) ==> p.headerAligns[c + 1] == AlignCenter)
  {
    IndexColumnNumeric(body);
    IndexKeepsNumericColumns(body, c);
  }

  /** With a header, auto-index puts a blank cell in front of every header row
      and keeps the header text, upper-cased when the style says so. */
  lemma AutoIndexKeepsHeader(header: seq<Row>, body: seq<Row>, footer: seq<Row>, style: Style, r: nat, c: nat)
    requires r < |header| && c < |header[r]|
    ensures var p := MakePlan(header, body, footer, style, true);
      && p.header[r][0] == [""]
      && p.header[r][c + 1] == CellLines(header[r][c], style.format.headerUpper)
  {
    var n := ColumnCount(header + body + footer);
    var h := BlankIndexRows(header);
    var hr := PadRows(h, n + 1)[r];
    assert hr[..|h[r]|] == h[r];
    assert hr[0] == Nil && hr[c + 1] == header[r][c];
    BlankIsOneLine(style.format.headerUpper);
  }

  // ---------------------------------------------------------------------
  // Auto-index and column widths

  /** A column's width over two groups of rows is the larger of its two widths. */
  lemma {:induction false} ColumnWidthConcat(a: seq<TextRow>, b: seq<TextRow>, c: nat)
    ensures ColumnWidth(a + b, c) == Max(ColumnWidth(a, c), ColumnWidth(b, c))
    decreases |b|
  {
    if |b| == 0 {
      assert a + b == a;
    } else {
      var ab := a + b;
      var init := b[..|b| - 1];
      assert ab[..|ab| - 1] == a + init;
      assert ab[|ab| - 1] == b[|b| - 1];
      ColumnWidthConcat(a, init, c);
    }
  }

  /** The width of a column in a single row of text is its longest line. */
  lemma OneRowWidth(row: TextRow, c: nat)
    requires c < |row|
    ensures ColumnWidth([row], c) == MaxLen(row[c])
  {
    assert [row][..0] == [];
  }

  /** Each text row of shifted is that of rows with one cell in front. */
  predicate ShiftedRows(shifted: seq<TextRow>, rows: seq<TextRow>) {
    |shifted| == |rows|
    && forall r :: 0 <= r < |rows| ==> |shifted[r]| == |rows[r]| + 1 && shifted[r][1..] == rows[r]
  }

  lemma ShiftedConcat(s1: seq<TextRow>, r1: seq<TextRow>, s2: seq<TextRow>, r2: seq<TextRow>)
    requires ShiftedRows(s1, r1) && ShiftedRows(s2, r2)
    ensures ShiftedRows(s1 + s2, r1 + r2)
  {
    var s, r := s1 + s2, r1 + r2;
    forall k | 0 <= k < |r| ensures |s[k]| == |r[k]| + 1 && s[k][1..] == r[k] {
      if k < |r1| {
        assert s[k] == s1[k] && r[k] == r1[k];
      } else {
        assert s[k] == s2[k - |r1|] && r[k] == r2[k - |r1|];
      }
    }
  }

  /** Shifting every row right by one cell moves each column's width along. */
  lemma {:induction false} ColumnWidthShifted(shifted: seq<TextRow>, rows: seq<TextRow>, c: nat)
    requires ShiftedRows(shifted, rows)
    ensures ColumnWidth(shifted, c + 1) == ColumnWidth(rows, c)
    decreases |rows|
  {
    if |rows| > 0 {
      var n := |rows| - 1;
      assert ShiftedRows(shifted[..n], rows[..n]) by {
        forall r | 0 <= r < n ensures |shifted[..n][r]| == |rows[..n][r]| + 1 && shifted[..n][r][1..] == rows[..n][r] {
          assert shifted[..n][r] == shifted[r] && rows[..n][r] == rows[r];
        }
      }
      ColumnWidthShifted(shifted[..n], rows[..n], c);
      if c < |rows[n]| {
        assert shifted[n][c + 1] == shifted[n][1..][c];
      }
    }
  }

  /** Rows with one cell put in front, padded to one more column, display as the
      padded rows shifted right by one cell. */
  lemma PrefixedTextRows(prefixed: seq<Row>, rows: seq<Row>, n: nat, upper: bool)
    requires |prefixed| == |rows|
    requires forall r :: 0 <= r < |rows| ==> |prefixed[r]| == |rows[r]| + 1 && prefixed[r][1..] == rows[r]
    ensures ShiftedRows(TextRowsOf(PadRows(prefixed, n + 1), upper), TextRowsOf(PadRows(rows, n), upper))
  {
    var st, rt := TextRowsOf(PadRows(prefixed, n + 1), upper), TextRowsOf(PadRows(rows, n), upper);
    forall r | 0 <= r < |rows| ensures |st[r]| == |rt[r]| + 1 && st[r][1..] == rt[r] {
      var pr, qr := PadRow(prefixed[r], n + 1), PadRow(rows[r], n);
      assert |pr| == |qr| + 1;
      forall k | 0 <= k < |qr| ensures pr[k + 1] == qr[k] {
        if k < |rows[r]| {
          assert pr[..|prefixed[r]|][k + 1] == prefixed[r][1..][k];
          assert qr[..|rows[r]|][k] == rows[r][k];
        }
      }
      assert st[r][1..] == rt[r] by {
        forall k | 0 <= k < |rt[r]| ensures st[r][1..][k] == rt[r][k] {
          assert st[r][k + 1] == CellLines(pr[k + 1], upper);
        }
      }
    }
  }

  /** The parts of a plan: the display rows of each row class and the widths
      they give. */
  lemma PlanParts(header: seq<Row>, body: seq<Row>, footer: seq<Row>, style: Style, autoIndex: bool)
    ensures var n := ColumnCount(header + body + footer);
      var m := RenderedColumns(header, body, footer, autoIndex);
      var p := MakePlan(header, body, footer, style, autoIndex);
      && p.header == TextRowsOf(PadRows(IndexedHeader(header, n, autoIndex), m), style.format.headerUpper)
      && p.body == TextRowsOf(PadRows(IndexedBody(body, autoIndex), m), false)
      && p.footer == TextRowsOf(PadRows(IndexedFooter(footer, autoIndex), m), style.format.footerUpper)
      && p.widths == ColumnWidths(p.header + p.body + p.footer, m)
  {
  }

  /** The header rows of a plan alone. */
  lemma PlanHeader(header: seq<Row>, body: seq<Row>, footer: seq<Row>, style: Style, autoIndex: bool)
    ensures MakePlan(header, body, footer, style, autoIndex).header
         == TextRowsOf(PadRows(IndexedHeader(header, ColumnCount(header + body + footer), autoIndex),
                               RenderedColumns(header, body, footer, autoIndex)), style.format.headerUpper)
  {
  }

  /** The footer rows of a plan alone. */
  lemma PlanFooter(header: seq<Row>, body: seq<Row>, footer: seq<Row>, style: Style, autoIndex: bool)
    ensures MakePlan(header, body, footer, style, autoIndex).footer
         == TextRowsOf(PadRows(IndexedFooter(footer, autoIndex), RenderedColumns(header, body, footer, autoIndex)),
                       style.format.footerUpper)
  {
  }

  /** The body rows of a plan alone. */
  lemma PlanBody(header: seq<Row>, body: seq<Row>, footer: seq<Row>, style: Style, autoIndex: bool)
    ensures MakePlan(header, body, footer, style, autoIndex).body
         == TextRowsOf(PadRows(IndexedBody(body, autoIndex), RenderedColumns(header, body, footer, autoIndex)), false)
  {
  }

  /** Each width of a plan is its column's width over all the plan's rows. */
  lemma PlanWidth(header: seq<Row>, body: seq<Row>, footer: seq<Row>, style: Style, autoIndex: bool, c: nat)
    requires c < RenderedColumns(header, body, footer, autoIndex)
    ensures var p := MakePlan(header, body, footer, style, autoIndex);
      p.widths[c] == ColumnWidth(p.header + p.body + p.footer, c)
  {
    PlanParts(header, body, footer, style, autoIndex);
  }

  /** The widths of a plan are its columns' widths over all its rows. */
  lemma PlanWidths(header: seq<Row>, body: seq<Row>, footer: seq<Row>, style: Style, autoIndex: bool)
    ensures var p := MakePlan(header, body, footer, style, autoIndex);
      p.widths == ColumnWidths(p.header + p.body + p.footer, |p.widths|)
  {
    PlanParts(header, body, footer, style, autoIndex);
  }

  /** Without auto-index, the body alignments: right over numeric columns, left
      over the others. */
  lemma BodyAligns(header: seq<Row>, body: seq<Row>, footer: seq<Row>, style: Style)
    ensures var p := MakePlan(header, body, footer, style, false);
      var n := ColumnCount(header + body + footer);
      |p.bodyAligns| == n
      && forall c :: 0 <= c < n ==> p.bodyAligns[c] == if NumericColumn(body, c) then AlignRight else AlignLeft
  {
    forall c | 0 <= c < ColumnCount(header + body + footer)
      ensures MakePlan(header, body, footer, style, false).bodyAligns[c]
              == if NumericColumn(body, c) then AlignRight else AlignLeft
    {
      BodyAlignment(header, body, footer, style, c);
    }
  }

  lemma AutoIndexShiftsRows(header: seq<Row>, body: seq<Row>, footer: seq<Row>, style: Style)
    requires |header| > 0
    ensures var p := MakePlan(header, body, footer, style, true);
      var q := MakePlan(header, body, footer, style, false);
      ShiftedRows(p.header + p.body + p.footer, q.header + q.body + q.footer)
  {
    var p := MakePlan(header, body, footer, style, true);
    var q := MakePlan(header, body, footer, style, false);
    AutoIndexShiftsHeader(header, body, footer, style);
    AutoIndexShiftsBodyAndFooter(header, body, footer, style);
    ShiftedConcat3(p.header, q.header, p.body, q.body, p.footer, q.footer);
  }

  lemma ShiftedConcat3(s1: seq<TextRow>, r1: seq<TextRow>, s2: seq<TextRow>, r2: seq<TextRow>,
                       s3: seq<TextRow>, r3: seq<TextRow>)
    requires ShiftedRows(s1, r1) && ShiftedRows(s2 + s3, r2 + r3)
    ensures ShiftedRows(s1 + s2 + s3, r1 + r2 + r3)
  {
    ShiftedConcat(s1, r1, s2 + s3, r2 + r3);
    assert s1 + s2 + s3 == s1 + (s2 + s3);
    assert r1 + r2 + r3 == r1 + (r2 + r3);
  }

  lemma AutoIndexShiftsHeader(header: seq<Row>, body: seq<Row>, footer: seq<Row>, style: Style)
    requires |header| > 0
    ensures var p := MakePlan(header, body, footer, style, true);
      var q := MakePlan(header, body, footer, style, false);
      ShiftedRows(p.header, q.header)
  {
    var n := ColumnCount(header + body + footer);
    PlanHeader(header, body, footer, style, true);
    PlanHeader(header, body, footer, style, false);
    PrefixedTextRows(BlankIndexRows(header), header, n, style.format.headerUpper);
  }

  /** With a header, the index column shifts every column right by one and
      keeps its width. */
  lemma AutoIndexWidthsWithHeader(header: seq<Row>, body: seq<Row>, footer: seq<Row>, style: Style, c: nat)
    requires |header| > 0 && c < ColumnCount(header + body + footer)
    ensures var p := MakePlan(header, body, footer, style, true);
      var q := MakePlan(header, body, footer, style, false);
      p.widths[c + 1] == q.widths[c]
  {
    var p := MakePlan(header, body, footer, style, true);
    var q := MakePlan(header, body, footer, style, false);
    PlanWidths(header, body, footer, style, true);
    PlanWidths(header, body, footer, style, false);
    AutoIndexShiftsRows(header, body, footer, style);
    ColumnWidthShifted(p.header + p.body + p.footer, q.header + q.body + q.footer, c);
  }

  lemma AutoIndexShiftsBodyAndFooter(header: seq<Row>, body: seq<Row>, footer: seq<Row>, style: Style)
    ensures var p := MakePlan(header, body, footer, style, true);
      var q := MakePlan(header, body, footer, style, false);
      ShiftedRows(p.body + p.footer, q.body + q.footer)
  {
    var p := MakePlan(header, body, footer, style, true);
    var q := MakePlan(header, body, footer, style, false);
    AutoIndexShiftsBody(header, body, footer, style);
    AutoIndexShiftsFooter(header, body, footer, style);
    ShiftedConcat(p.body, q.body, p.footer, q.footer);
  }

  lemma AutoIndexShiftsBody(header: seq<Row>, body: seq<Row>, footer: seq<Row>, style: Style)
    ensures ShiftedRows(MakePlan(header, body, footer, style, true).body, MakePlan(header, body, footer, style, false).body)
  {
    PlanBody(header, body, footer, style, true);
    PlanBody(header, body, footer, style, false);
    PrefixedTextRows(NumberRows(body), body, ColumnCount(header + body + footer), false);
  }

  lemma AutoIndexShiftsFooter(header: seq<Row>, body: seq<Row>, footer: seq<Row>, style: Style)
    ensures ShiftedRows(MakePlan(header, body, footer, style, true).footer, MakePlan(header, body, footer, style, false).footer)
  {
    PlanFooter(header, body, footer, style, true);
    PlanFooter(header, body, footer, style, false);
    PrefixedTextRows(BlankIndexRows(footer), footer, ColumnCount(header + body + footer), style.format.footerUpper);
  }

  /** A leading letter row over shifted rows: the shifted column is as wide as
      the wider of the letters and the unshifted column. */
  lemma LetterRowWidth(letters: TextRow, shifted: seq<TextRow>, rows: seq<TextRow>, c: nat, id: string)
    requires ShiftedRows(shifted, rows) && c + 1 < |letters| && letters[c + 1] == [id]
    ensures ColumnWidth([letters] + shifted, c + 1) == Max(|id|, ColumnWidth(rows, c))
  {
    ColumnWidthShifted(shifted, rows, c);
    OneRowWidth(letters, c + 1);
    ColumnWidthConcat([letters], shifted, c + 1);
    assert MaxLen([id]) == |id| by { assert [id][..0] == []; }
  }

  /** Without a header, the letter naming a column widens it only when the
      column's own text is narrower than the letters. */
  lemma AutoIndexWidthsLetters(header: seq<Row>, body: seq<Row>, footer: seq<Row>, style: Style, c: nat)
    requires |header| == 0 && c < ColumnCount(header + body + footer)
    ensures var p := MakePlan(header, body, footer, style, true);
      var q := MakePlan(header, body, footer, style, false);
      p.widths[c + 1] == Max(|ColumnID(c)|, q.widths[c])
  {
    var p := MakePlan(header, body, footer, style, true);
    var q := MakePlan(header, body, footer, style, false);
    PlanWidths(header, body, footer, style, true);
    PlanWidths(header, body, footer, style, false);
    AutoIndexShiftsBodyAndFooter(header, body, footer, style);
    AutoIndexLetterHeader(header, body, footer, style, c);
    PlanRowsOrder(p.header, p.body, p.footer);
    PlanRowsOrder(q.header, q.body, q.footer);
    LetterRowWidth(p.header[0], p.body + p.footer, q.body + q.footer, c, ColumnID(c));
  }

  lemma PlanRowsOrder(h: seq<TextRow>, b: seq<TextRow>, f: seq<TextRow>)
    ensures |h| == 1 ==> h + b + f == [h[0]] + (b + f)
    ensures |h| == 0 ==> h + b + f == b + f
  {
    if |h| == 1 {
      assert h == [h[0]];
    }
  }

  /** Without a header, the widths of an auto-indexed plan over all its data
      columns. */
  lemma AutoIndexLetterWidths(header: seq<Row>, body: seq<Row>, footer: seq<Row>, style: Style)
    requires |header| == 0
    ensures var p := MakePlan(header, body, footer, style, true);
      var q := MakePlan(header, body, footer, style, false);
      |p.widths| == |q.widths| + 1
      && forall c :: 0 <= c < |q.widths| ==> p.widths[c + 1] == Max(|ColumnID(c)|, q.widths[c])
  {
    forall c | 0 <= c < ColumnCount(header + body + footer)
      ensures MakePlan(header, body, footer, style, true).widths[c + 1]
              == Max(|ColumnID(c)|, MakePlan(header, body, footer, style, false).widths[c])
    {
      AutoIndexWidthsLetters(header, body, footer, style, c);
    }
  }

  /** Without a header, the alignments of the synthetic letter row over all
      columns: right over the index and every numeric column, centred elsewhere. */
  lemma AutoIndexLetterAligns(header: seq<Row>, body: seq<Row>, footer: seq<Row>, style: Style)
    requires |header| == 0
    ensures var p := MakePlan(header, body, footer, style, true);
      var n := ColumnCount(header + body + footer);
      |p.headerAligns| == n + 1 && p.headerAligns[0] == AlignRight
      && forall c :: 0 <= c < n ==>
           p.headerAligns[c + 1] == if NumericColumn(body, c) then AlignRight else AlignCenter
  {
    var n := ColumnCount(header + body + footer);
    if n > 0 {
      AutoIndexLetterAlignment(header, body, footer, style, 0);
    } else {
      IndexColumnNumeric(body);
    }
    forall c | 0 <= c < n
      ensures MakePlan(header, body, footer, style, true).headerAligns[c + 1]
              == if NumericColumn(body, c) then AlignRight else AlignCenter
    {
      AutoIndexLetterAlignment(header, body, footer, style, c);
    }
  }

  /** Without a header, the synthetic header row in full. */
  lemma AutoIndexLetterRow(header: seq<Row>, body: seq<Row>, footer: seq<Row>, style: Style)
    requires |header| == 0
    ensures var p := MakePlan(header, body, footer, style, true);
      var n := ColumnCount(header + body + footer);
      |p.header| == 1 && |p.header[0]| == n + 1 && p.header[0][0] == [""]
      && forall c :: 0 <= c < n ==> p.header[0][c + 1] == [ColumnID(c)]
  {
    var n := ColumnCount(header + body + footer);
    var p := MakePlan(header, body, footer, style, true);
    assert |p.header| == 1;
    assert |p.header[0]| == n + 1 by { PlanHeader(header, body, footer, style, true); }
    if n > 0 {
      AutoIndexLetterHeader(header, body, footer, style, 0);
    } else {
      PlanHeader(header, body, footer, style, true);
      BlankIsOneLine(style.format.headerUpper);
    }
    forall c | 0 <= c < n ensures p.header[0][c + 1] == [ColumnID(c)] {
      AutoIndexLetterHeader(header, body, footer, style, c);
    }
  }

  /** The index column in full: row r of the body shows the number r + 1. */
  lemma AutoIndexColumn(header: seq<Row>, body: seq<Row>, footer: seq<Row>, style: Style)
    requires ColumnCount(header + body + footer) > 0
    ensures var p := MakePlan(header, body, footer, style, true);
      forall r :: 0 <= r < |body| ==> |p.body[r]| > 0 && p.body[r][0] == [IntToString(r + 1)]
  {
    forall r | 0 <= r < |body|
      ensures var p := MakePlan(header, body, footer, style, true);
        |p.body[r]| > 0 && p.body[r][0] == [IntToString(r + 1)]
    {
      AutoIndexBody(header, body, footer, style, r, 0);
    }
  }
}
