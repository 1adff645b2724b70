/** The literal text the table's render tests compare against, derived from the
    model: each lemma states a rendered table character for character. */
module OutputScenarios {
  import opened Cells
  import opened Layout
  import opened Render
  import opened RenderFacts
  import opened TableModel
  import opened TableScenarios

  // ---------------------------------------------------------------------
  // Lines of one-line rows

  /** A row whose every cell is one line renders as one line made of its
      cells' only lines. */
  lemma OneLineRow(tr: TextRow, widths: seq<nat>, aligns: seq<Align>, box: BoxStyle)
    requires FitsRow(tr, widths) && |aligns| == |widths|
    requires forall c :: 0 <= c < |tr| ==> |tr[c]| == 1
    ensures Block([tr], widths, aligns, box, None) == [CellsLine(LineAt(tr, 0), widths, aligns, box)]
  {
    assert Height(tr) == 1;
    var ls := RowLines(tr, widths, aligns, box);
    assert ls == [ls[0]];
    assert [tr][1..] == [];
    assert Block([tr], widths, aligns, box, None) == ls + [] + [];
  }

  /** Four pieces joined by a separator. */
  lemma Join4(a: string, b: string, c: string, d: string, sep: string)
    ensures JoinOn([a, b, c, d], sep) == a + sep + b + sep + c + sep + d
  {
    assert [c, d][1..] == [d];
    assert JoinOn([c, d], sep) == c + sep + d;
    assert [b, c, d][1..] == [c, d];
    assert JoinOn([b, c, d], sep) == b + sep + (c + sep + d);
    assert [a, b, c, d][1..] == [b, c, d];
    assert JoinOn([a, b, c, d], sep) == a + sep + (b + sep + (c + sep + d));
  }

  /** Three lines emitted without a limit are joined by line feeds. */
  lemma ThreeLineDocument(a: string, b: string, c: string, marker: string)
    requires |a| > 0 && |b| > 0 && |c| > 0
    ensures Document([a, b, c], 0, marker) == a + "\n" + b + "\n" + c
  {
    NoLimitIsUnclipped([a, b, c], 0, marker);
    assert [a, b, c][1..] == [b, c];
    assert [b, c][1..] == [c];
    assert JoinOn([b, c], "\n") == b + "\n" + c;
    assert a + "\n" + (b + "\n" + c) == a + "\n" + b + "\n" + c;
  }

  lemma RepeatIs(ch: char, s: string)
    requires forall k :: 0 <= k < |s| ==> s[k] == ch
    ensures Repeat(ch, |s|) == s
  {
  }

  /** A body-only plan of one row of one-line cells renders as the top border,
      that row's line and the bottom border. */
  lemma SingleRowLines(p: Plan, style: Style)
    requires ValidPlan(p) && p.header == [] && p.footer == [] && |p.body| == 1 && !style.options.separateRows
    requires forall c :: 0 <= c < |p.body[0]| ==> |p.body[0][c]| == 1
    ensures PlanLines(p, style) == [BorderLine(p.widths, style.box, Top),
                                    CellsLine(LineAt(p.body[0], 0), p.widths, p.bodyAligns, style.box),
                                    BorderLine(p.widths, style.box, Bottom)]
  {
    assert p.body == [p.body[0]];
    OneLineRow(p.body[0], p.widths, p.bodyAligns, style.box);
  }

  /** A table of one row without header and footer has that row as its only
      body row, unpadded. */
  lemma SingleRowParts(row: Row, style: Style)
    requires |row| > 0
    ensures var p := MakePlan([], [row], [], style, false);
      && p.header == [] && p.footer == [] && p.body == [TextRowOf(row, false)] && |p.widths| == |row|
  {
    var rows := [row];
    assert [] + rows + [] == rows;
    assert ColumnCount(rows) == |row|;
    PlanHeader([], rows, [], style, false);
    PlanFooter([], rows, [], style, false);
    SingleRowBody(row, style);
  }

  lemma SingleRowBody(row: Row, style: Style)
    requires |row| > 0 && ColumnCount([] + [row] + []) == |row|
    ensures MakePlan([], [row], [], style, false).body == [TextRowOf(row, false)]
  {
    PlanBody([], [row], [], style, false);
    assert PadRow(row, |row|) == row;
    assert PadRows([row], |row|) == [row];
  }

  /** Each column of a one-row table is as wide as that row's cell. */
  lemma SingleRowWidths(row: Row, style: Style)
    requires |row| > 0
    ensures var p := MakePlan([], [row], [], style, false);
      |p.widths| == |row| && forall c :: 0 <= c < |row| ==> p.widths[c] == MaxLen(TextRowOf(row, false)[c])
  {
    SingleRowParts(row, style);
    PlanWidths([], [row], [], style, false);
    var p := MakePlan([], [row], [], style, false);
    var tr := TextRowOf(row, false);
    assert p.header + p.body + p.footer == [tr];
    forall c | 0 <= c < |row| ensures p.widths[c] == MaxLen(tr[c]) {
      OneRowWidth(tr, c);
    }
  }

  /** Each column of a one-row table is aligned by its own cell: numbers to the
      right, everything else to the left. */
  lemma SingleRowAligns(row: Row, style: Style)
    ensures var p := MakePlan([], [row], [], style, false);
      |p.bodyAligns| == |row| && forall c :: 0 <= c < |row| ==> p.bodyAligns[c] == if IsNumber(row[c]) then AlignRight else AlignLeft
  {
    assert [] + [row] + [] == [row];
    assert ColumnCount([row]) == |row|;
    BodyAligns([], [row], [], style);
    forall c | 0 <= c < |row| ensures NumericColumn([row], c) <==> IsNumber(row[c]) {
      assert [row][0] == row;
    }
  }

  lemma MaxLenOne(s: string)
    ensures MaxLen([s]) == |s|
  {
    assert [s][..0] == [];
  }

  // ---------------------------------------------------------------------
  // The output mirror test: one row in the default style

  /** The borders and the row line the output mirror test expects; the whole
      text is these three lines joined by line feeds. */
  const MirrorBorderText := "+---+------+-------+------+"
  const MirrorRowText := "| 1 | Arya | Stark | 3000 |"
  const MirrorText := MirrorBorderText + "\n" + MirrorRowText + "\n" + MirrorBorderText

  lemma MirrorSegments()
    ensures Segments([1, 4, 5, 4], StyleDefault.box) == ["---", "------", "-------", "------"]
  {
    RepeatIs('-', "---");
    RepeatIs('-', "------");
    RepeatIs('-', "-------");
  }

  lemma MirrorRule()
    ensures JoinOn(Segments([1, 4, 5, 4], StyleDefault.box), "+") == "---+------+-------+------"
  {
    MirrorSegments();
    Join4("---", "------", "-------", "------", "+");
  }

  lemma BorderFrame(r: string)
    requires r == "---+------+-------+------"
    ensures "+" + r + "+" == MirrorBorderText
  {
  }

  lemma MirrorBorder(kind: Border)
    ensures BorderLine([1, 4, 5, 4], StyleDefault.box, kind) == MirrorBorderText
  {
    MirrorRule();
    BorderFrame(JoinOn(Segments([1, 4, 5, 4], StyleDefault.box), "+"));
  }

  /** A text as wide as its column needs no alignment blanks. */
  lemma FullWidth(t: string, a: Align)
    ensures AlignText(t, |t|, a) == t
  {
    assert Spaces(0) == "";
    assert Spaces(0) + t + Spaces(0) == t;
  }

  /** Cells as wide as their columns are padded only by the style's padding. */
  lemma FullPadded(texts: seq<string>, widths: seq<nat>, aligns: seq<Align>, box: BoxStyle)
    requires |texts| == |widths| == |aligns| && forall c :: 0 <= c < |texts| ==> |texts[c]| == widths[c]
    ensures forall c :: 0 <= c < |texts| ==>
      PaddedCells(texts, widths, aligns, box)[c] == box.paddingLeft + texts[c] + box.paddingRight
  {
    forall c | 0 <= c < |texts| {
      FullWidth(texts[c], aligns[c]);
    }
  }

  lemma RowInner()
    ensures (" " + "1" + " ") + "|" + (" " + "Arya" + " ") + "|" + (" " + "Stark" + " ") + "|" + (" " + "3000" + " ")
         == " 1 | Arya | Stark | 3000 "
  {
  }

  lemma RowFrame()
    ensures "|" + ((" " + "1" + " ") + "|" + (" " + "Arya" + " ") + "|" + (" " + "Stark" + " ") + "|" + (" " + "3000" + " ")) + "|"
         == MirrorRowText
  {
    RowInner();
    assert "|" + " 1 | Arya | Stark | 3000 " + "|" == MirrorRowText;
  }

  /** A line of four cells, each as wide as its column. */
  lemma FullLine4(a: string, b: string, c: string, d: string, widths: seq<nat>, aligns: seq<Align>, box: BoxStyle)
    requires widths == [|a|, |b|, |c|, |d|] && |aligns| == 4
    ensures var pl, pr, v := box.paddingLeft, box.paddingRight, box.middleVertical;
      CellsLine([a, b, c, d], widths, aligns, box)
         == box.left + ((pl + a + pr) + v + (pl + b + pr) + v + (pl + c + pr) + v + (pl + d + pr)) + box.right
  {
    FullPadded([a, b, c, d], widths, aligns, box);
    var ps := PaddedCells([a, b, c, d], widths, aligns, box);
    assert ps == [ps[0], ps[1], ps[2], ps[3]];
    Join4(ps[0], ps[1], ps[2], ps[3], box.middleVertical);
  }

  lemma MirrorCells()
    ensures CellsLine(["1", "Arya", "Stark", "3000"], [1, 4, 5, 4], [AlignRight, AlignLeft, AlignLeft, AlignRight], StyleDefault.box)
         == MirrorRowText
  {
    FullLine4("1", "Arya", "Stark", "3000", [1, 4, 5, 4], [AlignRight, AlignLeft, AlignLeft, AlignRight], StyleDefault.box);
    RowFrame();
  }

  /** The first test row, told by its cells. */
  predicate IsMirrorRow(row: Row) {
    |row| == 4 && row[0] == Int(1) && row[1] == Str("Arya") && row[2] == Str("Stark") && row[3] == Int(3000)
  }

  const MirrorTexts: TextRow := [["1"], ["Arya"], ["Stark"], ["3000"]]

  lemma MirrorTextRow(row: Row)
    requires IsMirrorRow(row)
    ensures TextRowOf(row, false) == MirrorTexts
  {
    TestNumbers();
    NumberTextRow(row, 1, "Arya", "Stark", 3000, "1", "3000");
  }

  /** A row of a number, two one-line texts and a number, as one-line texts. */
  lemma NumberTextRow(row: Row, i: nat, a: string, b: string, j: nat, si: string, sj: string)
    requires |row| == 4 && row[0] == Int(i) && row[1] == Str(a) && row[2] == Str(b) && row[3] == Int(j)
    requires NatToString(i) == si && NatToString(j) == sj
    requires '\n' !in a && '\r' !in a && '\n' !in b && '\r' !in b
    ensures TextRowOf(row, false) == [[si], [a], [b], [sj]]
  {
    var tr := TextRowOf(row, false);
    NumberLine(i, si);
    PlainLine(a);
    PlainLine(b);
    NumberLine(j, sj);
    FourLines(tr, si, a, b, sj);
  }

  /** A four-cell text row of one line per cell, written out. */
  lemma FourLines(tr: TextRow, x0: string, x1: string, x2: string, x3: string)
    requires |tr| == 4 && tr[0] == [x0] && tr[1] == [x1] && tr[2] == [x2] && tr[3] == [x3]
    ensures tr == [[x0], [x1], [x2], [x3]]
  {
  }

  lemma MirrorWidths(ws: seq<nat>, tr: TextRow)
    requires tr == MirrorTexts && |ws| == 4 && forall c :: 0 <= c < 4 ==> ws[c] == MaxLen(tr[c])
    ensures ws == [1, 4, 5, 4]
  {
    MaxLenOne("1");
    MaxLenOne("Arya");
    MaxLenOne("Stark");
    MaxLenOne("3000");
  }

  lemma MirrorAligns(as_: seq<Align>, row: Row)
    requires IsMirrorRow(row)
    requires |as_| == 4 && forall c :: 0 <= c < 4 ==> as_[c] == if IsNumber(row[c]) then AlignRight else AlignLeft
    ensures as_ == [AlignRight, AlignLeft, AlignLeft, AlignRight]
  {
  }

  /** The plan of the mirror table, laid out as lines. */
  lemma MirrorPlanLines(p: Plan)
    requires ValidPlan(p) && p.header == [] && p.footer == [] && p.body == [MirrorTexts]
    requires p.widths == [1, 4, 5, 4] && p.bodyAligns == [AlignRight, AlignLeft, AlignLeft, AlignRight]
    ensures PlanLines(p, StyleDefault) == [MirrorBorderText, MirrorRowText, MirrorBorderText]
  {
    SingleRowLines(p, StyleDefault);
    assert LineAt(p.body[0], 0) == ["1", "Arya", "Stark", "3000"];
    MirrorCells();
    MirrorBorder(Top);
    MirrorBorder(Bottom);
  }

  lemma MirrorLines(row: Row)
    requires IsMirrorRow(row)
    ensures TableLines([], [row], [], StyleDefault, false) == [MirrorBorderText, MirrorRowText, MirrorBorderText]
  {
    assert [] + [row] + [] == [row];
    assert ColumnCount([row]) == 4;
    var p := MakePlan([], [row], [], StyleDefault, false);
    SingleRowParts(row, StyleDefault);
    SingleRowWidths(row, StyleDefault);
    SingleRowAligns(row, StyleDefault);
    MirrorTextRow(row);
    MirrorWidths(p.widths, TextRowOf(row, false));
    MirrorAligns(p.bodyAligns, row);
    MirrorPlanLines(p);
  }

  /** The row of the mirror test renders in the default style as the text the
      test expects. */
  lemma MirrorRenderOf(row: Row)
    requires IsMirrorRow(row)
    ensures RenderText([], [row], [], StyleDefault, false, 0) == MirrorText
  {
    MirrorLines(row);
    ThreeLineDocument(MirrorBorderText, MirrorRowText, MirrorBorderText, StyleDefault.box.unfinishedRow);
  }

  /** The first test row renders in the default style as the text the output
      mirror test expects. */
  lemma MirrorRender()
    ensures RenderText([], [TestRows[0]], [], StyleDefault, false, 0) == MirrorText
  {
    MirrorRenderOf(TestRows[0]);
  }

  // ---------------------------------------------------------------------
  // Mirroring the output

  /** The output mirror test on the first test row: rendering gives the mirror
      table both before and after a mirror is set, and the mirror receives that
      table followed by a line feed. */
  method OutputMirrorTest(row: Row) returns (withoutMirror: string, withMirror: string, mirrored: string)
    requires IsMirrorRow(row)
    ensures withoutMirror == MirrorText && withMirror == MirrorText && mirrored == MirrorText + "\n"
  {
    var t := new Table();
    t.AppendRow(row, None);
    assert t.Snapshot() == EmptyTable.(body := [row]);
    withoutMirror := t.Render();
    withMirror, mirrored := RenderMirrored(t);
    MirrorRenderOf(row);
  }

  /** Sets a fresh mirror on a table that has none and renders it: the mirror
      holds the rendered text and a line feed, or nothing when that text is empty. */
  method RenderMirrored(t: Table) returns (out: string, mirrored: string)
    requires t.outputMirror == null
    modifies t
    ensures t.Snapshot() == old(t.Snapshot())
    ensures out == Rendered(t.Snapshot()) && mirrored == if |out| > 0 then out + "\n" else ""
  {
    var m := new OutputMirror();
    t.SetOutputMirror(m);
    out := t.Render();
    mirrored := m.mirroredOutput;
  }
}
