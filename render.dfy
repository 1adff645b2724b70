/** The text renderer: style presets, the layout plan of a table, its physical
    output lines, and clipping of each line to the allowed row length. */
module Render {
  import opened Cells
  import opened Layout

  // ---------------------------------------------------------------------
  // Styles

  /** The glyphs a style draws the grid with. */
  datatype BoxStyle = BoxStyle(
    topLeft: string, topSeparator: string, topRight: string,
    left: string, middleVertical: string, right: string,
    leftSeparator: string, middleSeparator: string, rightSeparator: string,
    bottomLeft: string, bottomSeparator: string, bottomRight: string,
    middleHorizontal: char,
    paddingLeft: string, paddingRight: string,
    unfinishedRow: string)

  /** Whether header and footer text is upper-cased. */
  datatype FormatOptions = FormatOptions(headerUpper: bool, footerUpper: bool)

  /** Whether a separator line is drawn between consecutive body rows. */
  datatype Options = Options(separateRows: bool)

  datatype Style = Style(name: string, box: BoxStyle, format: FormatOptions, options: Options)

  const StyleDefault := Style("StyleDefault",
    BoxStyle("+", "+", "+", "|", "|", "|", "+", "+", "+", "+", "+", "+", '-', " ", " ", " ≈"),
    FormatOptions(true, true), Options(false))

  const StyleBold := Style("StyleBold",
    BoxStyle("┏", "┳", "┓", "┃", "┃", "┃", "┣", "╋", "┫",
             "┗", "┻", "┛", '━', " ", " ", " ≈"),
    FormatOptions(true, true), Options(false))

  const StyleLight := Style("StyleLight",
    BoxStyle("┌", "┬", "┐", "│", "│", "│", "├", "┼", "┤",
             "└", "┴", "┘", '─', " ", " ", " ≈"),
    FormatOptions(true, true), Options(false))

  const StyleRounded := Style("StyleRounded",
    BoxStyle("╭", "┬", "╮", "│", "│", "│", "├", "┼", "┤",
             "╰", "┴", "╯", '─', " ", " ", " ≈"),
    FormatOptions(true, true), Options(false))

  /** The style the tests use to make every glyph distinct. */
  const StyleTest := Style("styleTest",
    BoxStyle("(", "^", ")", "[", "|", "]", "{", "+", "}", "\\", "v", "/", '-', "<", ">", " ~~~"),
    FormatOptions(true, true), Options(false))

  /** Glyphs whose widths line up, so that every output line has one width. */
  predicate Uniform(box: BoxStyle) {
    && |box.left| > 0
    && |box.topLeft| == |box.left| == |box.leftSeparator| == |box.bottomLeft|
    && |box.topRight| == |box.right| == |box.rightSeparator| == |box.bottomRight|
    && |box.topSeparator| == |box.middleVertical| == |box.middleSeparator| == |box.bottomSeparator|
  }

  lemma PresetsUniform()
    ensures Uniform(StyleDefault.box) && Uniform(StyleBold.box) && Uniform(StyleLight.box)
    ensures Uniform(StyleRounded.box) && Uniform(StyleTest.box)
    ensures |StyleTest.box.unfinishedRow| == 4
  {
  }

  // ---------------------------------------------------------------------
  // Lines of the grid

  function Repeat(ch: char, n: nat): (s: string)
    ensures |s| == n && forall k :: 0 <= k < n ==> s[k] == ch
  {
    seq(n, _ => ch)
  }

  datatype Border = Top | Middle | Bottom

  function Segments(widths: seq<nat>, box: BoxStyle): (ss: seq<string>)
    ensures |ss| == |widths|
    ensures forall c :: 0 <= c < |widths| ==> ss[c] == Repeat(box.middleHorizontal, |box.paddingLeft| + widths[c] + |box.paddingRight|)
  {
    seq(|widths|, c requires 0 <= c < |widths| => Repeat(box.middleHorizontal, |box.paddingLeft| + widths[c] + |box.paddingRight|))
  }

  /** A horizontal rule: the top border, a separator, or the bottom border. */
  function BorderLine(widths: seq<nat>, box: BoxStyle, kind: Border): string {
    match kind
    case Top => box.topLeft + JoinOn(Segments(widths, box), box.topSeparator) + box.topRight
    case Middle => box.leftSeparator + JoinOn(Segments(widths, box), box.middleSeparator) + box.rightSeparator
    case Bottom => box.bottomLeft + JoinOn(Segments(widths, box), box.bottomSeparator) + box.bottomRight
  }

  predicate FitsLine(texts: seq<string>, widths: seq<nat>) {
    |texts| == |widths| && forall c :: 0 <= c < |texts| ==> |texts[c]| <= widths[c]
  }

  function PaddedCells(texts: seq<string>, widths: seq<nat>, aligns: seq<Align>, box: BoxStyle): (ps: seq<string>)
    requires FitsLine(texts, widths) && |aligns| == |widths|
    ensures |ps| == |texts|
    ensures forall c :: 0 <= c < |texts| ==>
      ps[c] == box.paddingLeft + AlignText(texts[c], widths[c], aligns[c]) + box.paddingRight
  {
    seq(|texts|, c requires 0 <= c < |texts| =>
      box.paddingLeft + AlignText(texts[c], widths[c], aligns[c]) + box.paddingRight)
  }

  /** One physical line of cells: each text aligned in its column and padded. */
  function CellsLine(texts: seq<string>, widths: seq<nat>, aligns: seq<Align>, box: BoxStyle): string
    requires FitsLine(texts, widths) && |aligns| == |widths|
  {
    box.left + JoinOn(PaddedCells(texts, widths, aligns, box), box.middleVertical) + box.right
  }

  /** A text row whose cells all fit their columns. */
  predicate FitsRow(tr: TextRow, widths: seq<nat>) {
    |tr| == |widths| && forall c, k :: 0 <= c < |tr| && 0 <= k < |tr[c]| ==> |tr[c][k]| <= widths[c]
  }

  predicate Fits(rows: seq<TextRow>, widths: seq<nat>) {
    forall r :: 0 <= r < |rows| ==> FitsRow(rows[r], widths)
  }

  /** How many physical lines a row takes: its tallest cell. */
  function Height(tr: TextRow): (h: nat)
    ensures h >= 1
    ensures forall c :: 0 <= c < |tr| ==> |tr[c]| <= h
    ensures h == 1 || exists c :: 0 <= c < |tr| && |tr[c]| == h
    decreases |tr|
  {
    if |tr| == 0 then 1 else Max(|tr[|tr| - 1]|, Height(tr[..|tr| - 1]))
  }

  /** The k-th line of every cell of a row; a cell with fewer lines shows blank. */
  function LineAt(tr: TextRow, k: nat): (ls: seq<string>)
    ensures |ls| == |tr|
    ensures forall c :: 0 <= c < |tr| ==> ls[c] == if k < |tr[c]| then tr[c][k] else ""
  {
    seq(|tr|, c requires 0 <= c < |tr| => if k < |tr[c]| then tr[c][k] else "")
  }

  function RowLines(tr: TextRow, widths: seq<nat>, aligns: seq<Align>, box: BoxStyle): (ls: seq<string>)
    requires FitsRow(tr, widths) && |aligns| == |widths|
    ensures |ls| == Height(tr)
  {
    seq(Height(tr), k requires 0 <= k < Height(tr) => CellsLine(LineAt(tr, k), widths, aligns, box))
  }

  /** The lines of consecutive rows, with an optional separator line between rows. */
  function Block(rows: seq<TextRow>, widths: seq<nat>, aligns: seq<Align>, box: BoxStyle, separator: Option<string>): seq<string>
    requires Fits(rows, widths) && |aligns| == |widths|
    decreases |rows|
  {
    if |rows| == 0 then []
    else
      RowLines(rows[0], widths, aligns, box)
      + (if |rows| > 1 && separator.Some? then [separator.value] else [])
      + Block(rows[1..], widths, aligns, box, separator)
  }

  // ---------------------------------------------------------------------
  // The layout plan

  /** Everything the text renderer needs: the final column widths and, for each
      row class, the display lines of its (padded) rows and each column's alignment. */
  datatype Plan = Plan(
    widths: seq<nat>,
    header: seq<TextRow>, headerAligns: seq<Align>,
    body: seq<TextRow>, bodyAligns: seq<Align>,
    footer: seq<TextRow>, footerAligns: seq<Align>)

  predicate ValidPlan(p: Plan) {
    && |p.headerAligns| == |p.widths| && |p.bodyAligns| == |p.widths| && |p.footerAligns| == |p.widths|
    && Fits(p.header, p.widths) && Fits(p.body, p.widths) && Fits(p.footer, p.widths)
  }

  function Aligns(numeric: seq<bool>, kind: RowKind): (as_: seq<Align>)
    ensures |as_| == |numeric|
    ensures forall c :: 0 <= c < |numeric| ==> as_[c] == ColumnAlign(numeric[c], kind)
  {
    seq(|numeric|, c requires 0 <= c < |numeric| => ColumnAlign(numeric[c], kind))
  }

  /** The header rows actually rendered: a synthetic row of column letters when
      auto-indexing a table that has no header. */
  function HeaderRows(header: seq<Row>, n: nat, autoIndex: bool): seq<Row> {
    if autoIndex && |header| == 0 then [LetterHeader(n)] else header
  }

  /** Rows with the auto-index column in front when it is on. */
  function IndexedHeader(header: seq<Row>, n: nat, autoIndex: bool): seq<Row> {
    if autoIndex then BlankIndexRows(HeaderRows(header, n, autoIndex)) else header
  }

  function IndexedBody(body: seq<Row>, autoIndex: bool): seq<Row> {
    if autoIndex then NumberRows(body) else body
  }

  function IndexedFooter(footer: seq<Row>, autoIndex: bool): seq<Row> {
    if autoIndex then BlankIndexRows(footer) else footer
  }

  /** The rendered column count: the widest row, plus one for the index column. */
  function RenderedColumns(header: seq<Row>, body: seq<Row>, footer: seq<Row>, autoIndex: bool): nat {
    ColumnCount(header + body + footer) + (if autoIndex then 1 else 0)
  }

  function MakePlan(header: seq<Row>, body: seq<Row>, footer: seq<Row>, style: Style, autoIndex: bool): (p: Plan)
    ensures ValidPlan(p)
    ensures |p.widths| == RenderedColumns(header, body, footer, autoIndex)
    ensures |p.header| == |HeaderRows(header, ColumnCount(header + body + footer), autoIndex)|
    ensures |p.body| == |body| && |p.footer| == |footer|
  {
    var n := ColumnCount(header + body + footer);
    var m := RenderedColumns(header, body, footer, autoIndex);
    var h := IndexedHeader(header, n, autoIndex);
    var b := IndexedBody(body, autoIndex);
    var f := IndexedFooter(footer, autoIndex);
    var numeric := NumericColumns(b, m);
    var ht := TextRowsOf(PadRows(h, m), style.format.headerUpper);
    var bt := TextRowsOf(PadRows(b, m), false);
    var ft := TextRowsOf(PadRows(f, m), style.format.footerUpper);
    PlanRowsWidth(header, body, footer, n, m, autoIndex, h, b, f);
    var widths := ColumnWidths(ht + bt + ft, m);
    FitsParts(ht, bt, ft, m);
    Plan(widths,
         ht, Aligns(numeric, if autoIndex && |header| == 0 then LetterRow else HeaderRow),
         bt, Aligns(numeric, BodyRow),
         ft, Aligns(numeric, FooterRow))
  }

  /** No rendered row is wider than the rendered column count. */
  lemma PlanRowsWidth(header: seq<Row>, body: seq<Row>, footer: seq<Row>, n: nat, m: nat, autoIndex: bool,
                      h: seq<Row>, b: seq<Row>, f: seq<Row>)
    requires n == ColumnCount(header + body + footer) && m == RenderedColumns(header, body, footer, autoIndex)
    requires h == IndexedHeader(header, n, autoIndex) && b == IndexedBody(body, autoIndex)
    requires f == IndexedFooter(footer, autoIndex)
    ensures forall r :: 0 <= r < |h| ==> |h[r]| <= m
    ensures forall r :: 0 <= r < |b| ==> |b[r]| <= m
    ensures forall r :: 0 <= r < |f| ==> |f[r]| <= m
  {
    PartsWithin(header, body, footer);
    if autoIndex {
      var hr := HeaderRows(header, n, true);
      assert forall r :: 0 <= r < |hr| ==> |hr[r]| <= n;
      IndexedWithin(hr, n, false);
      IndexedWithin(body, n, true);
      IndexedWithin(footer, n, false);
    }
  }

  /** No row of any part is wider than the column count of all parts. */
  lemma PartsWithin(header: seq<Row>, body: seq<Row>, footer: seq<Row>)
    ensures var n := ColumnCount(header + body + footer);
      && (forall r :: 0 <= r < |header| ==> |header[r]| <= n)
      && (forall r :: 0 <= r < |body| ==> |body[r]| <= n)
      && (forall r :: 0 <= r < |footer| ==> |footer[r]| <= n)
  {
    var all := header + body + footer;
    forall r | 0 <= r < |header| ensures all[r] == header[r] { }
    forall r | 0 <= r < |body| ensures all[|header| + r] == body[r] { }
    forall r | 0 <= r < |footer| ensures all[|header| + |body| + r] == footer[r] { }
  }

  /** Rows no wider than n, with the index column in front, are no wider than n + 1. */
  lemma IndexedWithin(rows: seq<Row>, n: nat, numbered: bool)
    requires forall r :: 0 <= r < |rows| ==> |rows[r]| <= n
    ensures var ix := if numbered then NumberRows(rows) else BlankIndexRows(rows);
      forall r :: 0 <= r < |ix| ==> |ix[r]| <= n + 1
  {
  }

  lemma FitsParts(ht: seq<TextRow>, bt: seq<TextRow>, ft: seq<TextRow>, m: nat)
    requires forall r :: 0 <= r < |ht| ==> |ht[r]| == m
    requires forall r :: 0 <= r < |bt| ==> |bt[r]| == m
    requires forall r :: 0 <= r < |ft| ==> |ft[r]| == m
    ensures var ws := ColumnWidths(ht + bt + ft, m); Fits(ht, ws) && Fits(bt, ws) && Fits(ft, ws)
  {
    var all := ht + bt + ft;
    var ws := ColumnWidths(all, m);
    forall r | 0 <= r < |ht| ensures FitsRow(ht[r], ws) { assert all[r] == ht[r]; }
    forall r | 0 <= r < |bt| ensures FitsRow(bt[r], ws) { assert all[|ht| + r] == bt[r]; }
    forall r | 0 <= r < |ft| ensures FitsRow(ft[r], ws) { assert all[|ht| + |bt| + r] == ft[r]; }
  }

  /** The physical lines of a plan: top border, header block and its separator,
      body block (separated rows when the style asks), footer separator and block,
      bottom border. */
  function PlanLines(p: Plan, style: Style): seq<string>
    requires ValidPlan(p)
  {
    var box := style.box;
    var mid := BorderLine(p.widths, box, Middle);
    [BorderLine(p.widths, box, Top)]
    + Block(p.header, p.widths, p.headerAligns, box, None)
    + (if |p.header| > 0 then [mid] else [])
    + Block(p.body, p.widths, p.bodyAligns, box, if style.options.separateRows then Some(mid) else None)
    + (if |p.footer| > 0 then [mid] + Block(p.footer, p.widths, p.footerAligns, box, None) else [])
    + [BorderLine(p.widths, box, Bottom)]
  }

  /** The unclipped lines of a table; a table without any cell renders nothing. */
  function TableLines(header: seq<Row>, body: seq<Row>, footer: seq<Row>, style: Style, autoIndex: bool): seq<string> {
    if ColumnCount(header + body + footer) == 0 then []
    else PlanLines(MakePlan(header, body, footer, style, autoIndex), style)
  }

  // ---------------------------------------------------------------------
  // Clipping to the allowed row length

  /** A line longer than a positive limit keeps its first (limit - |marker|)
      characters followed by the marker; when that leaves no room, the line is
      dropped. */
  function ClipLine(line: string, limit: int, marker: string): (r: string)
    ensures limit <= 0 || |line| <= limit ==> r == line
    ensures limit > 0 ==> |r| <= limit
    ensures limit > 0 && |line| > limit && limit > |marker| ==>
      |r| == limit && r[..limit - |marker|] == line[..limit - |marker|] && r[limit - |marker|..] == marker
    ensures limit > 0 && |line| > limit && limit <= |marker| ==> r == ""
  {
    if limit > 0 && |line| > limit then
      if limit - |marker| > 0 then line[..limit - |marker|] + marker else ""
    else line
  }

  /** Appends a line to the output, separated from earlier output by a line feed. */
  function Emit(out: string, line: string): string {
    (if |out| > 0 then out + "\n" else out) + line
  }

  /** The rendered document: each line clipped, then emitted in order. */
  function Document(lines: seq<string>, limit: int, marker: string): string
    decreases |lines|
  {
    if |lines| == 0 then ""
    else Emit(Document(lines[..|lines| - 1], limit, marker), ClipLine(lines[|lines| - 1], limit, marker))
  }

  function RenderText(header: seq<Row>, body: seq<Row>, footer: seq<Row>, style: Style, autoIndex: bool, limit: int): string {
    Document(TableLines(header, body, footer, style, autoIndex), limit, style.box.unfinishedRow)
  }
}
