/** The Table: three row collections with their per-row configurations, the
    scalar settings, and rendering with row-length clipping and an output mirror.
    TableState is the table's abstract value; each mutator of the Table class is
    proved against the function on TableState that specifies it. */
module TableModel {
  import opened Cells
  import opened Layout
  import opened Render
  import Grid

  // ---------------------------------------------------------------------
  // Configuration values

  /** Per-row configuration. */
  datatype RowConfig = RowConfig(autoMerge: bool, autoMergeAlign: Align)

  /** The zero configuration, which a row without an entry behaves as. */
  const NoRowConfig := RowConfig(false, AlignDefault)

  /** The configuration of row i of a collection: its entry, or the zero value. */
  function ConfigAt(configs: map<nat, RowConfig>, i: nat): RowConfig {
    if i in configs then configs[i] else NoRowConfig
  }

  /** Per-column configuration, stored but not applied by this model. */
  datatype ColumnConfig = ColumnConfig(name: string, number: nat, align: Align, autoMerge: bool,
                                       hidden: bool, widthMin: nat, widthMax: nat)

  datatype SortMode = Asc | Dsc

  /** A sort key: a column named by its header text or by its 1-based number. */
  datatype SortBy = SortBy(name: string, number: nat, mode: SortMode)

  // ---------------------------------------------------------------------
  // The abstract value of a table and its specification functions

  datatype TableState = TableState(
    header: seq<Row>, body: seq<Row>, footer: seq<Row>,
    headerConfigs: map<nat, RowConfig>, bodyConfigs: map<nat, RowConfig>, footerConfigs: map<nat, RowConfig>,
    caption: string, columnConfigs: seq<ColumnConfig>, htmlCSSClass: string,
    allowedRowLength: int, autoIndex: bool, pageSize: int, sortBy: seq<SortBy>,
    style: Option<Style>)

  /** A table as Table{} or NewWriter() creates it. */
  const EmptyTable := TableState([], [], [], map[], map[], map[], "", [], "", 0, false, 0, [], None)

  /** The number of body rows; header and footer rows do not count. */
  function LengthOf(s: TableState): nat {
    |s.body|
  }

  /** The style in use: the one set last, or the default style when none was set. */
  function StyleInUse(s: TableState): (st: Style)
    ensures s.style.None? ==> st == StyleDefault
    ensures s.style.Some? ==> st == s.style.value
  {
    if s.style.Some? then s.style.value else StyleDefault
  }

  /** A collection with one more row; a configuration, when given, is recorded
      at the new row's index and at no other. */
  function Appended(rows: seq<Row>, configs: map<nat, RowConfig>, row: Row, config: Option<RowConfig>)
    : (r: (seq<Row>, map<nat, RowConfig>))
    ensures r.0 == rows + [row]
    ensures config.None? ==> r.1 == configs
    ensures config.Some? ==> ConfigAt(r.1, |rows|) == config.value
    ensures forall i: nat :: i != |rows| ==> ConfigAt(r.1, i) == ConfigAt(configs, i)
  {
    (rows + [row], if config.Some? then configs[|rows| := config.value] else configs)
  }

  function WithHeader(s: TableState, row: Row, config: Option<RowConfig>): (t: TableState)
    ensures |t.header| == |s.header| + 1 && t.header[..|s.header|] == s.header && t.header[|s.header|] == row
    ensures config.Some? ==> ConfigAt(t.headerConfigs, |s.header|) == config.value
    ensures forall i: nat :: i != |s.header| ==> ConfigAt(t.headerConfigs, i) == ConfigAt(s.headerConfigs, i)
    ensures t.(header := s.header, headerConfigs := s.headerConfigs) == s
    ensures LengthOf(t) == LengthOf(s)
  {
    var (rows, configs) := Appended(s.header, s.headerConfigs, row, config);
    s.(header := rows, headerConfigs := configs)
  }

  function WithFooter(s: TableState, row: Row, config: Option<RowConfig>): (t: TableState)
    ensures |t.footer| == |s.footer| + 1 && t.footer[..|s.footer|] == s.footer && t.footer[|s.footer|] == row
    ensures config.Some? ==> ConfigAt(t.footerConfigs, |s.footer|) == config.value
    ensures forall i: nat :: i != |s.footer| ==> ConfigAt(t.footerConfigs, i) == ConfigAt(s.footerConfigs, i)
    ensures t.(footer := s.footer, footerConfigs := s.footerConfigs) == s
    ensures LengthOf(t) == LengthOf(s)
  {
    var (rows, configs) := Appended(s.footer, s.footerConfigs, row, config);
    s.(footer := rows, footerConfigs := configs)
  }

  function WithRow(s: TableState, row: Row, config: Option<RowConfig>): (t: TableState)
    ensures t.body == s.body + [row] && LengthOf(t) == LengthOf(s) + 1
    ensures config.Some? ==> ConfigAt(t.bodyConfigs, |s.body|) == config.value
    ensures forall i: nat :: i != |s.body| ==> ConfigAt(t.bodyConfigs, i) == ConfigAt(s.bodyConfigs, i)
    ensures t.(body := s.body, bodyConfigs := s.bodyConfigs) == s
  {
    var (rows, configs) := Appended(s.body, s.bodyConfigs, row, config);
    s.(body := rows, bodyConfigs := configs)
  }

  /** Appending rows one after another: the body grows by exactly those rows, a
      configuration given applies to each of the new indices, and every other
      index keeps its configuration. */
  function WithRows(s: TableState, rows: seq<Row>, config: Option<RowConfig>): (t: TableState)
    ensures t.body == s.body + rows && LengthOf(t) == LengthOf(s) + |rows|
    ensures config.Some? ==> forall i: nat :: |s.body| <= i < |t.body| ==> ConfigAt(t.bodyConfigs, i) == config.value
    ensures forall i: nat :: !(|s.body| <= i < |t.body|) ==> ConfigAt(t.bodyConfigs, i) == ConfigAt(s.bodyConfigs, i)
    ensures config.None? ==> t.bodyConfigs == s.bodyConfigs
    ensures t.(body := s.body, bodyConfigs := s.bodyConfigs) == s
    decreases |rows|
  {
    if |rows| == 0 then s
    else
      var next := WithRow(s, rows[0], config);
      var t := WithRows(next, rows[1..], config);
      assert [rows[0]] + rows[1..] == rows;
      t
  }

  /** Resetting clears one collection's rows and leaves its configurations. */
  function WithoutHeaders(s: TableState): (t: TableState)
    ensures t.header == [] && t.(header := s.header) == s
  {
    s.(header := [])
  }

  function WithoutRows(s: TableState): (t: TableState)
    ensures t.body == [] && LengthOf(t) == 0 && t.(body := s.body) == s
  {
    s.(body := [])
  }

  function WithoutFooters(s: TableState): (t: TableState)
    ensures t.footer == [] && t.(footer := s.footer) == s
  {
    s.(footer := [])
  }

  /** Importing a grid: accepted exactly when the grid is a container (possibly
      behind a pointer), in which case its rows are appended without
      configuration; a rejected grid leaves the table as it was. */
  function WithGrid(s: TableState, grid: Grid.Value): (r: (bool, TableState))
    ensures r.0 <==> Grid.GridRows(grid).Some?
    ensures !r.0 ==> r.1 == s
    ensures r.0 ==> r.1.body == s.body + Grid.GridRows(grid).value && r.1.(body := s.body) == s
  {
    match Grid.GridRows(grid)
    case None => (false, s)
    case Some(rows) => (true, WithRows(s, rows, None))
  }

  /** What rendering the table as text returns. */
  function Rendered(s: TableState): string {
    RenderText(s.header, s.body, s.footer, StyleInUse(s), s.autoIndex, s.allowedRowLength)
  }

  // ---------------------------------------------------------------------
  // Properties of the specification

  /** Appending rows in two calls is appending them all in one. */
  lemma {:induction false} WithRowsConcat(s: TableState, a: seq<Row>, b: seq<Row>, config: Option<RowConfig>)
    ensures WithRows(WithRows(s, a, config), b, config) == WithRows(s, a + b, config)
    decreases |a|
  {
    if |a| > 0 {
      var next := WithRow(s, a[0], config);
      assert (a + b)[0] == a[0];
      assert (a + b)[1..] == a[1..] + b;
      calc {
        WithRows(WithRows(s, a, config), b, config);
        WithRows(WithRows(next, a[1..], config), b, config);
        { WithRowsConcat(next, a[1..], b, config); }
        WithRows(next, a[1..] + b, config);
        WithRows(s, a + b, config);
      }
    } else {
      assert a + b == b;
    }
  }

  /** Header, body and footer appends do not depend on each other's order. */
  lemma AppendsCommute(s: TableState, h: Row, r: Row, f: Row, hc: Option<RowConfig>, rc: Option<RowConfig>, fc: Option<RowConfig>)
    ensures WithHeader(WithRow(s, r, rc), h, hc) == WithRow(WithHeader(s, h, hc), r, rc)
    ensures WithFooter(WithRow(s, r, rc), f, fc) == WithRow(WithFooter(s, f, fc), r, rc)
    ensures WithFooter(WithHeader(s, h, hc), f, fc) == WithHeader(WithFooter(s, f, fc), h, hc)
  {
  }

  /** A reset keeps the configurations, so a row appended afterwards without a
      configuration of its own sees the one recorded for its index before. */
  lemma ResetKeepsConfigs(s: TableState, r1: Row, r2: Row, c: RowConfig)
    requires LengthOf(s) == 0
    ensures ConfigAt(WithRow(WithoutRows(WithRow(s, r1, Some(c))), r2, None).bodyConfigs, 0) == c
  {
  }

  /** Writes the lines of a table one by one, each clipped to the allowed row
      length, with a line feed before every line that follows some output. */
  method EmitLines(lines: seq<string>, limit: int, marker: string) returns (out: string)
    ensures out == Document(lines, limit, marker)
  {
    out := "";
    var i := 0;
    while i < |lines|
      invariant 0 <= i <= |lines|
      invariant out == Document(lines[..i], limit, marker)
    {
      assert lines[..i + 1][..i] == lines[..i];
      out := Emit(out, ClipLine(lines[i], limit, marker));
      i := i + 1;
    }
    assert lines[..i] == lines;
  }

  // ---------------------------------------------------------------------
  // The output mirror

  /** A sink standing in for an io.Writer: it keeps everything written to it. */
  class OutputMirror {
    var mirroredOutput: string

    constructor ()
      ensures mirroredOutput == ""
    {
      mirroredOutput := "";
    }

    method Write(p: string)
      modifies this
      ensures mirroredOutput == old(mirroredOutput) + p
    {
      mirroredOutput := mirroredOutput + p;
    }
  }

  // ---------------------------------------------------------------------
  // The table

  class Table {
    var rowsHeaderRaw: seq<Row>
    var rowsRaw: seq<Row>
    var rowsFooterRaw: seq<Row>
    var rowsHeaderConfigMap: map<nat, RowConfig>
    var rowsConfigMap: map<nat, RowConfig>
    var rowsFooterConfigMap: map<nat, RowConfig>
    var caption: string
    var columnConfigs: seq<ColumnConfig>
    var htmlCSSClass: string
    var allowedRowLength: int
    var autoIndex: bool
    var pageSize: int
    var sortBy: seq<SortBy>
    var style: Option<Style>
    var outputMirror: OutputMirror?

    /** The table's abstract value. */
    function Snapshot(): TableState
      reads this
    {
      TableState(rowsHeaderRaw, rowsRaw, rowsFooterRaw,
                 rowsHeaderConfigMap, rowsConfigMap, rowsFooterConfigMap,
                 caption, columnConfigs, htmlCSSClass,
                 allowedRowLength, autoIndex, pageSize, sortBy, style)
    }

    constructor ()
      ensures Snapshot() == EmptyTable && outputMirror == null
    {
      rowsHeaderRaw, rowsRaw, rowsFooterRaw := [], [], [];
      rowsHeaderConfigMap, rowsConfigMap, rowsFooterConfigMap := map[], map[], map[];
      caption, columnConfigs, htmlCSSClass := "", [], "";
      allowedRowLength, autoIndex, pageSize, sortBy := 0, false, 0, [];
      style, outputMirror := None, null;
    }

    function Length(): (n: nat)
      reads this
      ensures n == LengthOf(Snapshot())
    {
      |rowsRaw|
    }

    method AppendHeader(row: Row, config: Option<RowConfig>)
      modifies this
      ensures Snapshot() == WithHeader(old(Snapshot()), row, config) && outputMirror == old(outputMirror)
    {
      rowsHeaderRaw := rowsHeaderRaw + [row];
      if config.Some? {
        rowsHeaderConfigMap := rowsHeaderConfigMap[|rowsHeaderRaw| - 1 := config.value];
      }
    }

    method AppendFooter(row: Row, config: Option<RowConfig>)
      modifies this
      ensures Snapshot() == WithFooter(old(Snapshot()), row, config) && outputMirror == old(outputMirror)
    {
      rowsFooterRaw := rowsFooterRaw + [row];
      if config.Some? {
        rowsFooterConfigMap := rowsFooterConfigMap[|rowsFooterRaw| - 1 := config.value];
      }
    }

    method AppendRow(row: Row, config: Option<RowConfig>)
      modifies this
      ensures Snapshot() == WithRow(old(Snapshot()), row, config) && outputMirror == old(outputMirror)
    {
      rowsRaw := rowsRaw + [row];
      if config.Some? {
        rowsConfigMap := rowsConfigMap[|rowsRaw| - 1 := config.value];
      }
    }

    /** Appends each row in turn with the same configuration. */
    method AppendRows(rows: seq<Row>, config: Option<RowConfig>)
      modifies this
      ensures Snapshot() == WithRows(old(Snapshot()), rows, config) && outputMirror == old(outputMirror)
    {
      var i := 0;
      while i < |rows|
        invariant 0 <= i <= |rows|
        invariant WithRows(Snapshot(), rows[i..], config) == WithRows(old(Snapshot()), rows, config)
        invariant outputMirror == old(outputMirror)
      {
        ghost var before := Snapshot();
        AppendRow(rows[i], config);
        assert rows[i..][0] == rows[i] && rows[i..][1..] == rows[i + 1..];
        assert WithRows(before, rows[i..], config) == WithRows(Snapshot(), rows[i + 1..], config);
        i := i + 1;
      }
      assert rows[i..] == [];
    }

    method ResetHeaders()
      modifies this
      ensures Snapshot() == WithoutHeaders(old(Snapshot())) && outputMirror == old(outputMirror)
    {
      rowsHeaderRaw := [];
    }

    method ResetRows()
      modifies this
      ensures Snapshot() == WithoutRows(old(Snapshot())) && outputMirror == old(outputMirror)
    {
      rowsRaw := [];
    }

    method ResetFooters()
      modifies this
      ensures Snapshot() == WithoutFooters(old(Snapshot())) && outputMirror == old(outputMirror)
    {
      rowsFooterRaw := [];
    }

    /** Appends the rows of a grid when it is one; reports whether it was. */
    method ImportGrid(grid: Grid.Value) returns (ok: bool)
      modifies this
      ensures (ok, Snapshot()) == WithGrid(old(Snapshot()), grid) && outputMirror == old(outputMirror)
    {
      match Grid.GridRows(grid)
      case None =>
        ok := false;
      case Some(rows) =>
        AppendRows(rows, None);
        ok := true;
    }

    /** The style in use; the default one is installed when none was set. */
    method Style() returns (st: Style)
      modifies this
      ensures st == StyleInUse(old(Snapshot()))
      ensures Snapshot() == old(Snapshot()).(style := Some(st)) && outputMirror == old(outputMirror)
    {
      if style.None? {
        style := Some(StyleDefault);
      }
      st := style.value;
    }

    method SetStyle(st: Style)
      modifies this
      ensures Snapshot() == old(Snapshot()).(style := Some(st)) && outputMirror == old(outputMirror)
    {
      style := Some(st);
    }

    method SetAllowedRowLength(length: int)
      modifies this
      ensures Snapshot() == old(Snapshot()).(allowedRowLength := length) && outputMirror == old(outputMirror)
    {
      allowedRowLength := length;
    }

    method SetAutoIndex(b: bool)
      modifies this
      ensures Snapshot() == old(Snapshot()).(autoIndex := b) && outputMirror == old(outputMirror)
    {
      autoIndex := b;
    }

    method SetCaption(text: string)
      modifies this
      ensures Snapshot() == old(Snapshot()).(caption := text) && outputMirror == old(outputMirror)
    {
      caption := text;
    }

    method SetColumnConfigs(configs: seq<ColumnConfig>)
      modifies this
      ensures Snapshot() == old(Snapshot()).(columnConfigs := configs) && outputMirror == old(outputMirror)
    {
      columnConfigs := configs;
    }

    method SetHTMLCSSClass(cssClass: string)
      modifies this
      ensures Snapshot() == old(Snapshot()).(htmlCSSClass := cssClass) && outputMirror == old(outputMirror)
    {
      htmlCSSClass := cssClass;
    }

    method SetPageSize(numLines: int)
      modifies this
      ensures Snapshot() == old(Snapshot()).(pageSize := numLines) && outputMirror == old(outputMirror)
    {
      pageSize := numLines;
    }

    /** Replaces the list of sort keys. */
    method SortBy(keys: seq<SortBy>)
      modifies this
      ensures Snapshot() == old(Snapshot()).(sortBy := keys) && outputMirror == old(outputMirror)
    {
      sortBy := keys;
    }

    method SetOutputMirror(mirror: OutputMirror?)
      modifies this
      ensures Snapshot() == old(Snapshot()) && outputMirror == mirror
    {
      outputMirror := mirror;
    }

    /** Renders the table as text; the mirror, when set, receives a non-empty
        result followed by a line feed, and nothing for an empty one. */
    method Render() returns (out: string)
      modifies if outputMirror == null then {} else {outputMirror}
      ensures Snapshot() == old(Snapshot()) && outputMirror == old(outputMirror)
      ensures out == Rendered(Snapshot())
      ensures outputMirror != null ==>
        outputMirror.mirroredOutput == old(outputMirror.mirroredOutput) + (if |out| > 0 then out + "\n" else "")
    {
      var st := StyleInUse(Snapshot());
      var lines := TableLines(rowsHeaderRaw, rowsRaw, rowsFooterRaw, st, autoIndex);
      out := EmitLines(lines, allowedRowLength, st.box.unfinishedRow);
      if outputMirror != null && |out| > 0 {
        outputMirror.Write(out + "\n");
      }
    }
  }
}
