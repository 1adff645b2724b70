# go-pretty `table`: a verified model of the table writer

This project models the core of the `table` package of go-pretty: the
`Table` writer that collects header, body and footer rows. It renders them as
a boxed text table, can be told to clip each rendered line to an allowed row
length, can prepend an automatic index column, imports rows from nested
containers (`ImportGrid`), and copies every render to an output mirror.

The package's behaviour is pinned down here by its unit tests
(`table/table_test.go`); the implementation files themselves are not part of
this model. Wherever a test fixes a behaviour, the model is built to satisfy it
and a lemma or method proves that it does. For most render tests what is
proved is the structure of the expected output: widths, alignment, clipping,
the index column, the letter row, the upper-cased header and the height of a
multi-line row. Some renders are proved character for character:
- the output mirror test, down to the text the mirror receives;
- the four grid-import renders with separated rows;
- the allowed-row-length test at a limit of 5.

Modules (one file each):

- `Cells` (`cells.dfy`) — a cell value (`Int`, `Str`, `Bool`, `Nil`), its
  text, integer printing and parsing and the round trip between them,
  upper-casing of header text, and splitting a cell into lines. A carriage
  return is dropped and a line feed starts a new line.
- `Layout` (`layout.dfy`) — padding ragged rows with blank cells, column
  counts and widths (the longest line in the column), alignment inside a
  width, which columns are numeric, the auto-index column (row numbers
  1, 2, … in the body, blanks in header and footer), and spreadsheet-style
  column letters A … Z, AA, ….
- `Render` (`render.dfy`) — box styles (`StyleDefault`, `StyleBold`,
  `StyleLight`, `StyleRounded` and the tests' own style, as opaque glyph
  constants), the render plan (texts, widths and alignments for the three
  row kinds), the lines of a rendered table, and clipping each line to the
  allowed row length with the "unfinished row" marker.
- `RenderFacts` (`render_facts.dfy`) — the properties of rendering: every
  line has the table's width, the width formula, when a limit leaves the
  text untouched, when it empties it, what clipping keeps, how ragged rows
  are filled, and how the index column and the letter row shift and widen
  the others.
- `Grid` (`grid.dfy`) — `ImportGrid` over a closed datatype of the values
  the Go code meets through reflection: nil, integers, strings, arrays or
  slices, pointers, and a `Table`.
- `TableModel` (`table.dfy`) — the table state as a value (`TableState`)
  with one function per operation, and the `Table` class whose fields those
  operations update in place. Each method is proved to leave exactly the new
  state of its function, and to leave the output mirror alone unless it is
  the mirror setter. `Render` writes a non-empty text followed by "\n" to
  the mirror, and writes nothing for an empty one.
- `TableScenarios`, `GridScenarios`, `IndexScenarios` — the unit tests,
  restated as methods on `Table` and lemmas about the test data. For the
  limit-30 and auto-index renders they prove the structure of the expected
  output. For the grid imports and the limit of 5 they prove its literal text.
- `GridOutput` (`grid_output.dfy`) — tables of one-digit numbers and blanks
  in the default style with separated rows: their lines in general, then the
  literal texts the four grid-import tests expect.
- `OutputScenarios` (`output_scenarios.dfy`) — the output mirror test, whose
  one-row table in the default style is proved equal to the test's literal
  text, together with the general facts about one-row tables it rests on.

## Model

| member | source | states |
|---|---|---|
| Cells.ParseNatToString | table/table_test.go:27-29 | a number's decimal text parses back to that number |
| Cells.IntToStringRoundTrip | table/table_test.go:27-29 | an integer's text (a minus sign for negatives) parses back as that integer |
| Cells.IntToStringInjective | table/table_test.go:27-29 | different integers render as different cell texts |
| Cells.StripCR | table/table_test.go:31 | the result holds no carriage return, is no longer than the text, and a text without one is left as it is |
| Cells.StripCRConcat | table/table_test.go:31 | dropping carriage returns distributes over concatenation |
| Cells.SplitOn | table/table_test.go:31 | a split yields at least one piece and no piece contains the separator |
| Cells.JoinSplit | table/table_test.go:31 | joining the pieces of a split with the separator rebuilds the text |
| Cells.SplitJoin | table/table_test.go:31 | splitting pieces joined by a separator they lack recovers the pieces |
| Cells.SplitCount | table/table_test.go:31 | a text splits into one more piece than it has separators |
| Cells.CellLines | table/table_test.go:392-402 | a cell has at least one line and no line holds a line feed or a carriage return |
| Cells.CellLinesJoin | table/table_test.go:31 | a cell's lines joined by line feeds are its (possibly upper-cased) text without carriage returns |
| Cells.MultiLineCellExample | table/table_test.go:31 | the multi-line test cell splits into "Coming.", "The North Remembers!" and "This is known." |
| Layout.PadRow | table/table_test.go:340-355 | padding keeps the row's cells and appends blank cells up to the column count |
| Layout.PaddedRowsRectangular | table/table_test.go:340-355 | after padding to the column count every row has exactly that many cells |
| Layout.ColumnWidth | table/table_test.go:340-355 | no line of any cell in the column is longer than the column's width |
| Layout.ColumnWidthAttained | table/table_test.go:340-355 | a non-zero column width is the length of some line of some cell in that column |
| Layout.WidthsAreMaxima | table/table_test.go:340-355 | each computed width bounds every line of its column and is attained by one of them |
| Layout.AlignText | table/table_test.go:340-355 | the result has exactly the column width, shows the text at the alignment's offset and spaces elsewhere |
| Layout.Offset | table/table_test.go:370-379 | right alignment puts all padding on the left, left none, centre puts the larger half on the left |
| Layout.ColumnAlign | table/table_test.go:340-355 | numeric columns align right; other columns are centred only in the letter row |
| Layout.NumericColumns | table/table_test.go:340-355 | a column is numeric exactly when every present body cell in it is an integer |
| Layout.ColumnIDSingleLetter | table/table_test.go:370-379 | the first 26 columns are named A to Z |
| Layout.ColumnIDRoundTrip | table/table_test.go:370-379 | reading a column name in bijective base 26 gives back the column number plus one |
| Layout.ColumnIDInjective | table/table_test.go:370-379 | different columns get different names |
| Layout.LetterHeader | table/table_test.go:370-379 | the letter row has one cell per column, the c-th being the name of column c |
| Layout.NumberRows | table/table_test.go:370-379 | row r gains the integer r + 1 in front of its cells |
| Layout.IndexAddsOneColumn | table/table_test.go:370-379 | numbering the rows adds exactly one column |
| Layout.IndexColumnNumeric | table/table_test.go:370-379 | the index column is numeric, so it aligns right |
| Layout.IndexKeepsNumericColumns | table/table_test.go:370-379 | column c + 1 of the numbered rows is numeric exactly when column c of the rows was |
| Render.PresetsUniform | table/table_test.go:53-61 | the preset styles' glyphs have the lengths that make every rendered line equally long |
| Render.MakePlan | table/table_test.go:340-355 | the plan has one width and alignment per rendered column and every cell line fits its width |
| Render.PlanRowsWidth | table/table_test.go:340-355 | no header, body or footer row of the plan is longer than the rendered column count |
| Render.ClipLine | table/table_test.go:317-355 | a line within the limit is kept; one beyond it keeps its first limit minus marker-length characters and then the marker; at a limit no longer than the marker it is empty |
| RenderFacts.DocumentIsJoin | table/table_test.go:317-355 | when no clipped line is empty, the clipped output is the clipped lines joined by line feeds |
| RenderFacts.NoLimitIsUnclipped | table/table_test.go:327-328 | with a limit of zero or less, and no line empty, the output is the lines joined by line feeds |
| RenderFacts.FittingLimitIsUnclipped | table/table_test.go:353-354 | a limit that all lines fit renders as if there were no limit |
| RenderFacts.MarkerLimitIsEmpty | table/table_test.go:331-332 | when every line is longer than a limit no longer than the marker, the output is empty |
| RenderFacts.ClippedDocumentLines | table/table_test.go:340-350 | splitting the clipped output at line feeds recovers the clipped lines, each within the limit |
| RenderFacts.AllClipsOneLine | table/table_test.go:340-350 | clipping a non-empty line that has no line feed yields one non-empty line within the limit |
| RenderFacts.TableWidthFormula | table/table_test.go:322-326 | a table is as wide as its corners, its widths, the padding of each column and the separators between them |
| RenderFacts.BorderWidths | table/table_test.go:340-355 | top, separator and bottom borders are exactly as wide as the table |
| RenderFacts.CellsLineWidth | table/table_test.go:340-355 | a line of cells is exactly as wide as the table |
| RenderFacts.TableLinesWidth | table/table_test.go:340-355 | every line of a rendered table is non-empty and exactly as wide as the table |
| RenderFacts.WideLimitIsUnclipped | table/table_test.go:353-354 | a limit of at least the table's width leaves the render unchanged |
| RenderFacts.MarkerLengthLimitRendersEmpty | table/table_test.go:331-332 | a limit equal to the marker's length renders the empty text |
| RenderFacts.RaggedRowsBlank | table/table_test.go:322-326 | a cell missing from a short row renders blank |
| RenderFacts.PresentCellsKept | table/table_test.go:322-326 | a cell present in a row renders its own lines |
| RenderFacts.BodyAlignment | table/table_test.go:322-326 | a body column aligns right exactly when it is numeric, otherwise left |
| RenderFacts.SeparatedBlock | table/table_test.go:193-202 | with row separators, a block is each row's lines with the separator between consecutive rows, and is as high as the rows plus one line per gap |
| RenderFacts.BlockLeftEdge | table/table_test.go:322-326 | without separators, every line of a block of rows starts with the left border glyph |
| RenderFacts.BodyOnlyEdges | table/table_test.go:335-339 | a body-only table without separators starts with the top-left glyph, ends with the bottom-left glyph, and every line between starts with the left border glyph |
| RenderFacts.AutoIndexBody | table/table_test.go:370-379 | with the index on, body row r starts with "r + 1" and its other cells move one column right |
| RenderFacts.AutoIndexFirstLineOnly | table/table_test.go:389-400 | the row number appears on the first line of a multi-line row and blanks on the rest |
| RenderFacts.AutoIndexLetterHeader | table/table_test.go:370-379 | without a header, the index adds one letter row: a blank, then the name of each column |
| RenderFacts.AutoIndexLetterAlignment | table/table_test.go:370-379 | in the letter row numeric columns and the index align right, the others are centred |
| RenderFacts.AutoIndexKeepsHeader | table/table_test.go:403-416 | with a header, the index leaves each header row in place after a blank cell |
| RenderFacts.AutoIndexShiftsRows | table/table_test.go:403-416 | with a header, every row of the indexed plan is the unindexed row shifted one column |
| RenderFacts.AutoIndexShiftsHeader | table/table_test.go:403-416 | with a header, the indexed header rows are the unindexed ones shifted one column |
| RenderFacts.AutoIndexShiftsBodyAndFooter | table/table_test.go:403-416 | the indexed body and footer rows are the unindexed ones shifted one column |
| RenderFacts.AutoIndexShiftsBody | table/table_test.go:403-416 | the indexed body rows are the unindexed ones shifted one column |
| RenderFacts.AutoIndexShiftsFooter | table/table_test.go:403-416 | the indexed footer rows are the unindexed ones shifted one column |
| RenderFacts.AutoIndexWidthsWithHeader | table/table_test.go:403-416 | with a header, the index leaves every other column's width as it was |
| RenderFacts.AutoIndexWidthsLetters | table/table_test.go:370-379 | without a header, each column widens to at least the length of its letter name |
| RenderFacts.AutoIndexLetterWidths | table/table_test.go:370-379 | without a header, every indexed column width is the old width or its letter name's length, whichever is larger |
| RenderFacts.AutoIndexLetterRow | table/table_test.go:370-379 | the synthesised letter row has the index blank followed by one column name per column |
| RenderFacts.AutoIndexColumn | table/table_test.go:370-379 | every body row's first rendered cell is its one-based number |
| RenderFacts.ColumnWidthConcat | table/table_test.go:403-416 | the width of a column over two groups of rows is the larger of the two widths |
| RenderFacts.ColumnWidthShifted | table/table_test.go:370-379 | shifting rows one column right moves each width one column right |
| Grid.AsSlice | table/table_test.go:156-275 | a value is a container, possibly behind one pointer, exactly when it yields elements, each seen through one pointer |
| Grid.ToCell | table/table_test.go:256-275 | an integer or string element keeps its value and a nil element becomes a blank cell |
| Grid.AcceptedIffContainer | table/table_test.go:156-275 | a grid is accepted exactly when it is a container, possibly behind one pointer |
| Grid.Rejections | table/table_test.go:157-178 | nil, an integer, a string, a Table and a pointer to a Table are rejected |
| Grid.RowPerPresentElement | table/table_test.go:234-255 | one row is produced per non-nil outer element |
| Grid.OneDimensional | table/table_test.go:180-204 | a container of scalars gives one single-cell row per element |
| Grid.TwoDimensional | table/table_test.go:206-232 | a container of containers gives one row per inner container holding its elements |
| Grid.NilRowsSkipped | table/table_test.go:234-255 | trailing nil rows add nothing |
| Grid.NilColumnsAndRows | table/table_test.go:256-275 | the nil-columns grid imports as 1 2 3 and 4 5 blank, dropping the nil row |
| TableModel.Appended | table/table_test.go:63-154 | a row goes to the end; its config, if given, is stored at its index and no other index changes |
| TableModel.WithHeader | table/table_test.go:86-107 | appending a header adds one row at the end of the headers and keeps the earlier ones |
| TableModel.WithFooter | table/table_test.go:63-84 | appending a footer adds one row at the end of the footers and keeps the earlier ones |
| TableModel.WithRow | table/table_test.go:109-130 | appending a row adds it at the end of the body and the length grows by one |
| TableModel.WithRows | table/table_test.go:132-154 | appending rows adds them at the end of the body in order and the length grows by their number |
| TableModel.WithoutHeaders | table/table_test.go:299-306 | the headers become empty and nothing else changes |
| TableModel.WithoutRows | table/table_test.go:308-315 | the body becomes empty, the length zero, and nothing else changes |
| TableModel.WithoutFooters | table/table_test.go:290-297 | the footers become empty and nothing else changes |
| TableModel.WithGrid | table/table_test.go:156-275 | accepted exactly when the grid is a container; a rejected grid changes nothing, an accepted one appends its rows to the body |
| TableModel.WithRowsConcat | table/table_test.go:132-154 | appending rows in two calls is appending them all in one |
| TableModel.AppendsCommute | table/table_test.go:63-130 | header, body and footer appends touch disjoint parts and commute |
| TableModel.ResetKeepsConfigs | table/table_test.go:308-315 | resetting the rows keeps stored row configs, which a later row then picks up |
| TableModel.EmitLines | table/table_test.go:317-355 | the loop builds exactly the clipped document of the lines |
| TableModel.OutputMirror.Write | table/table_test.go:44-51 | the mock mirror appends what it is given |
| TableModel.Table.constructor | table/table_test.go:53-56 | a new table is empty, has no mirror and uses the default style |
| TableModel.Table.Length | table/table_test.go:277-288 | the length is the number of body rows |
| TableModel.Table.AppendHeader | table/table_test.go:86-107 | the new state is the appended-header state and the mirror is unchanged |
| TableModel.Table.AppendFooter | table/table_test.go:63-84 | the new state is the appended-footer state and the mirror is unchanged |
| TableModel.Table.AppendRow | table/table_test.go:109-130 | the new state is the appended-row state and the mirror is unchanged |
| TableModel.Table.AppendRows | table/table_test.go:132-154 | the loop appends every row in order with the given config |
| TableModel.Table.ResetHeaders | table/table_test.go:299-306 | only the header rows are emptied; their stored configs stay |
| TableModel.Table.ResetRows | table/table_test.go:308-315 | only the body rows are emptied; their stored configs stay |
| TableModel.Table.ResetFooters | table/table_test.go:290-297 | only the footer rows are emptied; their stored configs stay |
| TableModel.Table.ImportGrid | table/table_test.go:156-275 | returns whether the grid is accepted and leaves the state the grid import defines |
| TableModel.Table.Style | table/table_test.go:53-61 | returns the style set last, or the default style |
| TableModel.Table.SetStyle | table/table_test.go:493-501 | only the style changes |
| TableModel.Table.SetAllowedRowLength | table/table_test.go:317-355 | only the allowed row length changes |
| TableModel.Table.SetAutoIndex | table/table_test.go:357-417 | only the auto-index flag changes |
| TableModel.Table.SetCaption | table/table_test.go:419-426 | only the caption changes |
| TableModel.Table.SetColumnConfigs | table/table_test.go:428-435 | only the column configs change |
| TableModel.Table.SetHTMLCSSClass | table/table_test.go:437-456 | only the CSS class changes |
| TableModel.Table.SetPageSize | table/table_test.go:474-480 | only the page size changes |
| TableModel.Table.SortBy | table/table_test.go:482-491 | only the sort keys change |
| TableModel.Table.SetOutputMirror | table/table_test.go:458-472 | only the mirror changes |
| TableModel.Table.Render | table/table_test.go:458-472 | returns the rendered table and changes no row or setting; if a mirror is set, a non-empty render is appended to it with a line feed, and an empty one leaves it unchanged |
| TableScenarios.TestRowsText | table/table_test.go:26-30 | the test rows padded to five columns have the expected cell texts, the short rows ending in a blank |
| TableScenarios.TestTextWidths | table/table_test.go:323-326 | the test rows' column widths are 3, 6, 9, 4 and 27 |
| TableScenarios.TestColumnKinds | table/table_test.go:323-326 | of the test rows' five columns, the first and fourth are numeric |
| TableScenarios.TestPlanAligns | table/table_test.go:323-326 | the test rows align right, left, left, right, left |
| TableScenarios.TestTableWidth | table/table_test.go:323-326 | the test table is 65 characters wide |
| TableScenarios.TestLines | table/table_test.go:323-326 | the test table renders as five lines of 65 characters |
| TableScenarios.TestRenderUnclipped | table/table_test.go:327-328 | with no limit the render is the five lines joined |
| TableScenarios.TestRenderAtMarker | table/table_test.go:330-332 | a limit of the marker's length renders nothing |
| TableScenarios.TestRenderClipped | table/table_test.go:334-350 | a limit between the marker and the width keeps limit minus 4 characters of each line, then the marker |
| TableScenarios.AllowedRowLengthTest | table/table_test.go:317-355 | limits 0 and 300 render the same five lines, the marker length renders nothing, 5 and 30 cut each line to 1 and 26 characters plus the marker, and the limit of 5 renders exactly the test's five-line text |
| TableScenarios.TestEdges | table/table_test.go:322-326 | the test table's five lines start with "(", "[", "[", "[" and "\\" |
| TableScenarios.ClippedFive | table/table_test.go:335-339 | five such 65-character lines clipped at 5 are "( ~~~", three times "[ ~~~", and "\\ ~~~" |
| TableScenarios.LimitFive | table/table_test.go:334-341 | those clipped lines joined by line feeds are the test's expected text for a limit of 5 |
| TableScenarios.AppendFooterTest | table/table_test.go:63-84 | three footers raise the footer count 1, 2, 3, leave length and headers at 0, and only the last merges |
| TableScenarios.AppendHeaderTest | table/table_test.go:86-107 | three headers raise the header count 1, 2, 3, leave length and footers at 0, and only the last merges |
| TableScenarios.AppendRowTest | table/table_test.go:109-130 | three rows raise the length 1, 2, 3, leave headers and footers empty, and only the last merges |
| TableScenarios.AppendRowsTest | table/table_test.go:132-154 | appends of one, one and two rows give lengths 1, 2, 4 and only the last two rows merge |
| TableScenarios.LengthTest | table/table_test.go:277-288 | the length goes 0, 1, 2 and stays 2 after a header is appended |
| TableScenarios.ResetTest | table/table_test.go:290-315 | each reset empties the footers, headers or rows it names |
| TableScenarios.NewTableStyleTest | table/table_test.go:53-61 | a new table has the default style, then bold once set, then default again |
| TableScenarios.SettersTest | table/table_test.go:419-491 | caption, column configs, CSS class, page size and sort keys start empty and hold what was set |
| GridScenarios.ImportGridRejectTest | table/table_test.go:157-178 | the five non-grids are rejected and add no row |
| GridScenarios.ImportSeparated | table/table_test.go:192-195 | a fresh table with separated rows accepts a grid exactly when it is a container, holds then exactly the grid's rows (none otherwise), and renders them in the default style with separated rows |
| GridScenarios.ImportEach | table/table_test.go:189-203 | when every grid holds the same rows, each import in the loop succeeds with those rows and renders them alike |
| GridScenarios.ImportGrid1D | table/table_test.go:180-204 | the five one-dimensional shapes over any three numbers import as one row per number and render alike |
| GridScenarios.ImportGrid1DTest | table/table_test.go:180-204 | all five one-dimensional shapes are accepted, import as the rows 1, 2, 3, and render as exactly the test's seven-line text |
| GridScenarios.ImportGrid2D | table/table_test.go:206-232 | the seven two-dimensional shapes over any nine numbers import as the three rows and render alike |
| GridScenarios.ImportGrid2DTest | table/table_test.go:206-232 | all seven two-dimensional shapes are accepted, import as the three rows 1 2 3, 4 5 6, 7 8 9, and render as exactly the test's text |
| GridScenarios.ImportGridNilRows | table/table_test.go:234-255 | the three shapes with a nil last row over any six numbers import as the first two rows and render alike |
| GridScenarios.ImportGridNilRowsTest | table/table_test.go:234-255 | the three shapes with a nil last row import as the rows 1 2 3 and 4 5 6 and render as exactly the test's text |
| GridScenarios.ImportGridNilColumnsTest | table/table_test.go:256-275 | the grid with a nil cell and a nil row imports as 1 2 3 and 4 5 blank and renders as exactly the test's text, the blank as an empty column |
| GridOutput.SmallGridLines | table/table_test.go:193-202 | rows of one-digit numbers and blanks, in the default style with separated rows, render as a rule of "+---" segments above, between and below one line per row |
| GridOutput.SeparatedBodyLines | table/table_test.go:193-202 | a body-only table in a style that separates rows is the top border, the rows with the middle rule between them, and the bottom border |
| GridOutput.SmallBody | table/table_test.go:193-202 | in one-character columns each row of small cells is one line showing its digits, and the body is those lines with the separator between |
| GridOutput.Grid1DRender | table/table_test.go:195-202 | the rows 1, 2 and 3 render as exactly the "valid 1d" test's text |
| GridOutput.Grid2DRender | table/table_test.go:223-230 | the rows 1 2 3, 4 5 6 and 7 8 9 render as exactly the "valid 2d" test's text |
| GridOutput.NilRowsRender | table/table_test.go:247-252 | the rows 1 2 3 and 4 5 6 render as exactly the "valid 2d with nil rows" test's text |
| GridOutput.NilColumnsRender | table/table_test.go:267-272 | the rows 1 2 3 and 4 5 nil render as exactly the "valid 2d with nil columns and rows" test's text, the nil cell blank |
| IndexScenarios.TestIndexedWidths | table/table_test.go:370-379 | with the index on and no header the widths are 1, 3, 6, 9, 4 and 27 |
| IndexScenarios.TestLetterRow | table/table_test.go:370-379 | the synthesised header is a blank followed by A, B, C, D and E |
| IndexScenarios.TestIndexedAligns | table/table_test.go:370-379 | the letter row aligns right, right, centre, centre, right, centre |
| IndexScenarios.TestIndexCells | table/table_test.go:370-379 | the indexed body rows start with 1, 2 and 3 |
| IndexScenarios.SetAutoIndexTest | table/table_test.go:357-379 | the flag starts off and turns on, and the indexed render has the letter row, the widths and the alignments above |
| IndexScenarios.AutoIndexHeaderTest | table/table_test.go:381-416 | after the header, then the multi-line row, then the light style are added, each render is that of the indexed table with those rows and that style; all three have widths 1, 3, 10, 9, 6, 27 and align right, right, left, left, right, left in header and body, and in the last two the multi-line row is numbered 4 and three lines high |
| IndexScenarios.AutoIndexHeaderPlans | table/table_test.go:382-415 | the three header renders share the widths 1, 3, 10, 9, 6, 27 and the alignments right, right, left, left, right, left; the multi-line row is numbered 4 and three lines high |
| IndexScenarios.HeaderTestPlan | table/table_test.go:382-388 | without the index, the header plan holds the upper-cased header texts and the widths 3, 10, 9, 6, 27 |
| IndexScenarios.HeaderTestWidths | table/table_test.go:382-402 | with the index and the header, the widths are 1, 3, 10, 9, 6, 27 |
| IndexScenarios.IndexWidthWithHeader | table/table_test.go:382-402 | with a header and at most nine body rows, the index column is one character wide |
| IndexScenarios.IndexedAlignsWithHeader | table/table_test.go:382-415 | with a header, the index column aligns right and every other column right over a numeric body column and left otherwise, the same in header and body |
| IndexScenarios.HeaderTestAligns | table/table_test.go:382-415 | the header renders align right, right, left, left, right, left, in header and body alike |
| IndexScenarios.RightAlignedCells | table/table_test.go:383-385 | right-aligned, "#" in a column of 3 shows as "  #" and 3000 in a column of 6 as "  3000" |
| IndexScenarios.MultiLineHeight | table/table_test.go:399-401 | the multi-line row, numbered 4, has the three lines "Coming.", "The North Remembers!" and "This is known." and is three lines high |
| IndexScenarios.HeaderRowText | table/table_test.go:383 | upper-cased and padded to five columns, the test header's texts are "#", "FIRST NAME", "LAST NAME", "SALARY" and a blank |
| IndexScenarios.MultiLineRowText | table/table_test.go:399-401 | the multi-line row's texts are 0, Winter, Is, 0 and the three lines of its last cell |
| IndexScenarios.AutoIndexHeaderShown | table/table_test.go:381-416 | in all three of those renders the index cell over the header is blank, the header cells are the header's upper-cased lines, and the row number (1, or 4 for the multi-line row) is on that row's first physical line only |
| IndexScenarios.IndexedHeaderCells | table/table_test.go:382-384 | with auto-index and one header row, the header's index cell is blank and every header cell is its upper-cased text |
| IndexScenarios.IndexedRowNumber | table/table_test.go:392-402 | with auto-index and a non-empty header, body row r shows its number r + 1 on its first physical line and a blank index on every later one |
| OutputScenarios.OneLineRow | table/table_test.go:461-463 | a row whose cells are one line each renders as exactly one line, made of those lines |
| OutputScenarios.SingleRowLines | table/table_test.go:461-463 | a body-only plan of one such row renders as the top border, that row's line and the bottom border |
| OutputScenarios.SingleRowParts | table/table_test.go:460-463 | a table of one row has no header or footer rows, and that row as its only, unpadded, body row |
| OutputScenarios.SingleRowWidths | table/table_test.go:460-463 | each column of a one-row table is as wide as the row's own cell in it |
| OutputScenarios.SingleRowAligns | table/table_test.go:460-463 | each column of a one-row table is right-aligned when its cell is a number and left-aligned otherwise |
| OutputScenarios.MirrorBorder | table/table_test.go:461 | the borders of columns 1, 4, 5 and 4 wide in the default style are the test's border line |
| OutputScenarios.MirrorCells | table/table_test.go:462 | the cells 1, Arya, Stark and 3000, aligned as the plan says in the default style, are the test's row line |
| OutputScenarios.MirrorLines | table/table_test.go:460-463 | the first test row alone renders, unclipped, as the test's three lines |
| OutputScenarios.MirrorRender | table/table_test.go:459-463 | the first test row alone, in the default style and without a limit, renders as the test's expected text, character for character |
| OutputScenarios.OutputMirrorTest | table/table_test.go:458-472 | rendering before and after a mirror is set both give the expected text, and the mirror then holds that text followed by a line feed |
| OutputScenarios.RenderMirrored | table/table_test.go:466-471 | rendering with a fresh mirror changes no row or setting, and the mirror holds the render and a line feed, or nothing when the render is empty |

## Left out

- Horizontal and vertical cell merging (`table/table_test.go:503-873`): the row configs' merge flag is stored and read back, but merging is not rendered.
- `AppendSeparator` and the separator rows it adds: not among the modelled operations.
- Colours, ANSI escape handling, text wrapping and any column-config transformation at render time: column configs are stored and counted only.
- HTML, CSV and Markdown rendering: the CSS class is stored and read back, but no HTML is produced.
- Sorting and paging: the sort keys and the page size are stored. No comparator sorts rows and no pager splits output.
- Titles and captions in the output: the caption is stored only, and `SetCaption`'s format arguments are not modelled.
- Style glyph tables beyond the four boxed presets and the tests' own style: the preset glyphs are constants, and options other than upper-casing header and footer text and separating body rows are not modelled.
- Floating-point cells and `fmt` formatting of arbitrary Go values: cells are integers, strings, booleans or blank.
- Cells.CellLines: a lone carriage return is dropped rather than treated as a line break. Only the "\r\n" pair occurs in the tests.
- Tabs and wide (multi-column) Unicode characters: every character counts as one column.
- The exact expected strings of the limit-30 render and the auto-index renders: for those the model proves the structure instead (line count, line width, column widths, cell texts, alignments, the clipping of each line, row heights), not the literal glyphs.
- TableModel.Table.AppendRow, AppendRows, AppendHeader and AppendFooter: Go's variadic `config ...RowConfig` is an optional single config here, so only a first config is recorded; the tests never pass more than one.
- Grid.ElementRow: a container nested deeper than two levels renders as a blank cell, and an empty container is accepted as a grid with no rows.
- Go reflection: it is replaced by the closed `Grid.Value` datatype, so values of other Go types are not representable.
- `rowsRawFiltered` (rows after filtering) is the same as the raw body rows here, since no filter is modelled.
- `table.Style().Options.SeparateRows = true`, a mutation through the returned style pointer, is modelled as `SetStyle` with a style whose separate-rows option is on.
- `io.Writer`: the output mirror is a class holding the text written to it. Write errors and byte counts are not modelled.
- Concurrency: a `Table` is used from one goroutine in the tests, and the model has no sharing beyond the mirror reference.
