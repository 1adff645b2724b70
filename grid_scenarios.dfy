/** The grid-import tests replayed against the model: every shape of container
    the tests pass to ImportGrid, with pointers at any level, becomes the same
    body rows. */
module GridScenarios {
  import opened Cells
  import opened Render
  import opened TableModel
  import opened GridOutput
  import Grid

  /** Every value that is not a container, with or without a pointer in front,
      is rejected and adds no row. */
  method ImportGridRejectTest() returns (oks: seq<bool>, lengths: seq<nat>)
    ensures oks == [false, false, false, false, false]
    ensures lengths == [0, 0, 0, 0, 0]
  {
    var t := new Table();
    Grid.Rejections(123, "abc");
    var ok := t.ImportGrid(Grid.Null);
    oks, lengths := [ok], [t.Length()];
    ok := t.ImportGrid(Grid.Integer(123));
    oks, lengths := oks + [ok], lengths + [t.Length()];
    ok := t.ImportGrid(Grid.Text("abc"));
    oks, lengths := oks + [ok], lengths + [t.Length()];
    ok := t.ImportGrid(Grid.TableValue);
    oks, lengths := oks + [ok], lengths + [t.Length()];
    ok := t.ImportGrid(Grid.Pointer(Grid.TableValue));
    oks, lengths := oks + [ok], lengths + [t.Length()];
  }

  /** A fresh table switched to separated rows imports one grid and renders
      the rows imported, in the default style with separated rows. */
  method ImportSeparated(grid: Grid.Value) returns (ok: bool, body: seq<Row>, out: string)
    ensures ok <==> Grid.GridRows(grid).Some?
    ensures ok ==> body == Grid.GridRows(grid).value
    ensures !ok ==> body == []
    ensures out == RenderText([], body, [], SeparatedDefault, false, 0)
  {
    var t := new Table();
    var st := t.Style();
    t.SetStyle(st.(options := Options(true)));
    ok := t.ImportGrid(grid);
    body := t.rowsRaw;
    out := t.Render();
  }

  /** The loop of the grid-import tests: each grid in turn is imported into a
      fresh separated-rows table and rendered; when every grid holds the same
      rows, every import succeeds with those rows and renders them alike. */
  method ImportEach(grids: seq<Grid.Value>, want: seq<Row>) returns (oks: seq<bool>, bodies: seq<seq<Row>>, outs: seq<string>)
    requires forall k :: 0 <= k < |grids| ==> Grid.GridRows(grids[k]) == Some(want)
    ensures |oks| == |grids| && |bodies| == |grids| && |outs| == |grids|
    ensures forall k :: 0 <= k < |grids| ==>
      oks[k] && bodies[k] == want && outs[k] == RenderText([], want, [], SeparatedDefault, false, 0)
  {
    oks, bodies, outs := [], [], [];
    var k := 0;
    while k < |grids|
      invariant 0 <= k <= |grids| && |oks| == k && |bodies| == k && |outs| == k
      invariant forall j :: 0 <= j < k ==>
        oks[j] && bodies[j] == want && outs[j] == RenderText([], want, [], SeparatedDefault, false, 0)
    {
      var ok, body, out := ImportSeparated(grids[k]);
      oks, bodies, outs := oks + [ok], bodies + [body], outs + [out];
      k := k + 1;
    }
  }

  function Ints(xs: seq<int>): (vs: seq<Grid.Value>)
    ensures |vs| == |xs| && forall k :: 0 <= k < |xs| ==> vs[k] == Grid.Integer(xs[k])
  {
    seq(|xs|, k requires 0 <= k < |xs| => Grid.Integer(xs[k]))
  }

  function IntPointers(xs: seq<int>): (vs: seq<Grid.Value>)
    ensures |vs| == |xs| && forall k :: 0 <= k < |xs| ==> vs[k] == Grid.Pointer(Grid.Integer(xs[k]))
  {
    seq(|xs|, k requires 0 <= k < |xs| => Grid.Pointer(Grid.Integer(xs[k])))
  }

  function IntCells(xs: seq<int>): (r: Row)
    ensures |r| == |xs| && forall k :: 0 <= k < |xs| ==> r[k] == Int(xs[k])
  {
    seq(|xs|, k requires 0 <= k < |xs| => Int(xs[k]))
  }

  /** A one-dimensional grid of numbers, given as values or as pointers to them,
      directly or behind a pointer, becomes one single-number row per element. */
  lemma OneDimensionalShapes(a: int, b: int, c: int)
    ensures var rows := [[Int(a)], [Int(b)], [Int(c)]];
      var vs, ps := Ints([a, b, c]), IntPointers([a, b, c]);
      Grid.GridRows(Grid.List(vs)) == Some(rows) && Grid.GridRows(Grid.Pointer(Grid.List(vs))) == Some(rows)
      && Grid.GridRows(Grid.List(ps)) == Some(rows) && Grid.GridRows(Grid.Pointer(Grid.List(ps))) == Some(rows)
  {
    var rows := [[Int(a)], [Int(b)], [Int(c)]];
    var vs, ps := Ints([a, b, c]), IntPointers([a, b, c]);
    Grid.OneDimensional(vs);
    Grid.OneDimensional(ps);
    assert Grid.GridRows(Grid.List(vs)).value == rows;
    assert Grid.GridRows(Grid.List(ps)).value == rows;
    assert Grid.AsSlice(Grid.Pointer(Grid.List(vs))) == Grid.AsSlice(Grid.List(vs));
    assert Grid.AsSlice(Grid.Pointer(Grid.List(ps))) == Grid.AsSlice(Grid.List(ps));
  }

  /** A two-dimensional grid of numbers, with pointers at any of its levels,
      becomes one row per inner container holding its numbers. */
  lemma TwoDimensionalShape(inner: seq<seq<int>>, items: seq<Grid.Value>)
    requires |items| == |inner|
    requires forall k :: 0 <= k < |items| ==>
      Grid.Deref(items[k]) == Grid.List(Ints(inner[k])) || Grid.Deref(items[k]) == Grid.List(IntPointers(inner[k]))
    ensures Grid.GridRows(Grid.List(items)) == Some(seq(|inner|, k requires 0 <= k < |inner| => IntCells(inner[k])))
    ensures Grid.GridRows(Grid.Pointer(Grid.List(items))) == Grid.GridRows(Grid.List(items))
  {
    Grid.TwoDimensional(items);
    var g := Grid.GridRows(Grid.List(items)).value;
    var want := seq(|inner|, k requires 0 <= k < |inner| => IntCells(inner[k]));
    forall k | 0 <= k < |items| ensures g[k] == want[k] {
      var cs := Grid.Deref(items[k]).items;
      assert forall j :: 0 <= j < |cs| ==> Grid.ToCell(cs[j]) == Int(inner[k][j]);
      assert g[k] == IntCells(inner[k]);
    }
    assert g == want;
    assert Grid.AsSlice(Grid.Pointer(Grid.List(items))) == Grid.AsSlice(Grid.List(items));
  }

  /** The five grids of the "valid 1d" test over the numbers a, b and c: each
      imports as one row per number, and all render alike. */
  method ImportGrid1D(a: int, b: int, c: int) returns (oks: seq<bool>, bodies: seq<seq<Row>>, outs: seq<string>)
    ensures oks == [true, true, true, true, true] && |bodies| == 5 && |outs| == 5
    ensures var want := [[Int(a)], [Int(b)], [Int(c)]];
      forall k :: 0 <= k < 5 ==> bodies[k] == want && outs[k] == RenderText([], want, [], SeparatedDefault, false, 0)
  {
    OneDimensionalShapes(a, b, c);
    var vs, ps := Ints([a, b, c]), IntPointers([a, b, c]);
    oks, bodies, outs := ImportEach([Grid.List(vs), Grid.List(vs), Grid.Pointer(Grid.List(vs)), Grid.List(ps),
                                     Grid.Pointer(Grid.List(ps))], [[Int(a)], [Int(b)], [Int(c)]]);
  }

  /** The "valid 1d" test: with the numbers 1, 2 and 3, every grid renders as
      the column the test expects. */
  method ImportGrid1DTest() returns (oks: seq<bool>, bodies: seq<seq<Row>>, outs: seq<string>)
    ensures oks == [true, true, true, true, true] && |bodies| == 5 && |outs| == 5
    ensures forall k :: 0 <= k < 5 ==> bodies[k] == [[Int(1)], [Int(2)], [Int(3)]] && outs[k] == Grid1DText
  {
    oks, bodies, outs := ImportGrid1D(1, 2, 3);
    Grid1DRender([[Int(1)], [Int(2)], [Int(3)]]);
  }

  /** The seven grids of the "valid 2d" test over the numbers a to i: arrays or
      slices of arrays or slices, with pointers to the outer container, to each
      row or to each number, all import as the three rows a b c, d e f, g h i,
      and all render alike. */
  method ImportGrid2D(a: int, b: int, c: int, d: int, e: int, f: int, g: int, h: int, i: int)
    returns (oks: seq<bool>, bodies: seq<seq<Row>>, outs: seq<string>)
    ensures oks == [true, true, true, true, true, true, true] && |bodies| == 7 && |outs| == 7
    ensures var want := [IntCells([a, b, c]), IntCells([d, e, f]), IntCells([g, h, i])];
      forall k :: 0 <= k < 7 ==> bodies[k] == want && outs[k] == RenderText([], want, [], SeparatedDefault, false, 0)
  {
    var inner := [[a, b, c], [d, e, f], [g, h, i]];
    var want := [IntCells([a, b, c]), IntCells([d, e, f]), IntCells([g, h, i])];
    var rows := [Grid.List(Ints(inner[0])), Grid.List(Ints(inner[1])), Grid.List(Ints(inner[2]))];
    var rowPointers := [Grid.Pointer(rows[0]), Grid.Pointer(rows[1]), Grid.Pointer(rows[2])];
    var deep := [Grid.Pointer(Grid.List(IntPointers(inner[0]))), Grid.Pointer(Grid.List(IntPointers(inner[1]))),
                 Grid.Pointer(Grid.List(IntPointers(inner[2])))];
    TwoDimensionalShape(inner, rows);
    TwoDimensionalShape(inner, rowPointers);
    TwoDimensionalShape(inner, deep);
    assert seq(|inner|, k requires 0 <= k < |inner| => IntCells(inner[k])) == want;
    oks, bodies, outs := ImportEach([Grid.List(rows), Grid.List(rows), Grid.List(rows), Grid.Pointer(Grid.List(rows)),
                                     Grid.List(rowPointers), Grid.Pointer(Grid.List(rowPointers)),
                                     Grid.Pointer(Grid.List(deep))], want);
  }

  /** The "valid 2d" test: with the numbers 1 to 9, every grid renders as the
      table the test expects. */
  method ImportGrid2DTest() returns (oks: seq<bool>, bodies: seq<seq<Row>>, outs: seq<string>)
    ensures oks == [true, true, true, true, true, true, true] && |bodies| == 7 && |outs| == 7
    ensures forall k :: 0 <= k < 7 ==>
      bodies[k] == [IntCells([1, 2, 3]), IntCells([4, 5, 6]), IntCells([7, 8, 9])] && outs[k] == Grid2DText
  {
    oks, bodies, outs := ImportGrid2D(1, 2, 3, 4, 5, 6, 7, 8, 9);
    Grid2DRender([IntCells([1, 2, 3]), IntCells([4, 5, 6]), IntCells([7, 8, 9])]);
  }

  /** The three grids of the "valid 2d with nil rows" test over the numbers a
      to f: a nil last row is skipped, leaving the rows a b c and d e f, and
      all render alike. */
  method ImportGridNilRows(a: int, b: int, c: int, d: int, e: int, f: int)
    returns (oks: seq<bool>, bodies: seq<seq<Row>>, outs: seq<string>)
    ensures oks == [true, true, true] && |bodies| == 3 && |outs| == 3
    ensures var want := [IntCells([a, b, c]), IntCells([d, e, f])];
      forall k :: 0 <= k < 3 ==> bodies[k] == want && outs[k] == RenderText([], want, [], SeparatedDefault, false, 0)
  {
    var inner := [[a, b, c], [d, e, f]];
    var want := [IntCells([a, b, c]), IntCells([d, e, f])];
    var rowPointers := [Grid.Pointer(Grid.List(Ints(inner[0]))), Grid.Pointer(Grid.List(Ints(inner[1])))];
    var deep := [Grid.Pointer(Grid.List(IntPointers(inner[0]))), Grid.Pointer(Grid.List(IntPointers(inner[1])))];
    NilRowDropped(inner, rowPointers);
    NilRowDropped(inner, deep);
    assert seq(|inner|, k requires 0 <= k < |inner| => IntCells(inner[k])) == want;
    oks, bodies, outs := ImportEach([Grid.List(rowPointers + [Grid.Null]), Grid.Pointer(Grid.List(rowPointers + [Grid.Null])),
                                     Grid.Pointer(Grid.List(deep + [Grid.Null]))], want);
  }

  /** The "valid 2d with nil rows" test: with the numbers 1 to 6, every grid
      renders as the table the test expects. */
  method ImportGridNilRowsTest() returns (oks: seq<bool>, bodies: seq<seq<Row>>, outs: seq<string>)
    ensures oks == [true, true, true] && |bodies| == 3 && |outs| == 3
    ensures forall k :: 0 <= k < 3 ==> bodies[k] == [IntCells([1, 2, 3]), IntCells([4, 5, 6])] && outs[k] == NilRowsText
  {
    oks, bodies, outs := ImportGridNilRows(1, 2, 3, 4, 5, 6);
    NilRowsRender([IntCells([1, 2, 3]), IntCells([4, 5, 6])]);
  }

  /** A two-dimensional grid followed by a nil row imports as the grid alone. */
  lemma NilRowDropped(inner: seq<seq<int>>, items: seq<Grid.Value>)
    requires |items| == |inner|
    requires forall k :: 0 <= k < |items| ==>
      Grid.Deref(items[k]) == Grid.List(Ints(inner[k])) || Grid.Deref(items[k]) == Grid.List(IntPointers(inner[k]))
    ensures Grid.GridRows(Grid.List(items + [Grid.Null])) == Some(seq(|inner|, k requires 0 <= k < |inner| => IntCells(inner[k])))
    ensures Grid.GridRows(Grid.Pointer(Grid.List(items + [Grid.Null]))) == Grid.GridRows(Grid.List(items + [Grid.Null]))
  {
    TwoDimensionalShape(inner, items);
    var es := Grid.AsSlice(Grid.List(items)).value;
    var es' := Grid.AsSlice(Grid.List(items + [Grid.Null])).value;
    assert es' == es + seq(1, _ => Grid.Null);
    Grid.NilRowsSkipped(es, 1);
    assert Grid.AsSlice(Grid.Pointer(Grid.List(items + [Grid.Null]))) == Grid.AsSlice(Grid.List(items + [Grid.Null]));
  }

  /** The grid of the "valid 2d with nil columns and rows" test: a nil number
      becomes a blank cell and a nil row is skipped; the blank cell renders as
      an empty column. */
  method ImportGridNilColumnsTest() returns (ok: bool, body: seq<Row>, out: string)
    ensures ok && body == [[Int(1), Int(2), Int(3)], [Int(4), Int(5), Nil]]
    ensures out == NilColumnsText
  {
    var a, b, c, d, e := 1, 2, 3, 4, 5;
    Grid.NilColumnsAndRows(a, b, c, d, e);
    ok, body, out := ImportSeparated(Grid.Pointer(Grid.List([
      Grid.Pointer(Grid.List([Grid.Pointer(Grid.Integer(a)), Grid.Pointer(Grid.Integer(b)), Grid.Pointer(Grid.Integer(c))])),
      Grid.Pointer(Grid.List([Grid.Pointer(Grid.Integer(d)), Grid.Pointer(Grid.Integer(e)), Grid.Null])),
      Grid.Null])));
    NilColumnsRender(body);
  }
}
