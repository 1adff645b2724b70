/** Bulk import of nested container data into body rows.
    The Go implementation inspects arbitrary values by reflection; here the
    shapes it can meet are a closed datatype. */
module Grid {
  import opened Cells

  /** A value handed to ImportGrid: nil (also a nil pointer), an integer, a
      string, an array or slice of values, a non-nil pointer to a value, or a
      Table (which is never a grid). */
  datatype Value = Null | Integer(i: int) | Text(s: string) | List(items: seq<Value>) | Pointer(target: Value) | TableValue

  /** One level of pointer indirection is looked through. */
  function Deref(v: Value): (r: Value)
    ensures !v.Pointer? ==> r == v
  {
    if v.Pointer? then v.target else v
  }

  /** The elements of a container (each seen through one pointer), or None when
      the value is not a container, even after one dereference. */
  function AsSlice(v: Value): (r: Option<seq<Value>>)
    ensures r.Some? <==> Deref(v).List?
    ensures r.Some? ==> (|r.value| == |Deref(v).items|
      && forall k :: 0 <= k < |r.value| ==> r.value[k] == Deref(Deref(v).items[k]))
  {
    match Deref(v)
    case List(items) => Some(seq(|items|, k requires 0 <= k < |items| => Deref(items[k])))
    case _ => None
  }

  /** The cell an element of a row becomes: a scalar keeps its value, nil is
      a blank cell. */
  function ToCell(v: Value): (c: Cell)
    ensures Deref(v).Integer? ==> c == Cell.Int(Deref(v).i)
    ensures Deref(v).Text? ==> c == Cell.Str(Deref(v).s)
    ensures Deref(v).Null? ==> c == Cell.Nil
  {
    match Deref(v)
    case Integer(i) => Cell.Int(i)
    case Text(s) => Cell.Str(s)
    case _ => Cell.Nil
  }

  /** The row contributed by one (already dereferenced) outer element: an
      inner container gives one cell per element, a scalar a single-cell row,
      a nil element no row at all. */
  function ElementRow(e: Value): Option<Row>
  {
    match e
    case Null => None
    case List(cells) => Some(seq(|cells|, k requires 0 <= k < |cells| => ToCell(cells[k])))
    case _ => Some([ToCell(e)])
  }

  function ElementRows(es: seq<Value>): (rows: seq<Row>)
    ensures |rows| <= |es|
    decreases |es|
  {
    if |es| == 0 then []
    else
      var rest := ElementRows(es[1..]);
      match ElementRow(es[0])
      case None => rest
      case Some(r) => [r] + rest
  }

  /** The body rows that importing grid produces, or None when grid is rejected. */
  function GridRows(grid: Value): Option<seq<Row>>
  {
    match AsSlice(grid)
    case None => None
    case Some(es) => Some(ElementRows(es))
  }

  /** Number of elements that are not nil. */
  function Present(es: seq<Value>): nat
    decreases |es|
  {
    if |es| == 0 then 0 else (if es[0].Null? then 0 else 1) + Present(es[1..])
  }

  // ---------------------------------------------------------------------
  // Properties

  /** A grid is accepted exactly when it is a container, possibly behind one pointer. */
  lemma AcceptedIffContainer(grid: Value)
    ensures GridRows(grid).Some? <==> Deref(grid).List?
  {
  }

  /** nil, an integer, a string, a Table value and a pointer to a Table are rejected. */
  lemma Rejections(i: int, s: string)
    ensures GridRows(Null).None?
    ensures GridRows(Integer(i)).None? && GridRows(Pointer(Integer(i))).None?
    ensures GridRows(Text(s)).None?
    ensures GridRows(TableValue).None? && GridRows(Pointer(TableValue)).None?
  {
  }

  /** One row per present outer element: nil rows are skipped, nothing else is. */
  lemma {:induction false} RowPerPresentElement(es: seq<Value>)
    ensures |ElementRows(es)| == Present(es)
    decreases |es|
  {
    if |es| > 0 {
      RowPerPresentElement(es[1..]);
    }
  }

  /** A container of scalars (each possibly behind a pointer) gives one
      single-cell row per element. */
  lemma {:induction false} OneDimensional(items: seq<Value>)
    requires forall k :: 0 <= k < |items| ==> Deref(items[k]).Integer? || Deref(items[k]).Text?
    ensures var g := GridRows(List(items));
      g.Some? && |g.value| == |items|
      && forall k :: 0 <= k < |items| ==> g.value[k] == [ToCell(items[k])]
  {
    var es := AsSlice(List(items)).value;
    ScalarRows(es);
    forall k | 0 <= k < |items| ensures ToCell(es[k]) == ToCell(items[k]) {
      assert es[k] == Deref(items[k]);
    }
  }

  lemma {:induction false} ScalarRows(es: seq<Value>)
    requires forall k :: 0 <= k < |es| ==> es[k].Integer? || es[k].Text?
    ensures |ElementRows(es)| == |es|
    ensures forall k :: 0 <= k < |es| ==> ElementRows(es)[k] == [ToCell(es[k])]
    decreases |es|
  {
    if |es| > 0 {
      ScalarRows(es[1..]);
      assert ElementRows(es) == [[ToCell(es[0])]] + ElementRows(es[1..]);
    }
  }

  /** A container of containers (each possibly behind a pointer) gives one row
      per inner container, whose cells are its elements; a nil scalar is blank. */
  lemma {:induction false} TwoDimensional(items: seq<Value>)
    requires forall k :: 0 <= k < |items| ==> Deref(items[k]).List?
    ensures var g := GridRows(List(items));
      g.Some? && |g.value| == |items|
      && forall k :: 0 <= k < |items| ==>
           var inner := Deref(items[k]).items;
           |g.value[k]| == |inner| && forall j :: 0 <= j < |inner| ==> g.value[k][j] == ToCell(inner[j])
  {
    var es := AsSlice(List(items)).value;
    ContainerRows(es);
  }

  lemma {:induction false} ContainerRows(es: seq<Value>)
    requires forall k :: 0 <= k < |es| ==> es[k].List?
    ensures |ElementRows(es)| == |es|
    ensures forall k :: 0 <= k < |es| ==>
      |ElementRows(es)[k]| == |es[k].items|
      && forall j :: 0 <= j < |es[k].items| ==> ElementRows(es)[k][j] == ToCell(es[k].items[j])
    decreases |es|
  {
    if |es| > 0 {
      ContainerRows(es[1..]);
      assert ElementRows(es) == [ElementRow(es[0]).value] + ElementRows(es[1..]);
    }
  }

  /** Importing rows followed by nil rows gives the same rows as without them. */
  lemma {:induction false} NilRowsSkipped(es: seq<Value>, n: nat)
    ensures ElementRows(es + seq(n, _ => Null)) == ElementRows(es)
    decreases |es|
  {
    var nils: seq<Value> := seq(n, _ => Null);
    if |es| == 0 {
      assert es + nils == nils;
      AllNil(nils);
    } else {
      assert (es + nils)[1..] == es[1..] + nils;
      NilRowsSkipped(es[1..], n);
    }
  }

  lemma {:induction false} AllNil(es: seq<Value>)
    requires forall k :: 0 <= k < |es| ==> es[k] == Null
    ensures ElementRows(es) == []
    decreases |es|
  {
    if |es| > 0 {
      AllNil(es[1..]);
    }
  }

  /** The shape of the test "valid 2d with nil columns and rows": a pointer to a
      slice of pointers to slices of pointers, whose second row ends in nil and
      whose third row is nil. */
  lemma NilColumnsAndRows(a: int, b: int, c: int, d: int, e: int)
    ensures GridRows(Pointer(List([
              Pointer(List([Pointer(Integer(a)), Pointer(Integer(b)), Pointer(Integer(c))])),
              Pointer(List([Pointer(Integer(d)), Pointer(Integer(e)), Null])),
              Null])))
            == Some([[Cell.Int(a), Cell.Int(b), Cell.Int(c)], [Cell.Int(d), Cell.Int(e), Cell.Nil]])
  {
    var c1 := [Pointer(Integer(a)), Pointer(Integer(b)), Pointer(Integer(c))];
    var c2 := [Pointer(Integer(d)), Pointer(Integer(e)), Null];
    var es := AsSlice(Pointer(List([Pointer(List(c1)), Pointer(List(c2)), Null]))).value;
    assert es == [List(c1), List(c2), Null];
    assert es[1..][1..][1..] == [];
    var row1 := ElementRow(List(c1)).value;
    assert row1[0] == ToCell(c1[0]) && row1[1] == ToCell(c1[1]) && row1[2] == ToCell(c1[2]);
    assert row1 == [Cell.Int(a), Cell.Int(b), Cell.Int(c)];
    var row2 := ElementRow(List(c2)).value;
    assert row2[0] == ToCell(c2[0]) && row2[1] == ToCell(c2[1]) && row2[2] == ToCell(c2[2]);
    assert row2 == [Cell.Int(d), Cell.Int(e), Cell.Nil];
    assert ElementRows(es[1..][1..]) == [];
    assert ElementRows(es[1..]) == [row2];
    assert ElementRows(es) == [row1, row2];
  }
}
