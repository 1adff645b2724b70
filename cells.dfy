/** Cell values of a table row and their canonical display text.
    A row is an ordered sequence of cells; a cell is a tagged value. */
module Cells {

  datatype Cell = Int(i: int) | Str(s: string) | Bool(b: bool) | Nil

  type Row = seq<Cell>

  /** A cell that the renderer treats as a number (right-aligned column). */
  predicate IsNumber(c: Cell) {
    c.Int?
  }

  // ---------------------------------------------------------------------
  // Decimal text of integers, as fmt.Sprint writes them

  function DigitChar(d: nat): (ch: char)
    requires d < 10
    ensures '0' <= ch <= '9' && ch as int - '0' as int == d
  {
    (('0' as int) + d) as char
  }

  predicate IsDigit(ch: char) {
    '0' <= ch <= '9'
  }

  function NatToString(n: nat): (s: string)
    ensures |s| >= 1
    ensures forall k :: 0 <= k < |s| ==> IsDigit(s[k])
    ensures n > 0 ==> s[0] != '0'
    decreases n
  {
    if n < 10 then [DigitChar(n)] else NatToString(n / 10) + [DigitChar(n % 10)]
  }

  /** The value of a string of decimal digits (most significant first). */
  function ParseNat(s: string): nat
    requires forall k :: 0 <= k < |s| ==> IsDigit(s[k])
    decreases |s|
  {
    if |s| == 0 then 0
    else
      assert IsDigit(s[|s| - 1]);
      ParseNat(s[..|s| - 1]) * 10 + (s[|s| - 1] as int - '0' as int)
  }

  lemma {:induction false} ParseNatToString(n: nat)
    ensures ParseNat(NatToString(n)) == n
    decreases n
  {
    if n >= 10 {
      var s := NatToString(n);
      assert s[..|s| - 1] == NatToString(n / 10);
      ParseNatToString(n / 10);
    }
  }

  function IntToString(i: int): (s: string)
    ensures |s| >= 1
    ensures i < 0 <==> s[0] == '-'
    ensures forall k :: (if i < 0 then 1 else 0) <= k < |s| ==> IsDigit(s[k])
  {
    if i < 0 then "-" + NatToString(-i) else NatToString(i)
  }

  /** Reads back a decimal integer written by IntToString; None for any other text. */
  function ParseInt(s: string): (r: Option<int>)
  {
    if |s| > 0 && s[0] == '-' && |s| > 1 && forall k :: 1 <= k < |s| ==> IsDigit(s[k]) then
      var n: int := ParseNat(s[1..]);
      Some(-n)
    else if |s| > 0 && forall k :: 0 <= k < |s| ==> IsDigit(s[k]) then
      Some(ParseNat(s))
    else None
  }

  datatype Option<T> = None | Some(value: T)

  lemma IntToStringRoundTrip(i: int)
    ensures ParseInt(IntToString(i)) == Some(i)
  {
    var s := IntToString(i);
    if i < 0 {
      var d := NatToString(-i);
      assert s[1..] == d;
      ParseNatToString(-i);
      var n: int := ParseNat(d);
      assert ParseInt(s) == Some(-n);
    } else {
      ParseNatToString(i);
      assert s[0] != '-';
      var n: int := ParseNat(s);
      assert ParseInt(s) == Some(n);
    }
  }

  lemma IntToStringInjective(i: int, j: int)
    requires IntToString(i) == IntToString(j)
    ensures i == j
  {
    IntToStringRoundTrip(i);
    IntToStringRoundTrip(j);
  }

  // ---------------------------------------------------------------------
  // Canonical display text

  function CellText(c: Cell): string {
    match c
    case Int(i) => IntToString(i)
    case Str(s) => s
    case Bool(b) => if b then "true" else "false"
    case Nil => ""
  }

  function UpperChar(ch: char): char {
    if 'a' <= ch <= 'z' then (ch as int - 'a' as int + 'A' as int) as char else ch
  }

  /** ASCII upper-casing applied to header (and footer) text by the styles. */
  function Upper(s: string): (r: string)
    ensures |r| == |s|
    ensures forall k :: 0 <= k < |s| ==> r[k] == UpperChar(s[k])
  {
    seq(|s|, k requires 0 <= k < |s| => UpperChar(s[k]))
  }

  // ---------------------------------------------------------------------
  // Splitting a cell's text into display lines

  /** The text with every carriage return removed ("\r\n" becomes "\n"). */
  function StripCR(s: string): (r: string)
    ensures '\r' !in r
    ensures |r| <= |s|
    ensures '\r' !in s ==> r == s
    decreases |s|
  {
    if |s| == 0 then ""
    else if s[0] == '\r' then StripCR(s[1..])
    else [s[0]] + StripCR(s[1..])
  }

  /** Splits s at every occurrence of sep; there is always at least one piece. */
  function SplitOn(s: string, sep: char): (r: seq<string>)
    ensures |r| >= 1
    ensures forall k :: 0 <= k < |r| ==> sep !in r[k]
    decreases |s|
  {
    if |s| == 0 then [""]
    else
      var rest := SplitOn(s[1..], sep);
      if s[0] == sep then [""] + rest
      else [[s[0]] + rest[0]] + rest[1..]
  }

  /** A character absent from the text is absent from every piece. */
  lemma {:induction false} SplitAvoids(s: string, sep: char, ch: char)
    requires ch !in s
    ensures forall k :: 0 <= k < |SplitOn(s, sep)| ==> ch !in SplitOn(s, sep)[k]
    decreases |s|
  {
    if |s| > 0 {
      assert ch !in s[1..] by { assert forall j :: 0 <= j < |s[1..]| ==> s[1..][j] == s[j + 1]; }
      SplitAvoids(s[1..], sep, ch);
      var rest := SplitOn(s[1..], sep);
      assert s[0] != ch by { assert s[0] in s; }
      if s[0] != sep {
        assert ch !in [s[0]] + rest[0];
        forall k | 0 <= k < |rest[1..]| ensures ch !in rest[1..][k] {
          assert rest[1..][k] == rest[k + 1];
        }
      }
    }
  }

  /** Joins pieces with sep between consecutive pieces. */
  function JoinOn(pieces: seq<string>, sep: string): string
    decreases |pieces|
  {
    if |pieces| == 0 then ""
    else if |pieces| == 1 then pieces[0]
    else pieces[0] + sep + JoinOn(pieces[1..], sep)
  }

  lemma {:induction false} JoinSplit(s: string, sep: char)
    ensures JoinOn(SplitOn(s, sep), [sep]) == s
    decreases |s|
  {
    if |s| > 0 {
      var rest := SplitOn(s[1..], sep);
      JoinSplit(s[1..], sep);
      if s[0] != sep {
        if |rest| > 1 {
          assert rest == [rest[0]] + rest[1..];
          assert JoinOn(rest, [sep]) == rest[0] + [sep] + JoinOn(rest[1..], [sep]);
          assert [[s[0]] + rest[0]] + rest[1..] == [[s[0]] + rest[0]] + rest[1..];
        }
      }
    }
  }

  lemma {:induction false} SplitJoin(pieces: seq<string>, sep: char)
    requires |pieces| >= 1
    requires forall k :: 0 <= k < |pieces| ==> sep !in pieces[k]
    ensures SplitOn(JoinOn(pieces, [sep]), sep) == pieces
    decreases |pieces|, |pieces[0]|
  {
    var p := pieces[0];
    if |p| == 0 {
      if |pieces| > 1 {
        var j := JoinOn(pieces, [sep]);
        assert j == [sep] + JoinOn(pieces[1..], [sep]);
        assert j[1..] == JoinOn(pieces[1..], [sep]);
        SplitJoin(pieces[1..], sep);
        assert pieces == [""] + pieces[1..];
      }
    } else {
      var shorter := [p[1..]] + pieces[1..];
      assert forall k :: 0 <= k < |shorter| ==> sep !in shorter[k] by {
        forall k | 0 <= k < |shorter| ensures sep !in shorter[k] {
          if k == 0 {
            assert forall j :: 0 <= j < |p[1..]| ==> p[1..][j] == p[j + 1];
          } else {
            assert shorter[k] == pieces[k];
          }
        }
      }
      SplitJoin(shorter, sep);
      var j := JoinOn(pieces, [sep]);
      var js := JoinOn(shorter, [sep]);
      if |pieces| == 1 {
        assert j == p;
        assert js == p[1..];
      } else {
        assert j == p + [sep] + JoinOn(pieces[1..], [sep]);
        assert js == p[1..] + [sep] + JoinOn(pieces[1..], [sep]);
      }
      assert j == [p[0]] + js;
      assert j[0] == p[0] && j[1..] == js;
      assert p[0] != sep by { assert p[0] in p; }
      assert [p[0]] + p[1..] == p;
    }
  }

  lemma {:induction false} SplitCount(s: string, sep: char)
    ensures |SplitOn(s, sep)| == Count(s, sep) + 1
    decreases |s|
  {
    if |s| > 0 {
      SplitCount(s[1..], sep);
    }
  }

  function Count(s: string, ch: char): nat
    decreases |s|
  {
    if |s| == 0 then 0 else (if s[0] == ch then 1 else 0) + Count(s[1..], ch)
  }

  /** The display lines of a cell: its text (upper-cased when asked), without
      carriage returns, split at every line feed. */
  function CellLines(c: Cell, upper: bool): (lines: seq<string>)
    ensures |lines| >= 1
    ensures forall k :: 0 <= k < |lines| ==> '\n' !in lines[k] && '\r' !in lines[k]
  {
    var t := CellText(c);
    var s := StripCR(if upper then Upper(t) else t);
    SplitAvoids(s, '\n', '\r');
    SplitOn(s, '\n')
  }

  lemma CellLinesJoin(c: Cell, upper: bool)
    ensures var t := if upper then Upper(CellText(c)) else CellText(c);
            JoinOn(CellLines(c, upper), "\n") == StripCR(t)
  {
    var t := if upper then Upper(CellText(c)) else CellText(c);
    JoinSplit(StripCR(t), '\n');
  }

  /** A cell whose text has a "\r\n" break and a "\n" break shows three lines. */
  lemma ThreeLineCell(x: string, y: string, z: string)
    requires '\n' !in x && '\r' !in x && '\n' !in y && '\r' !in y && '\n' !in z && '\r' !in z
    ensures CellLines(Str(x + "\r\n" + y + "\n" + z), false) == [x, y, z]
  {
    var b := "\n" + y + "\n" + z;
    assert x + "\r\n" + y + "\n" + z == x + "\r" + b;
    StripCRExample(x, b);
    var pieces := [x, y, z];
    assert pieces[1..][1..] == [z];
    assert JoinOn(pieces[1..], "\n") == y + "\n" + z;
    assert JoinOn(pieces, "\n") == x + b;
    SplitJoin(pieces, '\n');
  }

  /** The multi-line cell of the auto-index test row. */
  lemma MultiLineCellExample()
    ensures CellLines(Str("Coming." + "\r\n" + "The North Remembers!" + "\n" + "This is known."), false)
            == ["Coming.", "The North Remembers!", "This is known."]
  {
    var x, y, z := "Coming.", "The North Remembers!", "This is known.";
    assert '\n' !in x && '\r' !in x;
    assert '\n' !in y && '\r' !in y;
    assert '\n' !in z && '\r' !in z;
    ThreeLineCell(x, y, z);
  }

  lemma StripCRExample(a: string, b: string)
    requires '\r' !in a && '\r' !in b
    ensures StripCR(a + "\r" + b) == a + b
  {
    StripCRConcat(a + "\r", b);
    StripCRConcat(a, "\r");
  }

  lemma {:induction false} StripCRConcat(a: string, b: string)
    ensures StripCR(a + b) == StripCR(a) + StripCR(b)
    decreases |a|
  {
    if |a| > 0 {
      assert (a + b)[1..] == a[1..] + b;
      StripCRConcat(a[1..], b);
    } else {
      assert a + b == b;
    }
  }
}
