/**
 * Algebraic chess coordinates ("e4") and the board's array indices.
 * File letters 'a'..'h' name the columns 0..7 from left to right; rank digits
 * '8'..'1' name the rows 0..7 from the top, so row 0 is Black's back rank.
 */
module ChessCoordinates {
  import opened Wrappers

  /** A square as array indices: `x` is the column, `y` the row (both `usize` in the source). */
  datatype Position = Position(x: nat, y: nat)

  /** The column labels, indexed by `x`. */
  const ColLabels: seq<char> := "abcdefgh"

  /** The row labels, indexed by `y`: row 0 is rank 8. */
  const RowLabels: seq<char> := "87654321"

  /** The characters Rust's `str::trim` removes: those with the Unicode White_Space property. */
  predicate IsWhitespace(ch: char)
  {
    '\U{0009}' <= ch <= '\U{000D}' || ch == ' ' || ch == '\U{0085}' || ch == '\U{00A0}' ||
    ch == '\U{1680}' || '\U{2000}' <= ch <= '\U{200A}' || ch == '\U{2028}' || ch == '\U{2029}' ||
    ch == '\U{202F}' || ch == '\U{205F}' || ch == '\U{3000}'
  }

  /** `s` without its leading whitespace. */
  function TrimStart(s: string): (r: string)
    ensures |r| <= |s| && r == s[|s| - |r|..]
    ensures forall i :: 0 <= i < |s| - |r| ==> IsWhitespace(s[i])
    ensures |r| > 0 ==> !IsWhitespace(r[0])
  {
    if |s| > 0 && IsWhitespace(s[0]) then TrimStart(s[1..]) else s
  }

  /** `s` without its trailing whitespace. */
  function TrimEnd(s: string): (r: string)
    ensures |r| <= |s| && r == s[..|r|]
    ensures forall i :: |r| <= i < |s| ==> IsWhitespace(s[i])
    ensures |r| > 0 ==> !IsWhitespace(r[|r| - 1])
  {
    if |s| > 0 && IsWhitespace(s[|s| - 1]) then TrimEnd(s[..|s| - 1]) else s
  }

  /** `s` without leading and trailing whitespace, as `str::trim`. */
  function Trim(s: string): (r: string)
    ensures |r| > 0 ==> !IsWhitespace(r[0]) && !IsWhitespace(r[|r| - 1])
  {
    var t := TrimStart(s);
    TrimEndKeepsStart(t);
    TrimEnd(t)
  }

  /** Trimming the end of text that does not start with whitespace leaves it so. */
  lemma TrimEndKeepsStart(t: string)
    requires |t| > 0 ==> !IsWhitespace(t[0])
    ensures var u := TrimEnd(t); |u| > 0 ==> !IsWhitespace(u[0])
  {
    var u := TrimEnd(t);
    if |u| > 0 {
      assert u[0] == t[0];
    }
  }

  /** The index of the first occurrence of `ch` in `labels`, as `Iterator::position`. */
  function IndexOf(labels: seq<char>, ch: char): (r: Option<nat>)
    ensures r.None? <==> ch !in labels
    ensures r.Some? ==> r.value < |labels| && labels[r.value] == ch && ch !in labels[..r.value]
  {
    if |labels| == 0 then None
    else if labels[0] == ch then Some(0)
    else match IndexOf(labels[1..], ch)
      case None => None
      case Some(i) => Some(i + 1)
  }

  /**
   * Parses a coordinate such as "d3" into array indices. Only the first two characters
   * of the trimmed text are read: a file letter and a rank digit. Text shorter than two
   * characters, or characters outside the label sets, make the source panic: `None` here.
   */
  function ParseCoordinate(input: string): (r: Option<Position>)
    ensures r.Some? <==> |Trim(input)| >= 2 && Trim(input)[0] in ColLabels && Trim(input)[1] in RowLabels
    ensures r.Some? ==> r.value.x < |ColLabels| && ColLabels[r.value.x] == Trim(input)[0]
    ensures r.Some? ==> r.value.y < |RowLabels| && RowLabels[r.value.y] == Trim(input)[1]
  {
    var t := Trim(input);
    if |t| < 2 then None
    else match IndexOf(ColLabels, t[0])
      case None => None
      case Some(x) =>
        match IndexOf(RowLabels, t[1])
        case None => None
        case Some(y) => Some(Position(x, y))
  }

  /** A position outside the 8 x 8 board. The source also tests `x < 0` and `y < 0`, which `usize` never is. */
  function OffBoard(x: nat, y: nat): (r: bool)
    ensures !r <==> x < |ColLabels| && y < |RowLabels|
  {
    x > 7 || x < 0 || y > 7 || y < 0
  }

  /** No label is whitespace, and no label occurs twice. */
  lemma LabelsDistinct()
    ensures forall i :: 0 <= i < 8 ==> !IsWhitespace(ColLabels[i]) && !IsWhitespace(RowLabels[i])
    ensures forall i, j :: 0 <= i < j < 8 ==> ColLabels[i] != ColLabels[j] && RowLabels[i] != RowLabels[j]
  {
  }

  /** Leading whitespace is dropped and text starting with a non-space is kept whole. */
  lemma {:induction false} TrimStartSkips(pre: string, s: string)
    requires forall i :: 0 <= i < |pre| ==> IsWhitespace(pre[i])
    requires |s| > 0 && !IsWhitespace(s[0])
    ensures TrimStart(pre + s) == s
  {
    if |pre| > 0 {
      assert (pre + s)[1..] == pre[1..] + s;
      TrimStartSkips(pre[1..], s);
    } else {
      assert pre + s == s;
    }
  }

  /** Trimming the end never touches the first two characters when neither is whitespace. */
  lemma TrimEndKeepsPrefix(s: string)
    requires |s| >= 2 && !IsWhitespace(s[0]) && !IsWhitespace(s[1])
    ensures |TrimEnd(s)| >= 2 && TrimEnd(s)[0] == s[0] && TrimEnd(s)[1] == s[1]
  {
    var second := s[1];
    assert |TrimEnd(s)| <= 1 ==> IsWhitespace(second);
  }

  /**
   * Rendering a square with the labels and parsing it back gives the square again,
   * whatever whitespace comes before and whatever text comes after the two characters.
   */
  lemma ParseRoundTrip(pre: string, x: nat, y: nat, rest: string)
    requires forall i :: 0 <= i < |pre| ==> IsWhitespace(pre[i])
    requires x < 8 && y < 8
    ensures ParseCoordinate(pre + [ColLabels[x], RowLabels[y]] + rest) == Some(Position(x, y))
  {
    LabelsDistinct();
    var s := [ColLabels[x], RowLabels[y]] + rest;
    assert pre + [ColLabels[x], RowLabels[y]] + rest == pre + s;
    TrimStartSkips(pre, s);
    TrimEndKeepsPrefix(s);
    var r := ParseCoordinate(pre + s);
    assert r.Some?;
    assert ColLabels[r.value.x] == ColLabels[x];
    assert RowLabels[r.value.y] == RowLabels[y];
  }

  /** File letter number f (from 'a') is column f, and rank digit d is row 8 - d. */
  lemma ParseFileAndRank(f: nat, d: nat)
    requires f < 8 && 1 <= d <= 8
    ensures ParseCoordinate([('a' as int + f) as char, ('0' as int + d) as char]) == Some(Position(f, 8 - d))
  {
    assert ColLabels[f] == ('a' as int + f) as char;
    assert RowLabels[8 - d] == ('0' as int + d) as char;
    ParseRoundTrip([], f, 8 - d, []);
    assert [] + [ColLabels[f], RowLabels[8 - d]] + [] == [ColLabels[f], RowLabels[8 - d]];
  }

  /** The first case of the source's unit tests: "c4" is (2, 4). */
  lemma ParseC4()
    ensures ParseCoordinate("c4") == Some(Position(2, 4))
  {
    ParseRoundTrip([], 2, 4, []);
    assert "c4" == [] + [ColLabels[2], RowLabels[4]] + [];
  }

  /** The second case of the source's unit tests: "d3" is (3, 5). */
  lemma ParseD3()
    ensures ParseCoordinate("d3") == Some(Position(3, 5))
  {
    ParseRoundTrip([], 3, 5, []);
    assert "d3" == [] + [ColLabels[3], RowLabels[5]] + [];
  }

  /** "z9" does not parse: 'z' is not a file letter. */
  lemma ParseRejectsZ9()
    ensures ParseCoordinate("z9") == None
  {
    assert TrimStart("z9") == "z9";
    assert TrimEnd("z9") == "z9";
    assert 'z' !in ColLabels;
  }

  /** Every parsed square is on the board. */
  lemma ParsedIsOnBoard(input: string)
    requires ParseCoordinate(input).Some?
    ensures !OffBoard(ParseCoordinate(input).value.x, ParseCoordinate(input).value.y)
  {
  }
}
