/** The text form of a multiselect value: `", ".join(products)` when a row is
    built (streamlit_app.py:180) and `value.split(", ")` when a stored value
    becomes the widget's default (streamlit_app.py:124). */
module Multiselect {

  /** `", ".join(xs)`. */
  function Join(xs: seq<string>): (r: string)
    ensures xs == [] ==> r == ""
    ensures |xs| == 1 ==> r == xs[0]
    ensures |xs| > 1 ==> |r| >= |xs[0]| + 2 && r[..|xs[0]| + 2] == xs[0] + ", "
  {
    if xs == [] then ""
    else if |xs| == 1 then xs[0]
    else xs[0] + ", " + Join(xs[1..])
  }

  /** `s.split(", ")`: cut at each leftmost, non-overlapping `", "`. The
      result is never empty: `"".split(", ")` is `[""]`. */
  function Split(s: string): (r: seq<string>)
    ensures |r| >= 1
  {
    if |s| >= 2 && s[0] == ',' && s[1] == ' ' then [""] + Split(s[2..])
    else if s == [] then [""]
    else
      var rest := Split(s[1..]);
      [[s[0]] + rest[0]] + rest[1..]
  }

  /** `x` holds no `", "`. */
  predicate NoSeparator(x: string) {
    forall i :: 0 <= i < |x| - 1 ==> !(x[i] == ',' && x[i + 1] == ' ')
  }

  /** A piece without the separator splits to itself. */
  lemma {:induction false} SplitWhole(x: string)
    requires NoSeparator(x)
    ensures Split(x) == [x]
  {
    if |x| >= 2 {
      assert !(x[0] == ',' && x[1] == ' ');
      SplitWhole(x[1..]);
      assert [x[0]] + x[1..] == x;
    } else if |x| == 1 {
      assert x[1..] == [];
      assert [x[0]] + x[1..] == x;
    }
  }

  /** Splitting stops exactly at the first separator after a clean piece. */
  lemma {:induction false} SplitAfterPiece(x: string, rest: string)
    requires NoSeparator(x)
    ensures Split(x + ", " + rest) == [x] + Split(rest)
    decreases |x|
  {
    var s := x + ", " + rest;
    if x == [] {
      assert s == ", " + rest;
      assert s[2..] == rest;
    } else {
      assert s[0] == x[0];
      assert !(s[0] == ',' && s[1] == ' ') by {
        if |x| >= 2 { assert s[1] == x[1]; } else { assert s[1] == ','; }
      }
      assert s[1..] == x[1..] + ", " + rest;
      SplitAfterPiece(x[1..], rest);
      assert [x[0]] + x[1..] == x;
    }
  }

  /** Splitting a join gives the pieces back, provided no piece holds the
      separator and the join is not the empty string (the falsy case the
      caller maps to `[]`). */
  lemma {:induction false} SplitJoin(xs: seq<string>)
    requires xs != [] && forall i :: 0 <= i < |xs| ==> NoSeparator(xs[i])
    ensures Split(Join(xs)) == xs
  {
    if |xs| == 1 {
      SplitWhole(xs[0]);
    } else {
      SplitAfterPiece(xs[0], Join(xs[1..]));
      SplitJoin(xs[1..]);
      assert [xs[0]] + xs[1..] == xs;
    }
  }

  /** The join is empty only for no pieces or one empty piece; so non-empty
      pieces always give a truthy text. */
  lemma JoinEmpty(xs: seq<string>)
    ensures Join(xs) == "" <==> xs == [] || xs == [""]
  {
  }
}
