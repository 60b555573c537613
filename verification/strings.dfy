/** The two string operations the script relies on: ASCII case folding, as
    `str.lower()` acts on option names, and joining a list with single
    spaces, as `" ".join(...)` does in `listToString`. */
module Strings {

  predicate IsUpperChar(c: char) { 'A' <= c <= 'Z' }

  predicate IsLowerChar(c: char) { 'a' <= c <= 'z' }

  /** True when `s` holds no upper-case ASCII letter. */
  predicate NoUpper(s: string) {
    forall i :: 0 <= i < |s| ==> !IsUpperChar(s[i])
  }

  function LowerChar(c: char): (d: char)
    ensures !IsUpperChar(d)
  {
    if IsUpperChar(c) then (c as int + 32) as char else c
  }

  function UpperChar(c: char): (d: char)
    ensures !IsLowerChar(d)
  {
    if IsLowerChar(c) then (c as int - 32) as char else c
  }

  /** Python's `str.lower()` restricted to ASCII letters. */
  function ToLower(s: string): (r: string)
    ensures |r| == |s|
    ensures forall i :: 0 <= i < |s| ==> r[i] == LowerChar(s[i])
  {
    if |s| == 0 then "" else [LowerChar(s[0])] + ToLower(s[1..])
  }

  /** Capitalises ASCII letters. The program never upper-cases anything;
      this builds the capitalised names that case-insensitive validation
      must accept. */
  function ToUpper(s: string): (r: string)
    ensures |r| == |s|
    ensures forall i :: 0 <= i < |s| ==> r[i] == UpperChar(s[i])
  {
    if |s| == 0 then "" else [UpperChar(s[0])] + ToUpper(s[1..])
  }

  /** Lower-casing leaves no upper-case letter behind and is idempotent. */
  lemma ToLowerIdempotent(s: string)
    ensures NoUpper(ToLower(s))
    ensures ToLower(ToLower(s)) == ToLower(s)
  {
    var t := ToLower(s);
    forall i | 0 <= i < |t|
      ensures ToLower(t)[i] == t[i]
    {
      assert !IsUpperChar(t[i]);
    }
  }

  /** A string is its own lower-case form exactly when it has no upper-case letter. */
  lemma ToLowerFixedPoint(s: string)
    ensures ToLower(s) == s <==> NoUpper(s)
  {
    if NoUpper(s) {
      forall i | 0 <= i < |s|
        ensures ToLower(s)[i] == s[i]
      {
        assert !IsUpperChar(s[i]);
      }
    }
  }

  /** Upper-casing a string without capitals and lower-casing the result gives
      the string back: case changes are undone by `lower()`. */
  lemma LowerUndoesUpper(s: string)
    requires NoUpper(s)
    ensures ToLower(ToUpper(s)) == s
  {
    var u := ToUpper(s);
    forall i | 0 <= i < |s|
      ensures ToLower(u)[i] == s[i]
    {
      assert !IsUpperChar(s[i]);
    }
  }

  /** True when `s` finishes with `suffix`. */
  predicate EndsWith(s: string, suffix: string) {
    |suffix| <= |s| && s[|s| - |suffix|..] == suffix
  }

  /** Sum of the lengths of the elements of `xs`. */
  function TotalLength(xs: seq<string>): nat
  {
    if |xs| == 0 then 0 else TotalLength(xs[..|xs| - 1]) + |xs[|xs| - 1]|
  }

  /** Python's `" ".join(xs)`: the elements in order, one space between
      neighbours, nothing before the first or after the last. */
  function Join(xs: seq<string>): (r: string)
    ensures |xs| > 0 ==> xs[0] <= r
  {
    if |xs| == 0 then ""
    else if |xs| == 1 then xs[0]
    else Join(xs[..|xs| - 1]) + " " + xs[|xs| - 1]
  }

  /** The joined string is as long as its elements together plus one
      separator between each pair of neighbours. */
  lemma {:induction false} JoinLength(xs: seq<string>)
    requires |xs| > 0
    ensures |Join(xs)| == TotalLength(xs) + |xs| - 1
    decreases |xs|
  {
    if |xs| > 1 {
      JoinLength(xs[..|xs| - 1]);
    }
  }

  /** Where element `i` of `xs` starts inside `Join(xs)`. */
  function Offset(xs: seq<string>, i: nat): nat
    requires i <= |xs|
  {
    TotalLength(xs[..i]) + i
  }

  /** Element `i` of `xs` sits at `Offset(xs, i)` inside `Join(xs)`, and
      unless it is the first element the character just before it is the
      separating space. */
  lemma {:induction false} JoinPiece(xs: seq<string>, i: nat)
    requires i < |xs|
    ensures Offset(xs, i) + |xs[i]| <= |Join(xs)|
    ensures Join(xs)[Offset(xs, i)..Offset(xs, i) + |xs[i]|] == xs[i]
    ensures i > 0 ==> Join(xs)[Offset(xs, i) - 1] == ' '
    decreases |xs|
  {
    var n := |xs| - 1;
    if n == 0 {
      assert xs[..0] == [];
    } else {
      var ys := xs[..n];
      JoinLength(ys);
      assert Join(xs) == Join(ys) + " " + xs[n];
      if i < n {
        JoinPiece(ys, i);
        assert xs[..i] == ys[..i];
        assert Offset(xs, i) == Offset(ys, i);
      } else {
        assert xs[..n] == ys;
        assert Offset(xs, n) == |Join(ys)| + 1;
      }
    }
  }

  /** `Join` seen from the front: the first element, a space, then the rest. */
  lemma {:induction false} JoinCons(xs: seq<string>)
    requires |xs| >= 2
    ensures Join(xs) == xs[0] + " " + Join(xs[1..])
    decreases |xs|
  {
    var n := |xs| - 1;
    if |xs| == 2 {
      assert xs[..n] == [xs[0]];
      assert xs[1..] == [xs[1]];
    } else {
      JoinCons(xs[..n]);
      assert xs[..n][1..] == xs[1..][..|xs[1..]| - 1];
      assert xs[1..][|xs[1..]| - 1] == xs[n];
    }
  }

  /** Text framed by the same prefix and suffix determines what it frames. */
  lemma FramedInjective(a: string, x: string, y: string, b: string)
    requires a + x + b == a + y + b
    ensures x == y
  {
    assert |x| == |y|;
    assert (a + x + b)[|a|..|a| + |x|] == x;
    assert (a + y + b)[|a|..|a| + |y|] == y;
  }

  /** Every element of `ys` followed by one space: what `Join` puts before
      the elements that come after `ys`. */
  function Spaced(ys: seq<string>): string
  {
    if |ys| == 0 then "" else Spaced(ys[..|ys| - 1]) + ys[|ys| - 1] + " "
  }

  /** `Join` seen from a split point: the first `k` elements each followed
      by a space, then the join of the rest. */
  lemma {:induction false} JoinSplit(xs: seq<string>, k: nat)
    requires k < |xs|
    ensures Join(xs) == Spaced(xs[..k]) + Join(xs[k..])
    decreases k
  {
    if k > 0 {
      JoinSplit(xs, k - 1);
      JoinCons(xs[k - 1..]);
      assert xs[k - 1..][1..] == xs[k..];
      assert xs[..k][..k - 1] == xs[..k - 1];
    } else {
      assert xs[0..] == xs;
    }
  }

  /** Adding one more element to the spaced form. */
  lemma SpacedSnoc(xs: seq<string>, k: nat)
    requires k < |xs|
    ensures Spaced(xs[..k + 1]) == Spaced(xs[..k]) + xs[k] + " "
  {
    assert xs[..k + 1][..k] == xs[..k];
  }

  /** Joining ten or more elements gives the first nine elements, each
      followed by a space, then the join of the rest. */
  lemma JoinFirstNine(xs: seq<string>)
    requires |xs| > 9
    ensures Join(xs) == xs[0] + " " + xs[1] + " " + xs[2] + " " + xs[3] + " " + xs[4] + " "
                        + xs[5] + " " + xs[6] + " " + xs[7] + " " + xs[8] + " " + Join(xs[9..])
  {
    JoinSplit(xs, 9);
    assert xs[..0] == [];
    SpacedSnoc(xs, 0);
    assert Spaced(xs[..1]) == xs[0] + " ";
    SpacedSnoc(xs, 1);
    SpacedSnoc(xs, 2);
    SpacedSnoc(xs, 3);
    SpacedSnoc(xs, 4);
    SpacedSnoc(xs, 5);
    SpacedSnoc(xs, 6);
    SpacedSnoc(xs, 7);
    SpacedSnoc(xs, 8);
  }

  /** Joining three or more elements gives the join of all but the last
      two, then each of the last two after a space. */
  lemma JoinLastTwo(xs: seq<string>)
    requires |xs| >= 3
    ensures Join(xs) == Join(xs[..|xs| - 2]) + " " + xs[|xs| - 2] + " " + xs[|xs| - 1]
  {
    var n := |xs|;
    assert xs[..n - 1][..n - 2] == xs[..n - 2];
  }

  /** Joining four or more elements gives the join of all but the last
      three, then each of the last three after a space. */
  lemma JoinLastThree(xs: seq<string>)
    requires |xs| >= 4
    ensures Join(xs) == Join(xs[..|xs| - 3]) + " " + xs[|xs| - 3] + " " + xs[|xs| - 2] + " " + xs[|xs| - 1]
  {
    var n := |xs|;
    assert xs[..n - 1][..n - 2] == xs[..n - 2];
    assert xs[..n - 2][..n - 3] == xs[..n - 3];
  }
}
