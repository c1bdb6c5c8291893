/** String helpers shared by the key builders, the glob matcher and the TLS rule. */
module Strings {

  /** Python's `s.startswith(p)`. */
  predicate StartsWith(s: string, p: string) {
    |p| <= |s| && s[..|p|] == p
  }

  /** Python's `sub in s` on strings: `sub` occurs at some position of `s`. */
  predicate Contains(s: string, sub: string)
    decreases |s|
  {
    StartsWith(s, sub) || (s != [] && Contains(s[1..], sub))
  }

  /** Python's `sep.join(xs)` with a one-character separator. */
  function Join(xs: seq<string>, sep: char): string {
    if |xs| == 0 then ""
    else if |xs| == 1 then xs[0]
    else xs[0] + [sep] + Join(xs[1..], sep)
  }

  /** Python's `s.split(sep)`: the pieces between separators; always at least one piece. */
  function Split(s: string, sep: char): (r: seq<string>)
    ensures |r| >= 1
    decreases |s|
  {
    if s == [] then [""]
    else
      var rest := Split(s[1..], sep);
      if s[0] == sep then [""] + rest else [[s[0]] + rest[0]] + rest[1..]
  }

  /** No piece of `xs` contains the separator. */
  predicate SepFree(xs: seq<string>, sep: char) {
    forall i :: 0 <= i < |xs| ==> sep !in xs[i]
  }

  /** ASCII lower-casing of one character. */
  function LowerChar(c: char): char {
    if 'A' <= c <= 'Z' then (c as int + 32) as char else c
  }

  /** `s.lower()` for ASCII text. */
  function Lower(s: string): (r: string)
    ensures |r| == |s|
  {
    seq(|s|, i requires 0 <= i < |s| => LowerChar(s[i]))
  }

  lemma {:induction false} JoinAppend(xs: seq<string>, ys: seq<string>, sep: char)
    requires xs != [] && ys != []
    ensures Join(xs + ys, sep) == Join(xs, sep) + [sep] + Join(ys, sep)
    decreases |xs|
  {
    if |xs| == 1 {
      assert xs + ys == [xs[0]] + ys;
      assert (xs + ys)[1..] == ys;
    } else {
      JoinAppend(xs[1..], ys, sep);
      assert (xs + ys)[1..] == xs[1..] + ys;
    }
  }

  /** Joining with one element in the middle: the element sits between the two joined halves. */
  lemma JoinAround(a: seq<string>, x: string, b: seq<string>, sep: char)
    ensures Join(a + [x] + b, sep)
         == (if a == [] then "" else Join(a, sep) + [sep]) + x + (if b == [] then "" else [sep] + Join(b, sep))
  {
    if a == [] && b == [] {
      assert a + [x] + b == [x];
    } else if a == [] {
      assert a + [x] + b == [x] + b;
      JoinAppend([x], b, sep);
    } else if b == [] {
      assert a + [x] + b == a + [x];
      JoinAppend(a, [x], sep);
    } else {
      assert a + [x] + b == a + ([x] + b);
      JoinAppend(a, [x] + b, sep);
      JoinAppend([x], b, sep);
    }
  }

  /** Equal surroundings cancel: the middle parts must agree. */
  lemma CancelAround(l: string, x: string, y: string, r: string)
    requires l + x + r == l + y + r
    ensures x == y
  {
    var s := l + x + r;
    assert |x| == |y|;
    assert s[|l|..|l| + |x|] == x;
    assert (l + y + r)[|l|..|l| + |y|] == y;
  }

  /** Changing one element to a different string changes the joined text. */
  lemma JoinSensitive(a: seq<string>, x: string, y: string, b: seq<string>, sep: char)
    requires x != y
    ensures Join(a + [x] + b, sep) != Join(a + [y] + b, sep)
  {
    JoinAround(a, x, b, sep);
    JoinAround(a, y, b, sep);
    var l := if a == [] then "" else Join(a, sep) + [sep];
    var r := if b == [] then "" else [sep] + Join(b, sep);
    if Join(a + [x] + b, sep) == Join(a + [y] + b, sep) {
      CancelAround(l, x, y, r);
    }
  }

  lemma {:induction false} SplitPiece(x: string, sep: char)
    requires sep !in x
    ensures Split(x, sep) == [x]
    decreases |x|
  {
    if x != [] {
      SplitPiece(x[1..], sep);
      assert [x[0]] + x[1..] == x;
    }
  }

  lemma {:induction false} SplitCons(x: string, rest: string, sep: char)
    requires sep !in x
    ensures Split(x + [sep] + rest, sep) == [x] + Split(rest, sep)
    decreases |x|
  {
    var s := x + [sep] + rest;
    if x == [] {
      assert s == [sep] + rest;
      assert s[1..] == rest;
    } else {
      assert s[1..] == x[1..] + [sep] + rest;
      SplitCons(x[1..], rest, sep);
      assert [x[0]] + x[1..] == x;
    }
  }

  /** Splitting undoes joining when no piece contains the separator. */
  lemma {:induction false} SplitJoin(xs: seq<string>, sep: char)
    requires |xs| >= 1 && SepFree(xs, sep)
    ensures Split(Join(xs, sep), sep) == xs
    decreases |xs|
  {
    if |xs| == 1 {
      SplitPiece(xs[0], sep);
    } else {
      SplitJoin(xs[1..], sep);
      SplitCons(xs[0], Join(xs[1..], sep), sep);
      assert [xs[0]] + xs[1..] == xs;
    }
  }

  /** A text containing `sub` contains its first character. */
  lemma {:induction false} ContainsHead(s: string, sub: string)
    requires sub != [] && Contains(s, sub)
    ensures sub[0] in s
    decreases |s|
  {
    if !StartsWith(s, sub) {
      ContainsHead(s[1..], sub);
    }
  }

  /** A prefix that holds for `a` holds for `a + b`. */
  lemma StartsWithAppend(a: string, b: string, p: string)
    requires StartsWith(a, p)
    ensures StartsWith(a + b, p)
  {
    assert (a + b)[..|p|] == a[..|p|];
  }
}
