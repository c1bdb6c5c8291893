/**
 * The glob language of Redis' `SCAN ... MATCH`, restricted to literal
 * characters and `*` (any run of characters, possibly empty).
 */
module Glob {
  import opened Strings

  /** Does the glob `p` match the whole of `s`? */
  predicate Match(p: string, s: string)
    decreases |p| + |s|
  {
    if p == [] then s == []
    else if p[0] == '*' then Match(p[1..], s) || (s != [] && Match(p, s[1..]))
    else s != [] && s[0] == p[0] && Match(p[1..], s[1..])
  }

  /** A literal head of a glob must be a prefix of the text, and the rest matches what follows. */
  lemma {:induction false} MatchLiteralHead(lit: string, rest: string, s: string)
    requires '*' !in lit
    ensures Match(lit + rest, s) <==> StartsWith(s, lit) && Match(rest, s[|lit|..])
    decreases |lit|
  {
    if lit == [] {
      assert lit + rest == rest;
    } else {
      var p := lit + rest;
      assert p[0] == lit[0] && p[1..] == lit[1..] + rest;
      if s != [] {
        MatchLiteralHead(lit[1..], rest, s[1..]);
        if |lit| <= |s| {
          assert s[1..][|lit| - 1..] == s[|lit|..];
          assert s[..|lit|] == [s[0]] + s[1..][..|lit| - 1];
        }
      }
    }
  }

  /** A lone `*` matches every text. */
  lemma {:induction false} StarMatchesAll(s: string)
    ensures Match("*", s)
    decreases |s|
  {
    if s != [] {
      StarMatchesAll(s[1..]);
    }
  }

  /** `*lit*` matches exactly the texts that contain `lit`. */
  lemma {:induction false} MatchInfix(lit: string, s: string)
    requires '*' !in lit
    ensures Match("*" + lit + "*", s) <==> Contains(s, lit)
    decreases |s|
  {
    var p := "*" + lit + "*";
    assert p[1..] == lit + "*";
    MatchLiteralHead(lit, "*", s);
    if StartsWith(s, lit) {
      StarMatchesAll(s[|lit|..]);
    }
    if s != [] {
      MatchInfix(lit, s[1..]);
    }
  }

  /** Any number (at least one) of consecutive stars matches every text. */
  lemma {:induction false} StarsMatchAll(n: nat, s: string)
    requires n >= 1
    ensures Match(seq(n, _ => '*'), s)
    decreases n
  {
    var p := seq(n, _ => '*');
    if n == 1 {
      assert p == "*";
      StarMatchesAll(s);
    } else {
      assert p[1..] == seq(n - 1, _ => '*');
      StarsMatchAll(n - 1, s);
    }
  }
}
