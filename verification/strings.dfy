/**
 * String helpers shared by the generator: the prefix and substring tests the
 * source writes with `find`/`rfind`, the space-separated lists the build-file
 * syntax uses, and a reader that splits a line back into its words the way a
 * Ninja lexer does.
 */
module Strings {

  /** `p` is a prefix of `s`: what `s.find(p) == 0` tests. */
  predicate StartsWith(s: string, p: string) {
    |p| <= |s| && s[..|p|] == p
  }

  /** `t` occurs somewhere in `s`: what `s.rfind(t) != npos` tests. */
  predicate Contains(s: string, t: string)
    decreases |s|
  {
    StartsWith(s, t) || (|s| > 0 && Contains(s[1..], t))
  }

  /** Whatever precedes it, a string ending in `t` contains `t`. */
  lemma {:induction false} ContainsSuffix(s: string, t: string)
    ensures Contains(s + t, t)
  {
    if s == [] {
      assert s + t == t;
    } else {
      ContainsSuffix(s[1..], t);
      assert (s + t)[1..] == s[1..] + t;
    }
  }

  /** Every element followed by one space: `for (x : xs) os << x << ' '`. */
  function Spaced(xs: seq<string>): string {
    if xs == [] then "" else xs[0] + " " + Spaced(xs[1..])
  }

  /** Every element preceded by one space: `for (x : xs) os << " " << x`. */
  function Prefixed(xs: seq<string>): string {
    if xs == [] then "" else " " + xs[0] + Prefixed(xs[1..])
  }

  /** Concatenation regroups freely. */
  lemma Associative<T>(a: seq<T>, b: seq<T>, c: seq<T>)
    ensures (a + b) + c == a + (b + c)
  {
  }

  /** A word: non-empty and free of spaces, so a lexer reads it as one token. */
  predicate IsWord(w: string) {
    w != [] && ' ' !in w
  }

  predicate AllWords(ws: seq<string>) {
    forall i :: 0 <= i < |ws| ==> IsWord(ws[i])
  }

  /** The longest space-free prefix of `s`. */
  function FirstWord(s: string): (w: string)
    ensures |w| <= |s| && w == s[..|w|] && ' ' !in w
    ensures |w| < |s| ==> s[|w|] == ' '
  {
    if s == [] || s[0] == ' ' then "" else s[..1] + FirstWord(s[1..])
  }

  /** The words of `s`: split at spaces, empty pieces dropped. */
  function Tokens(s: string): seq<string>
    decreases |s|
  {
    if s == [] then []
    else if s[0] == ' ' then Tokens(s[1..])
    else
      var w := FirstWord(s);
      [w] + Tokens(s[|w|..])
  }

  lemma {:induction false} FirstWordBeforeSpace(a: string, b: string)
    requires a != [] && a[0] != ' '
    ensures FirstWord(a + " " + b) == FirstWord(a)
  {
    if |a| > 1 && a[1] != ' ' {
      FirstWordBeforeSpace(a[1..], b);
      assert (a + " " + b)[1..] == a[1..] + " " + b;
    } else if |a| == 1 {
      assert (a + " " + b)[1..] == " " + b;
    } else {
      assert (a + " " + b)[1..] == a[1..] + " " + b;
    }
  }

  /** A space separates: the words of `a + " " + b` are those of `a`, then those of `b`. */
  lemma {:induction false} TokensSeparated(a: string, b: string)
    ensures Tokens(a + " " + b) == Tokens(a) + Tokens(b)
    decreases |a|
  {
    var s := a + " " + b;
    if a == [] {
      assert s == " " + b;
      assert s[1..] == b;
    } else if a[0] == ' ' {
      assert s[1..] == a[1..] + " " + b;
      TokensSeparated(a[1..], b);
    } else {
      FirstWordBeforeSpace(a, b);
      var w := FirstWord(a);
      assert |w| >= 1 by { assert a[..1] + FirstWord(a[1..]) == w; }
      assert s[|w|..] == a[|w|..] + " " + b;
      TokensSeparated(a[|w|..], b);
    }
  }

  /** Joining at a space boundary: when `a` ends or `b` starts with a space (or either is empty). */
  lemma {:induction false} TokensJoin(a: string, b: string)
    requires a == [] || b == [] || a[|a| - 1] == ' ' || b[0] == ' '
    ensures Tokens(a + b) == Tokens(a) + Tokens(b)
  {
    if a == [] {
      assert a + b == b;
    } else if b == [] {
      assert a + b == a;
    } else if a[|a| - 1] == ' ' {
      var a' := a[..|a| - 1];
      assert a == a' + " " + "";
      assert a + b == a' + " " + b;
      TokensSeparated(a', b);
      TokensSeparated(a', "");
    } else {
      var b' := b[1..];
      assert b == "" + " " + b';
      assert a + b == a + " " + b';
      TokensSeparated(a, b');
      TokensSeparated("", b');
    }
  }

  /** A word reads back as itself. */
  lemma {:induction false} TokensOfWord(w: string)
    requires IsWord(w)
    ensures Tokens(w) == [w]
  {
    assert FirstWord(w) == w by { FirstWordAll(w); }
    assert w[|w|..] == [];
  }

  lemma {:induction false} FirstWordAll(w: string)
    requires ' ' !in w
    ensures FirstWord(w) == w
  {
    if w != [] {
      FirstWordAll(w[1..]);
      assert w[..1] + w[1..] == w;
    }
  }

  /** Two words joined by a space read back as the pair. */
  lemma TwoWords(w: string, v: string)
    requires IsWord(w) && IsWord(v)
    ensures Tokens(w + " " + v) == [w, v]
  {
    TokensSeparated(w, v);
    TokensOfWord(w);
    TokensOfWord(v);
  }

  /** A space-separated list of words reads back as the list: the partner of `Spaced`. */
  lemma {:induction false} TokensOfSpaced(xs: seq<string>)
    requires AllWords(xs)
    ensures Tokens(Spaced(xs)) == xs
  {
    if xs != [] {
      TokensOfSpaced(xs[1..]);
      TokensSeparated(xs[0], Spaced(xs[1..]));
      TokensOfWord(xs[0]);
    }
  }

  /** A leading space is skipped. */
  lemma TokensLeadingSpace(r: string)
    ensures Tokens(" " + r) == Tokens(r)
  {
    assert (" " + r)[1..] == r;
  }

  /** The partner of `Prefixed`. */
  lemma {:induction false} TokensOfPrefixed(xs: seq<string>)
    requires AllWords(xs)
    ensures Tokens(Prefixed(xs)) == xs
  {
    if xs != [] {
      var rest := Prefixed(xs[1..]);
      TokensOfPrefixed(xs[1..]);
      TokensOfWord(xs[0]);
      assert Prefixed(xs) == " " + (xs[0] + rest);
      TokensLeadingSpace(xs[0] + rest);
      SpacedEnds(xs[1..]);
      TokensJoin(xs[0], rest);
    }
  }

  /** `Spaced` ends in a space unless empty; `Prefixed` starts with one unless empty. */
  lemma {:induction false} SpacedEnds(xs: seq<string>)
    ensures Spaced(xs) == [] || Spaced(xs)[|Spaced(xs)| - 1] == ' '
    ensures Prefixed(xs) == [] || Prefixed(xs)[0] == ' '
  {
    if xs != [] {
      SpacedEnds(xs[1..]);
      if xs[1..] == [] {
        assert Spaced(xs) == xs[0] + " ";
      }
    }
  }
}
