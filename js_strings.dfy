/**
 * The JavaScript string operations the workers rely on, over `seq<char>`:
 * `startsWith`, `split` on a one-character separator, `replaceAll` with a
 * literal search string, and the helpers needed to state their properties.
 */
module JsStrings {

  /** `s.startsWith(p)`. */
  predicate StartsWith(s: string, p: string) {
    |p| <= |s| && s[..|p|] == p
  }

  /** `p` occurs in `s` starting at index `i`. */
  predicate OccursAt(s: string, i: nat, p: string) {
    i + |p| <= |s| && s[i..i + |p|] == p
  }

  /** `p` occurs somewhere in `s` (`s.includes(p)`). */
  predicate Contains(s: string, p: string) {
    exists i: nat | i <= |s| :: OccursAt(s, i, p)
  }

  /** Number of occurrences of the character `c` in `s`. */
  function Count(s: string, c: char): (n: nat)
    ensures n <= |s|
  {
    if s == [] then 0 else (if s[0] == c then 1 else 0) + Count(s[1..], c)
  }

  lemma {:induction false} CountConcat(a: string, b: string, c: char)
    ensures Count(a + b, c) == Count(a, c) + Count(b, c)
  {
    if a == [] {
      assert a + b == b;
    } else {
      assert (a + b)[1..] == a[1..] + b;
      CountConcat(a[1..], b, c);
    }
  }

  lemma {:induction false} CountZero(s: string, c: char)
    ensures Count(s, c) == 0 <==> c !in s
  {
    if s != [] {
      assert s == [s[0]] + s[1..];
      CountZero(s[1..], c);
    }
  }

  /** Text contained in `s` is contained in any extension of `s` at the front. */
  lemma ContainsAfter(x: string, s: string, p: string)
    requires Contains(s, p)
    ensures Contains(x + s, p)
  {
    var i: nat :| i <= |s| && OccursAt(s, i, p);
    assert (x + s)[|x| + i..|x| + i + |p|] == s[i..i + |p|];
    assert OccursAt(x + s, |x| + i, p);
  }

  /** Three strings in a row, at the front of a text. */
  lemma Window3(a: string, v: string, b: string, post: string)
    ensures Contains(a + (v + (b + post)), a + v + b)
  {
    var x := a + (v + (b + post));
    assert x == (a + v + b) + post;
    assert x[0..|a + v + b|] == a + v + b;
    assert OccursAt(x, 0, a + v + b);
  }

  /** Five strings in a row, at the front of a text. */
  lemma Window5(a: string, v: string, m: string, w: string, b: string, post: string)
    ensures Contains(a + (v + (m + (w + (b + post)))), a + v + m + w + b)
  {
    var x := a + (v + (m + (w + (b + post))));
    var q := a + v + m + w + b;
    assert x == q + post;
    assert x[0..|q|] == q;
    assert OccursAt(x, 0, q);
  }

  /** What a contained text contains, the whole contains. */
  lemma ContainsPart(s: string, a: string, p: string, b: string)
    requires Contains(s, a + p + b)
    ensures Contains(s, p)
  {
    var q := a + p + b;
    var i: nat :| i <= |s| && OccursAt(s, i, q);
    assert s[i..i + |q|] == q;
    forall k | 0 <= k < |p|
      ensures s[i + |a| + k] == p[k]
    {
      assert s[i + |a| + k] == s[i..i + |q|][|a| + k] == q[|a| + k];
    }
    assert s[i + |a|..i + |a| + |p|] == p;
    assert OccursAt(s, i + |a|, p);
  }

  // ---------------------------------------------------------------------
  // split

  /** The text of `s` before the first `c`, or all of `s` when there is none. */
  function TakeUntil(s: string, c: char): (r: string)
    ensures c !in r
    ensures StartsWith(s, r)
    ensures r == s || s[|r|] == c
  {
    if s == [] || s[0] == c then [] else [s[0]] + TakeUntil(s[1..], c)
  }

  /**
   * `s.split(c)` for a one-character separator: the maximal pieces of `s`
   * between separators, including empty pieces at either end. Even the empty
   * string gives one (empty) piece.
   */
  function Split(s: string, c: char): (parts: seq<string>)
    ensures |parts| >= 1
  {
    if s == [] then [[]]
    else
      var rest := Split(s[1..], c);
      if s[0] == c then [[]] + rest
      else [[s[0]] + rest[0]] + rest[1..]
  }

  /** `parts.join(c)`: the pieces separated by `c`. */
  function Join(parts: seq<string>, c: char): string
    requires |parts| >= 1
  {
    if |parts| == 1 then parts[0] else parts[0] + [c] + Join(parts[1..], c)
  }

  /** Splitting and joining again gives the string back. */
  lemma {:induction false} JoinSplit(s: string, c: char)
    ensures Join(Split(s, c), c) == s
  {
    if s != [] {
      var rest := Split(s[1..], c);
      JoinSplit(s[1..], c);
      if s[0] == c {
        assert Split(s, c)[1..] == rest;
      } else {
        var parts := Split(s, c);
        if |rest| == 1 {
          assert parts == [[s[0]] + rest[0]];
        } else {
          assert parts[1..] == rest[1..];
          assert Join(rest, c) == rest[0] + [c] + Join(rest[1..], c);
        }
      }
    }
  }

  /** No piece of a split contains the separator, and there is one piece more than separators. */
  lemma {:induction false} SplitPieces(s: string, c: char)
    ensures |Split(s, c)| == Count(s, c) + 1
    ensures forall k :: 0 <= k < |Split(s, c)| ==> c !in Split(s, c)[k]
  {
    if s != [] {
      SplitPieces(s[1..], c);
    }
  }

  /** The first piece of a split is the text before the first separator. */
  lemma {:induction false} SplitFirst(s: string, c: char)
    ensures Split(s, c)[0] == TakeUntil(s, c)
  {
    if s != [] && s[0] != c {
      SplitFirst(s[1..], c);
    }
  }

  // ---------------------------------------------------------------------
  // replaceAll

  /**
   * `s.replaceAll(pat, rep)` with a literal search string: every occurrence
   * of `pat`, found left to right without overlap, is replaced by `rep`.
   * An empty `pat` matches at every position, the end included.
   */
  function ReplaceAll(s: string, pat: string, rep: string): string
    decreases |s|
  {
    if |pat| == 0 then
      if s == [] then rep else rep + [s[0]] + ReplaceAll(s[1..], pat, rep)
    else if |s| < |pat| then s
    else if s[..|pat|] == pat then rep + ReplaceAll(s[|pat|..], pat, rep)
    else [s[0]] + ReplaceAll(s[1..], pat, rep)
  }

  /** Replacing one character: each `c` becomes `rep`, every other character stays. */
  function ReplaceChar(s: string, c: char, rep: string): string {
    if s == [] then [] else (if s[0] == c then rep else [s[0]]) + ReplaceChar(s[1..], c, rep)
  }

  /** `replaceAll` with a one-character search string is the per-character replacement. */
  lemma {:induction false} ReplaceAllOneChar(s: string, c: char, rep: string)
    ensures ReplaceAll(s, [c], rep) == ReplaceChar(s, c, rep)
  {
    if s != [] {
      ReplaceAllOneChar(s[1..], c, rep);
      if s[0] == c {
        assert s[..1] == [c];
      } else {
        assert s[..1] != [c];
      }
    }
  }

  lemma {:induction false} ReplaceCharConcat(a: string, b: string, c: char, rep: string)
    ensures ReplaceChar(a + b, c, rep) == ReplaceChar(a, c, rep) + ReplaceChar(b, c, rep)
  {
    if a == [] {
      assert a + b == b;
    } else {
      assert (a + b)[1..] == a[1..] + b;
      ReplaceCharConcat(a[1..], b, c, rep);
    }
  }

  lemma {:induction false} ReplaceCharAbsent(s: string, c: char, rep: string)
    requires c !in s
    ensures ReplaceChar(s, c, rep) == s
  {
    if s != [] {
      assert s[0] != c;
      assert c !in s[1..];
      ReplaceCharAbsent(s[1..], c, rep);
    }
  }
}
