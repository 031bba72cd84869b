/**
 * HTML escaping as the preview worker does it: `String(s ?? "")` followed by
 * five `replaceAll` calls, `&` first. The chain is shown equal to a
 * per-character map, from which the security properties follow.
 */
module HtmlEscape {
  import opened JsStrings
  import opened JsValues

  const Amp := "&amp;"
  const Lt := "&lt;"
  const Gt := "&gt;"
  const Quot := "&quot;"
  const Apos := "&#39;"

  /** The characters that may end an attribute value or start a tag. */
  predicate IsMarkup(c: char) {
    c == '<' || c == '>' || c == '"' || c == '\''
  }

  /** The five characters escaping rewrites. */
  predicate IsSpecial(c: char) {
    c == '&' || IsMarkup(c)
  }

  /** Text in which none of `& < > " '` occurs. */
  predicate Plain(s: string) {
    '&' !in s && '<' !in s && '>' !in s && '"' !in s && '\'' !in s
  }

  /** Text without `< > " '`. */
  predicate MarkupFree(s: string) {
    '<' !in s && '>' !in s && '"' !in s && '\'' !in s
  }

  /** One of the five entity references escaping produces begins at index `i`. */
  predicate EntityAt(s: string, i: nat) {
    OccursAt(s, i, Amp) || OccursAt(s, i, Lt) || OccursAt(s, i, Gt)
    || OccursAt(s, i, Quot) || OccursAt(s, i, Apos)
  }

  /** The replacement for one character. */
  function EscChar(c: char): (r: string)
    ensures IsSpecial(c) ==> |r| >= 4 && r[0] == '&' && EntityAt(r, 0)
    ensures !IsSpecial(c) ==> r == [c]
    ensures MarkupFree(r)
    ensures forall k :: 0 < k < |r| ==> r[k] != '&'
  {
    if c == '&' then Amp
    else if c == '<' then Lt
    else if c == '>' then Gt
    else if c == '"' then Quot
    else if c == '\'' then Apos
    else [c]
  }

  /** Escaping as a per-character map. */
  function Escape(s: string): string {
    if s == [] then [] else EscChar(s[0]) + Escape(s[1..])
  }

  /** The source's chain of `replaceAll` calls, in its order. */
  function EscChain(s: string): string {
    var s1 := ReplaceAll(s, "&", Amp);
    var s2 := ReplaceAll(s1, "<", Lt);
    var s3 := ReplaceAll(s2, ">", Gt);
    var s4 := ReplaceAll(s3, "\"", Quot);
    ReplaceAll(s4, "'", Apos)
  }

  /** `esc(s)`: null and undefined become the empty string, anything else its `String` text, escaped. */
  function Esc(v: JsonLike): (r: string)
    ensures Nullish(v) ==> r == ""
    ensures r == Escape(if Nullish(v) then "" else ToJsString(v))
  {
    var str := if Nullish(v) then "" else ToJsString(v);
    EscChainIsEscape(str);
    EscChain(str)
  }

  // ---------------------------------------------------------------------
  // The chain equals the map

  /** The chain with each `replaceAll` read as a per-character replacement. */
  function Chain(s: string): string {
    ReplaceChar(ReplaceChar(ReplaceChar(ReplaceChar(ReplaceChar(s, '&', Amp), '<', Lt), '>', Gt), '"', Quot), '\'', Apos)
  }

  lemma ChainConcat(a: string, b: string)
    ensures Chain(a + b) == Chain(a) + Chain(b)
  {
    var a1, b1 := ReplaceChar(a, '&', Amp), ReplaceChar(b, '&', Amp);
    ReplaceCharConcat(a, b, '&', Amp);
    var a2, b2 := ReplaceChar(a1, '<', Lt), ReplaceChar(b1, '<', Lt);
    ReplaceCharConcat(a1, b1, '<', Lt);
    var a3, b3 := ReplaceChar(a2, '>', Gt), ReplaceChar(b2, '>', Gt);
    ReplaceCharConcat(a2, b2, '>', Gt);
    var a4, b4 := ReplaceChar(a3, '"', Quot), ReplaceChar(b3, '"', Quot);
    ReplaceCharConcat(a3, b3, '"', Quot);
    ReplaceCharConcat(a4, b4, '\'', Apos);
  }

  lemma ReplaceCharOne(x: char, c: char, rep: string)
    ensures ReplaceChar([x], c, rep) == if x == c then rep else [x]
  {
    assert [x][1..] == [];
  }

  /** The last four steps of the chain. */
  function ChainTail(t: string): string {
    ReplaceChar(ReplaceChar(ReplaceChar(ReplaceChar(t, '<', Lt), '>', Gt), '"', Quot), '\'', Apos)
  }

  /** Text without `< > " '` passes the last four steps unchanged. */
  lemma ChainTailFixes(t: string)
    requires MarkupFree(t)
    ensures ChainTail(t) == t
  {
    ReplaceCharAbsent(t, '<', Lt);
    ReplaceCharAbsent(t, '>', Gt);
    ReplaceCharAbsent(t, '"', Quot);
    ReplaceCharAbsent(t, '\'', Apos);
  }

  /** From the step that replaces `c` on, a single `c` becomes `e` and stays so. */
  lemma StepsFrom(x: char, e: string)
    requires e == EscChar(x)
    ensures x == '<' ==> ChainTail([x]) == e
    ensures x == '>' ==> ReplaceChar(ReplaceChar(ReplaceChar([x], '>', Gt), '"', Quot), '\'', Apos) == e
    ensures x == '"' ==> ReplaceChar(ReplaceChar([x], '"', Quot), '\'', Apos) == e
    ensures x == '\'' ==> ReplaceChar([x], '\'', Apos) == e
  {
    if x == '<' {
      ReplaceCharOne(x, '<', Lt);
      ReplaceCharAbsent(e, '>', Gt);
      ReplaceCharAbsent(e, '"', Quot);
      ReplaceCharAbsent(e, '\'', Apos);
    } else if x == '>' {
      ReplaceCharOne(x, '>', Gt);
      ReplaceCharAbsent(e, '"', Quot);
      ReplaceCharAbsent(e, '\'', Apos);
    } else if x == '"' {
      ReplaceCharOne(x, '"', Quot);
      ReplaceCharAbsent(e, '\'', Apos);
    } else if x == '\'' {
      ReplaceCharOne(x, '\'', Apos);
    }
  }

  /** Because `&` goes first, the entities the later steps insert are never re-escaped. */
  lemma ChainChar(x: char)
    ensures Chain([x]) == EscChar(x)
  {
    var e := EscChar(x);
    ReplaceCharOne(x, '&', Amp);
    if x == '&' {
      ChainTailFixes(e);
    } else {
      StepsFrom(x, e);
      if x != '<' {
        ReplaceCharOne(x, '<', Lt);
        if x != '>' {
          ReplaceCharOne(x, '>', Gt);
          if x != '"' {
            ReplaceCharOne(x, '"', Quot);
            if x != '\'' {
              ReplaceCharOne(x, '\'', Apos);
            }
          }
        }
      }
    }
  }

  lemma {:induction false} ChainIsEscape(s: string)
    ensures Chain(s) == Escape(s)
  {
    if s != [] {
      assert s == [s[0]] + s[1..];
      ChainConcat([s[0]], s[1..]);
      ChainChar(s[0]);
      ChainIsEscape(s[1..]);
    }
  }

  /** The five `replaceAll` calls together escape each character independently. */
  lemma EscChainIsEscape(s: string)
    ensures EscChain(s) == Escape(s)
  {
    var s1 := ReplaceChar(s, '&', Amp);
    ReplaceAllOneChar(s, '&', Amp);
    var s2 := ReplaceChar(s1, '<', Lt);
    ReplaceAllOneChar(s1, '<', Lt);
    var s3 := ReplaceChar(s2, '>', Gt);
    ReplaceAllOneChar(s2, '>', Gt);
    var s4 := ReplaceChar(s3, '"', Quot);
    ReplaceAllOneChar(s3, '"', Quot);
    ReplaceAllOneChar(s4, '\'', Apos);
    ChainIsEscape(s);
  }

  // ---------------------------------------------------------------------
  // Properties of escaping

  /** Escaping distributes over concatenation. */
  lemma {:induction false} EscapeConcat(a: string, b: string)
    ensures Escape(a + b) == Escape(a) + Escape(b)
  {
    if a == [] {
      assert a + b == b;
    } else {
      assert (a + b)[1..] == a[1..] + b;
      EscapeConcat(a[1..], b);
    }
  }

  /** No `<`, `>`, `"` or `'` survives escaping. */
  lemma {:induction false} EscapeMarkupFree(s: string)
    ensures MarkupFree(Escape(s))
  {
    if s != [] {
      EscapeMarkupFree(s[1..]);
    }
  }

  lemma OccursAtShift(a: string, b: string, j: nat, p: string)
    requires OccursAt(b, j, p)
    ensures OccursAt(a + b, |a| + j, p)
  {
    assert (a + b)[|a| + j..|a| + j + |p|] == b[j..j + |p|];
  }

  lemma OccursAtFront(a: string, b: string, p: string)
    requires OccursAt(a, 0, p)
    ensures OccursAt(a + b, 0, p)
  {
    assert (a + b)[..|p|] == a[..|p|];
  }

  lemma EntityAtShift(a: string, b: string, j: nat)
    requires EntityAt(b, j)
    ensures EntityAt(a + b, |a| + j)
  {
    if OccursAt(b, j, Amp) { OccursAtShift(a, b, j, Amp); }
    else if OccursAt(b, j, Lt) { OccursAtShift(a, b, j, Lt); }
    else if OccursAt(b, j, Gt) { OccursAtShift(a, b, j, Gt); }
    else if OccursAt(b, j, Quot) { OccursAtShift(a, b, j, Quot); }
    else { OccursAtShift(a, b, j, Apos); }
  }

  lemma EntityAtFront(a: string, b: string)
    requires EntityAt(a, 0)
    ensures EntityAt(a + b, 0)
  {
    if OccursAt(a, 0, Amp) { OccursAtFront(a, b, Amp); }
    else if OccursAt(a, 0, Lt) { OccursAtFront(a, b, Lt); }
    else if OccursAt(a, 0, Gt) { OccursAtFront(a, b, Gt); }
    else if OccursAt(a, 0, Quot) { OccursAtFront(a, b, Quot); }
    else { OccursAtFront(a, b, Apos); }
  }

  /** Every `&` in escaped text begins one of the five entities, so each is unambiguous. */
  lemma {:induction false} EscapeAmpersands(s: string)
    ensures forall i :: 0 <= i < |Escape(s)| && Escape(s)[i] == '&' ==> EntityAt(Escape(s), i)
  {
    if s != [] {
      var e, rest := EscChar(s[0]), Escape(s[1..]);
      EscapeAmpersands(s[1..]);
      assert Escape(s) == e + rest;
      forall i | 0 <= i < |e + rest| && (e + rest)[i] == '&'
        ensures EntityAt(e + rest, i)
      {
        if i < |e| {
          assert e[i] == '&';
          assert i == 0;
          EntityAtFront(e, rest);
        } else {
          var j := i - |e|;
          assert rest[j] == '&';
          EntityAtShift(e, rest, j);
        }
      }
    }
  }

  /** The output grows by 4 per `&`, 3 per `<` or `>`, 5 per `"` and 4 per `'`. */
  lemma {:induction false} EscapeLength(s: string)
    ensures |Escape(s)| == |s| + 4 * Count(s, '&') + 3 * Count(s, '<') + 3 * Count(s, '>')
                              + 5 * Count(s, '"') + 4 * Count(s, '\'')
  {
    if s != [] {
      EscapeLength(s[1..]);
    }
  }

  /** Escaping leaves a string unchanged exactly when it contains none of `& < > " '`. */
  lemma EscapeIdentity(s: string)
    ensures Escape(s) == s <==> Plain(s)
  {
    if Plain(s) {
      PlainUnchanged(s);
    }
    if Escape(s) == s {
      EscapeLength(s);
      CountZero(s, '&');
      CountZero(s, '<');
      CountZero(s, '>');
      CountZero(s, '"');
      CountZero(s, '\'');
    }
  }

  lemma {:induction false} PlainUnchanged(s: string)
    requires Plain(s)
    ensures Escape(s) == s
  {
    if s != [] {
      assert s == [s[0]] + s[1..];
      PlainUnchanged(s[1..]);
    }
  }

  /** The characters escaped text holds: never markup, and `&` only at the entities. */
  lemma EscapeCounts(s: string, c: char)
    requires IsMarkup(c)
    ensures Count(Escape(s), c) == 0
  {
    EscapeMarkupFree(s);
    CountZero(Escape(s), c);
  }

  // ---------------------------------------------------------------------
  // Decoding, the inverse

  /** Decodes the five entities escaping produces; all other text is kept. */
  function Unescape(t: string): string
    decreases |t|
  {
    if t == [] then []
    else if OccursAt(t, 0, Amp) then "&" + Unescape(t[|Amp|..])
    else if OccursAt(t, 0, Lt) then "<" + Unescape(t[|Lt|..])
    else if OccursAt(t, 0, Gt) then ">" + Unescape(t[|Gt|..])
    else if OccursAt(t, 0, Quot) then "\"" + Unescape(t[|Quot|..])
    else if OccursAt(t, 0, Apos) then "'" + Unescape(t[|Apos|..])
    else [t[0]] + Unescape(t[1..])
  }

  lemma UnescapeStep(x: char, rest: string)
    ensures Unescape(EscChar(x) + rest) == [x] + Unescape(rest)
  {
    var e := EscChar(x);
    var t := e + rest;
    assert t[..|e|] == e;
    assert t[|e|..] == rest;
    if !IsSpecial(x) {
      assert t[0] == x;
      assert !OccursAt(t, 0, Amp) && !OccursAt(t, 0, Lt) && !OccursAt(t, 0, Gt);
      assert !OccursAt(t, 0, Quot) && !OccursAt(t, 0, Apos);
    } else if x == '<' || x == '>' {
      assert t[1] == e[1];
      assert !OccursAt(t, 0, Amp);
    } else if x == '"' {
      assert t[1] == 'q';
      assert !OccursAt(t, 0, Amp) && !OccursAt(t, 0, Lt) && !OccursAt(t, 0, Gt);
    } else if x == '\'' {
      assert t[1] == '#';
      assert !OccursAt(t, 0, Amp) && !OccursAt(t, 0, Lt) && !OccursAt(t, 0, Gt);
      assert !OccursAt(t, 0, Quot);
    }
  }

  /** Decoding escaped text gives the original text back. */
  lemma {:induction false} UnescapeEscape(s: string)
    ensures Unescape(Escape(s)) == s
  {
    if s != [] {
      UnescapeStep(s[0], Escape(s[1..]));
      UnescapeEscape(s[1..]);
    }
  }

  /** Distinct inputs escape to distinct outputs. */
  lemma EscapeInjective(a: string, b: string)
    requires Escape(a) == Escape(b)
    ensures a == b
  {
    UnescapeEscape(a);
    UnescapeEscape(b);
  }
}
