/**
 * A template literal as the workers write them: fixed text with numbered
 * slots, filled by plain concatenation.
 */
module Templates {
  import opened JsStrings

  datatype Piece = Text(text: string) | Hole(slot: nat)

  /** The value for a slot; a slot with no value stays empty. */
  function Value(vals: seq<string>, slot: nat): string {
    if slot < |vals| then vals[slot] else ""
  }

  /** The template's pieces in order, each slot replaced by its value. */
  function Fill(t: seq<Piece>, vals: seq<string>): string {
    if t == [] then []
    else PieceText(t[0], vals) + Fill(t[1..], vals)
  }

  /** The text a single piece contributes. */
  function PieceText(p: Piece, vals: seq<string>): string {
    match p
    case Text(s) => s
    case Hole(j) => Value(vals, j)
  }

  lemma FillStep(t: seq<Piece>, vals: seq<string>)
    requires |t| > 0
    ensures Fill(t, vals) == PieceText(t[0], vals) + Fill(t[1..], vals)
  {
  }

  /** A slot framed by two text pieces shows its value between the two texts. */
  lemma {:induction false} FillShows(t: seq<Piece>, vals: seq<string>, k: nat, a: string, j: nat, b: string)
    requires k + 3 <= |t| && t[k] == Text(a) && t[k + 1] == Hole(j) && t[k + 2] == Text(b)
    ensures Contains(Fill(t, vals), a + Value(vals, j) + b)
  {
    var v := Value(vals, j);
    if k == 0 {
      FillStep(t, vals);
      FillStep(t[1..], vals);
      FillStep(t[1..][1..], vals);
      Window3(a, v, b, Fill(t[1..][1..][1..], vals));
    } else {
      FillShows(t[1..], vals, k - 1, a, j, b);
      FillStep(t, vals);
      ContainsAfter(PieceText(t[0], vals), Fill(t[1..], vals), a + v + b);
    }
  }

  /** Two slots separated by a text piece, the whole framed by two more, show their values in that order. */
  lemma {:induction false} FillShowsPair(t: seq<Piece>, vals: seq<string>, k: nat, a: string, i: nat, m: string, j: nat, b: string)
    requires k + 5 <= |t| && t[k] == Text(a) && t[k + 1] == Hole(i) && t[k + 2] == Text(m)
    requires t[k + 3] == Hole(j) && t[k + 4] == Text(b)
    ensures Contains(Fill(t, vals), a + Value(vals, i) + m + Value(vals, j) + b)
  {
    var v, w := Value(vals, i), Value(vals, j);
    if k == 0 {
      var u1 := t[1..];
      var u2 := u1[1..];
      var u3 := u2[1..];
      var u4 := u3[1..];
      FillStep(t, vals);
      FillStep(u1, vals);
      FillStep(u2, vals);
      FillStep(u3, vals);
      FillStep(u4, vals);
      Window5(a, v, m, w, b, Fill(u4[1..], vals));
    } else {
      FillShowsPair(t[1..], vals, k - 1, a, i, m, j, b);
      FillStep(t, vals);
      ContainsAfter(PieceText(t[0], vals), Fill(t[1..], vals), a + v + m + w + b);
    }
  }

  /** Every slot value is free of the character `c`. */
  predicate FreeOf(vals: seq<string>, c: char) {
    forall j :: 0 <= j < |vals| ==> Count(vals[j], c) == 0
  }

  /**
   * With slot values that never hold `c`, every occurrence of `c` comes from
   * the template text: any two such fillings hold `c` equally often.
   */
  lemma {:induction false} FillCountFixed(t: seq<Piece>, vals: seq<string>, others: seq<string>, c: char)
    requires FreeOf(vals, c) && FreeOf(others, c)
    ensures Count(Fill(t, vals), c) == Count(Fill(t, others), c)
  {
    if t != [] {
      var x := match t[0] case Text(s) => s case Hole(j) => Value(vals, j);
      var y := match t[0] case Text(s) => s case Hole(j) => Value(others, j);
      CountConcat(x, Fill(t[1..], vals), c);
      CountConcat(y, Fill(t[1..], others), c);
      FillCountFixed(t[1..], vals, others, c);
    }
  }
}
