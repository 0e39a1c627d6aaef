/** The friendly rendering of a quantity: fraction glyphs, whole numbers and
    decimals. A rendering is kept as what it denotes, not as text. */
module Scaling {
  import opened Options
  import opened Conversion

  /** The fractions that have a glyph, in the order they are tried. */
  const GLYPHS: seq<real> := [
    1.0 / 8.0, 1.0 / 4.0, 1.0 / 3.0, 3.0 / 8.0, 1.0 / 2.0, 5.0 / 8.0, 2.0 / 3.0, 3.0 / 4.0, 7.0 / 8.0]
  const SNAP_TOLERANCE := 0.015

  datatype Rendering =
    | Whole(whole: int)
    | WithGlyph(whole: int, glyph: nat)
    | Decimal(value: real)

  function Denotes(r: Rendering): real
    requires r.WithGlyph? ==> r.glyph < |GLYPHS|
  {
    match r
    case Whole(whole) => whole as real
    case WithGlyph(whole, glyph) => whole as real + GLYPHS[glyph]
    case Decimal(value) => value
  }

  /** Toward zero. */
  function Truncate(x: real): int {
    if x >= 0.0 then x.Floor else -((-x).Floor)
  }

  function Distance(a: real, b: real): real {
    if a >= b then a - b else b - a
  }

  /** Rounds to one decimal. */
  function Round1(x: real): (r: real)
    ensures -0.05 <= r - x <= 0.05
  {
    RoundEven(x * 10.0) as real / 10.0
  }

  lemma TenfoldShrinks(x: real)
    requires 0.0 < x < 100.0
    ensures 0 <= (100.0 / (10.0 * x)).Floor < (100.0 / x).Floor
  {
    var y := 100.0 / x;
    assert y * x == 100.0;
    assert y > 1.0;
    assert (y / 10.0) * (10.0 * x) == 100.0;
    assert 100.0 / (10.0 * x) == y / 10.0;
  }

  /** Rounds a small positive number to three significant digits. */
  function Significant3(x: real): (r: real)
    requires x > 0.0
    ensures r > 0.0
    ensures -0.005 * x <= r - x <= 0.005 * x
    decreases (100.0 / x).Floor
  {
    if x >= 100.0 then RoundEven(x) as real
    else
      TenfoldShrinks(x);
      Significant3(10.0 * x) / 10.0
  }

  /** The first of the nearest among the first `n` glyphs. */
  function Nearest(rest: real, n: nat): (g: nat)
    requires 1 <= n <= |GLYPHS|
    ensures g < n
    ensures forall k :: 0 <= k < n ==> Distance(rest, GLYPHS[g]) <= Distance(rest, GLYPHS[k])
    ensures forall k :: 0 <= k < g ==> Distance(rest, GLYPHS[g]) < Distance(rest, GLYPHS[k])
  {
    if n == 1 then 0
    else
      var g := Nearest(rest, n - 1);
      if Distance(rest, GLYPHS[n - 1]) < Distance(rest, GLYPHS[g]) then n - 1 else g
  }

  function AsDecimal(x: real): Rendering {
    if Round1(x) == 0.0 && x > 0.0 then
      if Round2(x) == 0.0 then Decimal(Significant3(x)) else Decimal(Round2(x))
    else Decimal(Round1(x))
  }

  function Formatted(x: real): (r: Rendering)
    ensures r.WithGlyph? ==> r.glyph < |GLYPHS|
  {
    var whole := Truncate(x);
    var rest := x - whole as real;
    var g := Nearest(rest, |GLYPHS|);
    if Distance(rest, GLYPHS[g]) <= SNAP_TOLERANCE then WithGlyph(whole, g)
    else if Distance(rest, 0.0) < SNAP_TOLERANCE && !(whole == 0 && x > 0.0) then Whole(whole)
    else AsDecimal(x)
  }

  method FormatQuantity(x: real) returns (r: Rendering)
    ensures r == Formatted(x)
  {
    var whole := Truncate(x);
    var rest := x - whole as real;
    var best: Option<nat>, bestDistance := None, SNAP_TOLERANCE + 1.0;
    for i := 0 to |GLYPHS|
      invariant best.None? ==> bestDistance == SNAP_TOLERANCE + 1.0
      invariant best.None? ==> forall k :: 0 <= k < i ==> Distance(rest, GLYPHS[k]) >= bestDistance
      invariant best.Some? ==>
                  i > 0 && best.value == Nearest(rest, i) && bestDistance == Distance(rest, GLYPHS[best.value])
    {
      var distance := Distance(rest, GLYPHS[i]);
      if distance < bestDistance {
        bestDistance := distance;
        best := Some(i);
      }
    }
    if bestDistance <= SNAP_TOLERANCE && best.Some? {
      return WithGlyph(whole, best.value);
    }
    r := WithoutGlyph(x, whole);
  }

  /** The rendering of a quantity that no glyph fits. */
  method WithoutGlyph(x: real, whole: int) returns (r: Rendering)
    ensures r == if Distance(x - whole as real, 0.0) < SNAP_TOLERANCE && !(whole == 0 && x > 0.0) then Whole(whole)
                 else AsDecimal(x)
  {
    var rest := x - whole as real;
    if Distance(rest, 0.0) < SNAP_TOLERANCE && !(whole == 0 && x > 0.0) {
      return Whole(whole);
    }
    var shown := Round1(x);
    if shown == 0.0 && x > 0.0 {
      shown := Round2(x);
      if shown == 0.0 {
        shown := Significant3(x);
      }
    }
    return Decimal(shown);
  }

  lemma TruncateIsNear(x: real)
    ensures x >= 0.0 ==> 0.0 <= x - Truncate(x) as real < 1.0 && Truncate(x) >= 0
    ensures x < 0.0 ==> -1.0 < x - Truncate(x) as real <= 0.0 && Truncate(x) <= 0
  {
  }

  /** What is shown is within a twentieth of the quantity, within the snap tolerance
      when a glyph or a whole number is shown, and positive whenever it is. */
  lemma RenderingIsClose(x: real)
    ensures Distance(Denotes(Formatted(x)), x) <= 0.05
    ensures !Formatted(x).Decimal? ==> Distance(Denotes(Formatted(x)), x) <= SNAP_TOLERANCE
    ensures x > 0.0 ==> Denotes(Formatted(x)) > 0.0
  {
    TruncateIsNear(x);
    var whole := Truncate(x);
    var rest := x - whole as real;
    assert x > 0.0 && Formatted(x).Whole? ==> whole >= 1;
  }

  /** A quantity that is a whole number and one of the fractions is shown exactly. */
  lemma FractionsAreExact(whole: nat, g: nat)
    requires g < |GLYPHS|
    ensures Formatted(whole as real + GLYPHS[g]) == WithGlyph(whole, g)
  {
    var x := whole as real + GLYPHS[g];
    assert x.Floor == whole;
    var n := Nearest(GLYPHS[g], |GLYPHS|);
    assert Distance(GLYPHS[g], GLYPHS[n]) == 0.0;
    assert n == g;
  }

  /** Whole numbers are shown as they are. */
  lemma WholesAreExact(whole: nat)
    requires whole > 0
    ensures Formatted(whole as real) == Whole(whole)
  {
    assert (whole as real).Floor == whole;
    var n := Nearest(0.0, |GLYPHS|);
    assert GLYPHS[n] >= 1.0 / 8.0;
  }

  /** Rendering is not monotone: a larger quantity can be shown as a smaller one. */
  lemma RenderingIsNotMonotone()
    ensures Denotes(Formatted(0.14)) > Denotes(Formatted(0.141))
  {
    assert (0.14).Floor == 0 && (0.141).Floor == 0;
    var a, b := Nearest(0.14, |GLYPHS|), Nearest(0.141, |GLYPHS|);
    assert Distance(0.14, GLYPHS[0]) <= SNAP_TOLERANCE;
    assert a == 0 && b == 0;
    assert (0.141 * 10.0).Floor == 1;
    assert RoundEven(0.141 * 10.0) == 1;
  }
}
