/** When a larger quantity is shown as no less: exactly the pairs for which the
    rendering reverses the order, and how far apart such a pair can be. */
module RenderingOrder {
  import opened Options
  import opened Conversion
  import opened Scaling

  // ---------------------------------------------------------------------------
  // Rounding keeps order
  // ---------------------------------------------------------------------------

  lemma RoundEvenKeepsOrder(x: real, y: real)
    requires x <= y
    ensures RoundEven(x) <= RoundEven(y)
  {
    assert x.Floor <= y.Floor;
  }

  lemma Significant3AtMost(x: real)
    requires 0.0 < x < 100.0
    ensures Significant3(x) <= 100.0
    decreases (100.0 / x).Floor
  {
    TenfoldShrinks(x);
    if 10.0 * x >= 100.0 {
      RoundEvenKeepsOrder(10.0 * x, 1000.0);
      assert RoundEven(1000.0) == 1000;
    } else {
      Significant3AtMost(10.0 * x);
    }
  }

  lemma {:induction false} Significant3KeepsOrder(x: real, y: real)
    requires 0.0 < x <= y
    ensures Significant3(x) <= Significant3(y)
    decreases (100.0 / x).Floor
  {
    if x >= 100.0 {
      RoundEvenKeepsOrder(x, y);
    } else if y >= 100.0 {
      Significant3AtMost(x);
      RoundEvenKeepsOrder(100.0, y);
      assert RoundEven(100.0) == 100;
    } else {
      TenfoldShrinks(x);
      Significant3KeepsOrder(10.0 * x, 10.0 * y);
    }
  }

  lemma ShownToOnePlace(x: real)
    requires Round1(x) != 0.0 || x <= 0.0
    ensures AsDecimal(x) == Decimal(Round1(x))
  {
  }

  lemma ShownToMorePlaces(x: real)
    requires Round1(x) == 0.0 && x > 0.0
    ensures AsDecimal(x) == Decimal(if Round2(x) == 0.0 then Significant3(x) else Round2(x))
    ensures 0.0 < Denotes(AsDecimal(x)) < 0.1
    ensures Round2(x) == 0.0 ==> Denotes(AsDecimal(x)) < 0.01
  {
  }

  /** Decimals keep the order, however many places they are shown with. */
  lemma DecimalsKeepOrder(x: real, y: real)
    requires x <= y
    ensures Denotes(AsDecimal(x)) <= Denotes(AsDecimal(y))
  {
    RoundEvenKeepsOrder(x * 10.0, y * 10.0);
    if Round1(x) != 0.0 || x <= 0.0 {
      ShownToOnePlace(x);
      if Round1(y) != 0.0 || y <= 0.0 {
        ShownToOnePlace(y);
      } else {
        ShownToMorePlaces(y);
      }
    } else {
      ShownToMorePlaces(x);
      if Round1(y) != 0.0 {
        ShownToOnePlace(y);
      } else {
        ShownToMorePlaces(y);
        RoundEvenKeepsOrder(x * 100.0, y * 100.0);
        Significant3KeepsOrder(x, y);
      }
    }
  }

  // ---------------------------------------------------------------------------
  // The fractional part
  // ---------------------------------------------------------------------------

  predicate Snaps(rest: real, g: nat)
    requires g < |GLYPHS|
  {
    Distance(rest, GLYPHS[g]) <= SNAP_TOLERANCE
  }

  /** No quantity is within the tolerance of two glyphs. */
  lemma SnapsToOne(rest: real, g: nat)
    requires g < |GLYPHS| && Snaps(rest, g)
    ensures Nearest(rest, |GLYPHS|) == g
  {
    var n := Nearest(rest, |GLYPHS|);
    assert Distance(rest, GLYPHS[n]) <= Distance(rest, GLYPHS[g]);
  }

  /** A glyph is shown, and then, for more, a tenth below it. */
  predicate GlyphOverTenth(a: real, b: real) {
    || (Snaps(a, 0) && 0.14 < b < 0.15)
    || (Snaps(a, 2) && 1.0 / 3.0 + SNAP_TOLERANCE < b < 0.35)
    || (Snaps(a, 5) && 0.64 < b <= 0.65)
  }

  /** A tenth is shown, and then, for more, a glyph below it. */
  predicate TenthOverGlyph(a: real, b: real) {
    || (0.35 <= a < 0.36 && Snaps(b, 3))
    || (0.65 < a < 2.0 / 3.0 - SNAP_TOLERANCE && Snaps(b, 6))
    || (0.85 < a < 0.86 && Snaps(b, 8))
  }

  predicate NoGlyph(rest: real) {
    forall k :: 0 <= k < |GLYPHS| ==> !Snaps(rest, k)
  }

  /** Beyond a glyph's reach, the tenths that are below it. */
  lemma TenthsBelowGlyph(rest: real, g: nat)
    requires g < |GLYPHS| && GLYPHS[g] + SNAP_TOLERANCE < rest
    ensures Round1(rest) < GLYPHS[g] <==>
            (g == 0 && rest < 0.15) || (g == 2 && rest < 0.35) || (g == 5 && rest <= 0.65)
  {
  }

  /** Short of a glyph's reach, the tenths that are above it. */
  lemma TenthsAboveGlyph(rest: real, g: nat)
    requires g < |GLYPHS| && rest < GLYPHS[g] - SNAP_TOLERANCE
    ensures Round1(rest) > GLYPHS[g] <==>
            (g == 3 && 0.35 <= rest) || (g == 6 && 0.65 < rest) || (g == 8 && 0.85 < rest)
  {
  }

  lemma OneGlyph(rest: real, g: nat, h: nat)
    requires g < |GLYPHS| && h < |GLYPHS| && Snaps(rest, g) && Snaps(rest, h)
    ensures g == h
  {
  }

  lemma GlyphThenTenth(a: real, b: real, g: nat)
    requires a <= b && g < |GLYPHS| && Snaps(a, g) && NoGlyph(b)
    ensures GLYPHS[g] > Round1(b) <==> GlyphOverTenth(a, b)
    ensures !TenthOverGlyph(a, b)
  {
    assert !Snaps(b, g);
    TenthsBelowGlyph(b, g);
    if Snaps(a, 0) {
      OneGlyph(a, g, 0);
    } else if Snaps(a, 2) {
      OneGlyph(a, g, 2);
    } else if Snaps(a, 5) {
      OneGlyph(a, g, 5);
    }
  }

  lemma TenthThenGlyph(a: real, b: real, h: nat)
    requires a <= b && h < |GLYPHS| && NoGlyph(a) && Snaps(b, h)
    ensures Round1(a) > GLYPHS[h] <==> TenthOverGlyph(a, b)
    ensures !GlyphOverTenth(a, b)
  {
    assert !Snaps(a, h);
    TenthsAboveGlyph(a, h);
    if Snaps(b, 3) {
      OneGlyph(b, h, 3);
    } else if Snaps(b, 6) {
      OneGlyph(b, h, 6);
    } else if Snaps(b, 8) {
      OneGlyph(b, h, 8);
    }
  }

  lemma TwoGlyphs(a: real, b: real, g: nat, h: nat)
    requires a <= b && g < |GLYPHS| && h < |GLYPHS| && Snaps(a, g) && Snaps(b, h)
    ensures GLYPHS[g] <= GLYPHS[h]
    ensures !GlyphOverTenth(a, b) && !TenthOverGlyph(a, b)
  {
  }

  lemma TwoTenths(a: real, b: real)
    requires a <= b && NoGlyph(a) && NoGlyph(b)
    ensures Round1(a) <= Round1(b)
    ensures !GlyphOverTenth(a, b) && !TenthOverGlyph(a, b)
  {
    RoundEvenKeepsOrder(a * 10.0, b * 10.0);
  }

  // ---------------------------------------------------------------------------
  // The quantity
  // ---------------------------------------------------------------------------

  /** The larger quantity is shown as less: only beside the same whole number, and
      only around six of the fractions. */
  predicate Inverted(x: real, y: real) {
    && 0.0 <= x <= y && x.Floor == y.Floor
    && var a, b := x - x.Floor as real, y - y.Floor as real;
       GlyphOverTenth(a, b) || TenthOverGlyph(a, b)
  }

  lemma Round1Shifts(whole: int, rest: real)
    ensures Round1(whole as real + rest) == whole as real + Round1(rest)
  {
    assert (10.0 * whole as real + 10.0 * rest).Floor == 10 * whole + (10.0 * rest).Floor;
  }

  lemma GlyphBesideWhole(x: real, rest: real, g: nat)
    requires x >= 0.0 && rest == x - x.Floor as real && g < |GLYPHS| && Snaps(rest, g)
    ensures Denotes(Formatted(x)) == x.Floor as real + GLYPHS[g]
  {
    SnapsToOne(rest, g);
  }

  lemma DecimalAlone(x: real)
    requires x > 0.05 || x == 0.0
    ensures AsDecimal(x) == Decimal(Round1(x))
  {
  }

  lemma NoGlyphBesideWhole(x: real, rest: real)
    requires x >= 0.0 && rest == x - x.Floor as real && NoGlyph(rest)
    ensures Formatted(x) == if rest < SNAP_TOLERANCE && !(x.Floor == 0 && x > 0.0) then Whole(x.Floor) else AsDecimal(x)
  {
    assert !Snaps(rest, Nearest(rest, |GLYPHS|));
  }

  lemma TenthBesideWhole(x: real, rest: real)
    requires (x > 0.05 || x == 0.0) && rest == x - x.Floor as real && NoGlyph(rest)
    ensures Denotes(Formatted(x)) == x.Floor as real + Round1(rest)
  {
    NoGlyphBesideWhole(x, rest);
    DecimalAlone(x);
    Round1Shifts(x.Floor, rest);
    if rest < SNAP_TOLERANCE {
      assert RoundEven(rest * 10.0) == 0;
    }
  }

  /** Next to nothing is shown as a decimal of up to two places or three digits. */
  lemma SmallAreDecimals(x: real)
    requires 0.0 < x <= 0.05
    ensures Formatted(x) == AsDecimal(x) && Denotes(AsDecimal(x)) < 0.1
  {
  }

  lemma Round1Between(rest: real)
    requires 0.0 <= rest < 1.0
    ensures 0.0 <= Round1(rest) <= 1.0
    ensures 0.05 < rest ==> 0.1 <= Round1(rest)
  {
  }

  lemma OtherwiseBetweenWholes(x: real, rest: real)
    requires (x > 0.05 || x == 0.0) && rest == x - x.Floor as real
    ensures x.Floor as real <= Denotes(Formatted(x)) <= x.Floor as real + 1.0
    ensures 0.05 < rest ==> x.Floor as real + 0.1 <= Denotes(Formatted(x))
  {
    if NoGlyph(rest) {
      TenthBesideWhole(x, rest);
      Round1Between(rest);
    } else {
      var g :| 0 <= g < |GLYPHS| && Snaps(rest, g);
      GlyphBesideWhole(x, rest, g);
    }
  }

  lemma BetweenWholes(x: real)
    requires 0.0 <= x
    ensures x.Floor as real <= Denotes(Formatted(x)) <= x.Floor as real + 1.0
    ensures 0.05 < x ==> 0.1 <= Denotes(Formatted(x))
  {
    if 0.0 < x <= 0.05 {
      SmallAreDecimals(x);
      ShownToMorePlaces(x);
    } else {
      OtherwiseBetweenWholes(x, x - x.Floor as real);
    }
  }

  lemma BelowZero(x: real)
    requires x < 0.0
    ensures Denotes(Formatted(x)) == Round1(x) <= 0.0
  {
    var whole := Truncate(x);
    Round1Shifts(whole, x - whole as real);
    RoundEvenKeepsOrder(x * 10.0, 0.0);
  }

  lemma NothingInvertsSmall(x: real, y: real)
    requires x <= 0.05
    ensures !Inverted(x, y)
  {
  }

  lemma SmallKeepOrder(x: real, y: real)
    requires 0.0 < x <= 0.05 && x <= y < 1.0
    ensures Denotes(Formatted(x)) <= Denotes(Formatted(y))
  {
    SmallAreDecimals(x);
    if y <= 0.05 {
      SmallAreDecimals(y);
      DecimalsKeepOrder(x, y);
    } else {
      BetweenWholes(y);
    }
  }

  lemma BelowZeroKeepsOrder(x: real, y: real)
    requires x < 0.0 && x <= y
    ensures Denotes(Formatted(x)) <= Denotes(Formatted(y))
  {
    BelowZero(x);
    if y < 0.0 {
      BelowZero(y);
      RoundEvenKeepsOrder(x * 10.0, y * 10.0);
    } else {
      BetweenWholes(y);
    }
  }

  lemma WholesApartKeepOrder(x: real, y: real)
    requires 0.0 <= x <= y && x.Floor != y.Floor
    ensures Denotes(Formatted(x)) <= Denotes(Formatted(y))
  {
    BetweenWholes(x);
    BetweenWholes(y);
  }

  lemma SameWholeInverts(x: real, y: real, a: real, b: real)
    requires 0.05 < x <= y && x.Floor == y.Floor && a == x - x.Floor as real && b == y - y.Floor as real
    ensures Denotes(Formatted(x)) > Denotes(Formatted(y)) <==> GlyphOverTenth(a, b) || TenthOverGlyph(a, b)
  {
    if NoGlyph(a) {
      TenthBesideWhole(x, a);
      if NoGlyph(b) {
        TenthBesideWhole(y, b);
        TwoTenths(a, b);
      } else {
        var h :| 0 <= h < |GLYPHS| && Snaps(b, h);
        GlyphBesideWhole(y, b, h);
        TenthThenGlyph(a, b, h);
      }
    } else {
      var g :| 0 <= g < |GLYPHS| && Snaps(a, g);
      GlyphBesideWhole(x, a, g);
      if NoGlyph(b) {
        TenthBesideWhole(y, b);
        GlyphThenTenth(a, b, g);
      } else {
        var h :| 0 <= h < |GLYPHS| && Snaps(b, h);
        GlyphBesideWhole(y, b, h);
        TwoGlyphs(a, b, g, h);
      }
    }
  }

  lemma ZeroIsShown()
    ensures Denotes(Formatted(0.0)) == 0.0
  {
    TenthBesideWhole(0.0, 0.0);
  }

  lemma NotNegative(y: real)
    requires 0.0 <= y
    ensures 0.0 <= Denotes(Formatted(y))
  {
    BetweenWholes(y);
  }

  /** Exactly when the order is not kept. */
  lemma InversionsExactly(x: real, y: real)
    requires x <= y
    ensures Denotes(Formatted(x)) > Denotes(Formatted(y)) <==> Inverted(x, y)
  {
    if x < 0.0 {
      BelowZeroKeepsOrder(x, y);
    } else if x.Floor != y.Floor {
      WholesApartKeepOrder(x, y);
    } else if x > 0.05 {
      SameWholeInverts(x, y, x - x.Floor as real, y - y.Floor as real);
    } else {
      NothingInvertsSmall(x, y);
      if x > 0.0 {
        SmallKeepOrder(x, y);
      } else {
        ZeroIsShown();
        NotNegative(y);
      }
    }
  }

  /** Quantities at least `gap` apart are always shown in order. */
  ghost predicate KeptAcross(gap: real) {
    forall x, y :: y - x >= gap && y >= x ==> Denotes(Formatted(x)) <= Denotes(Formatted(y))
  }

  lemma InvertedAreNear(x: real, y: real)
    requires Inverted(x, y)
    ensures y - x <= 0.04
  {
  }

  lemma FarthestInverted()
    ensures Denotes(Formatted(0.35)) > Denotes(Formatted(0.39))
  {
    assert (0.35).Floor == 0 && (0.39).Floor == 0;
    assert TenthOverGlyph(0.35, 0.39);
    InversionsExactly(0.35, 0.39);
  }

  lemma FarKeepOrder(x: real, y: real)
    requires y - x > 0.04
    ensures Denotes(Formatted(x)) <= Denotes(Formatted(y))
  {
    InversionsExactly(x, y);
    if Inverted(x, y) {
      InvertedAreNear(x, y);
    }
  }

  /** Two quantities are shown in order whenever they are more than a twenty-fifth
      apart, and no smaller gap will do. */
  lemma OrderIsKeptAcross(gap: real)
    ensures KeptAcross(gap) <==> gap > 0.04
  {
    if gap > 0.04 {
      forall x, y | y - x >= gap && y >= x
        ensures Denotes(Formatted(x)) <= Denotes(Formatted(y))
      {
        FarKeepOrder(x, y);
      }
    } else {
      FarthestInverted();
    }
  }
}
