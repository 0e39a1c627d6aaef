/** Converting a quantity to grams or millilitres, over exact numbers, and scaling
    a stored line. */
module Conversion {
  import opened Options

  datatype UnitKind = Mass | Volume | Count | Ratio
  datatype Unit = Unit(kind: UnitKind, token: string, factor: real, approx: bool)
  datatype Measure = Grams | Millilitres
  datatype Ingredient = Ingredient(byMass: bool, density: Option<real>, gramWeights: map<string, real>)
  datatype Converted = Converted(amount: real, measure: Measure, approx: bool)

  /** Rounds to an integer, halves to the even one. */
  function RoundEven(x: real): (n: int)
    ensures -0.5 <= n as real - x <= 0.5
  {
    var down := x.Floor;
    var rest := x - down as real;
    if rest < 0.5 then down
    else if rest > 0.5 then down + 1
    else if down % 2 == 0 then down
    else down + 1
  }

  /** An integer and a half goes to the even neighbour, whatever its sign. */
  lemma HalvesGoToEven(n: int)
    ensures RoundEven(n as real + 0.5) == if n % 2 == 0 then n else n + 1
  {
  }

  /** Rounds to two decimals. */
  function Round2(x: real): (r: real)
    ensures -0.005 <= r - x <= 0.005
  {
    RoundEven(x * 100.0) as real / 100.0
  }

  function Dense(ingredient: Ingredient): bool {
    ingredient.density.Some? && ingredient.density.value > 0.0
  }

  /** How an amount is made of a quantity: times what one unit weighs or holds, and
      then across the density if the measure changes. */
  datatype Rate =
    | PerUnit(per: real)
    | OverDensity(per: real, density: real)
    | TimesDensity(per: real, density: real)

  datatype Route = Route(rate: Rate, measure: Measure, approx: bool)

  /** The branch that converts a unit of this ingredient, if one does. */
  function RouteOf(unit: Unit, ingredient: Ingredient): Option<Route> {
    match unit.kind
    case Ratio => None
    case Count =>
      if unit.token !in ingredient.gramWeights then None
      else
        var each := ingredient.gramWeights[unit.token];
        if ingredient.byMass then Some(Route(PerUnit(each), Grams, true))
        else if !Dense(ingredient) then None
        else Some(Route(OverDensity(each, ingredient.density.value), Millilitres, true))
    case Mass =>
      if ingredient.byMass then Some(Route(PerUnit(unit.factor), Grams, unit.approx))
      else if !Dense(ingredient) then None
      else Some(Route(OverDensity(unit.factor, ingredient.density.value), Millilitres, true))
    case Volume =>
      if !ingredient.byMass then Some(Route(PerUnit(unit.factor), Millilitres, unit.approx))
      else if unit.token in ingredient.gramWeights then
        Some(Route(PerUnit(ingredient.gramWeights[unit.token]), Grams, true))
      else if Dense(ingredient) then Some(Route(TimesDensity(unit.factor, ingredient.density.value), Grams, true))
      else None
  }

  function Amount(quantity: real, rate: Rate): real
    requires rate.OverDensity? ==> rate.density > 0.0
  {
    match rate
    case PerUnit(per) => quantity * per
    case OverDensity(per, density) => quantity * per / density
    case TimesDensity(per, density) => quantity * per * density
  }

  /** A quantity converted along a route. */
  function Along(route: Route, quantity: real): Converted
    requires route.rate.OverDensity? ==> route.rate.density > 0.0
  {
    Converted(Round2(Amount(quantity, route.rate)), route.measure, route.approx)
  }

  /** `unit` is `None` when the text is missing or names no known unit. */
  function Convert(quantity: Option<real>, unit: Option<Unit>, ingredient: Ingredient): Option<Converted> {
    if quantity.None? || unit.None? || quantity.value <= 0.0 then None
    else
      match RouteOf(unit.value, ingredient)
      case None => None
      case Some(route) => Some(Along(route, quantity.value))
  }

  datatype Line = Line(quantity: Option<real>, unit: Option<Unit>, normalized: Option<Converted>)

  /** A line scaled by `factor`; one without a quantity passes through. */
  function ScaleLine(line: Line, factor: real): Line {
    if line.quantity.None? then line
    else
      line.(quantity := Some(line.quantity.value * factor),
            normalized := if line.normalized.None? then None
                          else Some(line.normalized.value.(amount := line.normalized.value.amount * factor)))
  }

  lemma TimesCommutes(a: real, b: real, f: real)
    ensures (a * f) * b == (a * b) * f
  {
  }

  lemma OverCommutes(a: real, d: real, f: real)
    requires d != 0.0
    ensures (a * f) / d == (a / d) * f
  {
    var q := a / d;
    assert q * d == a;
    TimesCommutes(q, d, f);
    assert (q * f) * d == a * f;
  }

  /** Before rounding, conversion is linear. */
  lemma AmountIsLinear(quantity: real, rate: Rate, f: real)
    requires rate.OverDensity? ==> rate.density > 0.0
    ensures Amount(quantity * f, rate) == Amount(quantity, rate) * f
  {
    TimesCommutes(quantity, rate.per, f);
    match rate
    case PerUnit(_) =>
    case OverDensity(per, density) => OverCommutes(quantity * per, density, f);
    case TimesDensity(per, density) => TimesCommutes(quantity * per, density, f);
  }

  lemma ProductIsNonNegative(a: real, f: real, product: real)
    requires f > 0.0 && a >= 0.0 && product == a * f
    ensures product >= 0.0
  {
  }

  lemma ScaledBounds(e: real, f: real, product: real)
    requires f > 0.0 && -0.005 <= e <= 0.005 && product == e * f
    ensures -0.005 * f <= product <= 0.005 * f
  {
    ProductIsNonNegative(e + 0.005, f, product + 0.005 * f);
    ProductIsNonNegative(0.005 - e, f, 0.005 * f - product);
  }

  /** `r` rounds `x`, and `s` rounds `x` scaled. */
  lemma RoundingScales(x: real, r: real, s: real, f: real)
    requires f > 0.0 && -0.005 <= r - x <= 0.005 && -0.005 <= s - x * f <= 0.005
    ensures -0.005 * (f + 1.0) <= r * f - s <= 0.005 * (f + 1.0)
  {
    ScaledBounds(r - x, f, r * f - x * f);
  }

  lemma SignOfProduct(q: real, f: real)
    requires f > 0.0
    ensures q * f <= 0.0 <==> q <= 0.0
  {
  }

  /** The same unit and flag, and amounts that differ by at most half a hundredth
      per rounding: once at the stored amount, which is then scaled, and once here. */
  predicate Agree(scaled: Converted, direct: Converted, factor: real) {
    && direct.measure == scaled.measure
    && direct.approx == scaled.approx
    && -0.005 * (factor + 1.0) <= scaled.amount - direct.amount <= 0.005 * (factor + 1.0)
  }

  lemma AmountsAgree(x: real, y: real, factor: real)
    requires factor > 0.0 && y == x * factor
    ensures -0.005 * (factor + 1.0) <= Round2(x) * factor - Round2(y) <= 0.005 * (factor + 1.0)
  {
    RoundingScales(x, Round2(x), Round2(y), factor);
  }

  lemma RoutedConversionsAgree(route: Route, quantity: real, scaledQuantity: real, factor: real, one: Converted,
                               scaled: Converted)
    requires route.rate.OverDensity? ==> route.rate.density > 0.0
    requires factor > 0.0 && scaledQuantity == quantity * factor
    requires one == Along(route, quantity) && scaled == one.(amount := one.amount * factor)
    ensures Agree(scaled, Along(route, scaledQuantity), factor)
  {
    AmountIsLinear(quantity, route.rate, factor);
    AmountsAgree(Amount(quantity, route.rate), Amount(scaledQuantity, route.rate), factor);
  }

  /** Scaling a stored line agrees with converting its scaled quantity, and converts
      exactly when that does. */
  lemma ScalingCommutesWithConversion(line: Line, ingredient: Ingredient, factor: real)
    requires factor > 0.0 && line.normalized == Convert(line.quantity, line.unit, ingredient)
    ensures var scaled := ScaleLine(line, factor);
            var direct := Convert(scaled.quantity, scaled.unit, ingredient);
            && (direct.Some? <==> scaled.normalized.Some?)
            && (direct.Some? ==> Agree(scaled.normalized.value, direct.value, factor))
  {
    if line.quantity.Some? && line.unit.Some? {
      var q, scaled := line.quantity.value, ScaleLine(line, factor);
      SignOfProduct(q, factor);
      if line.normalized.Some? {
        var route := RouteOf(line.unit.value, ingredient).value;
        RoutedConversionsAgree(route, q, scaled.quantity.value, factor, line.normalized.value, scaled.normalized.value);
      }
    }
  }

  // ---------------------------------------------------------------------------
  // What a conversion comes to
  // ---------------------------------------------------------------------------

  /** The amount is the exact one, to half a hundredth. */
  predicate IsAbout(converted: Option<Converted>, exact: real, measure: Measure, approx: bool) {
    && converted.Some?
    && converted.value.measure == measure && converted.value.approx == approx
    && -0.005 <= converted.value.amount - exact <= 0.005
  }

  lemma AlongIsAbout(q: real, unit: Unit, ingredient: Ingredient)
    requires q > 0.0
    ensures var converted := Convert(Some(q), Some(unit), ingredient);
            match RouteOf(unit, ingredient)
            case None => converted.None?
            case Some(route) => IsAbout(converted, Amount(q, route.rate), route.measure, route.approx)
  {
  }

  lemma QuotientIs(product: real, density: real, quotient: real)
    requires density > 0.0 && quotient * density == product
    ensures product / density == quotient
  {
  }

  lemma OverDensityIs(q: real, rate: Rate, volume: real)
    requires rate.OverDensity? && rate.density > 0.0 && volume * rate.density == q * rate.per
    ensures Amount(q, rate) == volume
  {
    var product := q * rate.per;
    QuotientIs(product, rate.density, volume);
    assert Amount(q, rate) == product / rate.density;
  }

  lemma DividedIsAbout(q: real, unit: Unit, ingredient: Ingredient, per: real, density: real, volume: real)
    requires q > 0.0 && density > 0.0 && volume * density == q * per
    requires RouteOf(unit, ingredient) == Some(Route(OverDensity(per, density), Millilitres, true))
    ensures IsAbout(Convert(Some(q), Some(unit), ingredient), volume, Millilitres, true)
  {
    AlongIsAbout(q, unit, ingredient);
    var rate := OverDensity(per, density);
    OverDensityIs(q, rate, volume);
    assert Along(Route(rate, Millilitres, true), q).amount == Round2(volume);
  }

  /** Masses are grams; of an ingredient measured by volume they become the volume that
      weighs as much at its density. */
  lemma MassesAre(q: real, unit: Unit, ingredient: Ingredient, volume: real)
    requires q > 0.0 && unit.kind == Mass
    requires ingredient.density.Some? && ingredient.density.value > 0.0 ==>
               volume * ingredient.density.value == q * unit.factor
    ensures var converted := Convert(Some(q), Some(unit), ingredient);
            if ingredient.byMass then IsAbout(converted, q * unit.factor, Grams, unit.approx)
            else if ingredient.density.Some? && ingredient.density.value > 0.0 then
              IsAbout(converted, volume, Millilitres, true)
            else converted.None?
  {
    AlongIsAbout(q, unit, ingredient);
    if !ingredient.byMass && Dense(ingredient) {
      DividedIsAbout(q, unit, ingredient, unit.factor, ingredient.density.value, volume);
    }
  }

  /** Volumes are millilitres; an ingredient measured by mass weighs the unit itself if
      its weight is known, and otherwise multiplies them by its density. */
  lemma VolumesAre(q: real, unit: Unit, ingredient: Ingredient)
    requires q > 0.0 && unit.kind == Volume
    ensures var converted := Convert(Some(q), Some(unit), ingredient);
            if !ingredient.byMass then IsAbout(converted, q * unit.factor, Millilitres, unit.approx)
            else if unit.token in ingredient.gramWeights then
              IsAbout(converted, q * ingredient.gramWeights[unit.token], Grams, true)
            else if ingredient.density.Some? && ingredient.density.value > 0.0 then
              IsAbout(converted, q * unit.factor * ingredient.density.value, Grams, true)
            else converted.None?
  {
    AlongIsAbout(q, unit, ingredient);
  }

  /** Pieces need a known weight, and are then masses that are never exact. */
  lemma CountsAre(q: real, unit: Unit, ingredient: Ingredient, volume: real)
    requires q > 0.0 && unit.kind == Count
    requires unit.token in ingredient.gramWeights && ingredient.density.Some? && ingredient.density.value > 0.0 ==>
               volume * ingredient.density.value == q * ingredient.gramWeights[unit.token]
    ensures var converted := Convert(Some(q), Some(unit), ingredient);
            if unit.token !in ingredient.gramWeights then converted.None?
            else if ingredient.byMass then
              IsAbout(converted, q * ingredient.gramWeights[unit.token], Grams, true)
            else if ingredient.density.Some? && ingredient.density.value > 0.0 then
              IsAbout(converted, volume, Millilitres, true)
            else converted.None?
  {
    AlongIsAbout(q, unit, ingredient);
    if unit.token in ingredient.gramWeights && !ingredient.byMass && Dense(ingredient) {
      var each := ingredient.gramWeights[unit.token];
      DividedIsAbout(q, unit, ingredient, each, ingredient.density.value, volume);
    }
  }

  /** Without a quantity above zero and a known unit that is no ratio there is nothing
      to convert. */
  lemma NothingToConvert(quantity: Option<real>, unit: Option<Unit>, ingredient: Ingredient)
    requires quantity.None? || quantity.value <= 0.0 || unit.None? || unit.value.kind == Ratio
    ensures Convert(quantity, unit, ingredient).None?
  {
  }

  /** Scaling multiplies the quantity and the stored amount, and changes nothing else. */
  lemma ScalingMultiplies(line: Line, factor: real)
    requires line.quantity.Some?
    ensures var scaled := ScaleLine(line, factor);
            && scaled.unit == line.unit
            && scaled.quantity.Some? && scaled.quantity.value == line.quantity.value * factor
            && (line.normalized.None? <==> scaled.normalized.None?)
            && (line.normalized.Some? ==>
                  && scaled.normalized.value.amount == line.normalized.value.amount * factor
                  && scaled.normalized.value.measure == line.normalized.value.measure
                  && scaled.normalized.value.approx == line.normalized.value.approx)
  {
  }

  lemma PassesThrough(line: Line, factor: real)
    requires line.quantity.None?
    ensures ScaleLine(line, factor) == line
  {
  }
}
