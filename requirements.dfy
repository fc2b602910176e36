// The diet problem's objective and its six nutrient constraints, written
// the way the optimiser consumes them: a constraint of type Eq is met when
// its value is 0, one of type Ineq when its value is at least 0.

module Requirements {
  import opened LinearSums

  // Nutrient bounds of the program (calories, grams, milligrams, micrograms).
  const CalorieReq: real := 2000.0
  const SaturatedFatLim: real := 20.0
  const SodiumLim: real := 2400.0
  const VitaminCMin: real := 90.0
  const VitaminAMin: real := 700.0
  const ProteinMin: real := 56.0

  /** The two constraint types of the optimiser's dictionary convention. */
  datatype ConstraintType = Eq | Ineq

  /** A constraint value is accepted: 0 for Eq, non-negative for Ineq. */
  predicate Accepts(t: ConstraintType, value: real)
  {
    match t
    case Eq => value == 0.0
    case Ineq => value >= 0.0
  }

  /** What a nutritional requirement asks of a total. */
  datatype Bound = Exactly(target: real) | AtMost(limit: real) | AtLeast(minimum: real)

  predicate Meets(b: Bound, total: real)
  {
    match b
    case Exactly(target) => total == target
    case AtMost(limit) => total <= limit
    case AtLeast(minimum) => total >= minimum
  }

  /** The constraint type each bound is registered with. */
  function TypeOf(b: Bound): ConstraintType
  {
    if b.Exactly? then Eq else Ineq
  }

  /** The value a constraint function returns for a given weighted total:
      total - bound for exact and minimum bounds, -(total - bound) for limits.
      Its sign convention is what makes the optimiser's test coincide with
      the nutritional requirement. */
  function ConstraintValue(b: Bound, total: real): (v: real)
    ensures Accepts(TypeOf(b), v) <==> Meets(b, total)
  {
    match b
    case Exactly(target) => total - target
    case AtMost(limit) => -(total - limit)
    case AtLeast(minimum) => total - minimum
  }

  // The six requirements, with the constraint type each is registered with.
  const CalorieBound: Bound := Exactly(CalorieReq)
  const SodiumBound: Bound := AtMost(SodiumLim)
  const SatFatBound: Bound := AtMost(SaturatedFatLim)
  const VitaminCBound: Bound := AtLeast(VitaminCMin)
  const VitaminABound: Bound := AtLeast(VitaminAMin)
  const ProteinBound: Bound := AtLeast(ProteinMin)

  /** Total cost of the chosen amounts, the quantity the optimiser minimises. */
  method Objective(amounts: seq<real>, costs: seq<real>) returns (totalCost: real)
    requires |amounts| <= |costs|
    ensures totalCost == WeightedSum(amounts, costs)
    ensures AllZero(amounts) ==> totalCost == 0.0
    ensures AllNonNegative(amounts) && AllNonNegative(costs) ==> totalCost >= 0.0
  {
    totalCost := Accumulate(amounts, costs);
    if AllZero(amounts) {
      WeightedSumOfZeros(amounts, costs);
    }
    if AllNonNegative(amounts) && AllNonNegative(costs) {
      WeightedSumNonNegative(amounts, costs);
    }
  }

  /** Calories must equal the requirement exactly (an Eq constraint). */
  method ConstraintCal(amounts: seq<real>, cals: seq<real>) returns (v: real)
    requires |amounts| <= |cals|
    ensures v == WeightedSum(amounts, cals) - CalorieReq
    ensures v == ConstraintValue(CalorieBound, WeightedSum(amounts, cals))
    ensures Accepts(Eq, v) <==> WeightedSum(amounts, cals) == CalorieReq
  {
    var totalCal := Accumulate(amounts, cals);
    v := totalCal - CalorieReq;
  }

  /** Sodium must stay at or below its limit (an Ineq constraint). */
  method ConstraintSodium(amounts: seq<real>, sodiums: seq<real>) returns (v: real)
    requires |amounts| <= |sodiums|
    ensures v == SodiumLim - WeightedSum(amounts, sodiums)
    ensures v == ConstraintValue(SodiumBound, WeightedSum(amounts, sodiums))
    ensures Accepts(Ineq, v) <==> WeightedSum(amounts, sodiums) <= SodiumLim
  {
    var totalSodium := Accumulate(amounts, sodiums);
    v := -(totalSodium - SodiumLim);
  }

  /** Saturated fat must stay at or below its limit (an Ineq constraint). */
  method ConstraintSatFat(amounts: seq<real>, satFats: seq<real>) returns (v: real)
    requires |amounts| <= |satFats|
    ensures v == SaturatedFatLim - WeightedSum(amounts, satFats)
    ensures v == ConstraintValue(SatFatBound, WeightedSum(amounts, satFats))
    ensures Accepts(Ineq, v) <==> WeightedSum(amounts, satFats) <= SaturatedFatLim
  {
    var totalSatFat := Accumulate(amounts, satFats);
    v := -(totalSatFat - SaturatedFatLim);
  }

  /** Vitamin C must reach its minimum (an Ineq constraint). */
  method ConstraintVitC(amounts: seq<real>, vitcs: seq<real>) returns (v: real)
    requires |amounts| <= |vitcs|
    ensures v == WeightedSum(amounts, vitcs) - VitaminCMin
    ensures v == ConstraintValue(VitaminCBound, WeightedSum(amounts, vitcs))
    ensures Accepts(Ineq, v) <==> WeightedSum(amounts, vitcs) >= VitaminCMin
  {
    var totalVitC := Accumulate(amounts, vitcs);
    v := totalVitC - VitaminCMin;
  }

  /** Vitamin A must reach its minimum (an Ineq constraint). */
  method ConstraintVitA(amounts: seq<real>, vitas: seq<real>) returns (v: real)
    requires |amounts| <= |vitas|
    ensures v == WeightedSum(amounts, vitas) - VitaminAMin
    ensures v == ConstraintValue(VitaminABound, WeightedSum(amounts, vitas))
    ensures Accepts(Ineq, v) <==> WeightedSum(amounts, vitas) >= VitaminAMin
  {
    var totalVitA := Accumulate(amounts, vitas);
    v := totalVitA - VitaminAMin;
  }

  /** Protein must reach its minimum (an Ineq constraint). */
  method ConstraintProtein(amounts: seq<real>, proteins: seq<real>) returns (v: real)
    requires |amounts| <= |proteins|
    ensures v == WeightedSum(amounts, proteins) - ProteinMin
    ensures v == ConstraintValue(ProteinBound, WeightedSum(amounts, proteins))
    ensures Accepts(Ineq, v) <==> WeightedSum(amounts, proteins) >= ProteinMin
  {
    var totalProtein := Accumulate(amounts, proteins);
    v := totalProtein - ProteinMin;
  }

  /** The per-food coefficient columns handed to the six constraints. */
  datatype Columns = Columns(
    cals: seq<real>, sodiums: seq<real>, satFats: seq<real>,
    vitcs: seq<real>, vitas: seq<real>, proteins: seq<real>)

  predicate Covers(cols: Columns, amounts: seq<real>)
  {
    |amounts| <= |cols.cals| && |amounts| <= |cols.sodiums| && |amounts| <= |cols.satFats| &&
    |amounts| <= |cols.vitcs| && |amounts| <= |cols.vitas| && |amounts| <= |cols.proteins|
  }

  /** The optimiser's view: every registered constraint accepts its value. */
  predicate AcceptedByAll(cols: Columns, amounts: seq<real>)
    requires Covers(cols, amounts)
  {
    Accepts(TypeOf(CalorieBound), ConstraintValue(CalorieBound, WeightedSum(amounts, cols.cals))) &&
    Accepts(TypeOf(SodiumBound), ConstraintValue(SodiumBound, WeightedSum(amounts, cols.sodiums))) &&
    Accepts(TypeOf(SatFatBound), ConstraintValue(SatFatBound, WeightedSum(amounts, cols.satFats))) &&
    Accepts(TypeOf(VitaminCBound), ConstraintValue(VitaminCBound, WeightedSum(amounts, cols.vitcs))) &&
    Accepts(TypeOf(VitaminABound), ConstraintValue(VitaminABound, WeightedSum(amounts, cols.vitas))) &&
    Accepts(TypeOf(ProteinBound), ConstraintValue(ProteinBound, WeightedSum(amounts, cols.proteins)))
  }

  /** The nutritional view: every total lies within its bound. */
  predicate DietMeetsRequirements(cols: Columns, amounts: seq<real>)
    requires Covers(cols, amounts)
  {
    WeightedSum(amounts, cols.cals) == CalorieReq &&
    WeightedSum(amounts, cols.sodiums) <= SodiumLim &&
    WeightedSum(amounts, cols.satFats) <= SaturatedFatLim &&
    WeightedSum(amounts, cols.vitcs) >= VitaminCMin &&
    WeightedSum(amounts, cols.vitas) >= VitaminAMin &&
    WeightedSum(amounts, cols.proteins) >= ProteinMin
  }

  /** The optimiser accepts exactly the diets that meet every requirement. */
  lemma AcceptedExactlyWhenMet(cols: Columns, amounts: seq<real>)
    requires Covers(cols, amounts)
    ensures AcceptedByAll(cols, amounts) <==> DietMeetsRequirements(cols, amounts)
  {
  }

  /** At the starting guess (no food at all) the calorie, vitamin C, vitamin A
      and protein constraints are violated and the two limits are satisfied. */
  lemma StartingGuess(cols: Columns, guess: seq<real>)
    requires Covers(cols, guess)
    requires AllZero(guess)
    ensures ConstraintValue(CalorieBound, WeightedSum(guess, cols.cals)) == -CalorieReq
    ensures ConstraintValue(SodiumBound, WeightedSum(guess, cols.sodiums)) == SodiumLim
    ensures ConstraintValue(SatFatBound, WeightedSum(guess, cols.satFats)) == SaturatedFatLim
    ensures ConstraintValue(VitaminCBound, WeightedSum(guess, cols.vitcs)) == -VitaminCMin
    ensures ConstraintValue(VitaminABound, WeightedSum(guess, cols.vitas)) == -VitaminAMin
    ensures ConstraintValue(ProteinBound, WeightedSum(guess, cols.proteins)) == -ProteinMin
    ensures !AcceptedByAll(cols, guess)
  {
    WeightedSumOfZeros(guess, cols.cals);
    WeightedSumOfZeros(guess, cols.sodiums);
    WeightedSumOfZeros(guess, cols.satFats);
    WeightedSumOfZeros(guess, cols.vitcs);
    WeightedSumOfZeros(guess, cols.vitas);
    WeightedSumOfZeros(guess, cols.proteins);
  }
}
