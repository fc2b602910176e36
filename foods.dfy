// A food item of the diet program: per-amount attributes given at
// construction, the amount chosen by the optimiser, and the totals derived
// from it. The object is updated in place once the optimiser has run.

module Foods {
  import opened LinearSums

  /** The seven per-amount attributes a food carries. */
  datatype Attribute = Cost | Cals | SatFat | Sodium | VitC | VitA | Protein

  /** The complete state of a Food object, as a value. */
  datatype FoodRecord = FoodRecord(
    name: string,
    costPerAmount: real, calsPerAmount: real, satFatPerAmount: real,
    sodiumPerAmount: real, vitcPerAmount: real, vitaPerAmount: real,
    proteinPerAmount: real,
    amount: real,
    totalCost: real, totalCals: real, totalSatFat: real, totalSodium: real,
    totalVitc: real, totalVita: real, totalProtein: real)
  {
    function PerAmount(a: Attribute): real
    {
      match a
      case Cost => costPerAmount
      case Cals => calsPerAmount
      case SatFat => satFatPerAmount
      case Sodium => sodiumPerAmount
      case VitC => vitcPerAmount
      case VitA => vitaPerAmount
      case Protein => proteinPerAmount
    }

    function Total(a: Attribute): real
    {
      match a
      case Cost => totalCost
      case Cals => totalCals
      case SatFat => totalSatFat
      case Sodium => totalSodium
      case VitC => totalVitc
      case VitA => totalVita
      case Protein => totalProtein
    }

    /** The total of attribute a holds the chosen amount times its per-amount value. */
    predicate TotalIsCurrent(a: Attribute)
    {
      Total(a) == PerAmount(a) * amount
    }
  }

  class Food {
    var name: string
    var costPerAmount: real
    var calsPerAmount: real
    var satFatPerAmount: real
    var sodiumPerAmount: real
    var vitcPerAmount: real
    var vitaPerAmount: real
    var proteinPerAmount: real
    var amount: real
    var totalCost: real
    var totalCals: real
    var totalSatFat: real
    var totalSodium: real
    var totalVitc: real
    var totalVita: real
    var totalProtein: real

    function State(): FoodRecord
      reads this
    {
      FoodRecord(name, costPerAmount, calsPerAmount, satFatPerAmount, sodiumPerAmount,
                 vitcPerAmount, vitaPerAmount, proteinPerAmount, amount,
                 totalCost, totalCals, totalSatFat, totalSodium, totalVitc, totalVita, totalProtein)
    }

    /** Construction as the program writes it: the vitamin A attribute is
        copied from the vitamin C argument and the vitamin A argument is
        ignored. The amount starts at 0.0, so every total starts at 0. */
    constructor (name: string, costPerAmount: real, calsPerAmount: real,
                 satFatPerAmount: real, sodiumPerAmount: real, vitcPerAmount: real,
                 vitaPerAmount: real, proteinPerAmount: real)
      ensures State() == FoodRecord(name, costPerAmount, calsPerAmount, satFatPerAmount,
                                    sodiumPerAmount, vitcPerAmount, vitcPerAmount,
                                    proteinPerAmount, 0.0,
                                    0.0, 0.0, 0.0, 0.0, 0.0, 0.0, 0.0)
      ensures this.vitaPerAmount == vitcPerAmount
    {
      this.costPerAmount := costPerAmount;
      this.calsPerAmount := calsPerAmount;
      this.satFatPerAmount := satFatPerAmount;
      this.sodiumPerAmount := sodiumPerAmount;
      this.vitcPerAmount := vitcPerAmount;
      this.vitaPerAmount := vitcPerAmount;
      this.proteinPerAmount := proteinPerAmount;
      this.name := name;
      this.amount := 0.0;
      new;
      totalCost := this.costPerAmount * this.amount;
      totalCals := this.calsPerAmount * this.amount;
      totalSatFat := this.satFatPerAmount * this.amount;
      totalSodium := this.sodiumPerAmount * this.amount;
      totalVitc := this.vitcPerAmount * this.amount;
      totalVita := this.vitaPerAmount * this.amount;
      totalProtein := this.proteinPerAmount * this.amount;
    }

    /** Construction as intended: every attribute holds its own argument. */
    constructor Corrected(name: string, costPerAmount: real, calsPerAmount: real,
                          satFatPerAmount: real, sodiumPerAmount: real, vitcPerAmount: real,
                          vitaPerAmount: real, proteinPerAmount: real)
      ensures State() == FoodRecord(name, costPerAmount, calsPerAmount, satFatPerAmount,
                                    sodiumPerAmount, vitcPerAmount, vitaPerAmount,
                                    proteinPerAmount, 0.0,
                                    0.0, 0.0, 0.0, 0.0, 0.0, 0.0, 0.0)
      ensures this.vitaPerAmount == vitaPerAmount
    {
      this.costPerAmount := costPerAmount;
      this.calsPerAmount := calsPerAmount;
      this.satFatPerAmount := satFatPerAmount;
      this.sodiumPerAmount := sodiumPerAmount;
      this.vitcPerAmount := vitcPerAmount;
      this.vitaPerAmount := vitaPerAmount;
      this.proteinPerAmount := proteinPerAmount;
      this.name := name;
      this.amount := 0.0;
      new;
      totalCost := this.costPerAmount * this.amount;
      totalCals := this.calsPerAmount * this.amount;
      totalSatFat := this.satFatPerAmount * this.amount;
      totalSodium := this.sodiumPerAmount * this.amount;
      totalVitc := this.vitcPerAmount * this.amount;
      totalVita := this.vitaPerAmount * this.amount;
      totalProtein := this.proteinPerAmount * this.amount;
    }
  }

  /** Witness of the vitamin A defect: whatever vitamin A value is passed,
      the food stores its vitamin C value. */
  method VitaminAIgnored(vitc: real, vita: real) returns (stored: real)
    ensures stored == vitc
    ensures vita != vitc ==> stored != vita
  {
    var food := new Food("food", 1.0, 1.0, 1.0, 1.0, vitc, vita, 1.0);
    stored := food.vitaPerAmount;
  }

  /** The corrected constructor keeps the vitamin A value it is given. */
  method VitaminAKept(vitc: real, vita: real) returns (stored: real)
    ensures stored == vita
  {
    var food := new Food.Corrected("food", 1.0, 1.0, 1.0, 1.0, vitc, vita, 1.0);
    stored := food.vitaPerAmount;
  }

  /** The records of a list of foods, in list order. */
  ghost function Records(foods: seq<Food>): (recs: seq<FoodRecord>)
    reads foods
    ensures |recs| == |foods|
    ensures forall i :: 0 <= i < |foods| ==> recs[i] == foods[i].State()
  {
    seq(|foods|, i reads foods requires 0 <= i < |foods| => foods[i].State())
  }

  /** One attribute of every record, in order. */
  function Column(recs: seq<FoodRecord>, a: Attribute): (col: seq<real>)
    ensures |col| == |recs|
    ensures forall i :: 0 <= i < |recs| ==> col[i] == recs[i].PerAmount(a)
  {
    seq(|recs|, i requires 0 <= i < |recs| => recs[i].PerAmount(a))
  }

  /** One step of the write-back loop: the optimiser's amount is stored and
      the cost and calorie totals are recomputed from it. */
  function Written(r: FoodRecord, x: real): FoodRecord
  {
    r.(amount := x, totalCost := x * r.costPerAmount, totalCals := x * r.calsPerAmount)
  }

  /** Writing an amount makes the cost and calorie totals current and changes
      no attribute and no other total. */
  lemma WrittenEffect(r: FoodRecord, x: real)
    ensures Written(r, x).amount == x
    ensures Written(r, x).TotalIsCurrent(Cost) && Written(r, x).TotalIsCurrent(Cals)
    ensures forall a :: Written(r, x).PerAmount(a) == r.PerAmount(a)
    ensures forall a :: a != Cost && a != Cals ==> Written(r, x).Total(a) == r.Total(a)
    ensures Written(r, x).name == r.name
  {
  }

  /** Writing twice is the same as writing the second amount once. */
  lemma WrittenTwice(r: FoodRecord, x: real, y: real)
    ensures Written(Written(r, x), y) == Written(r, y)
  {
  }

  /** The records after the write-back loop: food i receives amount i for
      every i below the shorter of the two lengths; the rest are untouched. */
  function Zipped(recs: seq<FoodRecord>, amounts: seq<real>): (out: seq<FoodRecord>)
    ensures |out| == |recs|
  {
    seq(|recs|, i requires 0 <= i < |recs| =>
      if i < |amounts| then Written(recs[i], amounts[i]) else recs[i])
  }

  /** The sum over the foods of one total field, as write-back leaves it stored. */
  function ReportedTotal(recs: seq<FoodRecord>, a: Attribute): real
    decreases |recs|
  {
    if |recs| == 0 then 0.0
    else ReportedTotal(recs[..|recs| - 1], a) + recs[|recs| - 1].Total(a)
  }

  /** After write-back with one amount per food, the cost totals add up to the
      objective and the calorie totals to the caloric sum of the constraint. */
  lemma {:induction false} ReportedTotalsMatchSums(recs: seq<FoodRecord>, amounts: seq<real>, a: Attribute)
    requires |amounts| == |recs|
    requires a == Cost || a == Cals
    ensures ReportedTotal(Zipped(recs, amounts), a) == WeightedSum(amounts, Column(recs, a))
  {
    if |recs| > 0 {
      var n := |recs| - 1;
      assert Zipped(recs, amounts)[..n] == Zipped(recs[..n], amounts[..n]);
      ReportedTotalsMatchSums(recs[..n], amounts[..n], a);
      assert Column(recs, a)[..n] == Column(recs[..n], a);
      WeightedSumReadsPrefix(amounts[..n], Column(recs, a), Column(recs[..n], a));
      assert amounts[..n] == amounts[..|amounts| - 1];
    }
  }

  /** The other five totals are not recomputed: their sum is what it was. */
  lemma {:induction false} ReportedTotalsStale(recs: seq<FoodRecord>, amounts: seq<real>, a: Attribute)
    requires a != Cost && a != Cals
    ensures ReportedTotal(Zipped(recs, amounts), a) == ReportedTotal(recs, a)
  {
    if |recs| > 0 {
      var n := |recs| - 1;
      assert Zipped(recs, amounts)[..n] == Zipped(recs[..n], amounts);
      ReportedTotalsStale(recs[..n], amounts, a);
    }
  }
}
