// The two loops of the program's main routine: extracting the food
// attributes into parallel coefficient lists before the optimiser runs, and
// writing the optimiser's amounts back into the Food objects afterwards.

module DietProgram {
  import opened LinearSums
  import opened Requirements
  import opened Foods

  /** Builds the seven parallel lists, one entry per food in list order. */
  method ExtractColumns(foods: seq<Food>)
    returns (costs: seq<real>, cals: seq<real>, satFats: seq<real>, sodiums: seq<real>,
             vitcs: seq<real>, vitas: seq<real>, proteins: seq<real>)
    ensures costs == Column(Records(foods), Cost)
    ensures cals == Column(Records(foods), Cals)
    ensures satFats == Column(Records(foods), SatFat)
    ensures sodiums == Column(Records(foods), Sodium)
    ensures vitcs == Column(Records(foods), VitC)
    ensures vitas == Column(Records(foods), VitA)
    ensures proteins == Column(Records(foods), Protein)
    ensures Columns(cals, sodiums, satFats, vitcs, vitas, proteins) == ConstraintColumns(Records(foods))
  {
    costs, cals, satFats, sodiums, vitcs, vitas, proteins := [], [], [], [], [], [], [];
    var k := 0;
    while k < |foods|
      invariant 0 <= k <= |foods|
      invariant costs == Column(Records(foods[..k]), Cost)
      invariant cals == Column(Records(foods[..k]), Cals)
      invariant satFats == Column(Records(foods[..k]), SatFat)
      invariant sodiums == Column(Records(foods[..k]), Sodium)
      invariant vitcs == Column(Records(foods[..k]), VitC)
      invariant vitas == Column(Records(foods[..k]), VitA)
      invariant proteins == Column(Records(foods[..k]), Protein)
    {
      var food := foods[k];
      costs := costs + [food.costPerAmount];
      cals := cals + [food.calsPerAmount];
      satFats := satFats + [food.satFatPerAmount];
      sodiums := sodiums + [food.sodiumPerAmount];
      vitcs := vitcs + [food.vitcPerAmount];
      vitas := vitas + [food.vitaPerAmount];
      proteins := proteins + [food.proteinPerAmount];
      k := k + 1;
    }
    assert foods[..k] == foods;
  }

  /** The coefficient lists handed to the six constraints. */
  function ConstraintColumns(recs: seq<FoodRecord>): (cols: Columns)
    ensures |cols.cals| == |cols.sodiums| == |cols.satFats| == |recs|
    ensures |cols.vitcs| == |cols.vitas| == |cols.proteins| == |recs|
    ensures forall amounts: seq<real> :: |amounts| <= |recs| ==> Covers(cols, amounts)
  {
    Columns(Column(recs, Cals), Column(recs, Sodium), Column(recs, SatFat),
            Column(recs, VitC), Column(recs, VitA), Column(recs, Protein))
  }

  /** Fed with the lists extracted from the foods, the registered constraints
      accept exactly the amounts whose nutrient totals over the foods'
      attributes meet every bound. */
  lemma ExtractedListsFeedConstraints(recs: seq<FoodRecord>, amounts: seq<real>)
    requires |amounts| <= |recs|
    ensures AcceptedByAll(ConstraintColumns(recs), amounts) <==>
      WeightedSum(amounts, Column(recs, Cals)) == CalorieReq &&
      WeightedSum(amounts, Column(recs, Sodium)) <= SodiumLim &&
      WeightedSum(amounts, Column(recs, SatFat)) <= SaturatedFatLim &&
      WeightedSum(amounts, Column(recs, VitC)) >= VitaminCMin &&
      WeightedSum(amounts, Column(recs, VitA)) >= VitaminAMin &&
      WeightedSum(amounts, Column(recs, Protein)) >= ProteinMin
  {
    AcceptedExactlyWhenMet(ConstraintColumns(recs), amounts);
  }

  /** Foods built by the program's constructor hand the constraints a vitamin A
      list equal to their vitamin C list. */
  lemma {:induction false} VitaminAListCopiesVitaminC(recs: seq<FoodRecord>)
    requires forall i :: 0 <= i < |recs| ==> recs[i].vitaPerAmount == recs[i].vitcPerAmount
    ensures ConstraintColumns(recs).vitas == ConstraintColumns(recs).vitcs
  {
    var cols := ConstraintColumns(recs);
    assert forall i :: 0 <= i < |recs| ==> cols.vitas[i] == cols.vitcs[i];
  }

  function Min(a: nat, b: nat): (m: nat)
    ensures m <= a && m <= b && (m == a || m == b)
  {
    if a <= b then a else b
  }

  /** Index of the last occurrence of f in s, the entry whose write survives. */
  function LastIndex(s: seq<Food>, f: Food): (k: nat)
    requires f in s
    ensures k < |s| && s[k] == f
    ensures forall j :: k < j < |s| ==> s[j] != f
    decreases |s|
  {
    if s[|s| - 1] == f then |s| - 1
    else
      assert f in s[..|s| - 1] by {
        var j :| 0 <= j < |s| && s[j] == f;
        assert s[..|s| - 1][j] == f;
      }
      LastIndex(s[..|s| - 1], f)
  }

  /** Appending x makes x the last occurrence of itself and leaves every
      other food's last occurrence where it was. */
  lemma LastIndexAppend(s: seq<Food>, x: Food, f: Food)
    requires f in s + [x]
    ensures f != x ==> f in s
    ensures LastIndex(s + [x], f) == if f == x then |s| else LastIndex(s, f)
  {
    if f != x {
      assert (s + [x])[..|s|] == s;
    }
  }

  predicate Distinct(foods: seq<Food>)
  {
    forall i, j :: 0 <= i < j < |foods| ==> foods[i] != foods[j]
  }

  /** Without repeated foods, the surviving write to food i is amount i. */
  lemma LastIndexOfDistinct(s: seq<Food>, i: nat)
    requires Distinct(s) && i < |s|
    ensures LastIndex(s, s[i]) == i
  {
  }

  /** Two entries that are the same object have the same record. */
  predicate SameObjectSameRecord(foods: seq<Food>, recs: seq<FoodRecord>)
    requires |recs| == |foods|
  {
    forall i, j :: 0 <= i < |foods| && 0 <= j < |foods| && foods[i] == foods[j] ==> recs[i] == recs[j]
  }

  /** The records after the first k steps of the write-back loop, starting
      from olds: a food among the first k entries carries the amount of its
      last occurrence there; any other food keeps its record. */
  ghost function AfterWrites(olds: seq<FoodRecord>, foods: seq<Food>, amounts: seq<real>, k: nat)
    : (recs: seq<FoodRecord>)
    requires |olds| == |foods| && k <= |foods| && k <= |amounts|
    ensures |recs| == |foods|
  {
    seq(|foods|, i requires 0 <= i < |foods| =>
      if foods[i] in foods[..k] then Written(olds[i], amounts[LastIndex(foods[..k], foods[i])])
      else olds[i])
  }

  /** Step k of the loop writes amount k over the record food k held before,
      at every position where that same food is listed. */
  lemma AfterWritesStep(olds: seq<FoodRecord>, foods: seq<Food>, amounts: seq<real>, k: nat)
    requires |olds| == |foods| && k < |foods| && k < |amounts|
    requires SameObjectSameRecord(foods, olds)
    ensures forall i :: 0 <= i < |foods| ==>
      AfterWrites(olds, foods, amounts, k + 1)[i]
        == if foods[i] == foods[k] then Written(AfterWrites(olds, foods, amounts, k)[k], amounts[k])
           else AfterWrites(olds, foods, amounts, k)[i]
  {
    assert foods[..k + 1] == foods[..k] + [foods[k]];
    forall i | 0 <= i < |foods|
      ensures AfterWrites(olds, foods, amounts, k + 1)[i]
        == if foods[i] == foods[k] then Written(AfterWrites(olds, foods, amounts, k)[k], amounts[k])
           else AfterWrites(olds, foods, amounts, k)[i]
    {
      if foods[i] in foods[..k + 1] {
        LastIndexAppend(foods[..k], foods[k], foods[i]);
      }
      if foods[i] == foods[k] && foods[k] in foods[..k] {
        var j := LastIndex(foods[..k], foods[k]);
        WrittenTwice(olds[k], amounts[j], amounts[k]);
      }
    }
  }

  /** For a list without repeated foods, the effect of the write-back loop
      is exactly the zip of records and amounts. */
  lemma WritesOfDistinctFoods(olds: seq<FoodRecord>, foods: seq<Food>, amounts: seq<real>)
    requires Distinct(foods) && |olds| == |foods|
    ensures AfterWrites(olds, foods, amounts, Min(|foods|, |amounts|)) == Zipped(olds, amounts)
  {
    var n := Min(|foods|, |amounts|);
    forall i | 0 <= i < |foods|
      ensures AfterWrites(olds, foods, amounts, n)[i] == Zipped(olds, amounts)[i]
    {
      if i < n {
        LastIndexOfDistinct(foods[..n], i);
      } else {
        assert foods[i] !in foods[..n];
      }
    }
  }

  /** The body of the write-back loop for one food. */
  method StoreAmount(food: Food, amount: real)
    modifies food
    ensures food.State() == Written(old(food.State()), amount)
  {
    food.amount := amount;
    food.totalCost := food.amount * food.costPerAmount;
    food.totalCals := food.amount * food.calsPerAmount;
  }

  /** Pairs each food with the amount of the same position, up to the shorter
      of the two lists, stores that amount and recomputes the cost and
      calorie totals; every other field keeps its value, and a food listed
      only at or past that length keeps its record. A food listed twice
      keeps its last write. */
  method WriteBack(foods: seq<Food>, amounts: seq<real>)
    modifies foods
    ensures Records(foods) == AfterWrites(old(Records(foods)), foods, amounts, Min(|foods|, |amounts|))
    ensures Distinct(foods) ==> Records(foods) == Zipped(old(Records(foods)), amounts)
  {
    ghost var olds := Records(foods);
    var n := Min(|foods|, |amounts|);
    var k := 0;
    while k < n
      invariant 0 <= k <= n
      invariant forall i :: 0 <= i < |foods| ==> foods[i].State() == AfterWrites(olds, foods, amounts, k)[i]
    {
      var food, amount := foods[k], amounts[k];
      StoreAmount(food, amount);
      AfterWritesStep(olds, foods, amounts, k);
      k := k + 1;
    }
    ghost var result := AfterWrites(olds, foods, amounts, n);
    assert Records(foods) == result;
    if Distinct(foods) {
      WritesOfDistinctFoods(olds, foods, amounts);
    }
  }
}
