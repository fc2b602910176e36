# Diet-problem bookkeeping, modelled in Dafny

The program picks amounts of a few foods so that cost is lowest and six
nutritional bounds hold. Calories must equal 2000. Sodium may be at most
2400 mg and saturated fat at most 20 g. Vitamin C must be at least 90 mg,
vitamin A at least 700 µg and protein at least 56 g. An external
optimiser does the solving. This project models the program's own logic
around it:

- `LinearSums`: the weighted sum Σ amounts[i]·coeffs[i]. The objective
  and every constraint accumulate it in a loop. `Accumulate` is that loop.
  It is proved equal to the recursive `WeightedSum`. Lemmas prove what the
  sum does: zero amounts give 0, non-negative inputs give a non-negative
  total, it is linear, and it reads only the first |amounts| coefficients.
- `Requirements`: the six bound constants, the objective and the six
  constraint functions. It also models the optimiser's convention: an
  `eq` constraint is met when its value is 0, an `ineq` constraint when
  its value is ≥ 0. `ConstraintValue` states the central fact. Each
  constraint's sign is chosen so that the optimiser accepts the value
  exactly when the nutrient total lies within its bound.
- `Foods`: the `Food` class with its sixteen fields. `State()` gives the
  value view of a food, a `FoodRecord`. The module has two constructors:
  the program's own, which reproduces its vitamin A defect, and a
  corrected one. It also has the records-level specification of the
  write-back step, `Written` and `Zipped`. Two lemmas say what the
  totals stored by write-back add up to.
- `DietProgram`: the two loops of `main`. `ExtractColumns` builds the
  parallel attribute lists. `WriteBack` stores the optimiser's amounts in
  the `Food` objects, in place. The zip stops at the shorter of the two
  lists. `WriteBack` also handles a food listed twice: its last write
  wins. With distinct foods, the new records are exactly
  `Zipped(old records, amounts)`.

Values are Dafny `real`, so the model has no floating-point rounding.
The source's constraint functions return `total - bound` or
`-(total - bound)` and rely on the optimiser's `eq`/`ineq` convention.
The model follows that code.

## Model

| member | source | states |
|---|---|---|
| `LinearSums.Accumulate` | linear-programming-nutrition/code/main.py:49-51 | The loop that starts at 0.0 and adds amounts[i]·coeffs[i] for every index of amounts returns exactly the weighted sum of the two lists. |
| `LinearSums.WeightedSumOfZeros` | linear-programming-nutrition/code/main.py:48-52 | If every amount is zero (or there are none), the accumulated total is 0. |
| `LinearSums.WeightedSumNonNegative` | linear-programming-nutrition/code/main.py:142-143 | Amounts within the bounds (0, None) and non-negative per-amount values give a non-negative total. |
| `LinearSums.WeightedSumReadsPrefix` | linear-programming-nutrition/code/main.py:50-51 | Only the coefficients at indices below len(amounts) affect the total: coefficient lists that agree there give equal totals. |
| `LinearSums.WeightedSumLinear` | linear-programming-nutrition/code/main.py:48-52 | The total is linear in the amounts: for a pointwise combination s·a + t·b it equals s·total(a) + t·total(b). |
| `Requirements.ConstraintValue` | linear-programming-nutrition/code/main.py:58-107 | For each bound kind, the optimiser accepts the returned value (zero for eq, non-negative for ineq) if and only if the total meets the bound. |
| `Requirements.Objective` | linear-programming-nutrition/code/main.py:48-52 | The objective is the cost-weighted sum of the amounts. It is 0 for all-zero amounts and non-negative for non-negative amounts and costs. |
| `Requirements.ConstraintCal` | linear-programming-nutrition/code/main.py:58-62 | The value is total calories − 2000. It is zero exactly when total calories equal the requirement. |
| `Requirements.ConstraintSodium` | linear-programming-nutrition/code/main.py:67-71 | The value is 2400 − total sodium. It is ≥ 0 exactly when sodium is at most the limit. |
| `Requirements.ConstraintSatFat` | linear-programming-nutrition/code/main.py:76-80 | The value is 20 − total saturated fat. It is ≥ 0 exactly when saturated fat is at most the limit. |
| `Requirements.ConstraintVitC` | linear-programming-nutrition/code/main.py:85-89 | The value is total vitamin C − 90. It is ≥ 0 exactly when vitamin C reaches the minimum. |
| `Requirements.ConstraintVitA` | linear-programming-nutrition/code/main.py:94-98 | The value is total vitamin A − 700. It is ≥ 0 exactly when vitamin A reaches the minimum. |
| `Requirements.ConstraintProtein` | linear-programming-nutrition/code/main.py:103-107 | The value is total protein − 56. It is ≥ 0 exactly when protein reaches the minimum. |
| `Requirements.AcceptedExactlyWhenMet` | linear-programming-nutrition/code/main.py:144-150 | The six registered constraints (one eq, five ineq) all accept an amount vector if and only if every nutrient total meets its bound. |
| `Requirements.StartingGuess` | linear-programming-nutrition/code/main.py:141 | At the all-zero starting guess, the calorie, vitamin C, vitamin A and protein values are −2000, −90, −700 and −56, so those constraints are violated. The sodium and saturated-fat values are +2400 and +20, so those are satisfied. The guess as a whole is infeasible. |
| `Foods.Food.constructor` | linear-programming-nutrition/code/main.py:22-41 | Each attribute holds its argument, except vitamin A, which holds the vitamin C argument. The amount is 0.0 and all seven totals are 0. |
| `Foods.Food.Corrected` | linear-programming-nutrition/code/main.py:22-41 | As above, but vitamin A holds its own argument. |
| `Foods.VitaminAIgnored` | linear-programming-nutrition/code/main.py:29-30 | For any arguments, the constructed food's vitamin A value is the vitamin C argument. It differs from the vitamin A argument whenever the two arguments differ. |
| `Foods.VitaminAKept` | linear-programming-nutrition/code/main.py:29-30 | With the corrected constructor, the stored vitamin A value is the vitamin A argument. |
| `Foods.WrittenEffect` | linear-programming-nutrition/code/main.py:156-158 | One write-back step sets the amount and makes total cost and total calories equal amount × per-amount value. It changes no per-amount attribute, no other total and not the name. |
| `Foods.WrittenTwice` | linear-programming-nutrition/code/main.py:156-158 | Writing a second amount over a first gives the same record as writing the second amount alone. |
| `Foods.ReportedTotalsMatchSums` | linear-programming-nutrition/code/main.py:155-158 | After write-back with one amount per food, the foods' total costs add up to the objective's weighted sum. The foods' total calories add up to the calorie constraint's weighted sum. |
| `Foods.ReportedTotalsStale` | linear-programming-nutrition/code/main.py:155-158 | Write-back does not recompute the saturated-fat, sodium, vitamin and protein totals. Their sums are unchanged. |
| `DietProgram.ExtractColumns` | linear-programming-nutrition/code/main.py:131-138 | Each of the seven lists has one entry per food, in list order. Entry i is food i's matching per-amount attribute. The six nutrient lists are exactly what `ConstraintColumns` hands to the constraints. |
| `DietProgram.ConstraintColumns` | linear-programming-nutrition/code/main.py:144-149 | The lists handed to the six constraints, one entry per food each, cover every amount vector no longer than the food list. |
| `DietProgram.ExtractedListsFeedConstraints` | linear-programming-nutrition/code/main.py:131-149 | Fed with the lists extracted from the foods, the six registered constraints accept an amount vector exactly when the foods' calorie total equals 2000, their sodium and saturated-fat totals stay within 2400 and 20, and their vitamin C, vitamin A and protein totals reach 90, 700 and 56. |
| `DietProgram.VitaminAListCopiesVitaminC` | linear-programming-nutrition/code/main.py:136-137 | For foods whose vitamin A attribute was copied from vitamin C, the vitamin A list given to the constraint equals the vitamin C list. |
| `DietProgram.LastIndex` | linear-programming-nutrition/code/main.py:155-156 | The index of the last place a food appears among the zipped pairs. Later indices hold other foods, so that index's amount is the one that stays. |
| `DietProgram.LastIndexAppend` | linear-programming-nutrition/code/main.py:155-156 | Appending a food makes it its own last occurrence. Every other food's last occurrence stays where it was. |
| `DietProgram.LastIndexOfDistinct` | linear-programming-nutrition/code/main.py:155-156 | In a list without repeats, food i's last occurrence is i. |
| `DietProgram.AfterWritesStep` | linear-programming-nutrition/code/main.py:155-158 | One more loop step applies amount k to the current record of food k, at every position where that food appears, and touches nothing else. |
| `DietProgram.WritesOfDistinctFoods` | linear-programming-nutrition/code/main.py:155-158 | For distinct foods, the effect of the whole loop is the zip of records and amounts, truncated to the shorter list. |
| `DietProgram.StoreAmount` | linear-programming-nutrition/code/main.py:156-158 | The food's new state is its old state with the amount stored and the cost and calorie totals recomputed. |
| `DietProgram.WriteBack` | linear-programming-nutrition/code/main.py:155-158 | The foods' new records are the old records with the first min(len(foods), len(amounts)) writes applied, the last write to a repeated food winning. A food listed only at or past that length keeps its record. For distinct foods this equals `Zipped(old records, amounts)`. |

## Findings

| source | as written | input that shows it | evidently intended | confidence | as-written member | corrected member |
|---|---|---|---|---|---|---|
| linear-programming-nutrition/code/main.py:30 | `vita_per_amount` is assigned from the `vitc_per_amount` argument | a food built with vitamin C 50 and vitamin A 700 stores vitamin A 50 | vitamin A stores its own argument, 700 | high; not executed | `Foods.VitaminAIgnored` | `Foods.Food.Corrected` |

The unnamed constructor keeps the program's behaviour. `Foods.Food.Corrected`
is the intended one. Extraction and write-back work on any `Food`, however it
was built. The program's two sample foods pass equal vitamin C and vitamin A
values, so the defect does not change their data.

## Left out

- The call to the external optimiser (main.py:151) and its algorithm are foreign library code. Its result is treated as an arbitrary sequence of amounts, the `amounts` argument of `WriteBack`.
- No simplex or standard-form LP engine is modelled: the repository contains none.
- The console output of the solved amounts (main.py:154) and the `__main__` entry point (main.py:161-162) are I/O.
- Floating-point rounding is not modelled: values are exact `real`s.
- The optimiser's packing of `args` (main.py:144-151) is not modelled. Each function takes the coefficient list directly.
- The hard-coded food data (main.py:113-118) and the bounds tuple `bnds` (main.py:142-143) are data, not logic. The bounds appear only as the non-negativity hypothesis of `LinearSums.WeightedSumNonNegative`. The guess `[0,0]` is generalised to any all-zero list in `Requirements.StartingGuess`.
- The source indexes the coefficient list by every index of `amounts`, so a shorter coefficient list raises an index error. The model does not describe that error path. Instead `Accumulate`, `Objective` and the six constraint methods require a coefficient list at least as long as `amounts`.
