# UK pension calculator: the projection behind "Calculate!"

This project models the calculation in `PensionCalculatorApp.on_calculate_clicked` of a
small PyQt5 pension calculator, together with the class constants it uses. The constants are
the annual contribution cap of 60000, the 40% income tax threshold of 50270, and the
"£100k tax trap" threshold of 100000.

One click does the following:

- If both tax options are ticked, it refuses and leaves the calculator's lists untouched.
- Otherwise it empties the four lists it keeps: the pot balances and the 2%, 4% and 6% growth
  lists. If a text field does not parse, it stops there.
- Otherwise it runs one pass per age, from the current age to the retirement age inclusive.
  Each pass:
  - grows the salary (from the second pass on);
  - works out the employee and employer contributions;
  - applies the tax-threshold adjustment to the employee part;
  - caps the total at 60000 by cutting the employee part only;
  - appends to the three compounding growth lists;
  - adds the total to a running pot that is not compounded;
  - fills one table row.

The model has two modules:

- `Projection` (`projection.dfy`) holds the specification functions, one per quantity:
  - `SalaryAt` — the salary of year `i`;
  - `ContributionsFor` — the contributions for a given salary;
  - `Totals` — the stream of yearly totals;
  - `PotBalances` — the pot list;
  - `GrowthList` / `StoredGrowth` — a growth list as stored;
  - `DisplayedGrowth` — the growth value as shown;
  - `Rows` — the table.

  It also holds the lemmas about them.
- `Calculator` (`calculator.dfy`) holds the calculator object. `PensionCalculator` is a class
  whose four `seq<real>` fields are the four lists. `OnCalculateClicked` and its loop update
  them in place. Each loop pass (`CalculateYear`) is proved to extend every list by exactly
  the specification functions' next entry.

Year `i` is the year in which the saver is `currentAge + i`. Money and rates are exact
rationals (`real`). The three percentages are kept as typed and divided by 100, as the
program does.

Three behaviours of the code are worth knowing, and the model keeps each one as written:

- **The tax adjustment raises the employee contribution.** Suppose an option is ticked and
  more than its threshold is left after the contribution. The code then raises the
  contribution to `salary - threshold`, so exactly the threshold is left (main.py:136-137,
  141-142). A contribution that already leaves less is kept. The adjustment never lowers the
  contribution (`TaxAdjusted`).
- **The first pass shows one growth value and stores another.** It shows
  `pot * factor + total` but appends only `total` to each growth list (main.py:154-159).
  Later passes compound the last stored value. So the starting pot never enters a growth
  list or any growth column after the first (`StoredGrowthClosedForm`, `DisplayedGrowthGap`).
- **The shown growth column can fall.** With a starting pot and no contributions, the 2%
  column goes from 1020 to 0 (`DisplayedGrowthCanFall`). For non-negative salary and rates
  (salary growth at least -100%), the stored lists never decrease (`GrowthListNonDecreasing`).
  They do not always increase: with all totals zero they stay at zero.

Two early exits are modelled:

- **Both tax options ticked.** The handler returns before it empties any list
  (main.py:102-108).
- **A field that does not parse.** The `ValueError` handler prints a message. By then the
  lists are already empty and no table row has been written (main.py:110-122, 187-188).

## Model

| member | source | states |
|---|---|---|
| Projection.TaxAdjusted | main.py:134-142 | The adjusted employee contribution is never below the raw one. With the 40% option ticked at most 50270 of salary is left after it. With the tax-trap option at most 100000 is left. It is either the raw contribution or exactly `salary - threshold`. With one option it is `max(raw, salary - threshold)`; with none it is the raw contribution. |
| Projection.Capped | main.py:144-150 | After the cap the total is `min(employee + employer, 60000)` and equals the capped employee part plus the employer part. The employer part is unchanged. When the cap fires, the employee part drops by exactly `employee + employer - 60000`, and it is negative exactly when the employer part alone exceeds 60000. |
| Projection.ContributionsFor | main.py:131-150 | The employer part is the salary times the employer rate / 100. The total is `min(adjusted + employer, 60000)`, where `adjusted` is the tax-adjusted employee contribution. The employee part is `adjusted - max(0, adjusted + employer - 60000)`. The total is the sum of the two parts, never exceeds 60000, and the employee part is at most `adjusted`. |
| Projection.Years | main.py:127 | The number of passes is 0 exactly when the retirement age is below the current age. Otherwise the last pass is at the retirement age. |
| Projection.SalaryAt | main.py:128-129 | With a growth rate of 0 the salary stays the input salary every year. |
| Projection.SalaryClosedForm | main.py:127-129 | Year `i`'s salary is `s0 * (1 + g/100)^i`. Year 0's salary is the input salary. |
| Projection.SalaryNonNegative | main.py:128-129 | A non-negative salary with growth of at least -100% stays non-negative every year. |
| Projection.YearContributions | main.py:131-150 | A year's total is the sum of its employee and employer parts and never exceeds 60000. |
| Projection.TotalAt | main.py:144-150 | A year's total never exceeds 60000. |
| Projection.TotalNonNegative | main.py:131-150 | With non-negative salary and rates, every yearly total lies between 0 and 60000. |
| Projection.Totals | main.py:127-150 | The stream of yearly totals has one entry per year. |
| Projection.TotalsAt | main.py:127-150 | Entry `k` of the stream is the total of year `k`, worked out from year `k`'s salary. |
| Projection.TotalsCapped | main.py:146-150 | Every entry of the stream is at most 60000. |
| Projection.TotalsNonNegative | main.py:131-150 | With non-negative salary and rates, every entry of the stream is non-negative. |
| Projection.PotBalances | main.py:170-171 | The pot list after `n` years has `n` entries. |
| Projection.PotAt | main.py:170-171 | The pot after year 0 is the starting pot plus year 0's total. |
| Projection.PotStep | main.py:170-171 | Each year the pot grows by exactly that year's total. |
| Projection.PotBalancesAt | main.py:170-171 | Pot entry `i` is the starting pot plus the totals of years 0 to `i`. |
| Projection.PotNonDecreasing | main.py:170-171 | While the totals are non-negative, the running pot never shrinks from year `i` to any later year `j`. |
| Projection.PotBounded | main.py:170-171 | With totals capped at 60000, the pot after year `i` is at most the starting pot plus `(i + 1) * 60000`. |
| Projection.PotListNonDecreasing | main.py:170-171 | With non-negative salary and rates, the stored pot list never decreases. |
| Projection.StoredGrowth | main.py:155-168 | With a factor of 1 the stored growth value of year `i` is the sum of the totals of years 0 to `i`, which is the pot's growth without the starting pot. |
| Projection.DisplayedGrowth | main.py:154-161 | The value shown in year 0 is the stored value plus `pot * factor`. The value shown in every later year is the sum of each year's total compounded from its own year on, so it contains no part of the starting pot. |
| Projection.GrowthList | main.py:153-168 | A growth list after `n` years has `n` entries. |
| Projection.GrowthListAt | main.py:153-168 | A growth list's first entry is year 0's total. Every later entry is the previous entry times the factor plus that year's total. |
| Projection.GrowthListEntry | main.py:153-168 | Growth list entry `i` is the stored growth value of year `i`, whatever the length of the list. |
| Projection.StoredGrowthClosedForm | main.py:153-168 | A stored growth value is the sum of each year's total compounded from its own year on. The starting pot plays no part. |
| Projection.DisplayedGrowthGap | main.py:153-168 | The year-1 growth value shown does not continue from the shown year-0 value: it is short by `pot * factor^2`. |
| Projection.DisplayedGrowthCanFall | main.py:153-162 | The shown 2% column can fall from one year to the next: with a pot of 1000 and no contributions it goes from 1020 to 0. |
| Projection.StoredGrowthNonNegative | main.py:160-168 | With non-negative totals and factor, every stored growth value is non-negative. |
| Projection.StoredGrowthNonDecreasing | main.py:160-168 | With non-negative totals and a factor of at least 1, a stored growth value is at most the next one. |
| Projection.StoredGrowthMonotoneInFactor | main.py:153-168 | With non-negative totals, a larger factor never gives a smaller stored growth value. |
| Projection.GrowthScenariosOrdered | main.py:153-168 | With non-negative inputs, in every year the 2% value is at most the 4% value, which is at most the 6% value. This holds both as stored and as shown. |
| Projection.GrowthListsOrdered | main.py:153-168 | With non-negative inputs, at every index the stored 2% list is at most the 4% list, which is at most the 6% list. |
| Projection.GrowthListNonDecreasing | main.py:160-168 | With non-negative inputs, each stored growth list (factor at least 1) never decreases. |
| Projection.RowAt | main.py:173-181 | A row's age lies between the current and the retirement age. Its total is the sum of its two contributions and at most 60000. Its pot is the starting pot plus the totals up to its year. |
| Projection.Rows | main.py:173-181 | The table after `n` years has `n` rows. |
| Projection.RowsAt | main.py:173-181 | Row `i` of the table is year `i`'s row: age, salary, contributions, pot and the three shown growth values. |
| Calculator.GrowSalary | main.py:128-129 | The pass's salary is year `i`'s salary. It is the input salary in the first pass and the previous one grown by the rate in every later pass. |
| Calculator.YearlyContributions | main.py:131-150 | The imperative contribution steps give exactly the contributions of `ContributionsFor` for the pass's salary. |
| Calculator.GrowthStep | main.py:153-168 | One pass turns a growth list of the first `k` years into the list of the first `k + 1` years. The balance it shows is the shown growth value of year `k`. |
| Calculator.PensionCalculator.CalculateYear | main.py:127-181 | One loop pass extends each of the four lists by its next entry. It returns year `i`'s salary, the pot after year `i`, and year `i`'s row. |
| Calculator.PensionCalculator.Project | main.py:124-183 | Starting from empty lists, the loop leaves each list equal to its specification over all years. It produces exactly the table rows. |
| Calculator.PensionCalculator.OnCalculateClicked | main.py:99-188 | With both tax options ticked the click is refused and nothing changes. Otherwise the four lists are emptied. An unparsable field stops the click there. Parsed input leaves the four lists holding the projection, each with `retirementAge - currentAge + 1` entries (or none), and yields the table's rows. |

## Left out

- The Qt user interface (`init_ui`), the window, and application startup: UI only.
- The warning dialog for the two conflicting tax options: only the early return is modelled.
- Parsing the text fields with `int()` / `float()`. The model takes either the parsed numbers or the fact that some field did not parse. Which field failed, and the printed message, are not modelled.
- Writing the rows into the Qt table as `£{x:,.2f}` strings, `setRowCount`, and `resizeColumnsToContents`. The model returns the rows' values instead.
- The chart dialog (`show_chart`): a foreign plotting library.
- IEEE-754 double rounding. Money and rates are exact rationals, so no float-tolerance property is stated.
- The calculator object's construction. The program creates the four lists on the first click that is not refused. The model's constructor starts them empty, and no property depends on their earlier contents.
