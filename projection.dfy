/** The year-by-year pension projection behind the "Calculate!" button,
    stated as pure functions of the form's (already parsed) fields.
    Money and rates are exact rationals (`real`). Year `i` is the year in
    which the saver is `currentAge + i` years old. */
module Projection {

  /** Policy thresholds of the calculator (pounds per year). */
  const MaxContributions: real := 60000.0
  const IncomeThreshold40Pct: real := 50270.0
  const TaxTrapThreshold: real := 100000.0

  /** Growth factors of the three comparison scenarios: 2%, 4% and 6% a year. */
  const TwoPercentFactor: real := 1.02
  const FourPercentFactor: real := 1.04
  const SixPercentFactor: real := 1.06

  /** The form's fields that decide the yearly salary and contributions,
      after parsing. The three rates are percentages as typed by the user
      (5 for 5%); the projection divides them by 100. */
  datatype Plan = Plan(
    currentSalary: real,
    salaryGrowthPct: real,
    employeePct: real,
    employerPct: real,
    avoid40: bool,
    avoidTaxTrap: bool)

  /** All of the form's fields after parsing: the age range, the starting
      pot, and the plan. The starting pot is kept apart from the plan because
      no salary or contribution depends on it. */
  datatype Form = Form(currentAge: int, retirementAge: int, currentPot: real, plan: Plan)

  /** The numeric text fields of the form after parsing: the two ages as
      integers, the rest as numbers. */
  datatype Fields = Fields(
    currentAge: int,
    retirementAge: int,
    currentSalary: real,
    salaryGrowthPct: real,
    employeePct: real,
    employerPct: real,
    currentPot: real)

  /** The result of reading the text fields: `Unparsable` when one of them
      is not a number of the required kind. */
  datatype Input = Unparsable | Parsed(fields: Fields)

  /** The form made of the parsed fields and the two tax check boxes. */
  function FormOf(fields: Fields, avoid40: bool, avoidTaxTrap: bool): Form {
    Form(fields.currentAge, fields.retirementAge, fields.currentPot,
         Plan(fields.currentSalary, fields.salaryGrowthPct, fields.employeePct, fields.employerPct,
              avoid40, avoidTaxTrap))
  }

  /** One year's contributions after the tax adjustment and the cap. */
  datatype Contributions = Contributions(employee: real, employer: real, total: real)

  /** The values written into one row of the results table. */
  datatype Row = Row(
    age: int,
    salary: real,
    employee: real,
    employer: real,
    total: real,
    pot: real,
    growth2: real,
    growth4: real,
    growth6: real)

  /** Number of passes of `range(currentAge, retirementAge + 1)`. */
  function Years(f: Form): (n: nat)
    ensures n == 0 <==> f.retirementAge < f.currentAge
    ensures n > 0 ==> f.currentAge + (n - 1) == f.retirementAge
  {
    if f.retirementAge < f.currentAge then 0 else f.retirementAge - f.currentAge + 1
  }

  function Max(a: real, b: real): real {
    if a < b then b else a
  }

  function Min(a: real, b: real): real {
    if a < b then a else b
  }

  function Pow(x: real, n: nat): real {
    if n == 0 then 1.0 else Pow(x, n - 1) * x
  }

  /** Inputs for which every yearly total is non-negative: a non-negative
      salary that never shrinks below zero, and non-negative contribution rates. */
  predicate NonNegativeInputs(f: Plan) {
    f.currentSalary >= 0.0 && f.salaryGrowthPct >= -100.0 &&
    f.employeePct >= 0.0 && f.employerPct >= 0.0
  }

  // ---------------------------------------------------------------------
  // Salary
  // ---------------------------------------------------------------------

  /** Salary in year `i`: the input salary in year 0, then grown by the
      salary growth rate once per later year. */
  function SalaryAt(f: Plan, i: nat): (s: real)
    ensures f.salaryGrowthPct == 0.0 ==> s == f.currentSalary
  {
    if i == 0 then f.currentSalary
    else SalaryAt(f, i - 1) * (1.0 + f.salaryGrowthPct / 100.0)
  }

  /** Closed form of the yearly salary: s0 * (1 + g)^i. */
  lemma {:induction false} SalaryClosedForm(f: Plan, i: nat)
    ensures SalaryAt(f, i) == f.currentSalary * Pow(1.0 + f.salaryGrowthPct / 100.0, i)
  {
    if i > 0 {
      var g := 1.0 + f.salaryGrowthPct / 100.0;
      SalaryClosedForm(f, i - 1);
      calc {
        SalaryAt(f, i);
        SalaryAt(f, i - 1) * g;
        (f.currentSalary * Pow(g, i - 1)) * g;
        f.currentSalary * (Pow(g, i - 1) * g);
      }
    }
  }

  /** With a growth rate of at least -100% the salary never goes negative. */
  lemma {:induction false} SalaryNonNegative(f: Plan, i: nat)
    requires f.currentSalary >= 0.0 && f.salaryGrowthPct >= -100.0
    ensures SalaryAt(f, i) >= 0.0
  {
    if i > 0 {
      SalaryNonNegative(f, i - 1);
      var g := 1.0 + f.salaryGrowthPct / 100.0;
      MulMonotone(0.0, SalaryAt(f, i - 1), 0.0, g);
    }
  }

  // ---------------------------------------------------------------------
  // One year's contributions
  // ---------------------------------------------------------------------

  /** The tax-threshold adjustment of the employee contribution. When an
      option is ticked and the income left after the contribution is above
      its threshold, the contribution is RAISED to `salary - threshold`, so
      that exactly the threshold is left; otherwise it is kept. */
  function TaxAdjusted(salary: real, employee: real, avoid40: bool, avoidTaxTrap: bool): (r: real)
    ensures r >= employee
    ensures avoid40 ==> salary - r <= IncomeThreshold40Pct
    ensures avoidTaxTrap ==> salary - r <= TaxTrapThreshold
    ensures r == employee
         || (avoid40 && salary - r == IncomeThreshold40Pct)
         || (avoidTaxTrap && salary - r == TaxTrapThreshold)
    ensures avoid40 && !avoidTaxTrap ==> r == Max(employee, salary - IncomeThreshold40Pct)
    ensures avoidTaxTrap && !avoid40 ==> r == Max(employee, salary - TaxTrapThreshold)
    ensures !avoid40 && !avoidTaxTrap ==> r == employee
  {
    var afterFirst :=
      if avoid40 && salary - employee > IncomeThreshold40Pct
      then salary - IncomeThreshold40Pct else employee;
    if avoidTaxTrap && salary - afterFirst > TaxTrapThreshold
    then salary - TaxTrapThreshold else afterFirst
  }

  /** The annual cap: a total above the maximum is cut back to the maximum by
      lowering the employee contribution only. */
  function Capped(employee: real, employer: real): (c: Contributions)
    ensures c.total == Min(employee + employer, MaxContributions)
    ensures c.total == c.employee + c.employer
    ensures c.employer == employer
    ensures employee + employer > MaxContributions ==>
              c.employee == employee - (employee + employer - MaxContributions)
    ensures employee + employer > MaxContributions ==> (c.employee < 0.0 <==> employer > MaxContributions)
  {
    if employee + employer > MaxContributions then
      var excess := employee + employer - MaxContributions;
      Contributions(employee - excess, employer, MaxContributions)
    else
      Contributions(employee, employer, employee + employer)
  }

  /** The contributions for a year with the given salary: the raw
      percentages of the salary, then the tax adjustment of the employee
      part, then the cap. */
  function ContributionsFor(plan: Plan, salary: real): (c: Contributions)
    ensures c.total <= MaxContributions
    ensures c.total == c.employee + c.employer
    ensures c.employer == salary * (plan.employerPct / 100.0)
    ensures c.employee <= TaxAdjusted(salary, salary * (plan.employeePct / 100.0), plan.avoid40, plan.avoidTaxTrap)
    ensures var adjusted := TaxAdjusted(salary, salary * (plan.employeePct / 100.0), plan.avoid40, plan.avoidTaxTrap);
            var employer := salary * (plan.employerPct / 100.0);
            c.total == Min(adjusted + employer, MaxContributions) &&
            c.employee == adjusted - Max(0.0, adjusted + employer - MaxContributions)
  {
    var employee := TaxAdjusted(salary, salary * (plan.employeePct / 100.0), plan.avoid40, plan.avoidTaxTrap);
    Capped(employee, salary * (plan.employerPct / 100.0))
  }

  /** Year `i`'s contributions. */
  function YearContributions(f: Plan, i: nat): (c: Contributions)
    ensures c.total == c.employee + c.employer && c.total <= MaxContributions
  {
    ContributionsFor(f, SalaryAt(f, i))
  }

  function TotalAt(f: Plan, i: nat): (t: real)
    ensures t <= MaxContributions
  {
    YearContributions(f, i).total
  }

  /** With non-negative inputs no yearly total is negative. */
  lemma TotalNonNegative(f: Plan, i: nat)
    requires NonNegativeInputs(f)
    ensures 0.0 <= TotalAt(f, i) <= MaxContributions
  {
    SalaryNonNegative(f, i);
    var salary := SalaryAt(f, i);
    assert salary * (f.employeePct / 100.0) >= 0.0;
    assert salary * (f.employerPct / 100.0) >= 0.0;
  }

  /** The contribution stream of the first `n` years: the yearly totals
      that both the pot and the growth lists are built from. */
  function Totals(f: Plan, n: nat): (ts: seq<real>)
    ensures |ts| == n
  {
    if n == 0 then [] else Totals(f, n - 1) + [TotalAt(f, n - 1)]
  }

  /** Entry `k` of the stream is year `k`'s total. */
  lemma {:induction false} TotalsAt(f: Plan, n: nat, k: nat)
    requires k < n
    ensures Totals(f, n)[k] == TotalAt(f, k)
  {
    if k < n - 1 {
      TotalsAt(f, n - 1, k);
    }
  }

  /** Every entry of the stream respects the annual cap. */
  lemma TotalsCapped(f: Plan, n: nat)
    ensures forall k :: 0 <= k < n ==> Totals(f, n)[k] <= MaxContributions
  {
    forall k | 0 <= k < n ensures Totals(f, n)[k] <= MaxContributions {
      TotalsAt(f, n, k);
    }
  }

  predicate AllNonNegative(ts: seq<real>) {
    forall k :: 0 <= k < |ts| ==> ts[k] >= 0.0
  }

  /** With non-negative inputs the whole contribution stream is non-negative. */
  lemma TotalsNonNegative(f: Plan, n: nat)
    requires NonNegativeInputs(f)
    ensures AllNonNegative(Totals(f, n))
  {
    forall k | 0 <= k < n ensures Totals(f, n)[k] >= 0.0 {
      TotalsAt(f, n, k);
      TotalNonNegative(f, k);
    }
  }

  // ---------------------------------------------------------------------
  // The running pot (contributions added, no growth)
  // ---------------------------------------------------------------------

  /** Sum of the first `n` totals. */
  function SumTotals(ts: seq<real>, n: nat): real
    requires n <= |ts|
  {
    if n == 0 then 0.0 else SumTotals(ts, n - 1) + ts[n - 1]
  }

  /** The "Pot Balance" of year `i`: the starting pot plus every total up to
      and including year `i`. */
  function PotAt(pot: real, ts: seq<real>, i: nat): (p: real)
    requires i < |ts|
    ensures i == 0 ==> p == pot + ts[0]
  {
    assert SumTotals(ts, 1) == SumTotals(ts, 0) + ts[0];
    pot + SumTotals(ts, i + 1)
  }

  /** Each year the pot grows by exactly that year's total. */
  lemma PotStep(pot: real, ts: seq<real>, i: nat)
    requires 0 < i < |ts|
    ensures PotAt(pot, ts, i) == PotAt(pot, ts, i - 1) + ts[i]
  {
  }

  /** The list of pot balances after the first `n` years. */
  function PotBalances(pot: real, ts: seq<real>, n: nat): (balances: seq<real>)
    requires n <= |ts|
    ensures |balances| == n
  {
    if n == 0 then [] else PotBalances(pot, ts, n - 1) + [PotAt(pot, ts, n - 1)]
  }

  /** Entry `i` of the pot list is the starting pot plus the totals of
      years 0 .. i. */
  lemma {:induction false} PotBalancesAt(pot: real, ts: seq<real>, n: nat, i: nat)
    requires i < n <= |ts|
    ensures PotBalances(pot, ts, n)[i] == pot + SumTotals(ts, i + 1)
  {
    if i < n - 1 {
      PotBalancesAt(pot, ts, n - 1, i);
    }
  }

  /** The pot never shrinks while the totals are non-negative. */
  lemma {:induction false} PotNonDecreasing(pot: real, ts: seq<real>, i: nat, j: nat)
    requires AllNonNegative(ts)
    requires i <= j < |ts|
    ensures PotAt(pot, ts, i) <= PotAt(pot, ts, j)
  {
    if i < j {
      PotNonDecreasing(pot, ts, i, j - 1);
    }
  }

  /** Totals that respect the cap make the pot grow by at most the maximum
      each year. */
  lemma {:induction false} PotBounded(pot: real, ts: seq<real>, i: nat)
    requires i < |ts|
    requires forall k :: 0 <= k < |ts| ==> ts[k] <= MaxContributions
    ensures PotAt(pot, ts, i) <= pot + (i + 1) as real * MaxContributions
  {
    assert PotAt(pot, ts, i) == pot + SumTotals(ts, i) + ts[i];
    if i == 0 {
      assert SumTotals(ts, 0) == 0.0;
    } else {
      PotBounded(pot, ts, i - 1);
      assert PotAt(pot, ts, i - 1) == pot + SumTotals(ts, i);
      assert (i + 1) as real * MaxContributions == i as real * MaxContributions + MaxContributions;
    }
  }

  // ---------------------------------------------------------------------
  // The three compounding growth scenarios
  // ---------------------------------------------------------------------

  /** The value a growth list stores for year `i`: year 0's total alone in
      year 0 (no starting pot), then the previous stored value compounded by
      `factor` plus that year's total. */
  function StoredGrowth(ts: seq<real>, factor: real, i: nat): (g: real)
    requires i < |ts|
    ensures factor == 1.0 ==> g == SumTotals(ts, i + 1)
  {
    if i == 0 then ts[0]
    else StoredGrowth(ts, factor, i - 1) * factor + ts[i]
  }

  /** The list a growth scenario holds after the first `n` years. */
  function GrowthList(ts: seq<real>, factor: real, n: nat): (stored: seq<real>)
    requires n <= |ts|
    ensures |stored| == n
  {
    if n == 0 then [] else GrowthList(ts, factor, n - 1) + [StoredGrowth(ts, factor, n - 1)]
  }

  /** A growth list starts with year 0's total, and every later entry is the
      entry before it compounded by `factor` plus that year's total. */
  lemma {:induction false} GrowthListAt(ts: seq<real>, factor: real, n: nat, i: nat)
    requires i < n <= |ts|
    ensures GrowthList(ts, factor, n)[i]
         == if i == 0 then ts[0] else GrowthList(ts, factor, n)[i - 1] * factor + ts[i]
  {
    if i < n - 1 {
      GrowthListAt(ts, factor, n - 1, i);
      if i > 0 {
        GrowthListAt(ts, factor, n - 1, i - 1);
      }
    } else if i > 0 {
      GrowthListEntry(ts, factor, n - 1, i - 1);
    }
  }

  lemma {:induction false} GrowthListEntry(ts: seq<real>, factor: real, n: nat, i: nat)
    requires i < n <= |ts|
    ensures GrowthList(ts, factor, n)[i] == StoredGrowth(ts, factor, i)
  {
    if i < n - 1 {
      GrowthListEntry(ts, factor, n - 1, i);
    }
  }

  /** The growth value shown in the table for year `i`: in year 0 it is the
      starting pot compounded once plus the total, which is not what is
      stored; in later years it is the stored value. */
  function DisplayedGrowth(pot: real, ts: seq<real>, factor: real, i: nat): (d: real)
    requires i < |ts|
    ensures i == 0 ==> d == StoredGrowth(ts, factor, 0) + pot * factor
    ensures i > 0 ==> d == CompoundedTotals(ts, factor, i, i + 1)
  {
    if i == 0 then pot * factor + ts[0]
    else
      StoredGrowthClosedForm(ts, factor, i);
      StoredGrowth(ts, factor, i)
  }

  /** sum over k < n of ts[k] * factor^(i - k), for n <= i + 1. */
  function CompoundedTotals(ts: seq<real>, factor: real, i: nat, n: nat): real
    requires n <= i + 1 && n <= |ts|
  {
    if n == 0 then 0.0
    else CompoundedTotals(ts, factor, i, n - 1) + ts[n - 1] * Pow(factor, i - (n - 1))
  }

  lemma {:induction false} CompoundedTotalsScale(ts: seq<real>, factor: real, i: nat, n: nat)
    requires 1 <= i && n <= i && n <= |ts|
    ensures CompoundedTotals(ts, factor, i - 1, n) * factor == CompoundedTotals(ts, factor, i, n)
  {
    if n > 0 {
      CompoundedTotalsScale(ts, factor, i, n - 1);
      var c := CompoundedTotals(ts, factor, i - 1, n - 1);
      var t := ts[n - 1];
      var p := Pow(factor, i - 1 - (n - 1));
      assert Pow(factor, i - (n - 1)) == p * factor;
      assert (c + t * p) * factor == c * factor + t * (p * factor);
    }
  }

  /** Closed form of a stored growth list: each year's total compounded
      from its own year on, and nothing else. */
  lemma {:induction false} StoredGrowthClosedForm(ts: seq<real>, factor: real, i: nat)
    requires i < |ts|
    ensures StoredGrowth(ts, factor, i) == CompoundedTotals(ts, factor, i, i + 1)
  {
    if i > 0 {
      StoredGrowthClosedForm(ts, factor, i - 1);
      CompoundedTotalsScale(ts, factor, i, i);
    }
  }

  /** The year-1 value shown in the table does not continue from the shown
      year-0 value: the compounded starting pot is lost from then on. */
  lemma DisplayedGrowthGap(pot: real, ts: seq<real>, factor: real)
    requires 2 <= |ts|
    ensures DisplayedGrowth(pot, ts, factor, 1)
         == DisplayedGrowth(pot, ts, factor, 0) * factor + ts[1] - pot * factor * factor
  {
  }

  lemma {:induction false} StoredGrowthNonNegative(ts: seq<real>, factor: real, i: nat)
    requires AllNonNegative(ts) && factor >= 0.0 && i < |ts|
    ensures StoredGrowth(ts, factor, i) >= 0.0
  {
    if i > 0 {
      StoredGrowthNonNegative(ts, factor, i - 1);
      assert StoredGrowth(ts, factor, i - 1) * factor >= 0.0;
    }
  }

  /** A stored growth list never shrinks for a factor of at least 1. */
  lemma StoredGrowthNonDecreasing(ts: seq<real>, factor: real, i: nat)
    requires AllNonNegative(ts) && factor >= 1.0 && i + 1 < |ts|
    ensures StoredGrowth(ts, factor, i) <= StoredGrowth(ts, factor, i + 1)
  {
    StoredGrowthNonNegative(ts, factor, i);
    var g := StoredGrowth(ts, factor, i);
    assert g * factor >= g * 1.0;
  }

  lemma MulMonotone(a: real, b: real, x: real, y: real)
    requires 0.0 <= a <= b && 0.0 <= x <= y
    ensures a * x <= b * y
  {
    assert a * x <= a * y;
  }

  /** A larger growth factor never gives a smaller stored value. */
  lemma {:induction false} StoredGrowthMonotoneInFactor(ts: seq<real>, low: real, high: real, i: nat)
    requires AllNonNegative(ts) && 0.0 <= low <= high && i < |ts|
    ensures StoredGrowth(ts, low, i) <= StoredGrowth(ts, high, i)
  {
    if i > 0 {
      StoredGrowthMonotoneInFactor(ts, low, high, i - 1);
      StoredGrowthNonNegative(ts, low, i - 1);
      MulMonotone(StoredGrowth(ts, low, i - 1), StoredGrowth(ts, high, i - 1), low, high);
    }
  }

  /** At every year the 6% list is at least the 4% list, which is at least
      the 2% list, both as stored and as shown. */
  lemma GrowthScenariosOrdered(f: Form, i: nat)
    requires NonNegativeInputs(f.plan) && f.currentPot >= 0.0 && i < Years(f)
    ensures var ts := Totals(f.plan, Years(f));
      StoredGrowth(ts, TwoPercentFactor, i) <= StoredGrowth(ts, FourPercentFactor, i)
                                           <= StoredGrowth(ts, SixPercentFactor, i)
    ensures var ts := Totals(f.plan, Years(f));
      DisplayedGrowth(f.currentPot, ts, TwoPercentFactor, i)
        <= DisplayedGrowth(f.currentPot, ts, FourPercentFactor, i)
        <= DisplayedGrowth(f.currentPot, ts, SixPercentFactor, i)
  {
    var ts := Totals(f.plan, Years(f));
    TotalsNonNegative(f.plan, Years(f));
    StoredGrowthMonotoneInFactor(ts, TwoPercentFactor, FourPercentFactor, i);
    StoredGrowthMonotoneInFactor(ts, FourPercentFactor, SixPercentFactor, i);
  }

  /** The lists as the calculator stores them: at every year the 6% list's
      entry is at least the 4% list's, which is at least the 2% list's. */
  lemma GrowthListsOrdered(f: Form, i: nat)
    requires NonNegativeInputs(f.plan) && i < Years(f)
    ensures var ts := Totals(f.plan, Years(f));
      GrowthList(ts, TwoPercentFactor, Years(f))[i] <= GrowthList(ts, FourPercentFactor, Years(f))[i]
                                                   <= GrowthList(ts, SixPercentFactor, Years(f))[i]
  {
    var ts := Totals(f.plan, Years(f));
    TotalsNonNegative(f.plan, Years(f));
    StoredGrowthMonotoneInFactor(ts, TwoPercentFactor, FourPercentFactor, i);
    StoredGrowthMonotoneInFactor(ts, FourPercentFactor, SixPercentFactor, i);
    GrowthListEntry(ts, TwoPercentFactor, Years(f), i);
    GrowthListEntry(ts, FourPercentFactor, Years(f), i);
    GrowthListEntry(ts, SixPercentFactor, Years(f), i);
  }

  /** Each stored growth list never shrinks from one year to the next. */
  lemma GrowthListNonDecreasing(f: Form, factor: real, i: nat)
    requires NonNegativeInputs(f.plan) && factor >= 1.0 && i + 1 < Years(f)
    ensures var ts := Totals(f.plan, Years(f));
      GrowthList(ts, factor, Years(f))[i] <= GrowthList(ts, factor, Years(f))[i + 1]
  {
    var ts := Totals(f.plan, Years(f));
    TotalsNonNegative(f.plan, Years(f));
    StoredGrowthNonDecreasing(ts, factor, i);
    GrowthListEntry(ts, factor, Years(f), i);
    GrowthListEntry(ts, factor, Years(f), i + 1);
  }

  /** The shown growth column, unlike the stored list, can fall from year 0
      to year 1: with a starting pot of 1000 and no contributions it shows
      1020 and then 0 in the 2% column. */
  lemma DisplayedGrowthCanFall()
    ensures DisplayedGrowth(1000.0, [0.0, 0.0], TwoPercentFactor, 0) == 1020.0
    ensures DisplayedGrowth(1000.0, [0.0, 0.0], TwoPercentFactor, 1) == 0.0
  {
    assert StoredGrowth([0.0, 0.0], TwoPercentFactor, 0) == 0.0;
  }

  /** The pot list never shrinks for non-negative inputs. */
  lemma PotListNonDecreasing(f: Form, i: nat, j: nat)
    requires NonNegativeInputs(f.plan) && i <= j < Years(f)
    ensures var ts := Totals(f.plan, Years(f));
      PotBalances(f.currentPot, ts, Years(f))[i] <= PotBalances(f.currentPot, ts, Years(f))[j]
  {
    var ts := Totals(f.plan, Years(f));
    TotalsNonNegative(f.plan, Years(f));
    PotNonDecreasing(f.currentPot, ts, i, j);
    PotBalancesAt(f.currentPot, ts, Years(f), i);
    PotBalancesAt(f.currentPot, ts, Years(f), j);
  }

  /** The table row of year `i`. */
  function RowAt(f: Form, i: nat): (r: Row)
    requires i < Years(f)
    ensures f.currentAge <= r.age <= f.retirementAge
    ensures r.total == r.employee + r.employer && r.total <= MaxContributions
    ensures r.pot == f.currentPot + SumTotals(Totals(f.plan, Years(f)), i + 1)
  {
    var c := YearContributions(f.plan, i);
    var ts := Totals(f.plan, Years(f));
    Row(f.currentAge + i, SalaryAt(f.plan, i), c.employee, c.employer, c.total,
        PotAt(f.currentPot, ts, i),
        DisplayedGrowth(f.currentPot, ts, TwoPercentFactor, i),
        DisplayedGrowth(f.currentPot, ts, FourPercentFactor, i),
        DisplayedGrowth(f.currentPot, ts, SixPercentFactor, i))
  }

  /** The rows of the first `n` years. */
  function Rows(f: Form, n: nat): (rows: seq<Row>)
    requires n <= Years(f)
    ensures |rows| == n
  {
    if n == 0 then [] else Rows(f, n - 1) + [RowAt(f, n - 1)]
  }

  lemma {:induction false} RowsAt(f: Form, n: nat, i: nat)
    requires i < n <= Years(f)
    ensures Rows(f, n)[i] == RowAt(f, i)
  {
    if i < n - 1 {
      RowsAt(f, n - 1, i);
    }
  }
}
