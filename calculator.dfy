/** The calculator object: the four result lists it keeps between clicks
    and the "Calculate!" handler that refills them year by year. */
module Calculator {
  import opened Projection

  /** One pass's contributions: the raw percentages of the salary, the
      tax-threshold adjustment of the employee part, then the annual cap. */
  method YearlyContributions(plan: Plan, currentSalary: real, employeeContrib: real, employerContrib: real)
    returns (employeeContribution: real, employerContribution: real, totalContributions: real)
    requires employeeContrib == plan.employeePct / 100.0 && employerContrib == plan.employerPct / 100.0
    ensures Contributions(employeeContribution, employerContribution, totalContributions)
         == ContributionsFor(plan, currentSalary)
  {
    employeeContribution := currentSalary * employeeContrib;
    employerContribution := currentSalary * employerContrib;

    if plan.avoid40 {
      if currentSalary - employeeContribution > IncomeThreshold40Pct {
        employeeContribution := currentSalary - IncomeThreshold40Pct;
      }
    }
    if plan.avoidTaxTrap {
      if currentSalary - employeeContribution > TaxTrapThreshold {
        employeeContribution := currentSalary - TaxTrapThreshold;
      }
    }

    assert employeeContribution
        == TaxAdjusted(currentSalary, currentSalary * employeeContrib, plan.avoid40, plan.avoidTaxTrap);

    totalContributions := employeeContribution + employerContribution;
    if totalContributions > MaxContributions {
      var excess := totalContributions - MaxContributions;
      employeeContribution := employeeContribution - excess;
      totalContributions := MaxContributions;
    }
  }

  /** One pass's update of one growth list. In the first pass the shown
      balance compounds the current pot, but only the year's total is
      appended; later passes compound the last stored value. */
  method GrowthStep(stored: seq<real>, firstYear: bool, currentPensionPot: real, totalContributions: real,
                    factor: real, ghost ts: seq<real>, ghost startingPot: real)
    returns (balance: real, next: seq<real>)
    requires |stored| < |ts| && stored == GrowthList(ts, factor, |stored|)
    requires firstYear <==> stored == []
    requires firstYear ==> currentPensionPot == startingPot
    requires ts[|stored|] == totalContributions
    ensures next == GrowthList(ts, factor, |stored| + 1)
    ensures balance == DisplayedGrowth(startingPot, ts, factor, |stored|)
  {
    if firstYear {
      balance := currentPensionPot * factor + totalContributions;
      next := stored + [totalContributions];
      assert GrowthList(ts, factor, 1) == [] + [StoredGrowth(ts, factor, 0)];
    } else {
      GrowthListEntry(ts, factor, |stored|, |stored| - 1);
      balance := stored[|stored| - 1] * factor + totalContributions;
      next := stored + [balance];
      assert balance == StoredGrowth(ts, factor, |stored|);
    }
  }

  /** The salary of a pass: the form's salary in the first pass, last
      pass's salary raised by the growth rate in every later one. */
  method GrowSalary(plan: Plan, firstYear: bool, ghost year: nat, currentSalary: real, salaryGrowth: real)
    returns (salary: real)
    requires firstYear <==> year == 0
    requires salaryGrowth == plan.salaryGrowthPct / 100.0
    requires year == 0 ==> currentSalary == plan.currentSalary
    requires year > 0 ==> currentSalary == SalaryAt(plan, year - 1)
    ensures salary == SalaryAt(plan, year)
  {
    salary := currentSalary;
    if !firstYear {
      salary := salary * (1.0 + salaryGrowth);
    }
  }

  /** What a click produces: the refusal of the two conflicting tax options,
      the input error of an unparsable field, or the table's rows. */
  datatype Outcome = Refused | InvalidInput | Calculated(rows: seq<Row>)

  class PensionCalculator {
    /** The running pot of each year (the list the chart plots). */
    var potBalances: seq<real>
    /** What each growth scenario stores for each year. */
    var twoPercentGrowth: seq<real>
    var fourPercentGrowth: seq<real>
    var sixPercentGrowth: seq<real>

    /** The four lists hold the projection of `f`, year by year. */
    ghost predicate HoldsProjection(f: Form)
      reads this
    {
      var ts := Totals(f.plan, Years(f));
      potBalances == PotBalances(f.currentPot, ts, Years(f)) &&
      twoPercentGrowth == GrowthList(ts, TwoPercentFactor, Years(f)) &&
      fourPercentGrowth == GrowthList(ts, FourPercentFactor, Years(f)) &&
      sixPercentGrowth == GrowthList(ts, SixPercentFactor, Years(f))
    }

    constructor ()
      ensures potBalances == [] && twoPercentGrowth == []
      ensures fourPercentGrowth == [] && sixPercentGrowth == []
    {
      potBalances, twoPercentGrowth := [], [];
      fourPercentGrowth, sixPercentGrowth := [], [];
    }

    /** The "Calculate!" handler. With both tax options ticked it refuses and
        leaves every list as it was. Otherwise it empties the four lists;
        if a text field does not parse it stops there, and else it runs one
        pass per age from the current age to the retirement age inclusive,
        appending to each list and producing the values of one table row
        per pass. */
    method OnCalculateClicked(avoid40: bool, avoidTaxTrap: bool, input: Input) returns (outcome: Outcome)
      modifies this
      ensures avoid40 && avoidTaxTrap <==> outcome == Refused
      ensures outcome == Refused ==> unchanged(this)
      ensures outcome == InvalidInput <==> !(avoid40 && avoidTaxTrap) && input == Unparsable
      ensures outcome == InvalidInput ==>
                potBalances == [] && twoPercentGrowth == [] && fourPercentGrowth == [] && sixPercentGrowth == []
      ensures !(avoid40 && avoidTaxTrap) && input.Parsed? ==>
                var f := FormOf(input.fields, avoid40, avoidTaxTrap);
                HoldsProjection(f) && outcome == Calculated(Rows(f, Years(f))) &&
                |potBalances| == |twoPercentGrowth| == |fourPercentGrowth| == |sixPercentGrowth| == Years(f)
    {
      if avoid40 && avoidTaxTrap {
        return Refused;
      }

      potBalances := [];
      twoPercentGrowth := [];
      fourPercentGrowth := [];
      sixPercentGrowth := [];

      if input == Unparsable {
        return InvalidInput;
      }
      var table := Project(FormOf(input.fields, avoid40, avoidTaxTrap));
      outcome := Calculated(table);
    }

    /** The projection proper, on emptied lists: one pass per age from the
        current age to the retirement age inclusive. */
    method Project(f: Form) returns (table: seq<Row>)
      requires potBalances == [] && twoPercentGrowth == []
      requires fourPercentGrowth == [] && sixPercentGrowth == []
      modifies this
      ensures HoldsProjection(f)
      ensures table == Rows(f, Years(f))
    {
      table := [];

      var currentAge := f.currentAge;
      var retirementAge := f.retirementAge;
      var currentSalary := f.plan.currentSalary;
      var salaryGrowth := f.plan.salaryGrowthPct / 100.0;
      var employeeContrib := f.plan.employeePct / 100.0;
      var employerContrib := f.plan.employerPct / 100.0;
      var currentPensionPot := f.currentPot;
      ghost var ts := Totals(f.plan, Years(f));
      assert HoldsFirstYears(f, 0);

      var age := currentAge;
      while age < retirementAge + 1
        invariant currentAge <= age && age - currentAge <= Years(f)
        invariant age == currentAge ==> currentSalary == f.plan.currentSalary && currentPensionPot == f.currentPot
        invariant age > currentAge ==> currentSalary == SalaryAt(f.plan, age - currentAge - 1)
        invariant currentPensionPot == f.currentPot + SumTotals(ts, age - currentAge)
        invariant HoldsFirstYears(f, age - currentAge)
        invariant table == Rows(f, age - currentAge)
        decreases retirementAge + 1 - age
      {
        var row;
        currentSalary, currentPensionPot, row :=
          CalculateYear(f, age, currentSalary, salaryGrowth, employeeContrib, employerContrib, currentPensionPot);
        table := table + [row];
        age := age + 1;
      }
    }

    /** The lists hold the projection of `f` for its first `n` years. */
    ghost predicate HoldsFirstYears(f: Form, n: nat)
      reads this
      requires n <= Years(f)
    {
      var ts := Totals(f.plan, Years(f));
      potBalances == PotBalances(f.currentPot, ts, n) &&
      twoPercentGrowth == GrowthList(ts, TwoPercentFactor, n) &&
      fourPercentGrowth == GrowthList(ts, FourPercentFactor, n) &&
      sixPercentGrowth == GrowthList(ts, SixPercentFactor, n)
    }

    /** One pass of the year loop, for the year in which the saver is `age`:
        grows the salary after the first year, works out the contributions,
        appends to the three growth lists and the pot list, and returns the
        new salary and pot with the values of the year's table row. */
    method CalculateYear(f: Form, age: int, currentSalary: real, salaryGrowth: real,
                         employeeContrib: real, employerContrib: real, currentPensionPot: real)
      returns (salary: real, pot: real, row: Row)
      requires f.currentAge <= age && age - f.currentAge < Years(f)
      requires salaryGrowth == f.plan.salaryGrowthPct / 100.0
      requires employeeContrib == f.plan.employeePct / 100.0 && employerContrib == f.plan.employerPct / 100.0
      requires age == f.currentAge ==> currentSalary == f.plan.currentSalary && currentPensionPot == f.currentPot
      requires age > f.currentAge ==> currentSalary == SalaryAt(f.plan, age - f.currentAge - 1)
      requires currentPensionPot == f.currentPot + SumTotals(Totals(f.plan, Years(f)), age - f.currentAge)
      requires HoldsFirstYears(f, age - f.currentAge)
      modifies this
      ensures salary == SalaryAt(f.plan, age - f.currentAge)
      ensures pot == f.currentPot + SumTotals(Totals(f.plan, Years(f)), age - f.currentAge + 1)
      ensures HoldsFirstYears(f, age - f.currentAge + 1)
      ensures row == RowAt(f, age - f.currentAge)
    {
      ghost var year := age - f.currentAge;
      ghost var ts := Totals(f.plan, Years(f));
      salary := GrowSalary(f.plan, age == f.currentAge, year, currentSalary, salaryGrowth);

      var employeeContribution, employerContribution, totalContributions :=
        YearlyContributions(f.plan, salary, employeeContrib, employerContrib);
      TotalsAt(f.plan, Years(f), year);

      var twoPercentBalance, fourPercentBalance, sixPercentBalance;
      twoPercentBalance, twoPercentGrowth := GrowthStep(twoPercentGrowth, age == f.currentAge,
        currentPensionPot, totalContributions, TwoPercentFactor, ts, f.currentPot);
      fourPercentBalance, fourPercentGrowth := GrowthStep(fourPercentGrowth, age == f.currentAge,
        currentPensionPot, totalContributions, FourPercentFactor, ts, f.currentPot);
      sixPercentBalance, sixPercentGrowth := GrowthStep(sixPercentGrowth, age == f.currentAge,
        currentPensionPot, totalContributions, SixPercentFactor, ts, f.currentPot);

      pot := currentPensionPot + totalContributions;
      potBalances := potBalances + [pot];

      row := Row(age, salary, employeeContribution, employerContribution,
                 totalContributions, pot, twoPercentBalance, fourPercentBalance, sixPercentBalance);
    }
  }
}
