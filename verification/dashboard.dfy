/**
 * The dashboard's derived figures (App.tsx): the chart rows, the stat-card
 * reductions over all projects and the per-project critical flag.
 */
module Dashboard {
  import opened Types
  import Metrics

  /** One bar group of the budget/spend/forecast chart, in thousands. */
  datatype ChartRow = ChartRow(name: string, budget: real, spent: real, forecast: real)

  /** `dashboardData`: one chart row per project, in project order. */
  function DashboardData(projects: seq<Project>, expenses: seq<Expense>): (rows: seq<ChartRow>)
    ensures |rows| == |projects|
    ensures forall i :: 0 <= i < |projects| ==>
              && rows[i].name == projects[i].name
              && rows[i].budget * 1000.0 == projects[i].totalBudget
              && rows[i].spent * 1000.0 == Metrics.ActualCost(expenses, projects[i].id)
              && rows[i].forecast * 1000.0 == Metrics.ProjectEac(expenses, projects[i])
  {
    seq(|projects|, i requires 0 <= i < |projects| =>
      ChartRow(projects[i].name,
               projects[i].totalBudget / 1000.0,
               Metrics.ActualCost(expenses, projects[i].id) / 1000.0,
               Metrics.ProjectEac(expenses, projects[i]) / 1000.0))
  }

  /** "Toplam Portföy": the summed budgets of all projects. */
  function PortfolioBudget(projects: seq<Project>): (total: real)
    ensures (forall i :: 0 <= i < |projects| ==> projects[i].totalBudget > 0.0) && projects != [] ==> total > 0.0
  {
    if projects == [] then 0.0
    else PortfolioBudget(projects[..|projects| - 1]) + projects[|projects| - 1].totalBudget
  }

  /** "EAC Tahmini (Toplam)": the summed EAC of all projects. */
  function EacTotal(projects: seq<Project>, expenses: seq<Expense>): (total: real)
    ensures projects == [] ==> total == 0.0
    ensures (forall i :: 0 <= i < |projects| ==> projects[i].totalBudget > 0.0) && projects != [] ==> total > 0.0
  {
    if projects == [] then 0.0
    else EacTotal(projects[..|projects| - 1], expenses) + Metrics.ProjectEac(expenses, projects[|projects| - 1])
  }

  /** The summed progress percentages. */
  function ProgressSum(projects: seq<Project>): (sum: real)
    ensures projects == [] ==> sum == 0.0
  {
    if projects == [] then 0.0
    else ProgressSum(projects[..|projects| - 1]) + projects[|projects| - 1].percentComplete
  }

  /** `sum / projects.length`: the mean of `count` summed values; the one value whose `count` copies give the sum. */
  function Mean(sum: real, count: nat): (mean: real)
    requires count > 0
    ensures mean * (count as real) == sum
    ensures sum == count as real ==> mean == 1.0
  {
    sum / (count as real)
  }

  /** "Genel İlerleme": mean progress; the division needs at least one project. */
  function AverageProgress(projects: seq<Project>): real
    requires |projects| > 0
  {
    Mean(ProgressSum(projects), |projects|)
  }

  /** The summed CPI of all projects. */
  function CpiSum(projects: seq<Project>, expenses: seq<Expense>): (sum: real)
    ensures projects == [] ==> sum == 0.0
  {
    if projects == [] then 0.0
    else CpiSum(projects[..|projects| - 1], expenses) + Metrics.ProjectCpi(expenses, projects[|projects| - 1])
  }

  /** "Ortalama CPI": mean CPI; the division needs at least one project. */
  function AverageCpi(projects: seq<Project>, expenses: seq<Expense>): real
    requires |projects| > 0
  {
    Mean(CpiSum(projects, expenses), |projects|)
  }

  /**
   * A project is shown as critical ("KRİTİK") when its variance is negative,
   * which is exactly when its EAC overruns its budget. The variance does not
   * depend on the capacity, so neither does the flag.
   */
  predicate IsCritical(expenses: seq<Expense>, project: Project)
    ensures IsCritical(expenses, project) <==> Metrics.ProjectEac(expenses, project) > project.totalBudget
  {
    Metrics.ProjectVariance(expenses, project) < 0.0
  }

  /** The summed actual cost of each listed project. */
  function SpendAcross(projects: seq<Project>, expenses: seq<Expense>): real
  {
    if projects == [] then 0.0
    else SpendAcross(projects[..|projects| - 1], expenses)
         + Metrics.ActualCost(expenses, projects[|projects| - 1].id)
  }

  /** What one expense contributes to SpendAcross: its amount once per project carrying its id. */
  function Share(projects: seq<Project>, e: Expense): real
  {
    if projects == [] then 0.0
    else Share(projects[..|projects| - 1], e)
         + (if projects[|projects| - 1].id == e.projectId then e.amount else 0.0)
  }

  // ---------------------------------------------------------------------
  // Lemmas

  /** The flag is the one the health panel computes from getProjectMetrics' variance. */
  lemma CriticalFlagOfMetrics(expenses: seq<Expense>, project: Project, parseFloat: string -> real)
    requires parseFloat(Metrics.CapacityText(project.capacity)) != 0.0
    ensures IsCritical(expenses, project) <==> Metrics.GetProjectMetrics(expenses, project, parseFloat).variance < 0.0
  {
  }

  /** With a positive budget, a project is critical exactly when its CPI lies strictly between 0 and 1. */
  lemma CriticalIffIndexBelowOne(expenses: seq<Expense>, project: Project)
    requires project.totalBudget > 0.0
    ensures IsCritical(expenses, project) <==> 0.0 < Metrics.ProjectCpi(expenses, project) < 1.0
  {
    var cpi := Metrics.ProjectCpi(expenses, project);
    if cpi > 0.0 {
      OverrunIffIndexBelowOne(project.totalBudget, cpi, Metrics.ProjectEac(expenses, project));
    }
  }

  lemma OverrunIffIndexBelowOne(budget: real, cpi: real, eac: real)
    requires budget > 0.0 && cpi > 0.0 && eac * cpi == budget
    ensures eac > budget <==> cpi < 1.0
  {
    assert eac > 0.0;
    var d := 1.0 - cpi;
    assert eac - budget == eac * d;
    if cpi < 1.0 {
      assert eac * d > 0.0;
    } else {
      assert eac * -d >= 0.0;
    }
  }

  /** With no spend on any project, the EAC total equals the portfolio budget. */
  lemma {:induction false} EacTotalWithoutSpend(projects: seq<Project>, expenses: seq<Expense>)
    requires forall i :: 0 <= i < |projects| ==> Metrics.ActualCost(expenses, projects[i].id) <= 0.0
    ensures EacTotal(projects, expenses) == PortfolioBudget(projects)
    decreases |projects|
  {
    if projects != [] {
      var init := projects[..|projects| - 1];
      assert forall i :: 0 <= i < |init| ==> init[i] == projects[i];
      EacTotalWithoutSpend(init, expenses);
    }
  }

  /** With no spend on any project, the average CPI is exactly 1. */
  lemma AverageCpiWithoutSpend(projects: seq<Project>, expenses: seq<Expense>)
    requires |projects| > 0
    requires forall i :: 0 <= i < |projects| ==> Metrics.ActualCost(expenses, projects[i].id) <= 0.0
    ensures AverageCpi(projects, expenses) == 1.0
  {
    CpiSumWithoutSpend(projects, expenses);
  }

  lemma {:induction false} CpiSumWithoutSpend(projects: seq<Project>, expenses: seq<Expense>)
    requires forall i :: 0 <= i < |projects| ==> Metrics.ActualCost(expenses, projects[i].id) <= 0.0
    ensures CpiSum(projects, expenses) == |projects| as real
    decreases |projects|
  {
    if projects != [] {
      var init := projects[..|projects| - 1];
      assert forall i :: 0 <= i < |init| ==> init[i] == projects[i];
      CpiSumWithoutSpend(init, expenses);
    }
  }

  /** With budgets non-negative and progress in [0, 100], every CPI and hence the CPI sum is non-negative. */
  lemma {:induction false} CpiSumNonNegative(projects: seq<Project>, expenses: seq<Expense>)
    requires forall i :: 0 <= i < |projects| ==>
               0.0 <= projects[i].totalBudget && 0.0 <= projects[i].percentComplete <= 100.0
    ensures CpiSum(projects, expenses) >= 0.0
    decreases |projects|
  {
    if projects != [] {
      var init := projects[..|projects| - 1];
      assert forall i :: 0 <= i < |init| ==> init[i] == projects[i];
      CpiSumNonNegative(init, expenses);
      assert Metrics.ProjectCpi(expenses, projects[|projects| - 1]) >= 0.0;
    }
  }

  /** If no project is critical, the portfolio's EAC total stays within its budget total. */
  lemma {:induction false} EacTotalWithinPortfolio(projects: seq<Project>, expenses: seq<Expense>)
    requires forall i :: 0 <= i < |projects| ==> !IsCritical(expenses, projects[i])
    ensures EacTotal(projects, expenses) <= PortfolioBudget(projects)
    decreases |projects|
  {
    if projects != [] {
      var init, last := projects[..|projects| - 1], projects[|projects| - 1];
      assert forall i :: 0 <= i < |init| ==> init[i] == projects[i];
      EacTotalWithinPortfolio(init, expenses);
      assert !IsCritical(expenses, last);
    }
  }

  lemma {:induction false} ProgressSumBounds(projects: seq<Project>, lo: real, hi: real)
    requires forall i :: 0 <= i < |projects| ==> lo <= projects[i].percentComplete <= hi
    ensures lo * (|projects| as real) <= ProgressSum(projects) <= hi * (|projects| as real)
    decreases |projects|
  {
    if projects != [] {
      var init := projects[..|projects| - 1];
      assert forall i :: 0 <= i < |init| ==> init[i] == projects[i];
      ProgressSumBounds(init, lo, hi);
    }
  }

  /** The average progress lies between the smallest and largest progress; in particular in [0, 100]. */
  lemma AverageProgressBounds(projects: seq<Project>, lo: real, hi: real)
    requires |projects| > 0
    requires forall i :: 0 <= i < |projects| ==> lo <= projects[i].percentComplete <= hi
    ensures lo <= AverageProgress(projects) <= hi
  {
    ProgressSumBounds(projects, lo, hi);
    MeanBounds(ProgressSum(projects), |projects|, lo, hi);
  }

  /** A mean lies between any bounds that, taken `count` times, enclose the sum. */
  lemma MeanBounds(sum: real, count: nat, lo: real, hi: real)
    requires count > 0
    requires lo * (count as real) <= sum <= hi * (count as real)
    ensures lo <= Mean(sum, count) <= hi
  {
    var n, mean := count as real, Mean(sum, count);
    assert (mean - lo) * n == sum - lo * n;
    assert (hi - mean) * n == hi * n - sum;
  }

  /** Prepending an expense adds its share to the per-project spend total. */
  lemma {:induction false} SpendAcrossPrepend(projects: seq<Project>, e: Expense, expenses: seq<Expense>)
    ensures SpendAcross(projects, [e] + expenses) == SpendAcross(projects, expenses) + Share(projects, e)
    decreases |projects|
  {
    if projects != [] {
      SpendAcrossPrepend(projects[..|projects| - 1], e, expenses);
      Metrics.ActualCostPrepend(e, expenses, projects[|projects| - 1].id);
    }
  }

  /** With distinct ids, an expense's share is its amount if some project carries its id, and 0 otherwise. */
  lemma {:induction false} ShareOfExpense(projects: seq<Project>, e: Expense)
    requires forall i, j :: 0 <= i < j < |projects| ==> projects[i].id != projects[j].id
    ensures Share(projects, e)
            == if exists i :: 0 <= i < |projects| && projects[i].id == e.projectId then e.amount else 0.0
    decreases |projects|
  {
    if projects != [] {
      var init, last := projects[..|projects| - 1], projects[|projects| - 1];
      assert forall i :: 0 <= i < |init| ==> init[i] == projects[i];
      ShareOfExpense(init, e);
      if last.id == e.projectId {
        assert !exists i :: 0 <= i < |init| && init[i].id == e.projectId;
      } else if exists i :: 0 <= i < |projects| && projects[i].id == e.projectId {
        var i :| 0 <= i < |projects| && projects[i].id == e.projectId;
        assert init[i].id == e.projectId;
      }
    }
  }

  /**
   * "Fiili Harcama" sums every expense. When project ids are distinct and
   * every expense belongs to a listed project, that equals the sum of the
   * projects' actual costs; orphaned expenses are counted only by the card.
   */
  lemma {:induction false} TotalSpendSplitsByProject(projects: seq<Project>, expenses: seq<Expense>)
    requires forall i, j :: 0 <= i < j < |projects| ==> projects[i].id != projects[j].id
    requires forall k :: 0 <= k < |expenses| ==>
               exists i :: 0 <= i < |projects| && projects[i].id == expenses[k].projectId
    ensures SpendAcross(projects, expenses) == Metrics.SumAmounts(expenses)
    decreases |expenses|
  {
    if expenses == [] {
      SpendAcrossEmpty(projects);
    } else {
      var e, rest := expenses[0], expenses[1..];
      assert expenses == [e] + rest;
      assert forall k :: 0 <= k < |rest| ==> rest[k] == expenses[k + 1];
      TotalSpendSplitsByProject(projects, rest);
      SpendAcrossPrepend(projects, e, rest);
      assert exists i :: 0 <= i < |projects| && projects[i].id == e.projectId;
      ShareOfExpense(projects, e);
      assert Share(projects, e) == e.amount;
      Metrics.SumAmountsConcat([e], rest);
      assert [e][..0] == [];
      assert Metrics.SumAmounts([e]) == e.amount;
    }
  }

  lemma {:induction false} SpendAcrossEmpty(projects: seq<Project>)
    ensures SpendAcross(projects, []) == 0.0
    decreases |projects|
  {
    if projects != [] {
      SpendAcrossEmpty(projects[..|projects| - 1]);
      assert Metrics.FilterByProject([], projects[|projects| - 1].id) == [];
    }
  }
}
