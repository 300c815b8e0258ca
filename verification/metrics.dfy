/**
 * The per-project earned-value engine of the dashboard (getProjectMetrics in
 * App.tsx). Every degenerate case is handled by substituting a sentinel, so
 * each figure is defined for every input except a capacity that parses to 0.
 *
 * Each `reduce` is modelled as a left fold over the list, in the order
 * Array.prototype.reduce visits it.
 */
module Metrics {
  import opened Types

  /** The expenses booked against `projectId`, in list order. */
  function FilterByProject(expenses: seq<Expense>, projectId: string): (r: seq<Expense>)
    ensures |r| <= |expenses|
    ensures forall e :: e in r <==> e in expenses && e.projectId == projectId
  {
    if expenses == [] then []
    else
      var init, last := expenses[..|expenses| - 1], expenses[|expenses| - 1];
      assert expenses == init + [last];
      FilterByProject(init, projectId) + (if last.projectId == projectId then [last] else [])
  }

  /** `reduce((sum, e) => sum + e.amount, 0)`. */
  function SumAmounts(expenses: seq<Expense>): (total: real)
    ensures (forall i :: 0 <= i < |expenses| ==> expenses[i].amount >= 0.0) ==> total >= 0.0
  {
    if expenses == [] then 0.0
    else SumAmounts(expenses[..|expenses| - 1]) + expenses[|expenses| - 1].amount
  }

  /** Actual cost (AC): the summed amounts of the project's own expenses. */
  function ActualCost(expenses: seq<Expense>, projectId: string): (ac: real)
    ensures (forall e :: e in expenses && e.projectId == projectId ==> e.amount >= 0.0) ==> ac >= 0.0
  {
    var own := FilterByProject(expenses, projectId);
    assert forall i :: 0 <= i < |own| ==> own[i] in own;
    SumAmounts(own)
  }

  /**
   * Reference definition of a project's spend, independent of filtering:
   * each expense contributes its amount if it belongs to the project and
   * nothing otherwise.
   */
  function SpendOf(expenses: seq<Expense>, projectId: string): real
  {
    if expenses == [] then 0.0
    else (if expenses[0].projectId == projectId then expenses[0].amount else 0.0)
         + SpendOf(expenses[1..], projectId)
  }

  /** Earned value (EV): the share of the budget the progress has earned. */
  function EarnedValue(project: Project): (ev: real)
    ensures ev * 100.0 == project.totalBudget * project.percentComplete
    ensures project.percentComplete == 0.0 ==> ev == 0.0
    ensures project.percentComplete == 100.0 ==> ev == project.totalBudget
    ensures 0.0 <= project.totalBudget && 0.0 <= project.percentComplete <= 100.0
            ==> 0.0 <= ev <= project.totalBudget
  {
    project.totalBudget * (project.percentComplete / 100.0)
  }

  /** Cost performance index (CPI): EV per unit of AC, exactly 1 while nothing was spent. */
  function CostPerformanceIndex(actualCost: real, earnedValue: real): (cpi: real)
    ensures actualCost <= 0.0 ==> cpi == 1.0
    ensures actualCost > 0.0 ==> cpi * actualCost == earnedValue
    ensures actualCost > 0.0 ==> (cpi > 0.0 <==> earnedValue > 0.0)
  {
    if actualCost > 0.0 then earnedValue / actualCost else 1.0
  }

  /** Estimate at completion (EAC): the budget scaled by 1/CPI, or the budget itself when CPI is not positive. */
  function EstimateAtCompletion(totalBudget: real, cpi: real): (eac: real)
    ensures cpi > 0.0 ==> eac * cpi == totalBudget
    ensures cpi <= 0.0 ==> eac == totalBudget
    ensures cpi == 1.0 ==> eac == totalBudget
  {
    if cpi > 0.0 then totalBudget / cpi else totalBudget
  }

  /** `percentComplete / 100 || 1`: the progress fraction, replaced by 1 at 0% progress. */
  function ProgressFactor(percentComplete: real): (f: real)
    ensures f != 0.0
    ensures percentComplete == 0.0 ==> f == 1.0
    ensures percentComplete != 0.0 ==> f * 100.0 == percentComplete
  {
    if percentComplete / 100.0 != 0.0 then percentComplete / 100.0 else 1.0
  }

  /** `project.capacity || '1'`: the capacity text, "1" when absent or empty. */
  function CapacityText(capacity: Option<string>): (text: string)
    ensures text != ""
    ensures capacity == None || capacity == Some("") ==> text == "1"
    ensures capacity.Some? && capacity.value != "" ==> text == capacity.value
  {
    if capacity.Some? && capacity.value != "" then capacity.value else "1"
  }

  /** Unit cost: AC per unit of delivered capacity. */
  function UnitCost(actualCost: real, capacityNum: real, percentComplete: real): (u: real)
    requires capacityNum != 0.0
    ensures u * (capacityNum * ProgressFactor(percentComplete)) == actualCost
    ensures percentComplete == 0.0 ==> u * capacityNum == actualCost
  {
    actualCost / (capacityNum * ProgressFactor(percentComplete))
  }

  /** CPI of a project over the whole expense list. */
  function ProjectCpi(expenses: seq<Expense>, project: Project): (cpi: real)
    ensures ActualCost(expenses, project.id) <= 0.0 ==> cpi == 1.0
    ensures ActualCost(expenses, project.id) > 0.0 ==> cpi * ActualCost(expenses, project.id) == EarnedValue(project)
    ensures 0.0 <= project.totalBudget && 0.0 <= project.percentComplete <= 100.0 ==> cpi >= 0.0
  {
    var ac, ev := ActualCost(expenses, project.id), EarnedValue(project);
    assert ac > 0.0 && ev >= 0.0 ==> ev / ac >= 0.0;
    CostPerformanceIndex(ac, ev)
  }

  /** EAC of a project over the whole expense list. */
  function ProjectEac(expenses: seq<Expense>, project: Project): (eac: real)
    ensures ProjectCpi(expenses, project) > 0.0 ==> eac * ProjectCpi(expenses, project) == project.totalBudget
    ensures ProjectCpi(expenses, project) <= 0.0 ==> eac == project.totalBudget
    ensures project.totalBudget > 0.0 ==> eac > 0.0
  {
    var cpi := ProjectCpi(expenses, project);
    assert cpi > 0.0 && project.totalBudget > 0.0 ==> project.totalBudget / cpi > 0.0;
    EstimateAtCompletion(project.totalBudget, cpi)
  }

  /** The variance of a project, budget minus EAC; negative exactly when EAC overruns the budget. */
  function ProjectVariance(expenses: seq<Expense>, project: Project): (variance: real)
    ensures variance + ProjectEac(expenses, project) == project.totalBudget
    ensures variance < 0.0 <==> ProjectEac(expenses, project) > project.totalBudget
  {
    project.totalBudget - ProjectEac(expenses, project)
  }

  /**
   * getProjectMetrics. `parseFloat` stands for the host's number parser,
   * applied to the capacity text; a capacity that parses to 0 would divide
   * by zero and is excluded.
   */
  function GetProjectMetrics(expenses: seq<Expense>, project: Project, parseFloat: string -> real): (m: FinancialMetrics)
    requires parseFloat(CapacityText(project.capacity)) != 0.0
    ensures m.actualCost == ActualCost(expenses, project.id)
    ensures m.plannedValue == project.totalBudget
    ensures m.earnedValue * 100.0 == project.totalBudget * project.percentComplete
    ensures m.actualCost <= 0.0 ==> m.cpi == 1.0
    ensures m.actualCost > 0.0 ==> m.cpi * m.actualCost == m.earnedValue
    ensures m.cpi > 0.0 ==> m.eac * m.cpi == project.totalBudget
    ensures m.cpi <= 0.0 ==> m.eac == project.totalBudget
    ensures m.variance + m.eac == project.totalBudget
    ensures m.unitCost * (parseFloat(CapacityText(project.capacity)) * ProgressFactor(project.percentComplete))
            == m.actualCost
    ensures m.cpi == ProjectCpi(expenses, project) && m.eac == ProjectEac(expenses, project)
    ensures m.variance == ProjectVariance(expenses, project)
  {
    var actualCost := ActualCost(expenses, project.id);
    var earnedValue := EarnedValue(project);
    var cpi := CostPerformanceIndex(actualCost, earnedValue);
    var eac := EstimateAtCompletion(project.totalBudget, cpi);
    var capacityNum := parseFloat(CapacityText(project.capacity));
    FinancialMetrics(
      actualCost,
      project.totalBudget,
      earnedValue,
      cpi,
      eac,
      project.totalBudget - eac,
      UnitCost(actualCost, capacityNum, project.percentComplete))
  }

  // ---------------------------------------------------------------------
  // Lemmas about filtering and summing

  lemma {:induction false} SumAmountsConcat(a: seq<Expense>, b: seq<Expense>)
    ensures SumAmounts(a + b) == SumAmounts(a) + SumAmounts(b)
    decreases |b|
  {
    if b == [] {
      assert a + b == a;
    } else {
      var init := b[..|b| - 1];
      assert (a + b)[..|a + b| - 1] == a + init;
      SumAmountsConcat(a, init);
      assert b == init + [b[|b| - 1]];
    }
  }

  lemma {:induction false} FilterConcat(a: seq<Expense>, b: seq<Expense>, projectId: string)
    ensures FilterByProject(a + b, projectId) == FilterByProject(a, projectId) + FilterByProject(b, projectId)
    decreases |b|
  {
    if b == [] {
      assert a + b == a;
    } else {
      var init := b[..|b| - 1];
      assert (a + b)[..|a + b| - 1] == a + init;
      FilterConcat(a, init, projectId);
    }
  }

  /** A one-element list keeps its element exactly when it belongs to the project. */
  lemma FilterSingleton(e: Expense, projectId: string)
    ensures FilterByProject([e], projectId) == if e.projectId == projectId then [e] else []
    ensures SumAmounts(FilterByProject([e], projectId)) == if e.projectId == projectId then e.amount else 0.0
  {
    assert [e][..0] == [];
    if e.projectId == projectId {
      assert [e][..0] == [];
    }
  }

  /** A list with no expense of the project filters to the empty list. */
  lemma {:induction false} FilterNone(expenses: seq<Expense>, projectId: string)
    requires forall e :: e in expenses ==> e.projectId != projectId
    ensures FilterByProject(expenses, projectId) == []
    decreases |expenses|
  {
    if expenses != [] {
      var init := expenses[..|expenses| - 1];
      assert forall e :: e in init ==> e in expenses;
      FilterNone(init, projectId);
    }
  }

  /** AC is exactly the summed amounts of the expenses whose project id matches. */
  lemma {:induction false} ActualCostIsSpend(expenses: seq<Expense>, projectId: string)
    ensures ActualCost(expenses, projectId) == SpendOf(expenses, projectId)
    decreases |expenses|
  {
    if expenses != [] {
      var head, tail := [expenses[0]], expenses[1..];
      assert expenses == head + tail;
      ActualCostIsSpend(tail, projectId);
      FilterConcat(head, tail, projectId);
      SumAmountsConcat(FilterByProject(head, projectId), FilterByProject(tail, projectId));
      FilterSingleton(expenses[0], projectId);
    }
  }

  /** Prepending an expense adds its amount to its own project's AC only. */
  lemma ActualCostPrepend(e: Expense, expenses: seq<Expense>, projectId: string)
    ensures ActualCost([e] + expenses, projectId)
            == ActualCost(expenses, projectId) + (if e.projectId == projectId then e.amount else 0.0)
  {
    FilterConcat([e], expenses, projectId);
    SumAmountsConcat(FilterByProject([e], projectId), FilterByProject(expenses, projectId));
    FilterSingleton(e, projectId);
  }

  /** Filtering skips an expense of another project wherever it stands. */
  lemma FilterSkipsOther(before: seq<Expense>, e: Expense, after: seq<Expense>, projectId: string)
    requires e.projectId != projectId
    ensures FilterByProject(before + [e] + after, projectId) == FilterByProject(before + after, projectId)
  {
    FilterConcat(before + [e], after, projectId);
    FilterConcat(before, [e], projectId);
    FilterConcat(before, after, projectId);
    FilterSingleton(e, projectId);
    assert FilterByProject(before + [e], projectId) == FilterByProject(before, projectId);
  }

  /** Inserting an expense of another project anywhere leaves all of this project's metrics unchanged. */
  lemma OtherProjectExpenseIrrelevant(before: seq<Expense>, e: Expense, after: seq<Expense>,
                                      project: Project, parseFloat: string -> real)
    requires e.projectId != project.id
    requires parseFloat(CapacityText(project.capacity)) != 0.0
    ensures GetProjectMetrics(before + [e] + after, project, parseFloat)
            == GetProjectMetrics(before + after, project, parseFloat)
  {
    FilterSkipsOther(before, e, after, project.id);
    assert ActualCost(before + [e] + after, project.id) == ActualCost(before + after, project.id);
  }

  // ---------------------------------------------------------------------
  // Lemmas about the sentinels and fallbacks

  /** With no expense booked against the project: AC = 0, CPI = 1, EAC = budget, variance = 0. */
  lemma NoExpensesMetrics(expenses: seq<Expense>, project: Project, parseFloat: string -> real)
    requires forall e :: e in expenses ==> e.projectId != project.id
    requires parseFloat(CapacityText(project.capacity)) != 0.0
    ensures var m := GetProjectMetrics(expenses, project, parseFloat);
            m.actualCost == 0.0 && m.cpi == 1.0 && m.eac == project.totalBudget && m.variance == 0.0
            && m.unitCost == 0.0
  {
    FilterNone(expenses, project.id);
  }

  /** Money spent but no progress reported: CPI = 0, so EAC falls back to the budget. */
  lemma SpendWithoutProgress(expenses: seq<Expense>, project: Project, parseFloat: string -> real)
    requires ActualCost(expenses, project.id) > 0.0 && project.percentComplete == 0.0
    requires parseFloat(CapacityText(project.capacity)) != 0.0
    ensures var m := GetProjectMetrics(expenses, project, parseFloat);
            m.cpi == 0.0 && m.eac == project.totalBudget && m.variance == 0.0
  {
  }

  /** With spend, progress and a positive budget, EAC extrapolates AC linearly: EAC = AC * 100 / progress. */
  lemma EacFromSpendAndProgress(expenses: seq<Expense>, project: Project)
    requires ActualCost(expenses, project.id) > 0.0
    requires project.percentComplete > 0.0 && project.totalBudget > 0.0
    ensures ProjectEac(expenses, project) * project.percentComplete
            == ActualCost(expenses, project.id) * 100.0
  {
    var ac := ActualCost(expenses, project.id);
    var ev := EarnedValue(project);
    var cpi := ProjectCpi(expenses, project);
    var eac := ProjectEac(expenses, project);
    assert ev > 0.0 by {
      assert ev * 100.0 == project.totalBudget * project.percentComplete;
    }
    assert cpi > 0.0;
    var b, pc := project.totalBudget, project.percentComplete;
    calc {
      eac * pc * b;
      eac * (b * pc);
      eac * (ev * 100.0);
      eac * (cpi * ac) * 100.0;
      (eac * cpi) * ac * 100.0;
      b * ac * 100.0;
    }
    assert (eac * pc - ac * 100.0) * b == 0.0;
  }

  /** An absent or empty capacity counts as 1 unit: unit cost is then AC over the progress factor alone. */
  lemma UnitCostDefaultCapacity(expenses: seq<Expense>, project: Project, parseFloat: string -> real)
    requires project.capacity == None || project.capacity == Some("")
    requires parseFloat("1") == 1.0
    ensures var m := GetProjectMetrics(expenses, project, parseFloat);
            m.unitCost * ProgressFactor(project.percentComplete) == m.actualCost
            && (project.percentComplete == 0.0 ==> m.unitCost == m.actualCost)
  {
  }
}
