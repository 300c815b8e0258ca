/**
 * The figures the insight service (getAiCostInsights) computes before it
 * builds its prompt: its own copy of the AC/EV/CPI/EAC/variance formulas and
 * the per-category roll-up of the expenses it was given. The request to the
 * text-generation service itself is not part of this model.
 */
module Insight {
  import opened Types
  import Metrics

  /** The earned-value figures placed in the prompt. */
  datatype InsightFigures = InsightFigures(
    actualCost: real,
    earnedValue: real,
    cpi: real,
    eac: real,
    variance: real)

  /**
   * The service's own copy of the formulas. Its caller hands it the
   * expenses already filtered to the project, so no filtering happens here.
   */
  function InsightFiguresOf(project: Project, expenses: seq<Expense>): (f: InsightFigures)
    ensures f.actualCost == Metrics.SumAmounts(expenses)
    ensures f.earnedValue * 100.0 == project.totalBudget * project.percentComplete
    ensures f.actualCost <= 0.0 ==> f.cpi == 1.0
    ensures f.actualCost > 0.0 ==> f.cpi * f.actualCost == f.earnedValue
    ensures f.cpi > 0.0 ==> f.eac * f.cpi == project.totalBudget
    ensures f.cpi <= 0.0 ==> f.eac == project.totalBudget
    ensures f.variance + f.eac == project.totalBudget
  {
    var actualCost := Metrics.SumAmounts(expenses);
    var earnedValue := project.totalBudget * (project.percentComplete / 100.0);
    var cpi := if actualCost > 0.0 then earnedValue / actualCost else 1.0;
    var eac := if cpi > 0.0 then project.totalBudget / cpi else project.totalBudget;
    InsightFigures(actualCost, earnedValue, cpi, eac, project.totalBudget - eac)
  }

  /**
   * Fed the id-filtered list its caller passes, the service reports the
   * same AC, EV, CPI, EAC and variance as the dashboard's metrics.
   */
  lemma InsightAgreesWithMetrics(expenses: seq<Expense>, project: Project, parseFloat: string -> real)
    requires parseFloat(Metrics.CapacityText(project.capacity)) != 0.0
    ensures var f := InsightFiguresOf(project, Metrics.FilterByProject(expenses, project.id));
            var m := Metrics.GetProjectMetrics(expenses, project, parseFloat);
            f.actualCost == m.actualCost && f.earnedValue == m.earnedValue && f.cpi == m.cpi
            && f.eac == m.eac && f.variance == m.variance
  {
  }

  // ---------------------------------------------------------------------
  // The per-category roll-up

  /** The summed amounts of the expenses whose category is `category`. */
  function CategorySum(expenses: seq<Expense>, category: string): real
  {
    if expenses == [] then 0.0
    else
      var last := expenses[|expenses| - 1];
      CategorySum(expenses[..|expenses| - 1], category) + (if last.category == category then last.amount else 0.0)
  }

  /** The categories that occur in the list. */
  function Categories(expenses: seq<Expense>): set<string>
  {
    set e | e in expenses :: e.category
  }

  /** The roll-up as a table: each occurring category mapped to its total. */
  function CategoryTable(expenses: seq<Expense>): map<string, real>
  {
    map c | c in Categories(expenses) :: CategorySum(expenses, c)
  }

  /** One step of the reduce: the expense's amount added to its category's entry, which starts at 0. */
  function Accumulate(totals: map<string, real>, e: Expense): (r: map<string, real>)
    ensures r.Keys == totals.Keys + {e.category}
    ensures e.category in totals ==> r[e.category] == totals[e.category] + e.amount
    ensures e.category !in totals ==> r[e.category] == e.amount
    ensures forall c :: c in totals && c != e.category ==> r[c] == totals[c]
  {
    totals[e.category := (if e.category in totals then totals[e.category] else 0.0) + e.amount]
  }

  /** The sum of the values of a map, taken in any order. */
  ghost function MapTotal(m: map<string, real>): real
    decreases m.Keys
  {
    if m == map[] then 0.0
    else
      var k :| k in m;
      m[k] + MapTotal(m - {k})
  }

  /**
   * The reduce at the end of the prompt: a dictionary from category to
   * total, updated in place once per expense.
   */
  method CategoryTotals(expenses: seq<Expense>) returns (totals: map<string, real>)
    ensures totals == CategoryTable(expenses)
    ensures totals.Keys == Categories(expenses)
    ensures expenses == [] ==> totals == map[]
    ensures forall c :: c in totals ==> totals[c] == CategorySum(expenses, c)
    ensures MapTotal(totals) == Metrics.SumAmounts(expenses)
  {
    totals := map[];
    var i := 0;
    while i < |expenses|
      invariant 0 <= i <= |expenses|
      invariant totals == CategoryTable(expenses[..i])
    {
      var e := expenses[i];
      var previous := if e.category in totals then totals[e.category] else 0.0;
      CategoryTableSnoc(expenses[..i], e);
      totals := totals[e.category := previous + e.amount];
      assert expenses[..i + 1] == expenses[..i] + [e];
      i := i + 1;
    }
    assert expenses[..i] == expenses;
    CategoryTableTotal(expenses);
  }

  // ---------------------------------------------------------------------
  // Lemmas about the roll-up

  /** A category that no expense carries sums to 0. */
  lemma {:induction false} CategorySumAbsent(expenses: seq<Expense>, category: string)
    requires category !in Categories(expenses)
    ensures CategorySum(expenses, category) == 0.0
    decreases |expenses|
  {
    if expenses != [] {
      var init := expenses[..|expenses| - 1];
      assert expenses[|expenses| - 1] in expenses;
      assert forall e :: e in init ==> e in expenses;
      CategorySumAbsent(init, category);
    }
  }

  /** Appending one expense adds its amount to its own category, creating the key when new. */
  lemma CategoryTableSnoc(expenses: seq<Expense>, e: Expense)
    ensures CategoryTable(expenses + [e]) == Accumulate(CategoryTable(expenses), e)
  {
    var t := CategoryTable(expenses);
    var s := expenses + [e];
    assert s[..|s| - 1] == expenses;
    assert Categories(s) == Categories(expenses) + {e.category} by {
      forall x | x in s ensures x in expenses || x == e { }
    }
    if e.category !in t {
      CategorySumAbsent(expenses, e.category);
    }
  }

  lemma {:induction false} MapTotalRemove(m: map<string, real>, k: string)
    requires k in m
    ensures MapTotal(m) == m[k] + MapTotal(m - {k})
    decreases m.Keys
  {
    var j :| j in m && MapTotal(m) == m[j] + MapTotal(m - {j});
    if j != k {
      var rest := m - {j};
      MapTotalRemove(rest, k);
      MapTotalRemove(m - {k}, j);
      assert rest - {k} == (m - {k}) - {j};
    }
  }

  /** One step of the reduce raises the total of the values by the expense's amount. */
  lemma MapTotalAccumulate(m: map<string, real>, e: Expense)
    ensures MapTotal(Accumulate(m, e)) == MapTotal(m) + e.amount
  {
    var k := e.category;
    var updated := Accumulate(m, e);
    MapTotalRemove(updated, k);
    assert updated - {k} == m - {k};
    if k in m {
      MapTotalRemove(m, k);
    } else {
      assert m - {k} == m;
    }
  }

  /** The category totals add up to the actual cost of the list. */
  lemma {:induction false} CategoryTableTotal(expenses: seq<Expense>)
    ensures MapTotal(CategoryTable(expenses)) == Metrics.SumAmounts(expenses)
    decreases |expenses|
  {
    if expenses == [] {
      assert CategoryTable(expenses) == map[];
    } else {
      var init, e := expenses[..|expenses| - 1], expenses[|expenses| - 1];
      assert expenses == init + [e];
      CategoryTableTotal(init);
      CategoryTableTotalStep(init, e);
    }
  }

  lemma CategoryTableTotalStep(init: seq<Expense>, e: Expense)
    requires MapTotal(CategoryTable(init)) == Metrics.SumAmounts(init)
    ensures MapTotal(CategoryTable(init + [e])) == Metrics.SumAmounts(init + [e])
  {
    CategoryTableSnoc(init, e);
    MapTotalAccumulate(CategoryTable(init), e);
    assert (init + [e])[..|init|] == init;
  }

  lemma {:induction false} CategorySumConcat(a: seq<Expense>, b: seq<Expense>, category: string)
    ensures CategorySum(a + b, category) == CategorySum(a, category) + CategorySum(b, category)
    decreases |b|
  {
    if b == [] {
      assert a + b == a;
    } else {
      var init := b[..|b| - 1];
      assert (a + b)[..|a + b| - 1] == a + init;
      CategorySumConcat(a, init, category);
    }
  }

  /** Reordering the expenses does not change any category's total. */
  lemma {:induction false} CategorySumPermutation(a: seq<Expense>, b: seq<Expense>, category: string)
    requires multiset(a) == multiset(b)
    ensures CategorySum(a, category) == CategorySum(b, category)
    decreases |a|
  {
    if a == [] {
      assert |b| == |multiset(b)| == 0;
    } else {
      var init, x := a[..|a| - 1], a[|a| - 1];
      assert a == init + [x];
      assert x in multiset(b);
      var i :| 0 <= i < |b| && b[i] == x;
      var rest := b[..i] + b[i + 1..];
      assert b == b[..i] + [x] + b[i + 1..];
      calc {
        multiset(init) + multiset{x};
        multiset(a);
        multiset(b);
        { assert b == b[..i] + [x] + b[i + 1..]; }
        multiset(b[..i]) + multiset{x} + multiset(b[i + 1..]);
        multiset(rest) + multiset{x};
      }
      assert multiset(init) == multiset(init) + multiset{x} - multiset{x};
      assert multiset(rest) == multiset(rest) + multiset{x} - multiset{x};
      CategorySumPermutation(init, rest, category);
      CategorySumConcat(b[..i] + [x], b[i + 1..], category);
      CategorySumConcat(b[..i], [x], category);
      CategorySumConcat(b[..i], b[i + 1..], category);
      assert [x][..0] == [];
    }
  }

  /** The roll-up depends only on which expenses there are, not on their order. */
  lemma CategoryTableOrderIndependent(a: seq<Expense>, b: seq<Expense>)
    requires multiset(a) == multiset(b)
    ensures CategoryTable(a) == CategoryTable(b)
  {
    assert Categories(a) == Categories(b) by {
      forall x ensures x in a <==> x in b {
        assert x in a <==> x in multiset(a);
        assert x in b <==> x in multiset(b);
      }
    }
    forall c ensures CategorySum(a, c) == CategorySum(b, c) {
      CategorySumPermutation(a, b, c);
    }
  }
}
