/**
 * The application state of the dashboard (App.tsx): the project and expense
 * lists, the expense entry form, the project chosen for entry, the insight
 * text on display, and the two browser-storage entries the lists are written
 * to after each change. Parsing, random ids and today's date are supplied by
 * the caller.
 */
module Store {
  import opened Types
  import Metrics
  import Insight

  /** The fields of the expense entry form, as typed. */
  datatype ExpenseDraft = ExpenseDraft(amount: string, category: string, description: string, expenseType: ExpenseType)

  /** The form as it starts and as it is reset after each saved expense. */
  const BlankDraft: ExpenseDraft := ExpenseDraft("", "Malzeme", "", Material)

  /** The two demo projects the dashboard starts with. */
  const InitialProjects: seq<Project> := [
    Project("1", "Manisa GES Projesi", GES, "Manisa, TR", Active, 15000000.0, "2023-01-15",
            Some("20"), Some("MW"), 45.0),
    Project("2", "Ankara-Ni\U{11F}de Otoyolu", YOL, "Ankara, TR", Active, 45000000.0, "2023-03-10",
            Some("12"), Some("KM"), 30.0)
  ]

  /** Shown when the insight service gives back no text. */
  const NoAnswerNotice: string := "Yan\U{131}t al\U{131}namad\U{131}."

  /** `insight || "Yanıt alınamadı."`: an absent or empty answer is replaced by a fixed notice. */
  function ShownInsight(insight: Option<string>): (shown: string)
    ensures shown != ""
    ensures insight.Some? && insight.value != "" ==> shown == insight.value
    ensures insight == None || insight == Some("") ==> shown == NoAnswerNotice
  {
    if insight.Some? && insight.value != "" then insight.value else NoAnswerNotice
  }

  /**
   * The expense a submitted form becomes: booked on the project chosen for
   * entry, with the parsed amount and the typed category, description and type.
   */
  function NewExpense(draft: ExpenseDraft, projectId: string, id: string, date: string,
                      parseFloat: string -> real): (e: Expense)
    ensures e.id == id && e.projectId == projectId && e.date == date
    ensures e.amount == parseFloat(draft.amount)
    ensures e.category == draft.category && e.description == draft.description
    ensures e.expenseType == draft.expenseType
  {
    Expense(id, projectId, draft.category, draft.description, parseFloat(draft.amount), date, draft.expenseType)
  }

  class CostStore {
    var projects: seq<Project>
    var expenses: seq<Expense>
    var draft: ExpenseDraft
    var selectedProjectId: string
    var aiAnalysis: Option<string>
    /** The browser-storage entries "mega_projects" and "mega_expenses"; None until first written. */
    var storedProjects: Option<seq<Project>>
    var storedExpenses: Option<seq<Expense>>

    constructor ()
      ensures projects == InitialProjects && expenses == []
      ensures draft == BlankDraft && selectedProjectId == InitialProjects[0].id
      ensures aiAnalysis == None && storedProjects == None && storedExpenses == None
    {
      projects := InitialProjects;
      expenses := [];
      draft := BlankDraft;
      selectedProjectId := InitialProjects[0].id;
      aiAnalysis := None;
      storedProjects := None;
      storedExpenses := None;
    }

    /** The project selector of the entry form. */
    method SelectProjectForEntry(projectId: string)
      modifies this`selectedProjectId
      ensures selectedProjectId == projectId
    {
      selectedProjectId := projectId;
    }

    /** The text fields and type selector of the entry form. */
    method EditDraft(d: ExpenseDraft)
      modifies this`draft
      ensures draft == d
    {
      draft := d;
    }

    /**
     * handleAddExpense: ignored while the amount or the description is
     * empty; otherwise the new expense is put in front of the list, the form
     * is reset and both lists are written to storage.
     */
    method AddExpense(id: string, date: string, parseFloat: string -> real) returns (added: bool)
      modifies this`expenses, this`draft, this`storedProjects, this`storedExpenses
      ensures added <==> old(draft).amount != "" && old(draft).description != ""
      ensures !added ==> expenses == old(expenses) && draft == old(draft)
                         && storedProjects == old(storedProjects) && storedExpenses == old(storedExpenses)
      ensures added ==> expenses == [NewExpense(old(draft), selectedProjectId, id, date, parseFloat)] + old(expenses)
      ensures added ==> |expenses| == |old(expenses)| + 1 && expenses[1..] == old(expenses)
      ensures added ==> draft == BlankDraft && storedProjects == Some(projects) && storedExpenses == Some(expenses)
      ensures added ==> forall projectId :: Metrics.ActualCost(expenses, projectId)
                          == Metrics.ActualCost(old(expenses), projectId)
                             + (if projectId == selectedProjectId then parseFloat(old(draft).amount) else 0.0)
    {
      if draft.amount == "" || draft.description == "" {
        return false;
      }
      var expense := NewExpense(draft, selectedProjectId, id, date, parseFloat);
      var updated := [expense] + expenses;
      forall projectId: string
        ensures Metrics.ActualCost(updated, projectId)
                == Metrics.ActualCost(expenses, projectId)
                   + (if projectId == selectedProjectId then expense.amount else 0.0)
      {
        Metrics.ActualCostPrepend(expense, expenses, projectId);
      }
      expenses := updated;
      draft := BlankDraft;
      storedProjects, storedExpenses := Some(projects), Some(updated);
      added := true;
    }

    /**
     * handleAiAnalysis: the service is handed the project's own expenses;
     * `answer` is the text it returned, which is shown with the fallback.
     * Returns the figures and category totals the service puts in its prompt.
     */
    method AnalyzeProject(project: Project, answer: Option<string>)
      returns (figures: Insight.InsightFigures, totals: map<string, real>)
      modifies this`aiAnalysis
      ensures figures == Insight.InsightFiguresOf(project, Metrics.FilterByProject(expenses, project.id))
      ensures totals == Insight.CategoryTable(Metrics.FilterByProject(expenses, project.id))
      ensures aiAnalysis == Some(ShownInsight(answer))
    {
      var projectExpenses := Metrics.FilterByProject(expenses, project.id);
      figures := Insight.InsightFiguresOf(project, projectExpenses);
      totals := Insight.CategoryTotals(projectExpenses);
      aiAnalysis := Some(ShownInsight(answer));
    }
  }

  /**
   * The first demo project with one expense of 3,000,000: EV = 6,750,000,
   * CPI = 2.25, EAC = 6,666,666.67 (20,000,000 / 3) and variance
   * 8,333,333.33 (25,000,000 / 3); unit cost is 3,000,000 / (20 * 0.45).
   */
  lemma ManisaScenario(e: Expense, parseFloat: string -> real)
    requires e.projectId == "1" && e.amount == 3000000.0
    requires parseFloat("20") == 20.0
    ensures var m := Metrics.GetProjectMetrics([e], InitialProjects[0], parseFloat);
            && m.actualCost == 3000000.0 && m.plannedValue == 15000000.0
            && m.earnedValue == 6750000.0 && m.cpi == 2.25
            && m.eac == 20000000.0 / 3.0 && m.variance == 25000000.0 / 3.0
            && m.unitCost == 1000000.0 / 3.0
            && !(m.variance < 0.0)
  {
    Metrics.FilterSingleton(e, "1");
  }
}
