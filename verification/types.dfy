/**
 * The record shapes of the cost tracker: projects, expenses and the
 * earned-value figures computed for a project. Monetary amounts, budgets and
 * percentages are exact reals; strings are sequences of characters.
 */
module Types {

  datatype Option<+T> = None | Some(value: T)

  /** The two supported verticals: solar plants (GES) and roads (YOL). */
  datatype ProjectType = GES | YOL

  datatype ProjectStatus = Active | Completed | Planning

  /** The kind of a cost transaction. */
  datatype ExpenseType = Material | Labor | Machine | Other

  /**
   * A capital project. `capacity` is the text the user typed (it may be
   * absent or empty); `unitLabel` names its unit ("MW" or "KM").
   */
  datatype Project = Project(
    id: string,
    name: string,
    projectType: ProjectType,
    location: string,
    status: ProjectStatus,
    totalBudget: real,
    startDate: string,
    capacity: Option<string>,
    unitLabel: Option<string>,
    percentComplete: real)

  /** A single cost transaction booked against the project `projectId`. */
  datatype Expense = Expense(
    id: string,
    projectId: string,
    category: string,
    description: string,
    amount: real,
    date: string,
    expenseType: ExpenseType)

  /** The earned-value indicators shown for one project. */
  datatype FinancialMetrics = FinancialMetrics(
    actualCost: real,
    plannedValue: real,
    earnedValue: real,
    cpi: real,
    eac: real,
    variance: real,
    unitCost: real)

  /** The literal the source stores for each expense type. */
  function ExpenseTypeName(t: ExpenseType): (s: string)
    ensures |s| > 0
    ensures s in {"MATERIAL", "LABOR", "MACHINE", "OTHER"}
  {
    match t
    case Material => "MATERIAL"
    case Labor => "LABOR"
    case Machine => "MACHINE"
    case Other => "OTHER"
  }

  /** Distinct expense types are written as distinct literals, so the text identifies the type. */
  lemma ExpenseTypeNameInjective(a: ExpenseType, b: ExpenseType)
    ensures ExpenseTypeName(a) == ExpenseTypeName(b) ==> a == b
  {
    // The third letters (T, B, C, H) already tell the four literals apart.
    if a != b {
      assert ExpenseTypeName(a)[2] != ExpenseTypeName(b)[2];
    }
  }
}
