/**
 * The CSV export of the expense list (handleExportCSV in App.tsx): a header
 * row, then one row per expense, cells joined with ',' and rows with '\n'.
 * Cells are not quoted or escaped.
 */
module Report {
  import opened Types

  const Headers: seq<string> := ["ID", "Proje", "Kategori", "A\U{E7}\U{131}klama", "Tutar", "Tarih", "Tip"]

  /** The first line of every export: the header cells joined with ','. */
  const HeaderLine: string := Join(Headers, ',')

  /** The project cell of an expense whose project cannot be named. */
  const NotAvailable: string := "N/A"

  /** `Array.prototype.join`: the parts with `sep` between neighbours. */
  function Join(parts: seq<string>, sep: char): (s: string)
    ensures |parts| == 0 ==> s == ""
    ensures |parts| >= 1 ==> |s| >= |parts[0]| && s[..|parts[0]|] == parts[0]
    ensures |parts| >= 2 ==> |s| > |parts[0]| && s[|parts[0]|] == sep
  {
    if |parts| == 0 then ""
    else if |parts| == 1 then parts[0]
    else parts[0] + [sep] + Join(parts[1..], sep)
  }

  /** `String.prototype.split` on one character: the pieces between the separators. */
  function Split(s: string, sep: char): (pieces: seq<string>)
    ensures |pieces| >= 1
  {
    if s == [] then [""]
    else
      var rest := Split(s[1..], sep);
      if s[0] == sep then [""] + rest else [[s[0]] + rest[0]] + rest[1..]
  }

  /** `projects.find(p => p.id === projectId)`: the first project with that id. */
  function FindProject(projects: seq<Project>, projectId: string): (r: Option<Project>)
    ensures r.None? <==> forall i :: 0 <= i < |projects| ==> projects[i].id != projectId
    ensures r.Some? ==> exists i :: 0 <= i < |projects| && projects[i] == r.value && r.value.id == projectId
                                    && forall j :: 0 <= j < i ==> projects[j].id != projectId
  {
    if projects == [] then None
    else if projects[0].id == projectId then Some(projects[0])
    else
      var r := FindProject(projects[1..], projectId);
      assert r.Some? ==> exists i :: 0 <= i < |projects[1..]| && projects[1..][i] == r.value
                                     && forall j :: 0 <= j < i ==> projects[1..][j].id != projectId;
      if r.Some? then
        var i :| 0 <= i < |projects[1..]| && projects[1..][i] == r.value
                 && forall j :: 0 <= j < i ==> projects[1..][j].id != projectId;
        assert projects[i + 1] == r.value;
        r
      else r
  }

  /** `find(...)?.name || 'N/A'`: the first matching project's name, or "N/A" if none matches or its name is empty. */
  function ProjectColumn(projects: seq<Project>, projectId: string): (name: string)
    ensures name != ""
    ensures (forall i :: 0 <= i < |projects| ==> projects[i].id != projectId) ==> name == NotAvailable
    ensures forall i :: 0 <= i < |projects| && projects[i].id == projectId
                        && (forall j :: 0 <= j < i ==> projects[j].id != projectId)
                        ==> name == if projects[i].name == "" then NotAvailable else projects[i].name
  {
    match FindProject(projects, projectId)
    case Some(p) => if p.name != "" then p.name else NotAvailable
    case None => NotAvailable
  }

  /** The cells of one expense's row. `formatAmount` is the host's number-to-text conversion. */
  function Row(e: Expense, projects: seq<Project>, formatAmount: real -> string): (cells: seq<string>)
    ensures |cells| == |Headers|
    ensures cells[0] == e.id && cells[1] == ProjectColumn(projects, e.projectId)
    ensures cells[2] == e.category && cells[3] == e.description && cells[4] == formatAmount(e.amount)
    ensures cells[5] == e.date && cells[6] == ExpenseTypeName(e.expenseType)
  {
    [e.id, ProjectColumn(projects, e.projectId), e.category, e.description, formatAmount(e.amount),
     e.date, ExpenseTypeName(e.expenseType)]
  }

  /** The text line of one expense: it starts with the expense's id, then a ','. */
  function RowLine(e: Expense, projects: seq<Project>, formatAmount: real -> string): (line: string)
    ensures |line| > |e.id| && line[..|e.id|] == e.id && line[|e.id|] == ','
  {
    Join(Row(e, projects, formatAmount), ',')
  }

  /** The lines of the export: the header line, then one line per expense in list order. */
  function CsvLines(projects: seq<Project>, expenses: seq<Expense>, formatAmount: real -> string): (lines: seq<string>)
    ensures |lines| == |expenses| + 1 && lines[0] == Join(Headers, ',')
    ensures forall i :: 0 <= i < |expenses| ==> lines[i + 1] == RowLine(expenses[i], projects, formatAmount)
  {
    [Join(Headers, ',')] + seq(|expenses|, i requires 0 <= i < |expenses| => RowLine(expenses[i], projects, formatAmount))
  }

  /**
   * The exported text, `[headers, ...rows].map(r => r.join(',')).join('\n')`.
   * It always begins with the header line; it is exactly that line when there
   * are no expenses, and otherwise a line break follows it.
   */
  function CsvContent(projects: seq<Project>, expenses: seq<Expense>, formatAmount: real -> string): (csv: string)
    ensures |csv| >= |HeaderLine| && csv[..|HeaderLine|] == HeaderLine
    ensures expenses == [] <==> csv == HeaderLine
    ensures expenses != [] ==> csv[|HeaderLine|] == '\n'
  {
    Join(CsvLines(projects, expenses, formatAmount), '\n')
  }

  // ---------------------------------------------------------------------
  // Lemmas

  /** Joining parts free of a character that is not the separator gives text free of it. */
  lemma {:induction false} JoinAvoids(parts: seq<string>, sep: char, c: char)
    requires c != sep
    requires forall i :: 0 <= i < |parts| ==> c !in parts[i]
    ensures c !in Join(parts, sep)
    decreases |parts|
  {
    if |parts| >= 2 {
      JoinAvoids(parts[1..], sep, c);
    }
  }

  /** Text without the separator splits into itself. */
  lemma {:induction false} SplitWithoutSeparator(s: string, sep: char)
    requires sep !in s
    ensures Split(s, sep) == [s]
    decreases |s|
  {
    if s != [] {
      SplitWithoutSeparator(s[1..], sep);
      assert [s[0]] + s[1..] == s;
    }
  }

  /** Splitting at the first separator peels off the text before it. */
  lemma {:induction false} SplitAtFirstSeparator(a: string, b: string, sep: char)
    requires sep !in a
    ensures Split(a + [sep] + b, sep) == [a] + Split(b, sep)
    decreases |a|
  {
    var s := a + [sep] + b;
    if a == [] {
      assert s[1..] == b;
    } else {
      assert s[1..] == a[1..] + [sep] + b;
      SplitAtFirstSeparator(a[1..], b, sep);
      assert [a[0]] + a[1..] == a;
    }
  }

  /** Splitting undoes joining when no part contains the separator. */
  lemma {:induction false} SplitJoin(parts: seq<string>, sep: char)
    requires |parts| >= 1
    requires forall i :: 0 <= i < |parts| ==> sep !in parts[i]
    ensures Split(Join(parts, sep), sep) == parts
    decreases |parts|
  {
    if |parts| == 1 {
      SplitWithoutSeparator(parts[0], sep);
    } else {
      SplitJoin(parts[1..], sep);
      SplitAtFirstSeparator(parts[0], Join(parts[1..], sep), sep);
      assert [parts[0]] + parts[1..] == parts;
    }
  }

  /** The header line splits at ',' back into the seven column titles. */
  lemma HeaderCellsRecovered()
    ensures Split(HeaderLine, ',') == Headers
  {
    SplitJoin(Headers, ',');
  }

  /**
   * When no cell contains a line break, the export's lines are exactly the
   * header line followed by one line per expense, in list order.
   */
  lemma CsvLinesRecovered(projects: seq<Project>, expenses: seq<Expense>, formatAmount: real -> string)
    requires forall i :: 0 <= i < |expenses| ==> forall k :: 0 <= k < |Headers| ==>
               '\n' !in Row(expenses[i], projects, formatAmount)[k]
    ensures var lines := Split(CsvContent(projects, expenses, formatAmount), '\n');
            |lines| == |expenses| + 1 && lines[0] == HeaderLine
            && forall i :: 0 <= i < |expenses| ==> lines[i + 1] == RowLine(expenses[i], projects, formatAmount)
  {
    var lines := CsvLines(projects, expenses, formatAmount);
    JoinAvoids(Headers, ',', '\n');
    forall i | 0 <= i < |lines| ensures '\n' !in lines[i] {
      if i > 0 {
        JoinAvoids(Row(expenses[i - 1], projects, formatAmount), ',', '\n');
      }
    }
    SplitJoin(lines, '\n');
  }

  /** When no cell contains a comma, splitting an expense's line at ',' gives back its seven cells. */
  lemma RowCellsRecovered(e: Expense, projects: seq<Project>, formatAmount: real -> string)
    requires forall k :: 0 <= k < |Headers| ==> ',' !in Row(e, projects, formatAmount)[k]
    ensures Split(RowLine(e, projects, formatAmount), ',') == Row(e, projects, formatAmount)
  {
    SplitJoin(Row(e, projects, formatAmount), ',');
  }
}
