/** The report exports of export.js (`exportToPDF`, `exportToExcel`): the
    entries of a required date range, their income and expense totals, and
    the tables and sheets that lay them out. Page layout, currency formatting
    and file output are not modelled; a cell records what it shows. */
module Export {
  import opened Wrappers
  import opened Seqs
  import opened Dates
  import opened Records
  import opened Reports

  /** The figures both exports compute before laying anything out. */
  datatype Report = Report(
    from: Date,
    to: Date,
    filtered: seq<Entry>,
    incomeEntries: seq<Entry>,
    expenseEntries: seq<Entry>,
    totals: Totals)

  /** Both exports refuse to run without both bounds; otherwise they keep the
      entries with `from <= date <= to`, split off those typed income and
      expense, and total each. */
  function Aggregate(entries: seq<Entry>, from: Date, to: Date): (r: Result<Report, Alert>)
    ensures r.Err? <==> from == "" || to == ""
    ensures r.Err? ==> r.error == MissingReportRange
    ensures r.Ok? ==> r.value.from == from && r.value.to == to
    ensures r.Ok? ==> forall e :: e in r.value.filtered <==>
      e in entries && LexLe(from, e.date) && LexLe(e.date, to)
    ensures r.Ok? ==> forall e :: e in r.value.incomeEntries <==> e in r.value.filtered && e.kind == Income
    ensures r.Ok? ==> forall e :: e in r.value.expenseEntries <==> e in r.value.filtered && e.kind == Expense
    ensures r.Ok? ==> IsSelection(r.value.filtered, entries, InPeriodIs(from, to))
    ensures r.Ok? ==> IsSelection(r.value.incomeEntries, entries, InRangeOfKind(from, to, Income))
    ensures r.Ok? ==> IsSelection(r.value.expenseEntries, entries, InRangeOfKind(from, to, Expense))
    ensures r.Ok? ==> r.value.totals.income == Sum(r.value.incomeEntries)
    ensures r.Ok? ==> r.value.totals.expense == Sum(r.value.expenseEntries)
    ensures r.Ok? ==> r.value.totals.net == r.value.totals.income - r.value.totals.expense
  {
    if from == "" || to == "" then Err(MissingReportRange)
    else
      var filtered := InPeriod(entries, from, to);
      var income := OfKind(filtered, Income);
      var expense := OfKind(filtered, Expense);
      FilterIsSelection(entries, InPeriodIs(from, to));
      FilterFuse(entries, InPeriodIs(from, to), KindIs(Income), InRangeOfKind(from, to, Income));
      FilterFuse(entries, InPeriodIs(from, to), KindIs(Expense), InRangeOfKind(from, to, Expense));
      FilterIsSelection(entries, InRangeOfKind(from, to, Income));
      FilterIsSelection(entries, InRangeOfKind(from, to, Expense));
      Ok(Report(from, to, filtered, income, expense, TotalsOf(filtered)))
  }

  /** The exports' totals are the ones the profit and loss screen shows for the
      same range, and both refuse exactly the same missing bounds. */
  lemma ExportAgreesWithProfitLoss(entries: seq<Entry>, from: Date, to: Date)
    ensures Aggregate(entries, from, to).Err? <==> ProfitLoss(entries, from, to).Err?
    ensures Aggregate(entries, from, to).Ok? ==>
      Aggregate(entries, from, to).value.totals == ProfitLoss(entries, from, to).value
  {
  }

  /** `Net Profit` for a non-negative result, `Net Loss` otherwise. */
  function NetLabel(net: int): (caption: string)
    ensures caption == "Net Profit" <==> net >= 0
    ensures caption == "Net Profit" || caption == "Net Loss"
  {
    if net >= 0 then "Net Profit" else "Net Loss"
  }

  /** `Math.abs(net)`: the size of the profit or loss. */
  function NetFigure(net: int): (n: nat)
    ensures n == net || n == -net
  {
    if net >= 0 then net else -net
  }

  /** The label and figure together determine the net result. */
  lemma LabelAndFigureRecoverNet(net: int)
    ensures (if NetLabel(net) == "Net Profit" then NetFigure(net) as int else 0 - NetFigure(net) as int) == net
    ensures NetFigure(net) == 0 ==> NetLabel(net) == "Net Profit"
  {
  }

  /** A table cell: text, a plain number (spreadsheet) or a formatted amount
      (PDF). */
  datatype Cell = Text(text: string) | Number(value: int) | Money(amount: int)

  type Row = seq<Cell>

  /** The amount a cell shows, if it shows one. */
  function CellAmount(c: Cell): int {
    match c
    case Text(_) => 0
    case Number(v) => v
    case Money(a) => a
  }

  /** The figures of one column, added up. */
  function ColumnTotal(rows: seq<Row>, col: nat): int {
    if |rows| == 0 then 0
    else (if col < |rows[0]| then CellAmount(rows[0][col]) else 0) + ColumnTotal(rows[1..], col)
  }

  function Rows(s: seq<Entry>, row: Entry -> Row): (r: seq<Row>)
    ensures |r| == |s|
    ensures forall i :: 0 <= i < |s| ==> r[i] == row(s[i])
  {
    if |s| == 0 then [] else [row(s[0])] + Rows(s[1..], row)
  }

  function Texts(labels: seq<string>): (r: Row)
    ensures |r| == |labels|
    ensures forall i :: 0 <= i < |labels| ==> r[i] == Text(labels[i])
  {
    if |labels| == 0 then [] else [Text(labels[0])] + Texts(labels[1..])
  }

  /** The header of the income and expense tables and sheets. */
  const DetailHeader: Row := Texts(["Date", "Category", "Amount", "Description"])

  /** A PDF detail row: the amount formatted as money and an empty
      description shown as `-`. */
  function PdfRow(e: Entry): (r: Row)
    ensures |r| == 4 && r[2] == Money(e.amount)
    ensures r[0] == Text(e.date) && r[1] == Text(e.category)
    ensures e.description == "" ==> r[3] == Text("-")
    ensures e.description != "" ==> r[3] == Text(e.description)
  {
    [Text(e.date), Text(e.category), Money(e.amount),
     Text(if e.description == "" then "-" else e.description)]
  }

  /** A spreadsheet detail row: the same date and category cells as the PDF
      row, the amount as a plain number and the description as it is, an
      empty one staying empty. */
  function SheetRow(e: Entry): (r: Row)
    ensures |r| == 4 && r[..2] == PdfRow(e)[..2]
    ensures r[2] == Number(e.amount) && CellAmount(r[2]) == CellAmount(PdfRow(e)[2])
    ensures r[3] == Text(e.description) && (e.description != "" ==> r[3] == PdfRow(e)[3])
  {
    [Text(e.date), Text(e.category), Number(e.amount), Text(e.description)]
  }

  /** A row of the `All Entries` sheet, which adds the entry's type. */
  function AllEntriesRow(e: Entry): (r: Row)
    ensures |r| == 5 && r[3] == Number(e.amount) && r[1] == Text(KindName(e.kind))
    ensures r[0] == Text(e.date) && r[2] == Text(e.category) && r[4] == Text(e.description)
  {
    [Text(e.date), Text(KindName(e.kind)), Text(e.category), Number(e.amount), Text(e.description)]
  }

  const AllEntriesHeader: Row := Texts(["Date", "Type", "Category", "Amount", "Description"])

  /** Laying entries out one per row keeps their amounts: a column that shows
      each entry's amount adds up to the entries' sum. */
  lemma {:induction false} AmountColumnAddsUp(s: seq<Entry>, row: Entry -> Row, col: nat)
    requires forall e :: col < |row(e)| && CellAmount(row(e)[col]) == e.amount
    ensures ColumnTotal(Rows(s, row), col) == Sum(s)
  {
    if |s| > 0 {
      assert Rows(s, row)[1..] == Rows(s[1..], row);
      AmountColumnAddsUp(s[1..], row, col);
    }
  }

  /** A titled table of the PDF. */
  datatype Table = Table(title: string, header: Row, rows: seq<Row>)

  /** The PDF report: title, period and generation lines, the `Summary`
      heading and the three summary lines, then a details table for income and one for expenses, each only
      when it has rows. `generated` is the locale date of the moment. */
  datatype PdfReport = PdfReport(
    title: string,
    period: string,
    generated: string,
    heading: string,
    summary: seq<Row>,
    tables: seq<Table>)

  function PeriodLine(from: Date, to: Date): string {
    "Period: " + from + " to " + to
  }

  function DetailsTable(title: string, s: seq<Entry>): seq<Table> {
    if |s| == 0 then [] else [Table(title, DetailHeader, Rows(s, PdfRow))]
  }

  function PdfDocument(r: Report, generated: string): (d: PdfReport)
    ensures d.title == "Daybook Financial Report"
    ensures d.period == "Period: " + r.from + " to " + r.to && d.generated == "Generated: " + generated
    ensures d.heading == "Summary"
    ensures d.summary == [
      [Text("Total Income"), Money(r.totals.income)],
      [Text("Total Expenses"), Money(r.totals.expense)],
      [Text(NetLabel(r.totals.net)), Money(NetFigure(r.totals.net))]]
    ensures |d.tables| == (if |r.incomeEntries| > 0 then 1 else 0) + (if |r.expenseEntries| > 0 then 1 else 0)
    ensures (exists t :: t in d.tables && t.title == "Income Details") <==> |r.incomeEntries| > 0
    ensures (exists t :: t in d.tables && t.title == "Expense Details") <==> |r.expenseEntries| > 0
    ensures |d.tables| == 2 ==> d.tables[0].title == "Income Details" && d.tables[1].title == "Expense Details"
    ensures forall t :: t in d.tables ==> t.header == DetailHeader
    ensures forall t :: t in d.tables ==>
      (t.title == "Income Details" && t.rows == Rows(r.incomeEntries, PdfRow)) ||
      (t.title == "Expense Details" && t.rows == Rows(r.expenseEntries, PdfRow))
  {
    PdfReport(
      "Daybook Financial Report",
      PeriodLine(r.from, r.to),
      "Generated: " + generated,
      "Summary",
      [[Text("Total Income"), Money(r.totals.income)],
       [Text("Total Expenses"), Money(r.totals.expense)],
       [Text(NetLabel(r.totals.net)), Money(NetFigure(r.totals.net))]],
      DetailsTable("Income Details", r.incomeEntries) + DetailsTable("Expense Details", r.expenseEntries))
  }

  /** A named sheet of the workbook, as an array of rows. */
  datatype Sheet = Sheet(name: string, rows: seq<Row>)

  function SummarySheet(r: Report, generated: string): (sh: Sheet)
    ensures sh.name == "Summary" && |sh.rows| == 8
    ensures sh.rows[..5] == [
      [Text("Daybook Financial Report")],
      [Text("Period: " + r.from + " to " + r.to)],
      [Text("Generated: " + generated)],
      [Text("")],
      [Text("Summary")]]
    ensures sh.rows[5] == [Text("Total Income"), Number(r.totals.income)]
    ensures sh.rows[6] == [Text("Total Expenses"), Number(r.totals.expense)]
    ensures sh.rows[7] == [Text(NetLabel(r.totals.net)), Number(NetFigure(r.totals.net))]
  {
    Sheet("Summary", [
      [Text("Daybook Financial Report")],
      [Text(PeriodLine(r.from, r.to))],
      [Text("Generated: " + generated)],
      [Text("")],
      [Text("Summary")],
      [Text("Total Income"), Number(r.totals.income)],
      [Text("Total Expenses"), Number(r.totals.expense)],
      [Text(NetLabel(r.totals.net)), Number(NetFigure(r.totals.net))]])
  }

  /** A sheet with a header row over one row per entry, or nothing when there
      are no entries. */
  function EntrySheet(name: string, header: Row, s: seq<Entry>, row: Entry -> Row): (r: seq<Sheet>)
    ensures |r| == (if |s| == 0 then 0 else 1)
    ensures |r| == 1 ==> r[0].name == name && r[0].rows == [header] + Rows(s, row)
  {
    if |s| == 0 then [] else [Sheet(name, [header] + Rows(s, row))]
  }

  /** The names of a workbook's sheets, in order. */
  function SheetNames(wb: seq<Sheet>): (names: seq<string>)
    ensures |names| == |wb|
    ensures forall i :: 0 <= i < |wb| ==> names[i] == wb[i].name
  {
    if |wb| == 0 then [] else [wb[0].name] + SheetNames(wb[1..])
  }

  lemma SheetNamesConcat(a: seq<Sheet>, b: seq<Sheet>)
    ensures SheetNames(a + b) == SheetNames(a) + SheetNames(b)
  {
    assert forall i :: 0 <= i < |a + b| ==> SheetNames(a + b)[i] == (SheetNames(a) + SheetNames(b))[i];
  }

  lemma EntrySheetNamed(name: string, header: Row, s: seq<Entry>, row: Entry -> Row)
    ensures SheetNames(EntrySheet(name, header, s, row)) == if |s| > 0 then [name] else []
  {
    if |s| > 0 {
      assert SheetNames(EntrySheet(name, header, s, row))[0] == name;
    }
  }

  /** What the sheet of each name holds. */
  predicate HoldsItsRows(sh: Sheet, r: Report) {
    && (sh.name == "Income" ==> sh.rows == [DetailHeader] + Rows(r.incomeEntries, SheetRow))
    && (sh.name == "Expenses" ==> sh.rows == [DetailHeader] + Rows(r.expenseEntries, SheetRow))
    && (sh.name == "All Entries" ==> sh.rows == [AllEntriesHeader] + Rows(r.filtered, AllEntriesRow))
  }

  /** The detail sheets' names tell them apart. */
  lemma SheetNamesDiffer()
    ensures "Income" != "Expenses" && "Income" != "All Entries" && "Expenses" != "All Entries"
  {
    assert "Income"[0] == 'I' && "Expenses"[0] == 'E' && "All Entries"[0] == 'A';
  }

  /** The income sheet, when present, holds the income rows. */
  lemma IncomeSheetHolds(r: Report)
    ensures var part := EntrySheet("Income", DetailHeader, r.incomeEntries, SheetRow);
      forall i :: 0 <= i < |part| ==> HoldsItsRows(part[i], r)
  {
    SheetNamesDiffer();
  }

  /** The expense sheet, when present, holds the expense rows. */
  lemma ExpenseSheetHolds(r: Report)
    ensures var part := EntrySheet("Expenses", DetailHeader, r.expenseEntries, SheetRow);
      forall i :: 0 <= i < |part| ==> HoldsItsRows(part[i], r)
  {
    SheetNamesDiffer();
  }

  /** The all-entries sheet, when present, holds every entry in the period. */
  lemma AllEntriesSheetHolds(r: Report)
    ensures var part := EntrySheet("All Entries", AllEntriesHeader, r.filtered, AllEntriesRow);
      forall i :: 0 <= i < |part| ==> HoldsItsRows(part[i], r)
  {
    SheetNamesDiffer();
  }

  /** Joining two runs of sheets keeps every sheet's rows. */
  lemma HoldsConcat(a: seq<Sheet>, b: seq<Sheet>, r: Report)
    requires forall i :: 0 <= i < |a| ==> HoldsItsRows(a[i], r)
    requires forall i :: 0 <= i < |b| ==> HoldsItsRows(b[i], r)
    ensures forall i :: 0 <= i < |a + b| ==> HoldsItsRows((a + b)[i], r)
  {
    forall i | 0 <= i < |a + b|
      ensures HoldsItsRows((a + b)[i], r)
    {
      if i < |a| {
        assert (a + b)[i] == a[i];
      } else {
        assert (a + b)[i] == b[i - |a|];
      }
    }
  }

  /** The sheets after the summary. */
  function DetailSheets(r: Report): (tail: seq<Sheet>)
    ensures SheetNames(tail) ==
      (if |r.incomeEntries| > 0 then ["Income"] else [])
      + (if |r.expenseEntries| > 0 then ["Expenses"] else [])
      + (if |r.filtered| > 0 then ["All Entries"] else [])
    ensures forall i :: 0 <= i < |tail| ==> HoldsItsRows(tail[i], r)
  {
    var income := EntrySheet("Income", DetailHeader, r.incomeEntries, SheetRow);
    var expense := EntrySheet("Expenses", DetailHeader, r.expenseEntries, SheetRow);
    var all := EntrySheet("All Entries", AllEntriesHeader, r.filtered, AllEntriesRow);
    SheetNamesConcat(income + expense, all);
    SheetNamesConcat(income, expense);
    EntrySheetNamed("Income", DetailHeader, r.incomeEntries, SheetRow);
    EntrySheetNamed("Expenses", DetailHeader, r.expenseEntries, SheetRow);
    EntrySheetNamed("All Entries", AllEntriesHeader, r.filtered, AllEntriesRow);
    IncomeSheetHolds(r);
    ExpenseSheetHolds(r);
    AllEntriesSheetHolds(r);
    HoldsConcat(income, expense, r);
    HoldsConcat(income + expense, all, r);
    income + expense + all
  }

  lemma SummaryComesFirst(summary: Sheet, tail: seq<Sheet>, r: Report)
    requires summary.name == "Summary"
    requires SheetNames(tail) ==
      (if |r.incomeEntries| > 0 then ["Income"] else [])
      + (if |r.expenseEntries| > 0 then ["Expenses"] else [])
      + (if |r.filtered| > 0 then ["All Entries"] else [])
    ensures SheetNames([summary] + tail) == ["Summary"]
      + (if |r.incomeEntries| > 0 then ["Income"] else [])
      + (if |r.expenseEntries| > 0 then ["Expenses"] else [])
      + (if |r.filtered| > 0 then ["All Entries"] else [])
  {
    SheetNamesConcat([summary], tail);
    assert SheetNames([summary]) == ["Summary"];
  }

  /** The workbook: the summary sheet, then `Income`, `Expenses` and `All
      Entries`, in that order, each only when it would have data rows. */
  function Workbook(r: Report, generated: string): (wb: seq<Sheet>)
    ensures |wb| >= 1 && wb[0] == SummarySheet(r, generated)
    ensures |wb| == 1 + (if |r.incomeEntries| > 0 then 1 else 0)
      + (if |r.expenseEntries| > 0 then 1 else 0) + (if |r.filtered| > 0 then 1 else 0)
    ensures SheetNames(wb) == ["Summary"]
      + (if |r.incomeEntries| > 0 then ["Income"] else [])
      + (if |r.expenseEntries| > 0 then ["Expenses"] else [])
      + (if |r.filtered| > 0 then ["All Entries"] else [])
    ensures forall i :: 1 <= i < |wb| ==> HoldsItsRows(wb[i], r)
  {
    var summary := SummarySheet(r, generated);
    var tail := DetailSheets(r);
    SummaryComesFirst(summary, tail, r);
    var wb := [summary] + tail;
    forall i | 1 <= i < |wb|
      ensures HoldsItsRows(wb[i], r)
    {
      assert wb[i] == tail[i - 1];
    }
    wb
  }

  /** The suggested file name `daybook_report_<from>_to_<to>.<extension>`. */
  function ReportFileName(from: Date, to: Date, extension: string): (name: string)
    ensures |name| == 20 + |from| + |to| + |extension|
    ensures name[..15] == "daybook_report_" && name[15..15 + |from|] == from
    ensures name[15 + |from|..19 + |from|] == "_to_" && name[19 + |from|..19 + |from| + |to|] == to
    ensures name[19 + |from| + |to|] == '.' && name[20 + |from| + |to|..] == extension
  {
    "daybook_report_" + from + "_to_" + to + "." + extension
  }

  /** In the PDF, each details table's amount column adds up to the total its
      summary line shows. */
  lemma PdfTablesAddUpToSummary(entries: seq<Entry>, from: Date, to: Date, generated: string)
    requires Aggregate(entries, from, to).Ok?
    ensures var r := Aggregate(entries, from, to).value;
      var d := PdfDocument(r, generated);
      forall t :: t in d.tables ==>
        ColumnTotal(t.rows, 2) == CellAmount(if t.title == "Income Details" then d.summary[0][1] else d.summary[1][1])
  {
    var r := Aggregate(entries, from, to).value;
    AmountColumnAddsUp(r.incomeEntries, PdfRow, 2);
    AmountColumnAddsUp(r.expenseEntries, PdfRow, 2);
  }

  /** In the workbook, the Amount column of the Income and Expenses sheets adds
      up to the totals on the Summary sheet. */
  lemma SheetsAddUpToSummary(entries: seq<Entry>, from: Date, to: Date, generated: string)
    requires Aggregate(entries, from, to).Ok?
    ensures var r := Aggregate(entries, from, to).value;
      var summary := SummarySheet(r, generated);
      && ColumnTotal(Rows(r.incomeEntries, SheetRow), 2) == CellAmount(summary.rows[5][1])
      && ColumnTotal(Rows(r.expenseEntries, SheetRow), 2) == CellAmount(summary.rows[6][1])
  {
    var r := Aggregate(entries, from, to).value;
    AmountColumnAddsUp(r.incomeEntries, SheetRow, 2);
    AmountColumnAddsUp(r.expenseEntries, SheetRow, 2);
  }

  /** When every entry of the range is typed income or expense, the two detail
      lists together have one row per entry of the range; entries of any other
      type appear only on the `All Entries` sheet. */
  lemma {:induction false} DetailsCoverTheRange(s: seq<Entry>)
    requires forall i :: 0 <= i < |s| ==> s[i].kind == Income || s[i].kind == Expense
    ensures |OfKind(s, Income)| + |OfKind(s, Expense)| == |s|
  {
    if |s| > 0 {
      DetailsCoverTheRange(s[1..]);
    }
  }
}
