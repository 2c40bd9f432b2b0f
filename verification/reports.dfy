/** The derived views of app.js: the dashboard's totals for today, the
    top-five recent list, the income and expense tables, the ledger with its
    running balance, and profit and loss over a date range. */
module Reports {
  import opened Wrappers
  import opened Seqs
  import opened Dates
  import opened Records
  import opened Sorting

  /** `reduce((sum, e) => sum + e.amount, 0)`. */
  function Sum(s: seq<Entry>): int {
    if |s| == 0 then 0 else s[0].amount + Sum(s[1..])
  }

  lemma {:induction false} SumConcat(a: seq<Entry>, b: seq<Entry>)
    ensures Sum(a + b) == Sum(a) + Sum(b)
  {
    if |a| == 0 {
      assert a + b == b;
    } else {
      assert (a + b)[1..] == a[1..] + b;
      SumConcat(a[1..], b);
    }
  }

  /** Taking one term out of a sum. */
  lemma SumRemove(b: seq<Entry>, i: int)
    requires 0 <= i < |b|
    ensures Sum(b) == b[i].amount + Sum(b[..i] + b[i + 1..])
  {
    assert b == b[..i] + [b[i]] + b[i + 1..];
    SumConcat(b[..i] + [b[i]], b[i + 1..]);
    SumConcat(b[..i], [b[i]]);
    SumConcat(b[..i], b[i + 1..]);
  }

  /** A sum does not depend on the order of its terms. */
  lemma {:induction false} SumPermutation(a: seq<Entry>, b: seq<Entry>)
    requires multiset(a) == multiset(b)
    ensures Sum(a) == Sum(b)
  {
    if |a| > 0 {
      var x := a[0];
      assert x in multiset(b);
      var i :| 0 <= i < |b| && b[i] == x;
      var rest := b[..i] + b[i + 1..];
      assert b == b[..i] + [x] + b[i + 1..];
      assert a == [x] + a[1..];
      assert multiset(b) == multiset(b[..i]) + multiset{x} + multiset(b[i + 1..]);
      assert multiset(rest) == multiset(b[..i]) + multiset(b[i + 1..]);
      assert multiset(a) == multiset{x} + multiset(a[1..]);
      assert multiset(a[1..]) == multiset(a) - multiset{x};
      assert multiset(rest) == multiset(b) - multiset{x};
      SumPermutation(a[1..], rest);
      SumRemove(b, i);
    } else {
      assert b == [];
    }
  }

  /** The amounts of the entries satisfying `p`, added up in one pass over
      the list: the reference the totals are checked against. */
  function AmountWhere(s: seq<Entry>, p: Entry -> bool): int {
    if |s| == 0 then 0 else (if p(s[0]) then s[0].amount else 0) + AmountWhere(s[1..], p)
  }

  lemma {:induction false} SumOfFilter(s: seq<Entry>, p: Entry -> bool)
    ensures Sum(Filter(s, p)) == AmountWhere(s, p)
  {
    if |s| > 0 {
      SumOfFilter(s[1..], p);
      if p(s[0]) {
        assert ([s[0]] + Filter(s[1..], p))[1..] == Filter(s[1..], p);
      }
    }
  }

  function KindIs(k: Kind): Entry -> bool {
    (e: Entry) => e.kind == k
  }

  function NotIncome(): Entry -> bool {
    (e: Entry) => e.kind != Income
  }

  /** `filter(e => e.type === k)`. */
  function OfKind(s: seq<Entry>, k: Kind): seq<Entry> {
    Filter(s, KindIs(k))
  }

  /** The date filter shared by the ledger, profit and loss and the reports:
      an empty bound is no bound, and bounds are inclusive string comparisons. */
  predicate Within(d: Date, from: Date, to: Date) {
    (from == "" || LexLe(from, d)) && (to == "" || LexLe(d, to))
  }

  function InPeriodIs(from: Date, to: Date): Entry -> bool {
    (e: Entry) => Within(e.date, from, to)
  }

  function InPeriod(s: seq<Entry>, from: Date, to: Date): seq<Entry> {
    Filter(s, InPeriodIs(from, to))
  }

  datatype Totals = Totals(income: int, expense: int, net: int)

  /** Entries of type `k` dated within the range. */
  function InRangeOfKind(from: Date, to: Date, k: Kind): Entry -> bool {
    (e: Entry) => Within(e.date, from, to) && e.kind == k
  }

  /** Entries of type `k` dated `d`. */
  function DatedOfKind(d: Date, k: Kind): Entry -> bool {
    (e: Entry) => e.date == d && e.kind == k
  }

  /** Income and expense sums of a list, and their difference. Entries of any
      other type count in neither. */
  function TotalsOf(s: seq<Entry>): (t: Totals)
    ensures t.net == t.income - t.expense
  {
    var income := Sum(OfKind(s, Income));
    var expense := Sum(OfKind(s, Expense));
    Totals(income, expense, income - expense)
  }

  /** `updateDashboard`: the totals of the entries dated today. */
  function DashboardTotals(s: seq<Entry>, today: Date): (t: Totals)
    ensures t.income == AmountWhere(s, DatedOfKind(today, Income))
    ensures t.expense == AmountWhere(s, DatedOfKind(today, Expense))
    ensures t.net == t.income - t.expense
  {
    FilterFuse(s, DateIs(today), KindIs(Income), DatedOfKind(today, Income));
    FilterFuse(s, DateIs(today), KindIs(Expense), DatedOfKind(today, Expense));
    SumOfFilter(s, DatedOfKind(today, Income));
    SumOfFilter(s, DatedOfKind(today, Expense));
    TotalsOf(OnDate(s, today))
  }

  /** `generateProfitLoss`: both bounds are required; the totals are over the
      entries with `from <= date <= to`. */
  function ProfitLoss(s: seq<Entry>, from: Date, to: Date): (r: Result<Totals, Alert>)
    ensures r.Err? <==> from == "" || to == ""
    ensures r.Err? ==> r.error == MissingDateRange
    ensures r.Ok? ==> r.value.income == AmountWhere(s, InRangeOfKind(from, to, Income))
    ensures r.Ok? ==> r.value.expense == AmountWhere(s, InRangeOfKind(from, to, Expense))
    ensures r.Ok? ==> r.value.net == r.value.income - r.value.expense
  {
    if from == "" || to == "" then Err(MissingDateRange)
    else
      FilterFuse(s, InPeriodIs(from, to), KindIs(Income), InRangeOfKind(from, to, Income));
      FilterFuse(s, InPeriodIs(from, to), KindIs(Expense), InRangeOfKind(from, to, Expense));
      SumOfFilter(s, InRangeOfKind(from, to, Income));
      SumOfFilter(s, InRangeOfKind(from, to, Expense));
      Ok(TotalsOf(InPeriod(s, from, to)))
  }

  /** Totals depend only on which entries there are, not on their order. */
  lemma TotalsPermutation(a: seq<Entry>, b: seq<Entry>)
    requires multiset(a) == multiset(b)
    ensures TotalsOf(a) == TotalsOf(b)
  {
    FilterPermutation(a, b, KindIs(Income));
    FilterPermutation(a, b, KindIs(Expense));
    SumPermutation(OfKind(a, Income), OfKind(b, Income));
    SumPermutation(OfKind(a, Expense), OfKind(b, Expense));
  }

  /** Profit and loss for the single day `today` is the dashboard. */
  lemma ProfitLossOfTodayIsDashboard(s: seq<Entry>, today: Date)
    requires today != ""
    ensures ProfitLoss(s, today, today) == Ok(DashboardTotals(s, today))
  {
    forall i | 0 <= i < |s|
      ensures InPeriodIs(today, today)(s[i]) == DateIs(today)(s[i])
    {
      LexLeReflexive(today);
      if LexLe(today, s[i].date) && LexLe(s[i].date, today) {
        LexLeAntisymmetric(today, s[i].date);
      }
    }
    FilterExt(s, InPeriodIs(today, today), DateIs(today));
  }

  /** Adding one entry moves the profit-and-loss totals by that entry alone. */
  lemma ProfitLossAfterAdd(s: seq<Entry>, e: Entry, from: Date, to: Date)
    requires from != "" && to != ""
    ensures var before := ProfitLoss(s, from, to).value;
      var after := ProfitLoss(s + [e], from, to).value;
      var counted := Within(e.date, from, to);
      && after.income == before.income + (if counted && e.kind == Income then e.amount else 0)
      && after.expense == before.expense + (if counted && e.kind == Expense then e.amount else 0)
  {
    FilterConcat(s, [e], InPeriodIs(from, to));
    var p := InPeriod(s, from, to);
    var q := Filter([e], InPeriodIs(from, to));
    FilterConcat(p, q, KindIs(Income));
    FilterConcat(p, q, KindIs(Expense));
    SumConcat(OfKind(p, Income), OfKind(q, Income));
    SumConcat(OfKind(p, Expense), OfKind(q, Expense));
  }

  /** The income and expense tables' row filter. */
  predicate ShownInTable(e: Entry, k: Kind, dateFilter: Date, categoryFilter: string) {
    && e.kind == k
    && (dateFilter == "" || e.date == dateFilter)
    && (categoryFilter == "" || e.category == categoryFilter)
  }

  function ShownIs(k: Kind, dateFilter: Date, categoryFilter: string): Entry -> bool {
    (e: Entry) => ShownInTable(e, k, dateFilter, categoryFilter)
  }

  function CategoryIs(c: string): Entry -> bool {
    (e: Entry) => e.category == c
  }

  /** `renderIncome` / `renderExpense`: entries of the table's type, narrowed
      by the date and then the category filter when these are set. The rows
      keep the order of the store, which every refresh of the dashboard has
      just sorted newest first (see `AddedEntryJoinsItsTable`). */
  function TypeView(s: seq<Entry>, k: Kind, dateFilter: Date, categoryFilter: string)
    : (r: seq<Entry>)
    ensures forall e :: e in r <==> e in s && ShownInTable(e, k, dateFilter, categoryFilter)
    ensures IsSelection(r, s, ShownIs(k, dateFilter, categoryFilter))
  {
    var byKind := OfKind(s, k);
    var byDate := if dateFilter == "" then byKind else OnDate(byKind, dateFilter);
    var kindAndDate := (e: Entry) => e.kind == k && (dateFilter == "" || e.date == dateFilter);
    if dateFilter == "" then
      FilterExt(s, KindIs(k), kindAndDate);
      ViewCategoryStep(s, byDate, kindAndDate, k, dateFilter, categoryFilter)
    else
      FilterFuse(s, KindIs(k), DateIs(dateFilter), kindAndDate);
      ViewCategoryStep(s, byDate, kindAndDate, k, dateFilter, categoryFilter)
  }

  /** The category step of `TypeView`, given that the first two steps selected
      by `kindAndDate`. */
  function ViewCategoryStep(s: seq<Entry>, byDate: seq<Entry>, kindAndDate: Entry -> bool,
                            k: Kind, dateFilter: Date, categoryFilter: string): (r: seq<Entry>)
    requires byDate == Filter(s, kindAndDate)
    requires forall e :: kindAndDate(e) == (e.kind == k && (dateFilter == "" || e.date == dateFilter))
    ensures forall e :: e in r <==> e in s && ShownInTable(e, k, dateFilter, categoryFilter)
    ensures IsSelection(r, s, ShownIs(k, dateFilter, categoryFilter))
  {
    var shown := ShownIs(k, dateFilter, categoryFilter);
    if categoryFilter == "" then
      FilterExt(s, kindAndDate, shown);
      FilterIsSelection(s, shown);
      byDate
    else
      FilterFuse(s, kindAndDate, CategoryIs(categoryFilter), shown);
      FilterIsSelection(s, shown);
      Filter(byDate, CategoryIs(categoryFilter))
  }

  /** After `addEntry` the dashboard refresh sorts the store newest first in
      place before the tables are drawn (app.js:110-112, 499-500), so a type's
      unfiltered table is its old rows with the new entry, newest first, and
      same-day rows in the order they were added. */
  lemma AddedEntryJoinsItsTable(s: seq<Entry>, e: Entry, k: Kind)
    ensures TypeView(RecentTransactions(s + [e]).reordered, k, "", "")
      == SortByDate(TypeView(s, k, "", "") + (if e.kind == k then [e] else []), Descending)
  {
    var shown := ShownIs(k, "", "");
    var store := SortByDate(s + [e], Descending);
    assert RecentTransactions(s + [e]).reordered == store;
    var table := TypeView(store, k, "", "");
    SelectionIsUnique(table, store, shown);
    SortCommutesWithFilter(s + [e], Descending, shown);
    assert table == SortByDate(Filter(s + [e], shown), Descending);
    FilterConcat(s, [e], shown);
    SelectionIsUnique(TypeView(s, k, "", ""), s, shown);
    assert Filter([e], shown) == if e.kind == k then [e] else [];
  }

  datatype Recent = Recent(reordered: seq<Entry>, shown: seq<Entry>)

  /** `renderRecentTransactions`: sorts the store itself newest first (the sort
      is in place, so `reordered` becomes the store) and shows the first five. */
  function RecentTransactions(s: seq<Entry>): (r: Recent)
    ensures |r.reordered| == |s| && multiset(r.reordered) == multiset(s)
    ensures SortedByDate(r.reordered, Descending)
    ensures |r.shown| == if |s| < 5 then |s| else 5
    ensures r.shown == r.reordered[..|r.shown|]
    ensures forall i, j :: 0 <= i < |r.shown| <= j < |s| ==> LexLe(r.reordered[j].date, r.shown[i].date)
  {
    var sorted := SortByDate(s, Descending);
    Recent(sorted, if |sorted| < 5 then sorted else sorted[..5])
  }

  /** The ledger's rows before balances: entries within the range, oldest
      first, same-day entries in store order. */
  function LedgerEntries(s: seq<Entry>, from: Date, to: Date): (r: seq<Entry>)
    ensures SortedByDate(r, Ascending)
    ensures multiset(r) == multiset(InPeriod(s, from, to))
    ensures forall e :: e in r <==> e in s && Within(e.date, from, to)
  {
    var r := SortByDate(InPeriod(s, from, to), Ascending);
    assert forall e :: e in r <==> e in multiset(r);
    r
  }

  /** What one entry does to the running balance: income adds, every other
      type subtracts. */
  function Signed(e: Entry): int {
    if e.kind == Income then e.amount else -e.amount
  }

  /** The running balance after the whole list, accumulated left to right. */
  function Running(s: seq<Entry>): int {
    if |s| == 0 then 0 else Running(s[..|s| - 1]) + Signed(s[|s| - 1])
  }

  /** A running balance is income minus everything that is not income. */
  lemma {:induction false} RunningSplit(s: seq<Entry>)
    ensures Running(s) == Sum(OfKind(s, Income)) - Sum(Filter(s, NotIncome()))
  {
    if |s| > 0 {
      var init, x := s[..|s| - 1], s[|s| - 1];
      assert s == init + [x];
      RunningSplit(init);
      FilterConcat(init, [x], KindIs(Income));
      FilterConcat(init, [x], NotIncome());
      SumConcat(OfKind(init, Income), Filter([x], KindIs(Income)));
      SumConcat(Filter(init, NotIncome()), Filter([x], NotIncome()));
    }
  }

  datatype LedgerRow = LedgerRow(entry: Entry, balance: int)

  /** The ledger's scan: each entry with the balance accumulated up to and
      including it. */
  method RunningBalances(sorted: seq<Entry>) returns (rows: seq<LedgerRow>)
    ensures |rows| == |sorted|
    ensures forall i :: 0 <= i < |rows| ==> rows[i].entry == sorted[i]
    ensures forall i :: 0 <= i < |rows| ==> rows[i].balance == Running(sorted[..i + 1])
  {
    rows := [];
    var balance := 0;
    var i := 0;
    while i < |sorted|
      invariant 0 <= i <= |sorted|
      invariant |rows| == i
      invariant balance == Running(sorted[..i])
      invariant forall k :: 0 <= k < i ==> rows[k] == LedgerRow(sorted[k], Running(sorted[..k + 1]))
    {
      assert sorted[..i + 1][..i] == sorted[..i];
      if sorted[i].kind == Income {
        balance := balance + sorted[i].amount;
      } else {
        balance := balance - sorted[i].amount;
      }
      rows := rows + [LedgerRow(sorted[i], balance)];
      i := i + 1;
    }
  }

  /** `renderLedger`: the range-filtered, date-sorted entries, each with its
      running balance; the last balance is the range's income minus all its
      other entries. */
  method BuildLedger(s: seq<Entry>, from: Date, to: Date) returns (rows: seq<LedgerRow>)
    ensures |rows| == |LedgerEntries(s, from, to)|
    ensures forall i :: 0 <= i < |rows| ==> rows[i].entry == LedgerEntries(s, from, to)[i]
    ensures forall i :: 0 <= i < |rows| ==>
      rows[i].balance == Running(LedgerEntries(s, from, to)[..i + 1])
    ensures |rows| > 0 ==> (rows[|rows| - 1].balance ==
      Sum(OfKind(InPeriod(s, from, to), Income)) - Sum(Filter(InPeriod(s, from, to), NotIncome())))
  {
    var sorted := LedgerEntries(s, from, to);
    rows := RunningBalances(sorted);
    assert sorted[..|sorted|] == sorted;
    LedgerClosingBalance(s, from, to);
  }

  /** The ledger's last balance is the range's income minus all its other entries. */
  lemma LedgerClosingBalance(s: seq<Entry>, from: Date, to: Date)
    ensures Running(LedgerEntries(s, from, to)) ==
      Sum(OfKind(InPeriod(s, from, to), Income)) - Sum(Filter(InPeriod(s, from, to), NotIncome()))
  {
    var sorted := LedgerEntries(s, from, to);
    RunningSplit(sorted);
    var period := InPeriod(s, from, to);
    FilterPermutation(sorted, period, KindIs(Income));
    FilterPermutation(sorted, period, NotIncome());
    SumPermutation(OfKind(sorted, Income), OfKind(period, Income));
    SumPermutation(Filter(sorted, NotIncome()), Filter(period, NotIncome()));
  }

  /** When every entry is typed income or expense, the ledger over a range
      closes at that range's net profit or loss. */
  lemma LedgerClosesAtProfitLoss(s: seq<Entry>, from: Date, to: Date)
    requires from != "" && to != ""
    requires forall i :: 0 <= i < |s| ==> s[i].kind == Income || s[i].kind == Expense
    ensures Running(LedgerEntries(s, from, to)) == ProfitLoss(s, from, to).value.net
  {
    var sorted := LedgerEntries(s, from, to);
    var period := InPeriod(s, from, to);
    RunningSplit(sorted);
    forall i | 0 <= i < |sorted|
      ensures NotIncome()(sorted[i]) == KindIs(Expense)(sorted[i])
    {
      assert sorted[i] in s;
    }
    FilterExt(sorted, NotIncome(), KindIs(Expense));
    FilterPermutation(sorted, period, KindIs(Income));
    FilterPermutation(sorted, period, KindIs(Expense));
    SumPermutation(OfKind(sorted, Income), OfKind(period, Income));
    SumPermutation(OfKind(sorted, Expense), OfKind(period, Expense));
  }

  /** The dashboard's in-place sort changes neither today's totals nor any
      profit and loss. */
  lemma RecentReorderKeepsTotals(s: seq<Entry>, today: Date, from: Date, to: Date)
    ensures DashboardTotals(RecentTransactions(s).reordered, today) == DashboardTotals(s, today)
    ensures ProfitLoss(RecentTransactions(s).reordered, from, to) == ProfitLoss(s, from, to)
  {
    var r := RecentTransactions(s).reordered;
    FilterPermutation(r, s, DateIs(today));
    TotalsPermutation(OnDate(r, today), OnDate(s, today));
    FilterPermutation(r, s, InPeriodIs(from, to));
    TotalsPermutation(InPeriod(r, from, to), InPeriod(s, from, to));
  }

  /** The dashboard's in-place sort does not change the ledger either: both
      sorts are stable, so same-day entries come back in their store order. */
  lemma RecentReorderKeepsLedger(s: seq<Entry>, from: Date, to: Date)
    ensures LedgerEntries(RecentTransactions(s).reordered, from, to) == LedgerEntries(s, from, to)
  {
    var r := RecentTransactions(s).reordered;
    forall d
      ensures OnDate(InPeriod(r, from, to), d) == OnDate(InPeriod(s, from, to), d)
    {
      SortByDateStable(s, Descending, d);
      FilterCommute(r, InPeriodIs(from, to), DateIs(d));
      FilterCommute(s, InPeriodIs(from, to), DateIs(d));
    }
    SortAgreesOnDays(InPeriod(r, from, to), InPeriod(s, from, to), Ascending);
  }

  /** Recomputing the ledger from its own rows gives the same rows: the
      ledger is deterministic and idempotent. */
  lemma LedgerIdempotent(s: seq<Entry>, from: Date, to: Date)
    ensures LedgerEntries(LedgerEntries(s, from, to), from, to) == LedgerEntries(s, from, to)
  {
    var l := LedgerEntries(s, from, to);
    FilterAll(l, InPeriodIs(from, to));
    SortKeepsSorted(l, Ascending);
  }

  /** A salary of 1000 on 2024-01-01 and food for 200 on 2024-01-02. */
  const WorkedExample: seq<Entry> :=
    [Entry(1, "2024-01-01", Income, "Salary", 1000, ""),
     Entry(2, "2024-01-02", Expense, "Food", 200, "")]

  lemma WorkedExampleDates()
    ensures LexLe("2024-01-01", "2024-01-02")
    ensures LexLe("2024-01-01", "2024-01-01") && LexLe("2024-01-02", "2024-01-02")
  {
    assert "2024-01-01" == "2024-01-0" + "1" && "2024-01-02" == "2024-01-0" + "2";
    LexLeConcat("2024-01-0", "1", "2024-01-0", "2");
    LexLeReflexive("2024-01-01");
    LexLeReflexive("2024-01-02");
  }

  /** An income followed by an expense dated no earlier: the ledger over the
      whole book keeps them in order, running at the income and then at the
      difference. */
  lemma IncomeThenExpenseLedger(a: Entry, b: Entry)
    requires a.kind == Income && b.kind == Expense && LexLe(a.date, b.date)
    ensures LedgerEntries([a, b], "", "") == [a, b]
    ensures Running([a]) == a.amount && Running([a, b]) == a.amount - b.amount
  {
    var s := [a, b];
    LexLeReflexive(a.date);
    LexLeReflexive(b.date);
    assert SortedByDate(s, Ascending);
    FilterAll(s, InPeriodIs("", ""));
    SortKeepsSorted(s, Ascending);
    assert s[..|s| - 1] == [a] && [a][..0] == [];
  }

  /** Profit and loss between the two entries' dates is the income, the
      expense and their difference. */
  lemma IncomeThenExpenseProfitLoss(a: Entry, b: Entry)
    requires a.kind == Income && b.kind == Expense
    requires a.date != "" && LexLe(a.date, b.date)
    ensures ProfitLoss([a, b], a.date, b.date) == Ok(Totals(a.amount, b.amount, a.amount - b.amount))
  {
    var s := [a, b];
    LexLeReflexive(a.date);
    LexLeReflexive(b.date);
    FilterAll(s, InPeriodIs(a.date, b.date));
    assert s[1..] == [b];
    FilterNone([b], KindIs(Income));
    FilterAll([b], KindIs(Expense));
    assert OfKind(s, Income) == [a];
    assert OfKind(s, Expense) == [b];
    assert b.date != "";
    assert Sum([a]) == a.amount && Sum([b]) == b.amount;
  }

  /** The worked example: ledger balances 1000 then 800, profit and loss
      1000, 200 and 800. */
  lemma WorkedExampleResults()
    ensures LedgerEntries(WorkedExample, "", "") == WorkedExample
    ensures Running(WorkedExample[..1]) == 1000 && Running(WorkedExample) == 800
    ensures ProfitLoss(WorkedExample, "2024-01-01", "2024-01-02") == Ok(Totals(1000, 200, 800))
  {
    WorkedExampleDates();
    IncomeThenExpenseLedger(WorkedExample[0], WorkedExample[1]);
    IncomeThenExpenseProfitLoss(WorkedExample[0], WorkedExample[1]);
    assert WorkedExample == [WorkedExample[0], WorkedExample[1]];
    assert WorkedExample[..1] == [WorkedExample[0]];
  }

  /** An entry of any other type, which only an imported backup can hold,
      lowers the ledger's balance but counts in neither profit-and-loss total. */
  lemma OtherTypeSplitsLedgerFromProfitLoss(e: Entry)
    requires e.kind.Other? && ValidKind(e.kind) && e.date != ""
    ensures Running(LedgerEntries([e], e.date, e.date)) == -e.amount
    ensures ProfitLoss([e], e.date, e.date) == Ok(Totals(0, 0, 0))
  {
    LexLeReflexive(e.date);
    FilterAll([e], InPeriodIs(e.date, e.date));
    assert SortedByDate([e], Ascending);
    SortKeepsSorted([e], Ascending);
    assert [e][..0] == [];
    FilterNone([e], KindIs(Income));
    FilterNone([e], KindIs(Expense));
  }
}
