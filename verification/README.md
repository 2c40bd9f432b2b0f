# Daybook Desktop: a Dafny model of the bookkeeping core

Daybook Desktop is a small desktop day-book. Its user records income and expense entries under named categories. The app shows today's totals, the five most recent transactions, and per-type tables. It also produces:

- a date-ranged ledger with a running balance;
- profit and loss over a date range;
- PDF and spreadsheet reports;
- whole-book backups.

Beside the day-book, the app tracks receivable and payable accounts with partial payments. A trial gate limits an unlicensed copy to 14 days.

This project models that logic as pure functions over immutable values:

- the `DaybookApp` class in `app.js`;
- the report aggregation of `ExportManager` in `export.js`;
- the `TrialManager` of `trial.js`.

Each store operation takes the current state and returns the new one, or the warning the application shows instead (`Result<_, Alert>`). Values the application reads from a form, the clock or a confirmation dialog are parameters. These include:

- entry and account ids (`Date.now()`);
- today's date;
- `now` in milliseconds;
- the ISO text of the moment;
- the user's yes/no.

Amounts are integers (minor currency units).

| file | module | models |
|---|---|---|
| `wrappers.dfy` | `Wrappers` | `Option`, `Result` |
| `seqs.dfy` | `Seqs` | `Array.prototype.find` and `filter`, the specification of an order-preserving selection, duplicate-freedom |
| `text.dfy` | `Text` | `trim`, ASCII `toLowerCase`, `includes`, `String(n)` and `padStart(2, '0')` |
| `dates.dfy` | `Dates` | JavaScript string `<=` on dates, and its agreement with calendar order |
| `records.dfy` | `Records` | entries, categories, accounts, warnings, the stored book |
| `entry_store.dfy` | `EntryStore` | add, update and delete entries; add and delete categories |
| `sorting.dfy` | `Sorting` | the stable sort by date (recent list, ledger) |
| `reports.dfy` | `Reports` | dashboard totals, type tables, recent list, ledger, profit and loss |
| `account_book.dfy` | `AccountBook` | accounts, payments, account filter and status, summary |
| `backup.dfy` | `Backup` | backup snapshot and wholesale import |
| `export.dfy` | `Export` | report range, totals, Profit/Loss label, PDF tables and workbook sheets |
| `trial.dfy` | `Trial` | trial record, validity, remaining days, licence keys, status, reminders |

Modelling decisions that shape the contracts:

- **Entry type.** An entry's type is `Income`, `Expense` or `Other(tag)`. The form only produces the first two. An imported backup can carry any string, and the ledger and profit and loss treat such entries differently. `ValidKind` keeps "income" and "expense" out of `Other`: `KindOf` reads an imported type text "income" as `Income`.
- **Date comparison.** Dates compare as JavaScript strings do, by the lexicographic `LexLe`. The ledger's sort uses `new Date(a) - new Date(b)` (app.js:609). The model sorts by `LexLe` instead. `Dates.LexOrderIsCalendarOrder` proves that, on well-formed `YYYY-MM-DD` strings, lexicographic order is the numeric order of year, month and day. The model assumes that `new Date` is monotone in that order.
- **Date bounds.** An empty date bound means no bound, as in the ledger's `if (dateFrom)`.
- **Sort stability.** `Array.prototype.sort` is stable, so the model's sort is a stable insertion sort.
- **In-place recent sort.** The recent list sorts the store in place (app.js:499-500). `RecentTransactions` therefore returns the reordered store as well as the five rows shown. Every dashboard refresh runs this sort: after adding, editing, deleting or importing entries, and at start-up. So it fixes more than the recent list. It also fixes the row order of the income and expense tables and of the exported lists, which all filter the store in its current order. `Reports.AddedEntryJoinsItsTable` states the table that results. Lemmas show that the reordering changes no total and no ledger.
- **Order-preserving selections.** Every `filter` of the source keeps the order of what it keeps. Contracts state this with `Seqs.IsSelection`: the result is a subsequence of the input, and it holds each element that passes the test exactly as often as the input does. `Seqs.SelectionIsUnique` proves that only one list meets this.
- **Behaviour worth knowing.** The model follows the code in these cases:
  - `addEntry` and `addAccount` accept negative amounts: `!amount` rejects only zero.
  - The ledger subtracts every entry whose type is not `income`.
  - Saving the account form after "Edit" appends a new record (app.js:267-270, app.js:640-669).
  - `deleteCategory` removes the name from the list of the tab currently shown (app.js:1102).

## Model

| member | source | states |
|---|---|---|
| EntryStore.AddEntry | app.js:89-110 | Rejected with the missing-fields warning exactly when the date or category is empty or the amount is zero; otherwise exactly one entry, with the given type and fields, is appended and all earlier entries are untouched |
| EntryStore.UpdateEntry | app.js:419-428 | An unknown id leaves the store unchanged; otherwise only the first entry with the id gets the new date, category, amount and description, keeping its id and type, and every other entry is unchanged |
| EntryStore.UpdateIdempotent | app.js:419-428 | Saving the same edit twice gives the same store as saving it once |
| EntryStore.UpdateUndoneByOldValues | app.js:419-428 | Editing an entry back to its previous date, category, amount and description restores the store |
| EntryStore.DeleteEntry | app.js:438-457 | Unconfirmed, nothing changes; confirmed, exactly the entries without the id remain, each as often as before and in their previous order |
| EntryStore.DeleteUndoesAdd | app.js:450 | Deleting an entry just added under a fresh id restores the store |
| EntryStore.AddCategory | app.js:1066-1080 | Rejected when the trimmed name is empty or already in the chosen list, with the matching warning; otherwise the trimmed name is appended to that list and the other list is unchanged |
| EntryStore.DeleteCategory | app.js:1090-1107 | Confirmed deletion removes the name from the current tab's list only, keeping the other names in their order; the other list is unchanged |
| EntryStore.CategoryListsStayUnique | app.js:1066-1080 | Adding and deleting categories keep both lists duplicate-free |
| EntryStore.AddCategoryTwiceRejected | app.js:1066-1080 | Adding again the name a category was just stored under is refused as a duplicate, because the stored name is already trimmed |
| EntryStore.DeleteCategoryUndoesAdd | app.js:1102 | Deleting, on the same tab, a category just added restores both lists, even when the list already held duplicates |
| EntryStore.DeleteCategoryUsesCurrentTab | app.js:1102 | Deleting a name while the tab of the other list is shown changes nothing |
| EntryStore.DefaultCategoriesUnique | app.js:5-8 | The default income and expense lists have no duplicates |
| Seqs.SelectionIsUnique | app.js:450 | Only one list is a subsequence of the input holding each element that passes the test exactly as often as the input does: the list `filter` returns |
| Text.Trim | app.js:1067 | The trimmed name is the input with whitespace removed only at the ends, has no whitespace at either end, and is empty exactly when the input is all whitespace |
| Text.Includes | app.js:708 | `includes` holds exactly when the query occurs at some position |
| Dates.LexOrderIsCalendarOrder | app.js:599-609 | On well-formed dates, the string comparison used by the filters agrees with year-month-day numeric order used by the ledger's sort |
| Sorting.SortByDate | app.js:609 | The result is sorted by date in the given direction and is a permutation of the input |
| Sorting.SortByDateStable | app.js:609 | On every date, the sorted list holds that day's entries in their original order |
| Sorting.SortAgreesOnDays | app.js:609 | Two lists with the same entries, in the same order, on every day sort to the same list |
| Sorting.SortKeepsSorted | app.js:609 | Sorting a list already in order leaves it unchanged |
| Sorting.SortIdempotent | app.js:609 | Sorting twice is sorting once |
| Sorting.SortCommutesWithFilter | app.js:498-500 | Filtering the sorted list gives the sorted filtered list, so any filter applied after the in-place sort sees the selected entries in date order |
| Reports.ProfitLoss | app.js:811-832 | Refused with the missing-range warning exactly when a bound is empty; otherwise income and expense are the amounts of the in-range entries of each type, added up in one pass, and net is their difference |
| Reports.DashboardTotals | app.js:463-479 | Today's income and expense are the amounts of the entries of each type dated today, added up in one pass, and the net balance is their difference |
| Reports.TotalsPermutation | app.js:815-826 | Totals do not depend on the order of the entries |
| Reports.ProfitLossOfTodayIsDashboard | app.js:463-479 | Profit and loss from today to today equals the dashboard's today totals |
| Reports.ProfitLossAfterAdd | app.js:815-826 | Adding one entry changes income or expense by its amount exactly when its date is in range and its type matches, and changes nothing otherwise |
| Reports.TypeView | app.js:527-540 | The income and expense tables show exactly the entries of the table's type that pass the set date and category filters, each as often as in the store and in store order |
| Reports.AddedEntryJoinsItsTable | app.js:498-531 | After an entry is added and the dashboard refresh has sorted the store newest first, a type's unfiltered table is the old table plus the new entry when it has that type, newest first, with same-day rows in the order they were added |
| Reports.RecentTransactions | app.js:498-501 | The store is reordered newest first as a permutation; the rows shown are its first min(5, n) entries and none of the rest is newer |
| Reports.RecentReorderKeepsTotals | app.js:498-501 | The in-place reorder leaves today's totals and every profit and loss unchanged |
| Reports.RecentReorderKeepsLedger | app.js:498-501 | The in-place reorder leaves every ledger unchanged |
| Reports.LedgerEntries | app.js:594-609 | The ledger holds exactly the entries within the inclusive range, sorted oldest first, as a permutation of the filtered entries |
| Reports.LedgerIdempotent | app.js:594-609 | Rebuilding the ledger from its own rows gives the same rows |
| Reports.RunningSplit | app.js:614-621 | The running balance is income minus every entry of any other type |
| Reports.RunningBalances | app.js:614-621 | Row i carries the i-th entry and the signed sum of entries 0..i |
| Reports.BuildLedger | app.js:594-621 | The ledger's rows are the range's entries sorted by date with prefix-sum balances; the last balance is the range's income minus all its other entries |
| Reports.LedgerClosingBalance | app.js:614-621 | The final running balance equals the range's income minus its non-income entries |
| Reports.LedgerClosesAtProfitLoss | app.js:614-621 | When every entry is income or expense, the ledger closes at the range's net profit or loss |
| Records.KindOf | app.js:617-621 | A type text maps to a valid kind whose text is that text, so "income" and "expense" never become `Other` |
| Records.KindNameRoundTrip | app.js:617-621 | A valid kind is recovered from its type text, so two valid kinds never share a text |
| Reports.OtherTypeSplitsLedgerFromProfitLoss | app.js:617-621 | An entry of another type lowers the ledger balance by its amount but counts in neither profit-and-loss total |
| Reports.IncomeThenExpenseLedger | app.js:614-621 | An income followed by a later expense gives balances of the income, then income minus expense |
| Reports.IncomeThenExpenseProfitLoss | app.js:815-826 | The same pair gives income, expense and their difference as profit and loss |
| Reports.WorkedExampleResults | app.js:594-621 | Salary 1000 on 2024-01-01 and food 200 on 2024-01-02 give balances 1000 and 800, and profit and loss 1000, 200, 800 |
| AccountBook.AddAccount | app.js:640-669 | Rejected exactly when the date or trimmed party is empty or the amount zero; otherwise an unpaid record is appended and the rest are untouched, including an account being edited |
| AccountBook.RecordPayment | app.js:684-694 | Rejected when no account has the id, the payment is not positive, or it exceeds what is owed; otherwise only the first account with the id has its paid amount raised by exactly the payment |
| AccountBook.DeleteAccount | app.js:789-805 | Confirmed deletion keeps exactly the accounts without the id, each as often as before and in their previous order |
| AccountBook.DeleteAccountUndoesAdd | app.js:801 | Deleting an account just added under a fresh id restores the list |
| AccountBook.PaymentsKeepBounds | app.js:684-694 | Over any sequence of payment attempts, every account that starts with `0 <= paid <= amount` keeps it, paid amounts never decrease, and no other field or record changes, whatever other accounts the book holds |
| AccountBook.FullPaymentClosesAccount | app.js:684-694 | Paying 500 on a 500 account succeeds, leaves balance 0 and status Paid, and a further payment of 1 is rejected |
| AccountBook.StatusAgreesWithFilter | app.js:706-718 | For a positive amount paid within bounds, the status filter (`MatchesStatus`) passes an account exactly when it is the filter named by the status its row shows (`DisplayStatus`) |
| AccountBook.FilterAccounts | app.js:702-712 | Lists exactly the accounts of the tab's type whose party or description contains the lower-cased query and which pass the status filter, each as often as in the list and in list order |
| AccountBook.QueryCaseIgnored | app.js:703-707 | A query lists the same rows as its lower-case form |
| AccountBook.UnfilteredTabListsItsType | app.js:703-711 | With no query and no status filter, the tab lists every account of its type in order |
| AccountBook.SummaryIsUnfilteredTabs | app.js:742-745 | Receivables and payables are the total balances of each tab's unfiltered rows, whatever search or status filter is set |
| AccountBook.Summary | app.js:742-745 | Receivables and payables are the summed balances of the accounts of each type, and the net position is their difference |
| AccountBook.PaymentLowersOutstanding | app.js:742-745 | A recorded payment lowers its own type's outstanding total by exactly the payment and leaves the other type's unchanged |
| AccountBook.AddAccountRaisesOutstanding | app.js:742-745 | A new account raises its type's outstanding total by its amount |
| Backup.TakeSnapshot | app.js:884-891 | The snapshot holds the book's entries and categories, version 1.0.0, the app name and the export time |
| Backup.BackupFileName | app.js:900 | The file name is `daybook_backup_`, the date part of the export time, then `.json` |
| Backup.ImportBackup | app.js:958-981 | Rejected exactly when entries or categories are missing; confirmed, both are replaced wholesale and the accounts kept; unconfirmed, nothing changes |
| Backup.RestoreUndoesBackup | app.js:958-981 | Importing a backup of the book gives back the book |
| Backup.RestoreKeepsCurrentAccounts | app.js:975-979 | Importing a backup restores its entries and categories but keeps the current accounts |
| Export.Aggregate | export.js:137-155 | Refused exactly when a bound is missing; otherwise the range's entries, and the income and expense entries among them, are the store's entries that pass each test, each as often as in the store and in store order; the totals are their sums, with net their difference |
| Export.ExportAgreesWithProfitLoss | export.js:146-155 | The exports refuse the same ranges as profit and loss and compute the same totals |
| Export.NetLabel | export.js:172 | The label is `Net Profit` exactly when net is not negative, `Net Loss` otherwise |
| Export.NetFigure | export.js:172 | The figure is the absolute value of net |
| Export.LabelAndFigureRecoverNet | export.js:295 | Label and figure together determine net |
| Export.PdfRow | export.js:183-188 | A PDF detail row shows date, category and the amount as money; the description is shown as `-` when empty and as it is otherwise |
| Export.SheetRow | export.js:305-310 | A sheet detail row shares the PDF row's date and category cells and shows the same amount as a plain number; the description is kept as it is, so it differs from the PDF row only when empty |
| Export.AllEntriesRow | export.js:335-341 | An All Entries row shows date, type name, category, the amount as a plain number and the description as it is |
| Export.AmountColumnAddsUp | export.js:183-188 | A column showing each entry's amount adds up to the entries' sum |
| Export.PdfDocument | export.js:157-223 | The PDF has the title, the period and generated lines, the `Summary` heading and the three summary lines. It has an Income Details table and an Expense Details table, each with the fixed header and exactly when its list is non-empty; Income Details comes first when both are present |
| Export.SummarySheet | export.js:287-296 | The Summary sheet has eight rows: the title, the period line, the generated line, a blank row and `Summary`, then the income and expense totals and the net label with its figure |
| Export.EntrySheet | export.js:302-345 | A detail sheet exists exactly when its list is non-empty and holds the header row and then one row per entry in filtered order |
| Export.Workbook | export.js:284-345 | The sheets are Summary, then Income, Expenses and All Entries in that order, each only when its list is non-empty; each detail sheet holds its header and one row per entry of its list |
| Export.ReportFileName | export.js:230 | The file name is `daybook_report_`, the start date, `_to_`, the end date, a dot and the extension |
| Export.PdfTablesAddUpToSummary | export.js:170-214 | Each PDF table's amount column totals the summary line it details |
| Export.SheetsAddUpToSummary | export.js:291-325 | The Income and Expenses sheets' amount columns total the Summary sheet's figures |
| Export.DetailsCoverTheRange | export.js:151-152 | When all entries are income or expense, the two detail lists together have one row per entry of the range |
| Trial.DaysPassed | trial.js:79 | Whole days elapsed, rounded down, as `floor` does |
| Trial.InitializeTrial | trial.js:12-36 | A first run starts the trial now: not activated, one session, and no last session, activation date or licence key. Later runs add one session (missing counts as none), record the session time, and change nothing else |
| Trial.IsTrialValid | trial.js:65-86 | Valid exactly when there is no record, the record is activated, or less than 14 days have passed since the start; the check time is recorded only on a non-activated record |
| Trial.IsTrialValidWithGrace | trial.js:451-469 | Valid exactly when there is no record, it is activated, or at most 15 whole days have passed; with no record a fresh trial is started, and an existing record is not changed |
| Trial.GraceExtendsTrial | trial.js:451-469 | Whatever the plain check accepts the grace check accepts, and on day 15 only the grace check accepts |
| Trial.RemainingDays | trial.js:89-105 | 14 with no record, -1 exactly when activated, otherwise 14 minus the whole days passed, never below 0 |
| Trial.RemainingDaysMatchValidity | trial.js:89-105 | On a started, non-activated trial, days remain exactly when the trial is valid |
| Trial.ExpiryIsPermanent | trial.js:65-86 | An expired trial stays expired as the clock moves forward |
| Trial.GenerateKey | trial.js:134-140 | The demo key is `DAYBOOK-`, the year, two-digit month and day, then `-DEMO-KEY` |
| Trial.KeyRoundTrip | trial.js:134-140 | Reading the date back out of a demo key gives the date it was made from |
| Trial.DemoKeysDiffer | trial.js:134-140 | Different days have different demo keys |
| Trial.ActivateLicense | trial.js:108-131 | Accepts exactly the three fixed keys and today's demo key; on success the record is activated, stamped and otherwise kept; on failure nothing changes |
| Trial.GetTrialStatus | trial.js:149-176 | Activated exactly when the record is; Expired exactly when the validity check fails; otherwise at least one day remains, equal to 14 minus the days passed at the same instant |
| Trial.StatusMessageIdentifiesStatus | trial.js:149-176 | Different statuses, and different remaining-day counts, never show the same message |
| Trial.TrialNotification | trial.js:179-195 | No notice when activated, the expiry dialog exactly when expired, and a reminder carrying the remaining days exactly when at most 7 days remain or the days remaining are a multiple of 3 |
| Trial.ReminderSchedule | trial.js:179-195 | Over a trial checked daily, reminders appear on days 2, 5 and 7 to 13 |
| Trial.RunKeepsTrialState | trial.js:12-131 | Any sequence of trial operations keeps the record well formed, never moves the start date and never undoes an activation |
| Trial.WellFormedHasRemainingDays | trial.js:89-105 | On a well-formed record the remaining days are always a number |
| Trial.ActivationIsPermanent | trial.js:143-157 | Once activated, the status stays Activated and the trial valid after any operations at any time |

## Left out

- User interface: rendering, modals, event wiring, the electron menus, and the colour of the net figures. Confirmations are boolean inputs.
- Persistence: `localStorage`, `JSON.parse`/`JSON.stringify` and the base64 obfuscation of the trial record. Stores are whole values. A backup's JSON text is not modelled, only the object it encodes.
- Clock and ids: `Date.now()`, `new Date()` and `toISOString`/`toLocaleDateString` readings are parameters. `Dates.LexOrderIsCalendarOrder` covers how the ledger orders dates. The model assumes that `new Date` is monotone in the year-month-day order.
- Number semantics: floating-point amounts, `parseFloat` returning `NaN`, and `formatCurrency`'s `toFixed` text. Amounts are integers. A money cell records the amount it formats.
- Libraries and I/O: the jsPDF and XLSX libraries, library loading and retries, file dialogs, file writes, and the PDF's page coordinates.
- Other files: electron-main.js, main.js and preload.js (menus, IPC, update check, backup-file rotation). The auto-backup timer is left out too. `Backup.TakeSnapshot` with `auto` set models the snapshot that `createAutoBackup` writes.
- Not modelled:
  - `getUsageStats` and the trial dialogs (trial.js:198-449) are left out.
  - The edit modal's pre-filling (`editEntry`, `editAccount`) is left out. Its effect on saving is modelled: `AccountBook.AddAccount` appends.
- Sorting.SortByDate: assumes well-formed dates. `updateEntry` validates nothing (app.js:422), so an edited entry can carry an empty or malformed date. `new Date` of such a date is `NaN`, every comparison with it is false, and the engine then decides the order. The model orders such dates by `LexLe` instead, so the empty date comes first.
- Trial.GenerateKey: models a non-negative year only; `String` of a negative year is not modelled.
- Text.Lower: lower-cases ASCII letters only; `toLowerCase` on other scripts is not modelled.
- Backup.ImportBackup: a field counts as present when it holds a list or category object. Other truthy JSON values that `processBackupData` would also accept are not modelled.
- Trial.RemainingDays: `None` stands for the `NaN` that a record without a start date would give. Only a licence entered before any trial record creates such a record, and it is then activated.
