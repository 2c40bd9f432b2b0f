/** The day-book's records: income and expense entries, the category lists,
    receivable and payable accounts, and the warnings an operation can end in.
    Amounts are integers in minor currency units. */
module Records {
  import opened Dates

  /** An entry's `type`. Entries typed through the form are `Income` or
      `Expense`; an imported backup may carry any other string. */
  datatype Kind = Income | Expense | Other(tag: string)

  /** `Other` stands only for a type text that is neither "income" nor
      "expense": an imported entry typed "income" is an `Income` entry. */
  predicate ValidKind(k: Kind) {
    k.Other? ==> k.tag != "income" && k.tag != "expense"
  }

  /** The text of an entry's `type` field. */
  function KindName(k: Kind): string {
    match k
    case Income => "income"
    case Expense => "expense"
    case Other(t) => t
  }

  /** The kind an entry's `type` text stands for. */
  function KindOf(text: string): (k: Kind)
    ensures ValidKind(k) && KindName(k) == text
  {
    if text == "income" then Income else if text == "expense" then Expense else Other(text)
  }

  /** A valid kind is fixed by its text, so no two kinds share a type text. */
  lemma KindNameRoundTrip(k: Kind)
    requires ValidKind(k)
    ensures KindOf(KindName(k)) == k
  {
  }

  /** A ledger entry. `id` is the millisecond clock reading at creation. */
  datatype Entry = Entry(
    id: int,
    date: Date,
    kind: Kind,
    category: string,
    amount: int,
    description: string)

  /** The two category lists; the one in use follows the selected tab. */
  datatype CategoryTab = IncomeTab | ExpenseTab

  datatype Categories = Categories(income: seq<string>, expense: seq<string>) {
    function List(tab: CategoryTab): seq<string> {
      match tab
      case IncomeTab => income
      case ExpenseTab => expense
    }

    function WithList(tab: CategoryTab, names: seq<string>): Categories {
      match tab
      case IncomeTab => this.(income := names)
      case ExpenseTab => this.(expense := names)
    }
  }

  /** The lists a fresh installation starts with. */
  const DefaultCategories := Categories(
    ["Salary", "Freelance", "Business", "Investment", "Other"],
    ["Food", "Transportation", "Utilities", "Entertainment", "Healthcare", "Other"])

  datatype AccountKind = Receivable | Payable

  /** A receivable or payable obligation with the part of it settled so far. */
  datatype Account = Account(
    id: int,
    date: Date,
    kind: AccountKind,
    party: string,
    amount: int,
    description: string,
    dueDate: Date,
    paidAmount: int)
  {
    /** What is still owed. */
    function Balance(): int {
      amount - paidAmount
    }
  }

  /** The warnings the application shows instead of changing its state. */
  datatype Alert =
    | MissingFields        // 'Please fill in all required fields'
    | InvalidPayment       // 'Invalid payment amount'
    | MissingCategoryName  // 'Please enter a category name'
    | CategoryExists       // 'Category already exists'
    | MissingDateRange     // 'Please select both from and to dates'
    | MissingReportRange   // 'Please select date range first in Profit & Loss section'
    | InvalidBackup        // 'Invalid backup file format'

  /** Everything the application keeps in its document store. */
  datatype Book = Book(entries: seq<Entry>, categories: Categories, accounts: seq<Account>)
}
