/** Receivables and payables (app.js `addAccount`, `recordPayment`,
    `deleteAccount`, `renderAccounts`, `updateAccountSummary`): obligations with
    the part of them settled so far. */
module AccountBook {
  import opened Wrappers
  import opened Seqs
  import opened Text
  import opened Dates
  import opened Records

  /** `addAccount`: appends an unpaid record with the trimmed party, unless the
      date or party is empty or the amount is zero. The account form always
      comes here, so saving an "edited" account appends a second record and
      leaves the first as it was. */
  function AddAccount(accounts: seq<Account>, id: int, date: Date, kind: AccountKind,
                      rawParty: string, amount: int, description: string, dueDate: Date)
    : (r: Result<seq<Account>, Alert>)
    ensures r.Err? <==> date == "" || Trim(rawParty) == "" || amount == 0
    ensures r.Err? ==> r.error == MissingFields
    ensures r.Ok? ==> |r.value| == |accounts| + 1 && r.value[..|accounts|] == accounts
    ensures r.Ok? ==>
      r.value[|accounts|] == Account(id, date, kind, Trim(rawParty), amount, description, dueDate, 0)
  {
    var party := Trim(rawParty);
    if date == "" || party == "" || amount == 0 then Err(MissingFields)
    else Ok(accounts + [Account(id, date, kind, party, amount, description, dueDate, 0)])
  }

  /** Position `i` holds the account `find` returns for the id. */
  predicate FirstAccount(accounts: seq<Account>, id: int, i: int) {
    0 <= i < |accounts| && accounts[i].id == id && forall j :: 0 <= j < i ==> accounts[j].id != id
  }

  function IdIs(id: int): Account -> bool {
    (a: Account) => a.id == id
  }

  /** `recordPayment`: rejected when the account is missing, the payment is
      not positive or it exceeds what is still owed; otherwise that account's
      paid amount grows by the payment and nothing else changes. */
  function RecordPayment(accounts: seq<Account>, id: int, payment: int)
    : (r: Result<seq<Account>, Alert>)
    ensures (forall i :: 0 <= i < |accounts| ==> accounts[i].id != id) ==> r.Err?
    ensures forall i :: FirstAccount(accounts, id, i) ==>
      (r.Ok? <==> 0 < payment <= accounts[i].amount - accounts[i].paidAmount)
    ensures r.Err? ==> r.error == InvalidPayment
    ensures r.Ok? ==> |r.value| == |accounts|
    ensures r.Ok? ==> forall i :: 0 <= i < |accounts| ==>
      r.value[i] == if FirstAccount(accounts, id, i)
                    then accounts[i].(paidAmount := accounts[i].paidAmount + payment)
                    else accounts[i]
  {
    match FirstIndex(accounts, IdIs(id))
    case None => Err(InvalidPayment)
    case Some(i) =>
      var a := accounts[i];
      if payment <= 0 || payment > a.amount - a.paidAmount then Err(InvalidPayment)
      else Ok(accounts[i := a.(paidAmount := a.paidAmount + payment)])
  }

  /** `deleteAccount`: once confirmed, every record with the id goes, whatever
      has been paid on it. */
  function DeleteAccount(accounts: seq<Account>, id: int, confirmed: bool): (r: seq<Account>)
    ensures !confirmed ==> r == accounts
    ensures confirmed ==> forall a :: a in r <==> a in accounts && a.id != id
    ensures confirmed ==> IsSelection(r, accounts, (a: Account) => a.id != id)
  {
    if confirmed then
      FilterIsSelection(accounts, (a: Account) => a.id != id);
      Filter(accounts, (a: Account) => a.id != id)
    else accounts
  }

  /** Deleting the account just added under a fresh id restores the list. */
  lemma DeleteAccountUndoesAdd(accounts: seq<Account>, id: int, date: Date, kind: AccountKind,
                               rawParty: string, amount: int, description: string, dueDate: Date)
    requires forall i :: 0 <= i < |accounts| ==> accounts[i].id != id
    requires AddAccount(accounts, id, date, kind, rawParty, amount, description, dueDate).Ok?
    ensures DeleteAccount(AddAccount(accounts, id, date, kind, rawParty, amount, description, dueDate).value,
                          id, true) == accounts
  {
    var a := Account(id, date, kind, Trim(rawParty), amount, description, dueDate, 0);
    var p := (x: Account) => x.id != id;
    FilterConcat(accounts, [a], p);
    FilterAll(accounts, p);
    assert Filter([a], p) == [];
  }

  /** The paid amount lies between nothing and the whole obligation. */
  predicate WithinBounds(a: Account) {
    0 <= a.paidAmount <= a.amount
  }

  /** A payment attempt: the account's id and the amount entered. */
  datatype Payment = Payment(accountId: int, amount: int)

  /** Applies payment attempts in order; a rejected one changes nothing. */
  function ApplyPayments(accounts: seq<Account>, payments: seq<Payment>): seq<Account>
    decreases |payments|
  {
    if |payments| == 0 then accounts
    else
      var p := payments[0];
      match RecordPayment(accounts, p.accountId, p.amount)
      case Ok(next) => ApplyPayments(next, payments[1..])
      case Err(_) => ApplyPayments(accounts, payments[1..])
  }

  /** Whatever payments are attempted, every account that starts with
      `0 <= paid <= amount` keeps it, paid amounts only grow, and no record is
      added, removed or otherwise changed. An account outside the bounds, such
      as one with a negative amount, simply takes no payment. */
  lemma {:induction false} PaymentsKeepBounds(accounts: seq<Account>, payments: seq<Payment>)
    ensures var after := ApplyPayments(accounts, payments);
      && |after| == |accounts|
      && (forall i :: 0 <= i < |after| ==> WithinBounds(accounts[i]) ==> WithinBounds(after[i]))
      && (forall i :: 0 <= i < |after| ==>
            after[i].paidAmount >= accounts[i].paidAmount
            && after[i] == accounts[i].(paidAmount := after[i].paidAmount))
    decreases |payments|
  {
    if |payments| > 0 {
      var p := payments[0];
      match RecordPayment(accounts, p.accountId, p.amount)
      case Ok(next) =>
        assert forall i :: 0 <= i < |next| ==> WithinBounds(accounts[i]) ==> WithinBounds(next[i]);
        PaymentsKeepBounds(next, payments[1..]);
      case Err(_) =>
        PaymentsKeepBounds(accounts, payments[1..]);
    }
  }

  /** Settling an account in full marks it Paid and closes it to any further
      payment (the worked example of a 500 obligation). */
  lemma FullPaymentClosesAccount(a: Account)
    requires a.amount == 500 && a.paidAmount == 0
    ensures var r := RecordPayment([a], a.id, 500);
      && r.Ok? && r.value[0].Balance() == 0 && DisplayStatus(r.value[0]) == Paid
      && RecordPayment(r.value, a.id, 1) == Err(InvalidPayment)
  {
    assert FirstAccount([a], a.id, 0);
    var r := RecordPayment([a], a.id, 500);
    assert FirstAccount(r.value, a.id, 0);
  }

  /** The status filter's options; the empty option shows every status. */
  datatype StatusFilter = AnyStatus | PendingOnly | PartialOnly | PaidOnly

  predicate MatchesStatus(a: Account, f: StatusFilter) {
    match f
    case AnyStatus => true
    case PendingOnly => a.paidAmount == 0
    case PartialOnly => 0 < a.paidAmount < a.amount
    case PaidOnly => a.paidAmount >= a.amount
  }

  /** The status shown in an account's row. */
  datatype Status = Pending | PartiallyPaid | Paid

  function DisplayStatus(a: Account): Status {
    if a.Balance() == 0 then Paid else if a.paidAmount == 0 then Pending else PartiallyPaid
  }

  function FilterFor(s: Status): StatusFilter {
    match s
    case Pending => PendingOnly
    case PartiallyPaid => PartialOnly
    case Paid => PaidOnly
  }

  /** For a positive obligation paid within bounds, an account passes exactly
      one status filter besides "all", and it is the one named by the status
      its row shows. */
  lemma StatusAgreesWithFilter(a: Account, f: StatusFilter)
    requires 0 < a.amount && WithinBounds(a)
    requires f != AnyStatus
    ensures MatchesStatus(a, f) <==> f == FilterFor(DisplayStatus(a))
  {
  }

  /** `renderAccounts`' row filter: the tab's type, the lower-cased query found
      in the party or the description, and the status filter. */
  predicate Listed(a: Account, kind: AccountKind, query: string, f: StatusFilter) {
    && a.kind == kind
    && (Includes(Lower(a.party), Lower(query)) || Includes(Lower(a.description), Lower(query)))
    && MatchesStatus(a, f)
  }

  function ListedIs(kind: AccountKind, query: string, f: StatusFilter): Account -> bool {
    (a: Account) => Listed(a, kind, query, f)
  }

  /** The rows of the accounts table, in the order of the list. */
  function FilterAccounts(accounts: seq<Account>, kind: AccountKind, query: string, f: StatusFilter)
    : (r: seq<Account>)
    ensures forall a :: a in r <==> a in accounts && Listed(a, kind, query, f)
    ensures IsSelection(r, accounts, ListedIs(kind, query, f))
  {
    FilterIsSelection(accounts, ListedIs(kind, query, f));
    Filter(accounts, ListedIs(kind, query, f))
  }

  /** The search is case-blind: a query lists the same rows as its lower-case
      form. */
  lemma QueryCaseIgnored(accounts: seq<Account>, kind: AccountKind, query: string, f: StatusFilter)
    ensures FilterAccounts(accounts, kind, Lower(query), f) == FilterAccounts(accounts, kind, query, f)
  {
    LowerIdempotent(query);
    FilterExt(accounts, ListedIs(kind, Lower(query), f), ListedIs(kind, query, f));
  }

  function KindIs(kind: AccountKind): Account -> bool {
    (a: Account) => a.kind == kind
  }

  /** With no query and no status filter the tab lists every account of its type. */
  lemma UnfilteredTabListsItsType(accounts: seq<Account>, kind: AccountKind)
    ensures FilterAccounts(accounts, kind, "", AnyStatus) == Filter(accounts, KindIs(kind))
  {
    forall i | 0 <= i < |accounts|
      ensures ListedIs(kind, "", AnyStatus)(accounts[i]) == (accounts[i].kind == kind)
    {
      EmptyQueryMatches(Lower(accounts[i].party));
    }
    FilterExt(accounts, ListedIs(kind, "", AnyStatus), KindIs(kind));
  }

  /** What is still owed over all accounts of one type. */
  function Outstanding(accounts: seq<Account>, kind: AccountKind): int {
    if |accounts| == 0 then 0
    else (if accounts[0].kind == kind then accounts[0].Balance() else 0) + Outstanding(accounts[1..], kind)
  }

  datatype AccountSummary = AccountSummary(receivables: int, payables: int, netPosition: int)

  /** `updateAccountSummary`: outstanding receivables and payables over all
      accounts, whatever the list currently shows. */
  function Summary(accounts: seq<Account>): (r: AccountSummary)
    ensures r.receivables == BalanceSum(Filter(accounts, KindIs(Receivable)))
    ensures r.payables == BalanceSum(Filter(accounts, KindIs(Payable)))
    ensures r.netPosition == r.receivables - r.payables
  {
    OutstandingIsBalanceOfKind(accounts, Receivable);
    OutstandingIsBalanceOfKind(accounts, Payable);
    var rec := Outstanding(accounts, Receivable);
    var pay := Outstanding(accounts, Payable);
    AccountSummary(rec, pay, rec - pay)
  }

  lemma {:induction false} OutstandingUpdate(accounts: seq<Account>, i: int, a: Account, kind: AccountKind)
    requires 0 <= i < |accounts|
    ensures Outstanding(accounts[i := a], kind) == Outstanding(accounts, kind)
      - (if accounts[i].kind == kind then accounts[i].Balance() else 0)
      + (if a.kind == kind then a.Balance() else 0)
  {
    if i > 0 {
      assert accounts[i := a][1..] == accounts[1..][i - 1 := a];
      OutstandingUpdate(accounts[1..], i - 1, a, kind);
    }
  }

  lemma {:induction false} OutstandingAppend(accounts: seq<Account>, a: Account, kind: AccountKind)
    ensures Outstanding(accounts + [a], kind) == Outstanding(accounts, kind)
      + (if a.kind == kind then a.Balance() else 0)
  {
    if |accounts| > 0 {
      assert (accounts + [a])[1..] == accounts[1..] + [a];
      OutstandingAppend(accounts[1..], a, kind);
    } else {
      assert ([a])[1..] == [];
    }
  }

  /** The balances of a list of accounts, added up. */
  function BalanceSum(accounts: seq<Account>): int {
    if |accounts| == 0 then 0 else accounts[0].Balance() + BalanceSum(accounts[1..])
  }

  lemma {:induction false} OutstandingIsBalanceOfKind(accounts: seq<Account>, kind: AccountKind)
    ensures Outstanding(accounts, kind) == BalanceSum(Filter(accounts, KindIs(kind)))
  {
    if |accounts| > 0 {
      OutstandingIsBalanceOfKind(accounts[1..], kind);
    }
  }

  /** The summary does not depend on the search or status filter: each figure
      is the total balance of the rows its tab lists unfiltered. */
  lemma SummaryIsUnfilteredTabs(accounts: seq<Account>)
    ensures Summary(accounts).receivables == BalanceSum(FilterAccounts(accounts, Receivable, "", AnyStatus))
    ensures Summary(accounts).payables == BalanceSum(FilterAccounts(accounts, Payable, "", AnyStatus))
  {
    UnfilteredTabListsItsType(accounts, Receivable);
    UnfilteredTabListsItsType(accounts, Payable);
    OutstandingIsBalanceOfKind(accounts, Receivable);
    OutstandingIsBalanceOfKind(accounts, Payable);
  }

  /** A recorded payment lowers its own type's outstanding total by exactly the
      payment and leaves the other type's total alone. */
  lemma PaymentLowersOutstanding(accounts: seq<Account>, id: int, payment: int, kind: AccountKind)
    requires RecordPayment(accounts, id, payment).Ok?
    ensures exists i ::
      && FirstAccount(accounts, id, i)
      && Outstanding(RecordPayment(accounts, id, payment).value, kind) ==
         Outstanding(accounts, kind) - (if accounts[i].kind == kind then payment else 0)
  {
    var i :| FirstAccount(accounts, id, i) by {
      var k := FirstIndex(accounts, IdIs(id));
      assert FirstAccount(accounts, id, k.value);
    }
    var a := accounts[i];
    assert RecordPayment(accounts, id, payment).value == accounts[i := a.(paidAmount := a.paidAmount + payment)];
    OutstandingUpdate(accounts, i, a.(paidAmount := a.paidAmount + payment), kind);
  }

  /** A new account raises its type's outstanding total by its amount. */
  lemma AddAccountRaisesOutstanding(accounts: seq<Account>, id: int, date: Date, kind: AccountKind,
                                    rawParty: string, amount: int, description: string,
                                    dueDate: Date, k: AccountKind)
    requires AddAccount(accounts, id, date, kind, rawParty, amount, description, dueDate).Ok?
    ensures Outstanding(AddAccount(accounts, id, date, kind, rawParty, amount, description, dueDate).value, k)
      == Outstanding(accounts, k) + (if kind == k then amount else 0)
  {
    OutstandingAppend(accounts, Account(id, date, kind, Trim(rawParty), amount, description, dueDate, 0), k);
  }
}
