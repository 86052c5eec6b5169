/**
 * The expense page: the URL loadExpenses fetches for the selected filter
 * chip, the ledger it shows (the fetched expenses and one virtual item per
 * owing debt, newest first, optionally only the recurring and virtual ones),
 * the chip state, and the body its form submits.
 */
module Expenses {
  import opened Wrappers
  import opened Text
  import opened Dates
  import opened Records
  import opened Seqs

  const BaseUrl: string := "/api/transactions?type=expense&limit=100"

  /** The chip that filters on the client instead of the server. */
  const RecurringChip: string := "Tekrarlanan"

  const DebtCategory: string := "Borç/Kredi"

  /** The category goes to the server only when a chip other than
      'Tekrarlanan' is selected (the empty string is falsy). */
  function TransactionsUrl(category: string): (url: string)
    ensures StartsWith(url, BaseUrl)
    ensures category != "" && category != RecurringChip ==> url == BaseUrl + "&category=" + category
    ensures category == "" || category == RecurringChip ==> url == BaseUrl
  {
    if category != "" && category != RecurringChip then
      assert (BaseUrl + "&category=" + category)[..|BaseUrl|] == BaseUrl;
      BaseUrl + "&category=" + category
    else
      assert BaseUrl[..|BaseUrl|] == BaseUrl;
      BaseUrl
  }

  /** An entry of the ledger: a fetched transaction, or the transaction-like
      object built from a debt (its is_virtual flag is this case). */
  datatype LedgerItem =
    | Recorded(txn: Transaction)
    | DebtItem(id: ItemId, title: string, amount: real, category: string, date: DateTime, icon: string)

  function ItemDate(item: LedgerItem): DateTime
  {
    match item
    case Recorded(t) => t.date
    case DebtItem(_, _, _, _, date, _) => date
  }

  /** What the comparator `new Date(b.date) - new Date(a.date)` compares. */
  function DateKey(item: LedgerItem): int
  {
    Instant(ItemDate(item))
  }

  /** `item.is_recurring || item.is_virtual`: a transaction has no
      is_virtual, a virtual item no is_recurring. */
  predicate RecurringOrVirtual(item: LedgerItem)
  {
    match item
    case Recorded(t) => t.isRecurring
    case DebtItem(_, _, _, _, _, _) => true
  }

  /** The item a debt becomes once it is known to owe this month, dated now. */
  function DebtItemOf(debt: Debt, now: DateTime): LedgerItem
  {
    var loan := IsLoan(debt);
    DebtItem(VirtualId(debt.id),
             debt.name + (if loan then " (Taksit)" else " (Ekstre)"),
             if loan then NumReal(debt.monthlyPayment) else debt.totalAmount,
             DebtCategory,
             now,
             if loan then "real_estate_agent" else "credit_card")
  }

  /** The callback of `debts.map`: null for a loan with no installment
      remaining. */
  function DebtEntry(debt: Debt, now: DateTime): (r: Option<LedgerItem>)
    ensures r.Some? <==> HasObligation(debt)
  {
    if IsLoan(debt) && Num(debt.remainingInstallments) <= 0 then None
    else Some(DebtItemOf(debt, now))
  }

  /** `[...transactions, ...debtTransactions]`, before sorting. */
  function AllItems(txns: seq<Transaction>, debts: seq<Debt>, now: DateTime): seq<LedgerItem>
  {
    Map(txns, (t: Transaction) => Recorded(t)) + FilterSome(Map(debts, (d: Debt) => DebtEntry(d, now)))
  }

  /** The list shown: sorted newest first, then, under 'Tekrarlanan', only
      the recurring and virtual items. */
  function Ledger(txns: seq<Transaction>, debts: seq<Debt>, now: DateTime, category: string): seq<LedgerItem>
  {
    var sorted := SortDesc(AllItems(txns, debts, now), DateKey);
    if category == RecurringChip then Filter(sorted, RecurringOrVirtual) else sorted
  }

  /** Before sorting, the items are the transactions in order, then one
      virtual item for each owing debt, in the debts' order. */
  lemma AllItemsLayout(txns: seq<Transaction>, debts: seq<Debt>, now: DateTime)
    ensures AllItems(txns, debts, now)
         == Map(txns, (t: Transaction) => Recorded(t))
          + Map(Filter(debts, HasObligation), (d: Debt) => DebtItemOf(d, now))
  {
    FilterSomeMap(debts, (d: Debt) => DebtEntry(d, now), HasObligation, (d: Debt) => DebtItemOf(d, now));
  }

  /** A virtual item names its debt, is filed under 'Borç/Kredi', is dated
      now and carries the monthly payment of a loan and the total of
      anything else. */
  lemma DebtItemFields(debt: Debt, now: DateTime)
    ensures var item := DebtItemOf(debt, now);
      && item.DebtItem? && item.id == VirtualId(debt.id) && StartsWith(ItemIdString(item.id), "debt-")
      && item.category == DebtCategory && item.date == now && RecurringOrVirtual(item)
      && item.amount == (if IsLoan(debt) then NumReal(debt.monthlyPayment) else debt.totalAmount)
  {
  }

  /** Without 'Tekrarlanan' the ledger is the merged list rearranged newest
      first, items of the same date keeping their order; with it, it keeps
      exactly the recurring and virtual items of that list, still newest
      first and still in order within a date. */
  lemma LedgerSpec(txns: seq<Transaction>, debts: seq<Debt>, now: DateTime, category: string)
    ensures var all := AllItems(txns, debts, now);
      var shown := Ledger(txns, debts, now, category);
      && SortedDesc(shown, DateKey)
      && (category != RecurringChip ==>
            && multiset(shown) == multiset(all)
            && forall k :: WithKey(shown, DateKey, k) == WithKey(all, DateKey, k))
      && (category == RecurringChip ==>
            && (forall x :: multiset(shown)[x] == if RecurringOrVirtual(x) then multiset(all)[x] else 0)
            && forall k :: WithKey(shown, DateKey, k) == Filter(WithKey(all, DateKey, k), RecurringOrVirtual))
  {
    var all := AllItems(txns, debts, now);
    var sorted := SortDesc(all, DateKey);
    SortDescCorrect(all, DateKey);
    if category == RecurringChip {
      FilterSortedDesc(sorted, DateKey, RecurringOrVirtual);
      forall x ensures multiset(Filter(sorted, RecurringOrVirtual))[x]
                    == if RecurringOrVirtual(x) then multiset(all)[x] else 0 {
        FilterMultiset(sorted, RecurringOrVirtual, x);
      }
      forall k ensures WithKey(Filter(sorted, RecurringOrVirtual), DateKey, k)
                    == Filter(WithKey(all, DateKey, k), RecurringOrVirtual) {
        WithKeyFilter(sorted, DateKey, k, RecurringOrVirtual);
      }
    }
  }

  // ---------------------------------------------------------------- page state

  /** The filter chips: `let currentCategory = ''`, set by a click. */
  class ChipFilter {
    var currentCategory: string

    constructor ()
      ensures currentCategory == ""
    {
      currentCategory := "";
    }

    /** A click on a chip selects its data-category. */
    method Select(category: string)
      modifies this
      ensures currentCategory == category
    {
      currentCategory := category;
    }

    /** What loadExpenses fetches for the selected chip. */
    function Url(): (url: string)
      reads this
      ensures currentCategory == RecurringChip ==> url == BaseUrl
    {
      TransactionsUrl(currentCategory)
    }
  }

  // ---------------------------------------------------------------- the form

  /** The expense form as handleFormSubmit reads it, already parsed. */
  datatype ExpenseForm = ExpenseForm(title: string, amount: real, category: string, recurringChecked: bool)

  /** The body the expense form submits: always an expense, with the
      recurring box's state and the submission time. */
  function ExpensePayload(form: ExpenseForm, now: DateTime): (p: TransactionPayload)
    ensures p.kind == "expense" && p.isRecurring == Some(form.recurringChecked) && p.date == now
    ensures p.title == form.title && p.amount == form.amount && p.category == form.category
  {
    TransactionPayload(form.title, form.amount, form.category, Some(form.recurringChecked), "expense", now)
  }
}
