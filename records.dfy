/**
 * The persisted entities (the SQLAlchemy models and pydantic schemas of the
 * backend) and the JSON bodies the pages send, with the JavaScript readings of
 * their nullable fields that the pages rely on.
 */
module Records {
  import opened Wrappers
  import opened Text
  import opened Dates

  /** A row of the transactions table, as the API returns it. `kind` is the
      `type` column ('income' or 'expense'). */
  datatype Transaction = Transaction(
    id: int,
    title: string,
    amount: real,
    kind: string,
    category: string,
    date: DateTime,
    isRecurring: bool,
    status: string,            // 'completed', 'unpaid' or 'autopay'
    dueDateStr: Option<string>,
    icon: string)

  /** The request schema for creating or replacing a transaction: every
      column but id and date, with the schema's defaults. */
  datatype TransactionCreate = TransactionCreate(
    title: string,
    amount: real,
    kind: string,
    category: string,
    isRecurring: bool,
    status: string,
    dueDateStr: Option<string>,
    icon: string)

  /** A row of the budgets table; category is unique. */
  datatype Budget = Budget(id: int, category: string, amount: real)

  /** The request schema and the body the budget page sends: exactly a
      category and an amount. */
  datatype BudgetCreate = BudgetCreate(category: string, amount: real)

  /** One entry of the budget-status response. */
  datatype BudgetStatus = BudgetStatus(category: string, limit: real, spent: real, percentage: int)

  /** A row of the debts table. `kind` is the `type` column ('loan' or
      'credit_card'); the three loan columns are nullable. */
  datatype Debt = Debt(
    id: int,
    kind: string,
    name: string,
    totalAmount: real,
    dueDateDay: int,
    monthlyPayment: Option<real>,
    totalInstallments: Option<int>,
    remainingInstallments: Option<int>,
    startDate: DateTime)

  /** The request schema for creating or replacing a debt. It has no
      start_date: a start date in the body is not read. */
  datatype DebtCreate = DebtCreate(
    kind: string,
    name: string,
    totalAmount: real,
    dueDateDay: int,
    monthlyPayment: Option<real>,
    totalInstallments: Option<int>,
    remainingInstallments: Option<int>)

  /** The JSON body the debt page sends. */
  datatype DebtPayload = DebtPayload(
    kind: string,
    name: string,
    totalAmount: real,
    monthlyPayment: Option<real>,
    totalInstallments: Option<int>,
    remainingInstallments: Option<int>,
    startDate: DateTime,
    dueDateDay: int)

  /** The JSON body the expense and income pages send; the income page sends
      no is_recurring. */
  datatype TransactionPayload = TransactionPayload(
    title: string,
    amount: real,
    category: string,
    isRecurring: Option<bool>,
    kind: string,
    date: DateTime)

  /** JavaScript's numeric reading of a nullable column: null counts as 0 in
      arithmetic and comparisons. */
  function Num(o: Option<int>): int
  {
    o.GetOr(0)
  }

  function NumReal(o: Option<real>): real
  {
    o.GetOr(0.0)
  }

  function Amount(t: Transaction): real
  {
    t.amount
  }

  /** An id as the pages hold it: a number from the API, or the "debt-{id}"
      string of a virtual item built from a debt. */
  datatype ItemId = RowId(n: int) | VirtualId(debtId: int)

  /** The id as a template literal renders it. */
  function ItemIdString(id: ItemId): (s: string)
    ensures id.VirtualId? <==> StartsWith(s, "debt-")
  {
    match id
    case RowId(n) => IntToString(n)
    case VirtualId(d) => "debt-" + IntToString(d)
  }

  /** JavaScript truthiness of a held id: null and the number 0 are falsy, a
      "debt-..." string never is. */
  predicate IsTruthy(id: Option<ItemId>)
  {
    id.Some? && (id.value.RowId? ==> id.value.n != 0)
  }

  predicate IsLoan(d: Debt)
  {
    d.kind == "loan"
  }

  /** The rule the dashboard and the expense ledger share: a loan whose
      remaining_installments is at most 0 (or null) owes nothing; every other
      debt, of any type, owes one payment this month. */
  predicate HasObligation(d: Debt)
  {
    !(IsLoan(d) && Num(d.remainingInstallments) <= 0)
  }
}
