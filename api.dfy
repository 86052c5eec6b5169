/**
 * The backend's endpoints over its three tables: the dashboard totals and
 * category percentages, the recurring bills, the filtered and paged
 * transaction query, the budget statuses of the current month, the budget
 * upsert, and the creates, field-replacing updates and deletes of
 * transactions and debts, with the 404 each raises for a missing id; and the
 * start-up seed.
 */
module Api {
  import opened Wrappers
  import opened Text
  import opened Dates
  import opened Records
  import opened Seqs

  /** An endpoint's outcome: its value, or the HTTPException it raises. */
  datatype Outcome<+T> = Done(value: T) | Raised(status: int, detail: string)

  /** Python's int() on a float: truncation toward zero. */
  function Trunc(x: real): (n: int)
    ensures x >= 0.0 ==> n >= 0 && n as real <= x < n as real + 1.0
    ensures x < 0.0 ==> n <= 0 && n as real - 1.0 < x <= n as real
  {
    if x >= 0.0 then x.Floor else -((-x).Floor)
  }

  // ---------------------------------------------------------------- dashboard

  function OfKind(txns: seq<Transaction>, kind: string): seq<Transaction>
  {
    Filter(txns, (t: Transaction) => t.kind == kind)
  }

  /** `sum(t.amount for t in rows)`. */
  function Total(rows: seq<Transaction>): real
  {
    SumOf(rows, Amount)
  }

  function InCategory(rows: seq<Transaction>, category: string): seq<Transaction>
  {
    Filter(rows, (t: Transaction) => t.category == category)
  }

  const ChartCategories: seq<string> := ["Mutfak", "Sağlık", "Ulaşım", "Diğer"]

  /** A category's whole percentage of the expense total, 0 when there is no
      positive total. */
  function ChartValue(categoryTotal: real, totalExpense: real): int
  {
    if totalExpense > 0.0 then Trunc(categoryTotal / totalExpense * 100.0) else 0
  }

  /** chart_data, in the insertion order of its keys. */
  function ChartEntries(expense: seq<Transaction>, totalExpense: real): (r: seq<(string, int)>)
    ensures |r| == |ChartCategories|
  {
    seq(|ChartCategories|, i requires 0 <= i < |ChartCategories| =>
      (ChartCategories[i], ChartValue(Total(InCategory(expense, ChartCategories[i])), totalExpense)))
  }

  datatype DashboardStats = DashboardStats(totalIncome: real, totalExpense: real, totalBalance: real,
                                           chartData: seq<(string, int)>)

  /** The chart loop: one entry per category, in order. */
  method ChartData(expense: seq<Transaction>, totalExpense: real) returns (chart: seq<(string, int)>)
    ensures chart == ChartEntries(expense, totalExpense)
  {
    chart := [];
    var i := 0;
    while i < |ChartCategories|
      invariant 0 <= i <= |ChartCategories|
      invariant chart == ChartEntries(expense, totalExpense)[..i]
    {
      var category := ChartCategories[i];
      var categoryTotal := Total(InCategory(expense, category));
      if totalExpense > 0.0 {
        chart := chart + [(category, Trunc(categoryTotal / totalExpense * 100.0))];
      } else {
        chart := chart + [(category, 0)];
      }
      i := i + 1;
    }
  }

  /** A row adds its amount to its own category's total and nothing to any
      other. */
  lemma CategoryCons(t: Transaction, rest: seq<Transaction>, category: string)
    ensures Total(InCategory([t] + rest, category))
         == (if t.category == category then t.amount else 0.0) + Total(InCategory(rest, category))
  {
    assert ([t] + rest)[1..] == rest;
    assert ([t] + rest)[0] == t;
    if t.category == category {
      assert InCategory([t] + rest, category) == [t] + InCategory(rest, category);
      SumOfCons(t, InCategory(rest, category), Amount);
    } else {
      assert InCategory([t] + rest, category) == InCategory(rest, category);
    }
  }

  function ChartShare(rows: seq<Transaction>, k: nat): real
    requires k < |ChartCategories|
  {
    Total(InCategory(rows, ChartCategories[k]))
  }

  /** The category totals of non-negative amounts share out at most the
      whole total, a row counting toward at most one category. */
  lemma {:induction false} CategoriesWithinTotal(rows: seq<Transaction>)
    requires forall t :: t in rows ==> t.amount >= 0.0
    ensures ChartShare(rows, 0) >= 0.0 && ChartShare(rows, 1) >= 0.0
    ensures ChartShare(rows, 2) >= 0.0 && ChartShare(rows, 3) >= 0.0
    ensures ChartShare(rows, 0) + ChartShare(rows, 1) + ChartShare(rows, 2) + ChartShare(rows, 3) <= Total(rows)
  {
    if rows != [] {
      var t := rows[0];
      var rest := rows[1..];
      assert rows == [t] + rest;
      CategoriesWithinTotal(rest);
      SumOfCons(t, rest, Amount);
      CategoryCons(t, rest, ChartCategories[0]);
      CategoryCons(t, rest, ChartCategories[1]);
      CategoryCons(t, rest, ChartCategories[2]);
      CategoryCons(t, rest, ChartCategories[3]);
      DistinctCategories();
    }
  }

  lemma DistinctCategories()
    ensures forall i, j :: 0 <= i < j < |ChartCategories| ==> ChartCategories[i] != ChartCategories[j]
  {
    assert ChartCategories[0][0] == 'M' && ChartCategories[1][0] == 'S';
    assert ChartCategories[2][0] == 'U' && ChartCategories[3][0] == 'D';
  }

  /** With non-negative amounts every chart value is a percentage and the
      four of them add up to at most 100. */
  lemma ChartBounds(txns: seq<Transaction>)
    requires forall t :: t in txns ==> t.amount >= 0.0
    ensures var expense := OfKind(txns, "expense");
      var chart := ChartEntries(expense, Total(expense));
      && (forall i :: 0 <= i < |chart| ==> 0 <= chart[i].1 <= 100)
      && chart[0].1 + chart[1].1 + chart[2].1 + chart[3].1 <= 100
  {
    var expense := OfKind(txns, "expense");
    var total := Total(expense);
    CategoriesWithinTotal(expense);
    var chart := ChartEntries(expense, total);
    forall i | 0 <= i < |chart|
      ensures chart[i].1 == ChartValue(ChartShare(expense, i), total)
    {
    }
    ValuesWithinHundred(ChartShare(expense, 0), ChartShare(expense, 1),
                        ChartShare(expense, 2), ChartShare(expense, 3), total);
  }

  /** Four non-negative parts of a total give four percentages adding up to
      at most 100. */
  lemma ValuesWithinHundred(a: real, b: real, c: real, d: real, total: real)
    requires a >= 0.0 && b >= 0.0 && c >= 0.0 && d >= 0.0 && a + b + c + d <= total
    ensures 0 <= ChartValue(a, total) <= 100 && 0 <= ChartValue(b, total) <= 100
    ensures 0 <= ChartValue(c, total) <= 100 && 0 <= ChartValue(d, total) <= 100
    ensures ChartValue(a, total) + ChartValue(b, total) + ChartValue(c, total) + ChartValue(d, total) <= 100
  {
    if total > 0.0 {
      ShareBounds(a, total);
      ShareBounds(b, total);
      ShareBounds(c, total);
      ShareBounds(d, total);
      SharesSum(a, b, c, d, total);
    }
  }

  lemma SharesSum(a: real, b: real, c: real, d: real, total: real)
    requires total > 0.0 && a + b + c + d <= total
    ensures a / total * 100.0 + b / total * 100.0 + c / total * 100.0 + d / total * 100.0 <= 100.0
  {
    assert a / total * 100.0 + b / total * 100.0 + c / total * 100.0 + d / total * 100.0
        == (a + b + c + d) / total * 100.0;
    assert (a + b + c + d) / total <= 1.0;
  }

  lemma ShareBounds(part: real, total: real)
    requires 0.0 <= part <= total && total > 0.0
    ensures 0 <= ChartValue(part, total) <= 100
    ensures ChartValue(part, total) as real <= part / total * 100.0
  {
    assert part / total <= 1.0;
  }

  /** get_dashboard_stats. */
  method DashboardStatsOf(txns: seq<Transaction>) returns (stats: DashboardStats)
    ensures stats.totalIncome == Total(OfKind(txns, "income"))
    ensures stats.totalExpense == Total(OfKind(txns, "expense"))
    ensures stats.totalBalance == stats.totalIncome - stats.totalExpense
    ensures stats.chartData == ChartEntries(OfKind(txns, "expense"), stats.totalExpense)
  {
    var income := OfKind(txns, "income");
    var expense := OfKind(txns, "expense");
    var totalIncome := Total(income);
    var totalExpense := Total(expense);
    var chart := ChartData(expense, totalExpense);
    stats := DashboardStats(totalIncome, totalExpense, totalIncome - totalExpense, chart);
  }

  predicate IsBill(t: Transaction)
  {
    t.isRecurring
  }

  /** get_bills: the recurring transactions, in table order. */
  function Bills(txns: seq<Transaction>): (r: seq<Transaction>)
    ensures forall t :: t in r ==> t in txns && t.isRecurring
    ensures forall t :: multiset(r)[t] == if t.isRecurring then multiset(txns)[t] else 0
  {
    var r := Filter(txns, IsBill);
    assert forall t :: multiset(r)[t] == if t.isRecurring then multiset(txns)[t] else 0 by {
      forall t
        ensures multiset(r)[t] == if t.isRecurring then multiset(txns)[t] else 0
      {
        FilterMultiset(txns, IsBill, t);
      }
    }
    r
  }

  // ---------------------------------------------------------------- transaction query

  /** `if type:` on an optional string: None and "" are falsy. */
  predicate IsSet(o: Option<string>)
  {
    o.Some? && o.value != ""
  }

  /** What the optional type and category filters let through. */
  predicate Matches(t: Transaction, kind: Option<string>, category: Option<string>)
  {
    (IsSet(kind) ==> t.kind == kind.value) && (IsSet(category) ==> t.category == category.value)
  }

  function DateKey(t: Transaction): int
  {
    Instant(t.date)
  }

  /** `query.filter(Transaction.type == type)` when the type is set. */
  function ByKind(q: seq<Transaction>, kind: Option<string>): seq<Transaction>
  {
    if IsSet(kind) then Filter(q, (t: Transaction) => t.kind == kind.value) else q
  }

  /** `query.filter(Transaction.category == category)` when it is set. */
  function ByCategory(q: seq<Transaction>, category: Option<string>): seq<Transaction>
  {
    if IsSet(category) then Filter(q, (t: Transaction) => t.category == category.value) else q
  }

  /** get_transactions: filter, ORDER BY date DESC, OFFSET skip, LIMIT limit. */
  function QueryTransactions(txns: seq<Transaction>, kind: Option<string>, category: Option<string>,
                             limit: nat, skip: nat): seq<Transaction>
  {
    Take(Drop(SortDesc(ByCategory(ByKind(txns, kind), category), DateKey), skip), limit)
  }

  /** The rows that survive the filters, in table order. */
  function Matching(txns: seq<Transaction>, kind: Option<string>, category: Option<string>): seq<Transaction>
  {
    Filter(txns, (t: Transaction) => Matches(t, kind, category))
  }

  /** The two filters in a row select exactly the matching rows, in table
      order. */
  lemma FilteredRows(txns: seq<Transaction>, kind: Option<string>, category: Option<string>)
    ensures ByCategory(ByKind(txns, kind), category) == Matching(txns, kind, category)
  {
    var pm := (t: Transaction) => Matches(t, kind, category);
    if IsSet(kind) && IsSet(category) {
      FilterFilter(txns, (t: Transaction) => t.kind == kind.value,
                   (t: Transaction) => t.category == category.value, pm);
    } else if IsSet(kind) {
      FilterExt(txns, (t: Transaction) => t.kind == kind.value, pm);
    } else if IsSet(category) {
      FilterExt(txns, (t: Transaction) => t.category == category.value, pm);
    } else {
      FilterAll(txns, pm);
    }
  }

  /** The page holds only matching rows of the table, newest first, at most
      limit of them; it is as long as what is left of the matching rows after
      skipping skip of them allows; and with no skip and a limit that covers
      them all, it is every matching row. */
  lemma QuerySpec(txns: seq<Transaction>, kind: Option<string>, category: Option<string>, limit: nat, skip: nat)
    ensures var r := QueryTransactions(txns, kind, category, limit, skip);
      var m := Matching(txns, kind, category);
      && (forall t :: t in r ==> t in txns && Matches(t, kind, category))
      && SortedDesc(r, DateKey)
      && |r| == (if |m| <= skip then 0 else if |m| - skip <= limit then |m| - skip else limit)
      && r == Take(Drop(SortDesc(m, DateKey), skip), limit)
      && (skip == 0 && |m| <= limit ==> multiset(r) == multiset(m))
  {
    var m := Matching(txns, kind, category);
    FilteredRows(txns, kind, category);
    var sorted := SortDesc(m, DateKey);
    SortDescCorrect(m, DateKey);
    assert |sorted| == |m| by {
      assert |multiset(sorted)| == |multiset(m)|;
    }
    PageWithin(sorted, m, skip, limit);
    SortedDescPrefixSuffix(sorted, skip, limit);
    if skip == 0 && |m| <= limit {
      assert Take(Drop(sorted, skip), limit) == sorted;
    }
  }

  /** A page of a rearrangement of m holds only elements of m. */
  lemma PageWithin<T>(sorted: seq<T>, m: seq<T>, skip: nat, limit: nat)
    requires multiset(sorted) == multiset(m)
    ensures forall x :: x in Take(Drop(sorted, skip), limit) ==> x in m
  {
    forall x | x in Take(Drop(sorted, skip), limit)
      ensures x in m
    {
      var r := Take(Drop(sorted, skip), limit);
      var i :| 0 <= i < |r| && r[i] == x;
      assert x == sorted[skip + i];
      assert x in multiset(sorted);
    }
  }

  /** Offset and limit keep a sorted sequence sorted. */
  lemma SortedDescPrefixSuffix(s: seq<Transaction>, skip: nat, limit: nat)
    requires SortedDesc(s, DateKey)
    ensures SortedDesc(Take(Drop(s, skip), limit), DateKey)
  {
    var r := Take(Drop(s, skip), limit);
    forall i, j | 0 <= i < j < |r| ensures DateKey(r[i]) >= DateKey(r[j]) {
      SortedDescPairwise(s, DateKey, skip + i, skip + j);
    }
    PairwiseSortedDesc(r, DateKey);
  }

  lemma {:induction false} PairwiseSortedDesc<T>(s: seq<T>, key: T -> int)
    requires forall i, j :: 0 <= i < j < |s| ==> key(s[i]) >= key(s[j])
    ensures SortedDesc(s, key)
  {
    if |s| > 1 {
      assert key(s[0]) >= key(s[1]);
      PairwiseSortedDesc(s[1..], key);
    }
  }

  // ---------------------------------------------------------------- budget status

  /** An expense of the category dated at or after the first of now's month. */
  predicate CountsToward(t: Transaction, category: string, now: Date)
  {
    t.kind == "expense" && t.category == category && Instant(t.date) >= Instant(StartOfMonth(now))
  }

  function SpentThisMonth(txns: seq<Transaction>, category: string, now: Date): real
  {
    Total(Filter(txns, (t: Transaction) => CountsToward(t, category, now)))
  }

  /** `int((spent / amount) * 100) if amount > 0 else 100`. */
  function Percent(spent: real, amount: real): int
  {
    if amount > 0.0 then Trunc(spent / amount * 100.0) else 100
  }

  function StatusOf(budget: Budget, txns: seq<Transaction>, now: Date): BudgetStatus
  {
    var spent := SpentThisMonth(txns, budget.category, now);
    BudgetStatus(budget.category, budget.amount, spent, Percent(spent, budget.amount))
  }

  /** A dated expense counts when it falls in now's month or a later one. */
  lemma CountsTowardMonth(t: Transaction, category: string, now: Date)
    requires ValidDateTime(t.date)
    ensures CountsToward(t, category, now)
        <==> t.kind == "expense" && t.category == category
             && MonthNumber(t.date.date.year, t.date.date.month) >= MonthNumber(now.year, now.month)
  {
    AtOrAfterStartOfMonth(t.date, now);
  }

  /** A budget with no positive limit reads as fully used; otherwise the
      percentage is the whole part of the share spent, reaching 100 exactly
      when the spending reaches the limit. */
  lemma PercentSpec(spent: real, amount: real)
    ensures amount <= 0.0 ==> Percent(spent, amount) == 100
    ensures amount > 0.0 ==> (Percent(spent, amount) >= 100 <==> spent >= amount)
    ensures amount > 0.0 && spent >= 0.0 ==>
      0 <= Percent(spent, amount) && Percent(spent, amount) as real <= spent / amount * 100.0
  {
    if amount > 0.0 {
      var x := spent / amount * 100.0;
      if spent >= amount {
        assert spent / amount >= 1.0;
      } else {
        assert spent / amount < 1.0;
      }
    }
  }

  /** The status loop: one entry per budget, in order. */
  method BudgetStatuses(budgets: seq<Budget>, txns: seq<Transaction>, now: Date) returns (statusList: seq<BudgetStatus>)
    ensures |statusList| == |budgets|
    ensures forall i :: 0 <= i < |budgets| ==> statusList[i] == StatusOf(budgets[i], txns, now)
  {
    statusList := [];
    var i := 0;
    while i < |budgets|
      invariant 0 <= i <= |budgets|
      invariant |statusList| == i
      invariant forall k :: 0 <= k < i ==> statusList[k] == StatusOf(budgets[k], txns, now)
    {
      var budget := budgets[i];
      var totalSpent := SpentThisMonth(txns, budget.category, now);
      var percent := if budget.amount > 0.0 then Trunc(totalSpent / budget.amount * 100.0) else 100;
      statusList := statusList + [BudgetStatus(budget.category, budget.amount, totalSpent, percent)];
      i := i + 1;
    }
  }

  // ---------------------------------------------------------------- budget upsert

  predicate UniqueCategories(budgets: seq<Budget>)
  {
    forall i, j :: 0 <= i < j < |budgets| ==> budgets[i].category != budgets[j].category
  }

  /** The first budget of the category gets the new amount; without one, a
      new row with the given id is appended. */
  function UpsertBudget(budgets: seq<Budget>, b: BudgetCreate, newId: int): seq<Budget>
  {
    match FirstIndex(budgets, (x: Budget) => x.category == b.category)
    case Some(i) => budgets[i := budgets[i].(amount := b.amount)]
    case None => budgets + [Budget(newId, b.category, b.amount)]
  }

  /** Afterwards exactly one budget has the category, with the new amount;
      every other budget is untouched; ids are kept. */
  lemma UpsertBudgetSpec(budgets: seq<Budget>, b: BudgetCreate, newId: int)
    requires UniqueCategories(budgets)
    ensures var r := UpsertBudget(budgets, b, newId);
      && UniqueCategories(r)
      && (exists i :: 0 <= i < |r| && r[i].category == b.category && r[i].amount == b.amount)
      && (forall x :: x in budgets && x.category != b.category ==> x in r)
      && (forall x :: x in r && x.category != b.category ==> x in budgets)
      && (forall x :: x in budgets ==> exists y :: y in r && y.id == x.id)
  {
    var r := UpsertBudget(budgets, b, newId);
    match FirstIndex(budgets, (x: Budget) => x.category == b.category)
    case Some(i) =>
      assert r[i].category == b.category;
      forall x | x in budgets ensures exists y :: y in r && y.id == x.id {
        var k :| 0 <= k < |budgets| && budgets[k] == x;
        assert r[k].id == x.id;
      }
      forall x | x in budgets && x.category != b.category ensures x in r {
        var k :| 0 <= k < |budgets| && budgets[k] == x;
        assert r[k] == x;
      }
      forall x | x in r && x.category != b.category ensures x in budgets {
        var k :| 0 <= k < |r| && r[k] == x;
        assert budgets[k] == x;
      }
    case None =>
      assert r[|budgets|].category == b.category;
      forall x | x in budgets ensures exists y :: y in r && y.id == x.id {
        assert x in r;
      }
  }

  // ---------------------------------------------------------------- record updates

  /** The schema fields of a stored transaction. */
  function TransactionSchema(row: Transaction): TransactionCreate
  {
    TransactionCreate(row.title, row.amount, row.kind, row.category, row.isRecurring, row.status,
                      row.dueDateStr, row.icon)
  }

  /** `setattr(row, key, value)` for every schema field. */
  function ApplyTransaction(row: Transaction, c: TransactionCreate): Transaction
  {
    row.(title := c.title, amount := c.amount, kind := c.kind, category := c.category,
         isRecurring := c.isRecurring, status := c.status, dueDateStr := c.dueDateStr, icon := c.icon)
  }

  /** An update leaves exactly the submitted schema and keeps id and date. */
  lemma ApplyTransactionSpec(row: Transaction, c: TransactionCreate)
    ensures var r := ApplyTransaction(row, c);
      TransactionSchema(r) == c && r.id == row.id && r.date == row.date
  {
  }

  function DebtSchema(row: Debt): DebtCreate
  {
    DebtCreate(row.kind, row.name, row.totalAmount, row.dueDateDay, row.monthlyPayment,
               row.totalInstallments, row.remainingInstallments)
  }

  function ApplyDebt(row: Debt, c: DebtCreate): Debt
  {
    row.(kind := c.kind, name := c.name, totalAmount := c.totalAmount, dueDateDay := c.dueDateDay,
         monthlyPayment := c.monthlyPayment, totalInstallments := c.totalInstallments,
         remainingInstallments := c.remainingInstallments)
  }

  /** An update leaves exactly the submitted schema and keeps id and
      start_date. */
  lemma ApplyDebtSpec(row: Debt, c: DebtCreate)
    ensures var r := ApplyDebt(row, c);
      DebtSchema(r) == c && r.id == row.id && r.startDate == row.startDate
  {
  }

  /** The request body as the TransactionCreate schema parses it: the date is
      not a schema field, and absent fields take their defaults. */
  function TransactionCreateOf(p: TransactionPayload): (c: TransactionCreate)
    ensures c.title == p.title && c.amount == p.amount && c.kind == p.kind && c.category == p.category
    ensures c.isRecurring == (p.isRecurring == Some(true))
    ensures c.status == "completed" && c.dueDateStr.None? && c.icon == "payments"
  {
    TransactionCreate(p.title, p.amount, p.kind, p.category, p.isRecurring.GetOr(false), "completed", None, "payments")
  }

  /** The request body as the DebtCreate schema parses it: start_date is not
      a schema field. */
  function DebtCreateOf(p: DebtPayload): (c: DebtCreate)
    ensures c.kind == p.kind && c.name == p.name && c.totalAmount == p.totalAmount && c.dueDateDay == p.dueDateDay
    ensures c.monthlyPayment == p.monthlyPayment && c.totalInstallments == p.totalInstallments
    ensures c.remainingInstallments == p.remainingInstallments
  {
    DebtCreate(p.kind, p.name, p.totalAmount, p.dueDateDay, p.monthlyPayment, p.totalInstallments, p.remainingInstallments)
  }

  /** Saving a bill from the expense form resets what the form does not
      send: it comes back 'completed', with the default icon and no due-date
      text, whatever it was. */
  lemma EditResetsBillFields(row: Transaction, p: TransactionPayload)
    ensures var r := ApplyTransaction(row, TransactionCreateOf(p));
      r.status == "completed" && r.icon == "payments" && r.dueDateStr.None? && r.id == row.id
  {
  }

  /** Saving a debt never moves its start date, whatever the body says. */
  lemma EditKeepsStartDate(row: Debt, p: DebtPayload)
    ensures ApplyDebt(row, DebtCreateOf(p)).startDate == row.startDate
  {
  }

  // ---------------------------------------------------------------- ids

  function MaxId(ids: seq<int>): (m: int)
    ensures m >= 0
    ensures forall i :: 0 <= i < |ids| ==> ids[i] <= m
  {
    if ids == [] then 0
    else
      var rest := MaxId(ids[..|ids| - 1]);
      if ids[|ids| - 1] > rest then ids[|ids| - 1] else rest
  }

  /** The id an INTEGER PRIMARY KEY gives a new row: one more than the
      largest. */
  function NextId(ids: seq<int>): (n: int)
    ensures n >= 1 && forall i :: 0 <= i < |ids| ==> ids[i] < n
  {
    MaxId(ids) + 1
  }

  function TransactionIds(txns: seq<Transaction>): seq<int>
  {
    Map(txns, (t: Transaction) => t.id)
  }

  function DebtIds(debts: seq<Debt>): seq<int>
  {
    Map(debts, (d: Debt) => d.id)
  }

  function BudgetIds(budgets: seq<Budget>): seq<int>
  {
    Map(budgets, (b: Budget) => b.id)
  }

  predicate UniqueIds(ids: seq<int>)
  {
    forall i, j :: 0 <= i < j < |ids| ==> ids[i] != ids[j]
  }

  /** The row `models.Transaction(**c.dict())` becomes once inserted. */
  function NewTransaction(id: int, c: TransactionCreate, now: DateTime): Transaction
  {
    Transaction(id, c.title, c.amount, c.kind, c.category, now, c.isRecurring, c.status, c.dueDateStr, c.icon)
  }

  function NewDebt(id: int, c: DebtCreate, now: DateTime): Debt
  {
    Debt(id, c.kind, c.name, c.totalAmount, c.dueDateDay, c.monthlyPayment, c.totalInstallments,
         c.remainingInstallments, now)
  }

  // ---------------------------------------------------------------- seed

  /** `models.Transaction(title=..., amount=..., type=..., category=..., icon=...)`
      with the column defaults for what is not given. */
  function SeedRow(title: string, amount: real, kind: string, category: string, icon: string): TransactionCreate
  {
    TransactionCreate(title, amount, kind, category, false, "completed", None, icon)
  }

  function SeedBill(title: string, amount: real, status: string, due: string, icon: string): TransactionCreate
  {
    TransactionCreate(title, amount, "expense", "Fatura", true, status, Some(due), icon)
  }

  const SeedTransactions: seq<TransactionCreate> := [
    SeedRow("Maaş", 12500.0, "income", "Maaş", "account_balance_wallet"),
    SeedRow("Market Alışverişi", 3300.0, "expense", "Mutfak", "shopping_cart"),
    SeedRow("İlaç Alımı", 2062.5, "expense", "Sağlık", "medication"),
    SeedRow("Aylık Akbil", 1650.0, "expense", "Ulaşım", "directions_bus"),
    SeedRow("Diğer Harcamalar", 1237.5, "expense", "Diğer", "receipt"),
    SeedBill("Elektrik Faturası", 450.0, "unpaid", "26 Ekim", "bolt"),
    SeedBill("Su Faturası", 120.0, "unpaid", "28 Ekim", "water_drop"),
    SeedBill("İnternet", 290.0, "autopay", "30 Ekim", "router")
  ]

  /** The seed rows as inserted into an empty table: ids 1, 2, ... in order. */
  function SeededRows(k: nat, now: DateTime): (r: seq<Transaction>)
    requires k <= |SeedTransactions|
    ensures |r| == k
    ensures forall i :: 0 <= i < k ==> r[i] == NewTransaction(i + 1, SeedTransactions[i], now)
  {
    if k == 0 then [] else SeededRows(k - 1, now) + [NewTransaction(k, SeedTransactions[k - 1], now)]
  }

  /** The next id after the first k seed rows is k + 1. */
  lemma {:induction false} SeededNextId(k: nat, now: DateTime)
    requires k <= |SeedTransactions|
    ensures MaxId(TransactionIds(SeededRows(k, now))) == k
  {
    var ids := TransactionIds(SeededRows(k, now));
    if k > 0 {
      SeededNextId(k - 1, now);
      assert ids[..|ids| - 1] == TransactionIds(SeededRows(k - 1, now));
    }
  }

  // ---------------------------------------------------------------- the tables

  /** The three tables, in insertion order. */
  class Database {
    var transactions: seq<Transaction>
    var budgets: seq<Budget>
    var debts: seq<Debt>

    /** Primary keys are unique, and so are budget categories. */
    predicate Valid()
      reads this
    {
      UniqueIds(TransactionIds(transactions)) && UniqueIds(DebtIds(debts)) && UniqueIds(BudgetIds(budgets))
      && UniqueCategories(budgets)
    }

    constructor ()
      ensures transactions == [] && budgets == [] && debts == []
      ensures Valid()
    {
      transactions, budgets, debts := [], [], [];
    }

    /** seed_data: nothing when any transaction exists; otherwise the eight
        seed rows, added one by one. */
    method SeedData(now: DateTime)
      requires Valid()
      modifies this
      ensures Valid()
      ensures old(transactions) != [] ==> transactions == old(transactions)
      ensures old(transactions) == [] ==> transactions == SeededRows(|SeedTransactions|, now)
      ensures budgets == old(budgets) && debts == old(debts)
    {
      if transactions != [] {
        return;
      }
      var i := 0;
      while i < |SeedTransactions|
        invariant 0 <= i <= |SeedTransactions|
        invariant transactions == SeededRows(i, now)
        invariant budgets == old(budgets) && debts == old(debts)
        invariant Valid()
      {
        SeededNextId(i, now);
        var row := CreateTransaction(SeedTransactions[i], now);
        i := i + 1;
      }
    }

    /** db.add of a new row: it gets the next id and the insertion time. The
        sequence the loop above relies on is the one stated here. */
    method CreateTransaction(c: TransactionCreate, now: DateTime) returns (row: Transaction)
      requires Valid()
      modifies this
      ensures row == NewTransaction(NextId(TransactionIds(old(transactions))), c, now)
      ensures transactions == old(transactions) + [row]
      ensures budgets == old(budgets) && debts == old(debts)
      ensures Valid()
    {
      row := NewTransaction(NextId(TransactionIds(transactions)), c, now);
      ghost var before := transactions;
      transactions := transactions + [row];
      AppendFreshId(before, row);
    }

    method CreateDebt(c: DebtCreate, now: DateTime) returns (row: Debt)
      requires Valid()
      modifies this
      ensures row == NewDebt(NextId(DebtIds(old(debts))), c, now)
      ensures debts == old(debts) + [row]
      ensures budgets == old(budgets) && transactions == old(transactions)
      ensures Valid()
    {
      row := NewDebt(NextId(DebtIds(debts)), c, now);
      ghost var before := debts;
      debts := debts + [row];
      assert DebtIds(debts) == DebtIds(before) + [row.id];
    }

    /** update_transaction_status: only the status of the row changes. */
    method UpdateTransactionStatus(id: int, status: string) returns (res: Outcome<Transaction>)
      requires Valid()
      modifies this
      ensures Valid()
      ensures match FirstIndex(old(transactions), (t: Transaction) => t.id == id)
        case None => res == Raised(404, "Transaction not found") && transactions == old(transactions)
        case Some(i) =>
          && res == Done(old(transactions)[i].(status := status))
          && transactions == old(transactions)[i := old(transactions)[i].(status := status)]
      ensures budgets == old(budgets) && debts == old(debts)
      ensures TransactionIds(transactions) == TransactionIds(old(transactions))
    {
      var found := FirstIndex(transactions, (t: Transaction) => t.id == id);
      if found.None? {
        return Raised(404, "Transaction not found");
      }
      var i := found.value;
      var row := transactions[i].(status := status);
      transactions := transactions[i := row];
      res := Done(row);
    }

    /** update_transaction: every schema field replaced, id and date kept. */
    method UpdateTransaction(id: int, c: TransactionCreate) returns (res: Outcome<Transaction>)
      requires Valid()
      modifies this
      ensures Valid()
      ensures match FirstIndex(old(transactions), (t: Transaction) => t.id == id)
        case None => res == Raised(404, "Transaction not found") && transactions == old(transactions)
        case Some(i) =>
          && res == Done(ApplyTransaction(old(transactions)[i], c))
          && transactions == old(transactions)[i := ApplyTransaction(old(transactions)[i], c)]
      ensures budgets == old(budgets) && debts == old(debts)
      ensures TransactionIds(transactions) == TransactionIds(old(transactions))
    {
      var found := FirstIndex(transactions, (t: Transaction) => t.id == id);
      if found.None? {
        return Raised(404, "Transaction not found");
      }
      var i := found.value;
      var row := ApplyTransaction(transactions[i], c);
      transactions := transactions[i := row];
      res := Done(row);
    }

    method DeleteTransaction(id: int) returns (res: Outcome<string>)
      requires Valid()
      modifies this
      ensures Valid()
      ensures match FirstIndex(old(transactions), (t: Transaction) => t.id == id)
        case None => res == Raised(404, "Transaction not found") && transactions == old(transactions)
        case Some(i) => res == Done("Deleted") && transactions == RemoveAt(old(transactions), i)
      ensures FirstIndex(old(transactions), (t: Transaction) => t.id == id).Some? ==>
        && (forall t :: t in transactions ==> t.id != id)
        && (forall t :: t in old(transactions) && t.id != id ==> t in transactions)
      ensures budgets == old(budgets) && debts == old(debts)
    {
      var found := FirstIndex(transactions, (t: Transaction) => t.id == id);
      if found.None? {
        return Raised(404, "Transaction not found");
      }
      DeleteRemovesId(transactions, found.value, (t: Transaction) => t.id);
      transactions := RemoveAt(transactions, found.value);
      res := Done("Deleted");
    }

    /** update_debt: every schema field replaced, id and start_date kept. */
    method UpdateDebt(id: int, c: DebtCreate) returns (res: Outcome<Debt>)
      requires Valid()
      modifies this
      ensures Valid()
      ensures match FirstIndex(old(debts), (d: Debt) => d.id == id)
        case None => res == Raised(404, "Debt not found") && debts == old(debts)
        case Some(i) =>
          && res == Done(ApplyDebt(old(debts)[i], c))
          && debts == old(debts)[i := ApplyDebt(old(debts)[i], c)]
      ensures budgets == old(budgets) && transactions == old(transactions)
      ensures DebtIds(debts) == DebtIds(old(debts))
    {
      var found := FirstIndex(debts, (d: Debt) => d.id == id);
      if found.None? {
        return Raised(404, "Debt not found");
      }
      var i := found.value;
      var row := ApplyDebt(debts[i], c);
      debts := debts[i := row];
      res := Done(row);
    }

    method DeleteDebt(id: int) returns (res: Outcome<string>)
      requires Valid()
      modifies this
      ensures Valid()
      ensures match FirstIndex(old(debts), (d: Debt) => d.id == id)
        case None => res == Raised(404, "Debt not found") && debts == old(debts)
        case Some(i) => res == Done("Deleted") && debts == RemoveAt(old(debts), i)
      ensures FirstIndex(old(debts), (d: Debt) => d.id == id).Some? ==>
        && (forall d :: d in debts ==> d.id != id)
        && (forall d :: d in old(debts) && d.id != id ==> d in debts)
      ensures budgets == old(budgets) && transactions == old(transactions)
    {
      var found := FirstIndex(debts, (d: Debt) => d.id == id);
      if found.None? {
        return Raised(404, "Debt not found");
      }
      DeleteRemovesId(debts, found.value, (d: Debt) => d.id);
      debts := RemoveAt(debts, found.value);
      res := Done("Deleted");
    }

    /** create_or_update_budget. */
    method CreateOrUpdateBudget(b: BudgetCreate) returns (row: Budget)
      requires Valid()
      modifies this
      ensures budgets == UpsertBudget(old(budgets), b, NextId(BudgetIds(old(budgets))))
      ensures row in budgets && row.category == b.category && row.amount == b.amount
      ensures transactions == old(transactions) && debts == old(debts)
      ensures Valid()
    {
      UpsertKeepsUnique(budgets, b);
      UpsertBudgetSpec(budgets, b, NextId(BudgetIds(budgets)));
      var found := FirstIndex(budgets, (x: Budget) => x.category == b.category);
      if found.Some? {
        var i := found.value;
        row := budgets[i].(amount := b.amount);
        budgets := budgets[i := row];
        assert budgets[i] == row;
      } else {
        row := Budget(NextId(BudgetIds(budgets)), b.category, b.amount);
        budgets := budgets + [row];
      }
    }
  }

  /** Appending a row with the next id keeps ids unique. */
  lemma AppendFreshId(txns: seq<Transaction>, row: Transaction)
    requires row.id == NextId(TransactionIds(txns))
    ensures UniqueIds(TransactionIds(txns)) ==> UniqueIds(TransactionIds(txns + [row]))
  {
    assert TransactionIds(txns + [row]) == TransactionIds(txns) + [row.id];
  }

  /** Deleting the row at i, when the key is unique, removes every row with
      that row's key, keeps every other row, and keeps the keys unique. */
  lemma DeleteRemovesId<T>(s: seq<T>, i: nat, key: T -> int)
    requires i < |s|
    requires UniqueIds(Map(s, key))
    ensures var r := RemoveAt(s, i);
      && UniqueIds(Map(r, key))
      && |r| == |s| - 1
      && (forall t :: t in r ==> key(t) != key(s[i]))
      && (forall t :: t in s && key(t) != key(s[i]) ==> t in r)
  {
    MapRemoveAt(s, i, key);
    RemoveAtUnique(Map(s, key), i);
    RemovedKeyGone(s, i, key);
    OtherRowsKept(s, i, key);
  }

  lemma RemovedKeyGone<T>(s: seq<T>, i: nat, key: T -> int)
    requires i < |s|
    requires forall k :: 0 <= k < |RemoveAt(s, i)| ==> Map(RemoveAt(s, i), key)[k] != key(s[i])
    ensures forall t :: t in RemoveAt(s, i) ==> key(t) != key(s[i])
  {
    var r := RemoveAt(s, i);
    forall t | t in r ensures key(t) != key(s[i]) {
      var k :| 0 <= k < |r| && r[k] == t;
      assert Map(r, key)[k] == key(t);
    }
  }

  lemma OtherRowsKept<T>(s: seq<T>, i: nat, key: T -> int)
    requires i < |s|
    ensures forall t :: t in s && key(t) != key(s[i]) ==> t in RemoveAt(s, i)
  {
    var r := RemoveAt(s, i);
    forall t | t in s && key(t) != key(s[i]) ensures t in r {
      var k :| 0 <= k < |s| && s[k] == t;
      if k < i {
        assert r[k] == t;
      } else {
        assert k != i;
        assert r[k - 1] == t;
      }
    }
  }

  /** The keys of what is left are the keys with the one at i removed. */
  lemma MapRemoveAt<T>(s: seq<T>, i: nat, key: T -> int)
    requires i < |s|
    ensures Map(RemoveAt(s, i), key) == RemoveAt(Map(s, key), i)
  {
    var a := Map(RemoveAt(s, i), key);
    var b := RemoveAt(Map(s, key), i);
    assert |a| == |b|;
    forall k | 0 <= k < |a| ensures a[k] == b[k] {
      if k >= i {
        assert RemoveAt(s, i)[k] == s[k + 1];
      }
    }
  }

  /** Removing one of a set of distinct ids leaves distinct ids, none of
      them the removed one. */
  lemma RemoveAtUnique(ids: seq<int>, i: nat)
    requires i < |ids| && UniqueIds(ids)
    ensures UniqueIds(RemoveAt(ids, i))
    ensures forall k :: 0 <= k < |RemoveAt(ids, i)| ==> RemoveAt(ids, i)[k] != ids[i]
  {
    var r := RemoveAt(ids, i);
    forall a, b | 0 <= a < b < |r| ensures r[a] != r[b] {
      var a' := if a < i then a else a + 1;
      var b' := if b < i then b else b + 1;
      assert r[a] == ids[a'] && r[b] == ids[b'];
    }
    forall k | 0 <= k < |r| ensures r[k] != ids[i] {
      var k' := if k < i then k else k + 1;
      assert r[k] == ids[k'];
    }
  }

  /** An upsert that gives a new budget the next id keeps budget ids
      unique: an update keeps every id, an insert adds one above them all. */
  lemma UpsertKeepsUnique(budgets: seq<Budget>, b: BudgetCreate)
    requires UniqueIds(BudgetIds(budgets))
    ensures UniqueIds(BudgetIds(UpsertBudget(budgets, b, NextId(BudgetIds(budgets)))))
  {
    var newId := NextId(BudgetIds(budgets));
    var r := UpsertBudget(budgets, b, newId);
    match FirstIndex(budgets, (x: Budget) => x.category == b.category)
    case Some(i) =>
      assert BudgetIds(r) == BudgetIds(budgets);
    case None =>
      assert BudgetIds(r) == BudgetIds(budgets) + [newId];
  }
}
