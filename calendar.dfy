/**
 * The calendar page: one event per fetched transaction, then, debt by debt,
 * every installment of a loan and six monthly statements of a credit card;
 * and the title and sign the event-detail modal shows.
 */
module Calendar {
  import opened Text
  import opened Dates
  import opened Records
  import opened Seqs

  const ExpenseColor: string := "#d32f2f"
  const IncomeColor: string := "#2e7d32"
  const RecurringColor: string := "#ed6c02"
  const LoanColor: string := "#9c27b0"
  const CardColor: string := "#e91e63"

  /** Horizon of the credit-card projection, in months. */
  const CardMonths: nat := 6

  /** A calendar event: title, start day, colour, and the extendedProps
      amount, category and type. */
  datatype Event = Event(title: string, start: Date, color: string, amount: real, category: string, kind: string)

  /** Red by default, green for income, orange for anything recurring
      (the recurring rule is applied last and wins). */
  function TransactionColor(t: Transaction): (c: string)
    ensures c == RecurringColor <==> t.isRecurring
    ensures c == IncomeColor <==> !t.isRecurring && t.kind == "income"
    ensures c == ExpenseColor <==> !t.isRecurring && t.kind != "income"
  {
    var c := ExpenseColor;
    var c := if t.kind == "income" then IncomeColor else c;
    if t.isRecurring then RecurringColor else c
  }

  /** `${title} (${amountStr}₺)`; the locale formatting of the amount is the
      parameter formatAmount. */
  function TransactionEvent(t: Transaction, formatAmount: real -> string): Event
  {
    Event(t.title + " (" + formatAmount(t.amount) + "₺)", t.date.date, TransactionColor(t),
          t.amount, t.category, t.kind)
  }

  function TransactionEvents(txns: seq<Transaction>, formatAmount: real -> string): (r: seq<Event>)
    ensures |r| == |txns|
  {
    seq(|txns|, i requires 0 <= i < |txns| => TransactionEvent(txns[i], formatAmount))
  }

  /** How many times the installment loop runs: `i < total_installments`. */
  function InstallmentCount(debt: Debt): (n: nat)
    ensures Num(debt.totalInstallments) >= 0 ==> n == Num(debt.totalInstallments)
    ensures Num(debt.totalInstallments) < 0 ==> n == 0
  {
    if Num(debt.totalInstallments) > 0 then Num(debt.totalInstallments) else 0
  }

  /** "k/N", the counter in an installment's title. */
  function Counter(k: int, n: int): string
  {
    IntToString(k) + "/" + IntToString(n)
  }

  /** Installment i (from 0) of a loan: the start date moved i months on by
      setMonth, titled "name (i+1/N)". */
  function LoanEvent(debt: Debt, i: nat): Event
  {
    Event(debt.name + " (" + Counter(i + 1, Num(debt.totalInstallments)) + ")",
          AddMonths(debt.startDate.date, i), LoanColor,
          NumReal(debt.monthlyPayment), "Kredi Taksiti", "loan_payment")
  }

  /** The first n installments, in order. */
  function LoanEventsUpTo(debt: Debt, n: nat): (r: seq<Event>)
    ensures |r| == n
    ensures forall k :: 0 <= k < n ==> r[k] == LoanEvent(debt, k)
  {
    if n == 0 then [] else LoanEventsUpTo(debt, n - 1) + [LoanEvent(debt, n - 1)]
  }

  function LoanEvents(debt: Debt): seq<Event>
  {
    LoanEventsUpTo(debt, InstallmentCount(debt))
  }

  /** The month statement i (from 0) falls in: today's month plus i, the
      overflow carried into the year. */
  function CardTarget(today: Date, i: nat): (r: (int, int))
  {
    var target := today.month + i;
    (today.year + target / 12, target % 12)
  }

  /** Statement i of a card: `new Date(year, month, due_date_day)` for the
      target month, carrying the card's current total_amount. */
  function CardEvent(debt: Debt, today: Date, i: nat): Event
  {
    var target := CardTarget(today, i);
    Event(debt.name + " Ekstre", MakeDate(target.0, target.1, debt.dueDateDay), CardColor,
          debt.totalAmount, "Kredi Kartı", "card_payment")
  }

  /** The first n statements, in order. */
  function CardEventsUpTo(debt: Debt, today: Date, n: nat): (r: seq<Event>)
    ensures |r| == n
    ensures forall k :: 0 <= k < n ==> r[k] == CardEvent(debt, today, k)
  {
    if n == 0 then [] else CardEventsUpTo(debt, today, n - 1) + [CardEvent(debt, today, n - 1)]
  }

  function CardEvents(debt: Debt, today: Date): seq<Event>
  {
    CardEventsUpTo(debt, today, CardMonths)
  }

  function DebtEvents(debt: Debt, today: Date): seq<Event>
  {
    if debt.kind == "loan" then LoanEvents(debt)
    else if debt.kind == "credit_card" then CardEvents(debt, today)
    else []
  }

  function AllDebtEvents(debts: seq<Debt>, today: Date): seq<Event>
  {
    FlatMap(debts, (debt: Debt) => DebtEvents(debt, today))
  }

  /** One more debt adds its own events at the end. */
  lemma AllDebtEventsStep(debts: seq<Debt>, d: nat, today: Date)
    requires d < |debts|
    ensures AllDebtEvents(debts[..d + 1], today) == AllDebtEvents(debts[..d], today) + DebtEvents(debts[d], today)
  {
    FlatMapStep(debts, d, (debt: Debt) => DebtEvents(debt, today));
  }

  /** One more debt's events behind those of the debts before it. */
  lemma EventsGrow(base: seq<Event>, events: seq<Event>, debts: seq<Debt>, d: nat, today: Date)
    requires d < |debts|
    requires events == base + AllDebtEvents(debts[..d], today)
    ensures events + DebtEvents(debts[d], today) == base + AllDebtEvents(debts[..d + 1], today)
  {
    AllDebtEventsStep(debts, d, today);
    AppendAssoc(base, AllDebtEvents(debts[..d], today), DebtEvents(debts[d], today));
  }

  /** The events handed to the calendar widget. */
  function CalendarEvents(txns: seq<Transaction>, debts: seq<Debt>, today: Date, formatAmount: real -> string): seq<Event>
  {
    TransactionEvents(txns, formatAmount) + AllDebtEvents(debts, today)
  }

  /** The page's loading code: the transaction events, then the events of
      each debt in turn. */
  method BuildEvents(txns: seq<Transaction>, debts: seq<Debt>, today: Date, formatAmount: real -> string)
    returns (events: seq<Event>)
    ensures events == CalendarEvents(txns, debts, today, formatAmount)
  {
    events := TransactionEvents(txns, formatAmount);
    ghost var base := events;
    var d := 0;
    assert debts[..0] == [];
    while d < |debts|
      invariant 0 <= d <= |debts|
      invariant events == base + AllDebtEvents(debts[..d], today)
    {
      EventsGrow(base, events, debts, d, today);
      events := PushDebtEvents(events, debts[d], today);
      d := d + 1;
    }
    assert debts[..d] == debts;
  }

  /** The forEach callback: a loan's installments, a card's statements, or
      nothing for any other type. */
  method PushDebtEvents(events: seq<Event>, debt: Debt, today: Date) returns (r: seq<Event>)
    ensures r == events + DebtEvents(debt, today)
  {
    r := events;
    if debt.kind == "loan" {
      r := PushInstallments(events, debt);
    } else if debt.kind == "credit_card" {
      r := PushStatements(events, debt, today);
    }
  }

  /** The installment loop: `for (i = 0; i < total_installments; i++) events.push(...)`. */
  method PushInstallments(events: seq<Event>, debt: Debt) returns (r: seq<Event>)
    ensures r == events + LoanEvents(debt)
  {
    r := events;
    var i := 0;
    while i < Num(debt.totalInstallments)
      invariant 0 <= i <= InstallmentCount(debt)
      invariant r == events + LoanEventsUpTo(debt, i)
    {
      r := r + [LoanEvent(debt, i)];
      i := i + 1;
    }
  }

  /** The statement loop: `for (i = 0; i < 6; i++) events.push(...)`. */
  method PushStatements(events: seq<Event>, debt: Debt, today: Date) returns (r: seq<Event>)
    ensures r == events + CardEvents(debt, today)
  {
    r := events;
    var i := 0;
    while i < CardMonths
      invariant 0 <= i <= CardMonths
      invariant r == events + CardEventsUpTo(debt, today, i)
    {
      r := r + [CardEvent(debt, today, i)];
      i := i + 1;
    }
  }

  // ---------------------------------------------------------------- properties

  /** The transaction events come first and unchanged, and each debt's
      events follow those of the debts before it. */
  lemma EventsLayout(txns: seq<Transaction>, debts: seq<Debt>, today: Date, formatAmount: real -> string, j: nat)
    requires j < |debts|
    ensures var events := CalendarEvents(txns, debts, today, formatAmount);
      var offset := |txns| + |AllDebtEvents(debts[..j], today)|;
      && events[..|txns|] == TransactionEvents(txns, formatAmount)
      && offset + |DebtEvents(debts[j], today)| <= |events|
      && events[offset..offset + |DebtEvents(debts[j], today)|] == DebtEvents(debts[j], today)
  {
    var front := TransactionEvents(txns, formatAmount);
    var before := AllDebtEvents(debts[..j], today);
    var own := DebtEvents(debts[j], today);
    var after := AllDebtEvents(debts[j + 1..], today);
    AllDebtEventsSplit(debts, j, today);
    var events := CalendarEvents(txns, debts, today, formatAmount);
    assert events == front + before + own + after;
    assert events[..|front|] == front;
    assert events[|front| + |before|..|front| + |before| + |own|] == own;
  }

  /** The events of the debts are those of the debts before j, then debt
      j's own, then those of the debts after it. */
  lemma AllDebtEventsSplit(debts: seq<Debt>, j: nat, today: Date)
    requires j < |debts|
    ensures AllDebtEvents(debts, today)
         == AllDebtEvents(debts[..j], today) + DebtEvents(debts[j], today) + AllDebtEvents(debts[j + 1..], today)
  {
    FlatMapSplit(debts, j, (debt: Debt) => DebtEvents(debt, today));
  }

  /** A loan projects exactly total_installments events (none for a count
      that is not positive); one of another type that is not a card projects
      none. */
  lemma DebtEventCounts(debt: Debt, today: Date)
    ensures debt.kind == "loan" ==> |DebtEvents(debt, today)| == InstallmentCount(debt)
    ensures debt.kind == "credit_card" ==> |DebtEvents(debt, today)| == CardMonths
    ensures debt.kind != "loan" && debt.kind != "credit_card" ==> DebtEvents(debt, today) == []
  {
  }

  /** Installment titles name their position: two installments of a loan
      never share a title, and each says which of the N it is. */
  lemma LoanTitlesDistinct(debt: Debt, i: nat, j: nat)
    requires i < j < InstallmentCount(debt)
    ensures LoanEvents(debt)[i].title != LoanEvents(debt)[j].title
  {
    var n := Num(debt.totalInstallments);
    if LoanEvent(debt, i).title == LoanEvent(debt, j).title {
      SameAffixes(debt.name + " (", Counter(i + 1, n), Counter(j + 1, n), ")");
      CounterInjective(i + 1, j + 1, n);
    }
  }

  lemma CounterInjective(k: nat, l: nat, n: int)
    requires Counter(k, n) == Counter(l, n)
    ensures k == l
  {
    var c := Counter(k, n);
    assert |IntToString(k)| == |IntToString(l)|;
    assert IntToString(k) == c[..|IntToString(k)|];
    assert IntToString(l) == c[..|IntToString(l)|];
    NatToStringInjective(k, l);
  }

  /** Installment i falls i months after the start month, on the start
      date's day whenever that day exists in the target month. */
  lemma LoanEventDate(debt: Debt, i: nat)
    requires ValidDate(debt.startDate.date)
    requires i < InstallmentCount(debt)
    ensures var start := debt.startDate.date;
      var e := LoanEvents(debt)[i];
      && e.start == AddMonths(start, i)
      && (start.day <= DaysInMonth(start.year + (start.month + i) / 12, (start.month + i) % 12)
          ==> e.start.day == start.day
              && MonthNumber(e.start.year, e.start.month) == MonthNumber(start.year, start.month) + i)
      && e.amount == NumReal(debt.monthlyPayment) && e.category == "Kredi Taksiti" && e.kind == "loan_payment"
  {
    var start := debt.startDate.date;
    assert LoanEvents(debt)[i] == LoanEvent(debt, i);
    var r := AddMonths(start, i);
    if start.day <= DaysInMonth(start.year + (start.month + i) / 12, (start.month + i) % 12) {
      AddMonthsSameDay(start, i);
      assert r.day == start.day && MonthNumber(r.year, r.month) == MonthNumber(start.year, start.month) + i;
    }
  }

  /** The due day plays no part in a loan's installments. */
  lemma LoanEventsIgnoreDueDay(debt: Debt, day: int)
    ensures LoanEvents(debt.(dueDateDay := day)) == LoanEvents(debt)
  {
    var other := debt.(dueDateDay := day);
    assert forall k :: 0 <= k < InstallmentCount(debt) ==> LoanEvent(other, k) == LoanEvent(debt, k);
  }

  /** Statement targets are consecutive months starting at today's, at most
      one year on. */
  lemma CardTargetsConsecutive(today: Date, i: nat)
    requires 0 <= today.month < 12 && i < CardMonths
    ensures var t := CardTarget(today, i);
      && 0 <= t.1 < 12
      && MonthNumber(t.0, t.1) == MonthNumber(today.year, today.month) + i
      && (t.0 == today.year || t.0 == today.year + 1)
  {
  }

  /** A statement falls on the due day of its target month when the month
      has that day, and rolls into the next month otherwise; it always
      repeats today's total_amount. */
  lemma CardEventDate(debt: Debt, today: Date, i: nat)
    requires 0 <= today.month < 12 && i < CardMonths
    ensures var t := CardTarget(today, i);
      var e := CardEvents(debt, today)[i];
      && (1 <= debt.dueDateDay <= DaysInMonth(t.0, t.1) ==> e.start == Date(t.0, t.1, debt.dueDateDay))
      && (DaysInMonth(t.0, t.1) < debt.dueDateDay <= 31 ==>
            var n := NextMonth(t.0, t.1);
            e.start == Date(n.0, n.1, debt.dueDateDay - DaysInMonth(t.0, t.1)))
      && e.amount == debt.totalAmount && e.category == "Kredi Kartı" && e.kind == "card_payment"
  {
    var t := CardTarget(today, i);
    CardTargetsConsecutive(today, i);
    if 1 <= debt.dueDateDay <= DaysInMonth(t.0, t.1) {
      MakeDateInRange(t.0, t.1, debt.dueDateDay);
    } else if DaysInMonth(t.0, t.1) < debt.dueDateDay <= 31 {
      MakeDateRollsOver(t.0, t.1, debt.dueDateDay);
    }
  }

  // ---------------------------------------------------------------- event details

  /** The modal's title: the text before the first '(', trimmed. */
  function DetailTitle(e: Event): string
  {
    Trim(BeforeFirst(e.title, '('))
  }

  /** The amount's sign: '+' for income, '-' for everything else. */
  function DetailPrefix(e: Event): (p: string)
    ensures p == "+" <==> e.kind == "income"
    ensures p == "-" <==> e.kind != "income"
  {
    if e.kind == "income" then "+" else "-"
  }

  /** The detail title drops the amount from a transaction's title, when
      the title itself has no '('. */
  lemma TransactionDetailTitle(t: Transaction, formatAmount: real -> string)
    requires '(' !in t.title
    ensures DetailTitle(TransactionEvent(t, formatAmount)) == Trim(t.title)
  {
    var rest := "(" + formatAmount(t.amount) + "₺)";
    assert TransactionEvent(t, formatAmount).title == (t.title + " ") + rest;
    assert '(' !in t.title + " ";
    BeforeFirstAppend(t.title + " ", rest, '(');
    TrimDropsTrailingWhitespace(t.title, ' ');
  }

  /** The detail title drops the counter from an installment's title, when
      the loan's name has no '('. */
  lemma InstallmentDetailTitle(debt: Debt, i: nat)
    requires '(' !in debt.name
    ensures DetailTitle(LoanEvent(debt, i)) == Trim(debt.name)
  {
    var rest := "(" + Counter(i + 1, Num(debt.totalInstallments)) + ")";
    assert LoanEvent(debt, i).title == (debt.name + " ") + rest;
    assert '(' !in debt.name + " ";
    BeforeFirstAppend(debt.name + " ", rest, '(');
    TrimDropsTrailingWhitespace(debt.name, ' ');
  }
}
