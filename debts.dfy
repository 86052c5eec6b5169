/**
 * The debt page: the installment arithmetic renderDebtList shows for a loan
 * (paid and remaining installments, remaining balance, progress), and the body
 * handleFormSubmit builds from the debt form.
 */
module Debts {
  import opened Wrappers
  import opened Dates
  import opened Records

  /** Whole months from the start date's month to today's, plus one once
      today's day of the month has reached the due day. */
  function MonthsElapsed(loan: Debt, today: Date): int
  {
    var start := loan.startDate.date;
    (today.year - start.year) * 12 + (today.month - start.month)
      + (if today.day >= loan.dueDateDay then 1 else 0)
  }

  /** `Math.max(0, Math.min(monthsDiff, total_installments))`. */
  function PaidInstallments(loan: Debt, today: Date): (paid: int)
    ensures paid >= 0
    ensures Num(loan.totalInstallments) >= 0 ==> paid <= Num(loan.totalInstallments)
    ensures MonthsElapsed(loan, today) <= 0 ==> paid == 0
    ensures 0 <= MonthsElapsed(loan, today) <= Num(loan.totalInstallments)
            ==> paid == MonthsElapsed(loan, today)
    ensures 0 <= Num(loan.totalInstallments) <= MonthsElapsed(loan, today)
            ==> paid == Num(loan.totalInstallments)
  {
    var m := MonthsElapsed(loan, today);
    var total := Num(loan.totalInstallments);
    var capped := if m < total then m else total;
    if capped > 0 then capped else 0
  }

  function RemainingInstallments(loan: Debt, today: Date): (r: int)
    ensures Num(loan.totalInstallments) >= 0 ==> 0 <= r <= Num(loan.totalInstallments)
    ensures r + PaidInstallments(loan, today) == Num(loan.totalInstallments)
  {
    Num(loan.totalInstallments) - PaidInstallments(loan, today)
  }

  function RemainingBalance(loan: Debt, today: Date): real
  {
    RemainingInstallments(loan, today) as real * NumReal(loan.monthlyPayment)
  }

  /** `(paid / total) * 100`; None is the NaN of 0 / 0. */
  function ProgressPercent(loan: Debt, today: Date): Option<real>
  {
    var total := Num(loan.totalInstallments);
    if total == 0 then None
    else Some(PaidInstallments(loan, today) as real / total as real * 100.0)
  }

  /** A start date in a later month than today's pays nothing yet. */
  lemma FutureStartPaysNothing(loan: Debt, today: Date)
    requires MonthNumber(today.year, today.month)
             < MonthNumber(loan.startDate.date.year, loan.startDate.date.month)
    ensures PaidInstallments(loan, today) == 0
    ensures RemainingInstallments(loan, today) == Num(loan.totalInstallments)
  {
  }

  /** With a non-negative installment count and payment, the balance lies
      between nothing and the whole schedule. */
  lemma BalanceBounds(loan: Debt, today: Date)
    requires Num(loan.totalInstallments) >= 0 && NumReal(loan.monthlyPayment) >= 0.0
    ensures 0.0 <= RemainingBalance(loan, today)
              <= Num(loan.totalInstallments) as real * NumReal(loan.monthlyPayment)
  {
    var r := RemainingInstallments(loan, today) as real;
    var t := Num(loan.totalInstallments) as real;
    var p := NumReal(loan.monthlyPayment);
    assert 0.0 <= r <= t;
    assert r * p <= t * p by {
      assert (t - r) * p >= 0.0;
    }
  }

  /** Progress is a percentage once the loan has at least one installment. */
  lemma ProgressBounds(loan: Debt, today: Date)
    requires Num(loan.totalInstallments) >= 1
    ensures ProgressPercent(loan, today).Some?
    ensures 0.0 <= ProgressPercent(loan, today).value <= 100.0
  {
    var p := PaidInstallments(loan, today) as real;
    var t := Num(loan.totalInstallments) as real;
    assert p / t <= 1.0 by {
      assert p <= t;
    }
  }

  /** As today advances, the month count never decreases. */
  lemma MonthsElapsedMonotone(loan: Debt, t1: Date, t2: Date)
    requires ValidDate(t1) && ValidDate(t2) && OnOrBefore(t1, t2)
    ensures MonthsElapsed(loan, t1) <= MonthsElapsed(loan, t2)
  {
    var m1 := MonthNumber(t1.year, t1.month);
    var m2 := MonthNumber(t2.year, t2.month);
    if m1 < m2 {
      assert m1 + 1 <= m2;
    } else {
      assert t1.year == t2.year && t1.month == t2.month;
    }
  }

  /** For a fixed loan, paid installments never decrease and (for a
      non-negative payment) the balance never increases as today advances. */
  lemma PaidMonotone(loan: Debt, t1: Date, t2: Date)
    requires ValidDate(t1) && ValidDate(t2) && OnOrBefore(t1, t2)
    ensures PaidInstallments(loan, t1) <= PaidInstallments(loan, t2)
    ensures NumReal(loan.monthlyPayment) >= 0.0
            ==> RemainingBalance(loan, t2) <= RemainingBalance(loan, t1)
  {
    MonthsElapsedMonotone(loan, t1, t2);
    var r1 := RemainingInstallments(loan, t1) as real;
    var r2 := RemainingInstallments(loan, t2) as real;
    var p := NumReal(loan.monthlyPayment);
    if p >= 0.0 {
      assert r2 <= r1;
      assert (r1 - r2) * p >= 0.0;
    }
  }

  /** Nothing on the page reads remaining_installments: the count shown comes
      from the dates alone. */
  lemma PaidIgnoresRemainingColumn(loan: Debt, today: Date, stored: Option<int>)
    ensures PaidInstallments(loan.(remainingInstallments := stored), today)
         == PaidInstallments(loan, today)
  {
  }

  /** The worked example: a 12-installment loan starting 15 January 2024,
      due on the 15th, seen on 15 and on 14 July 2024 (month 6). */
  lemma WorkedExample(loan: Debt)
    requires loan.startDate.date == Date(2024, 0, 15) && loan.dueDateDay == 15
    requires loan.totalInstallments == Some(12) && loan.monthlyPayment == Some(1000.0)
    ensures PaidInstallments(loan, Date(2024, 6, 15)) == 7
    ensures RemainingBalance(loan, Date(2024, 6, 15)) == 5000.0
    ensures PaidInstallments(loan, Date(2024, 6, 14)) == 6
    ensures RemainingBalance(loan, Date(2024, 6, 14)) == 6000.0
  {
  }

  // ---------------------------------------------------------------- the form

  /** The debt form's fields as handleFormSubmit reads them, already parsed;
      startDate is None when the date input is empty. */
  datatype DebtForm = DebtForm(
    kind: string,
    name: string,
    totalAmount: real,
    monthlyPayment: real,
    totalInstallments: int,
    startDate: Option<Date>,
    dueDateDay: int)

  /** The body handleFormSubmit sends. A loan starts with all of its
      installments remaining and is due on its start day (the 1st, starting
      now, when no date was given); a card takes its due day from the form and
      starts now. */
  function DebtPayloadOf(form: DebtForm, now: DateTime): (p: DebtPayload)
    ensures p.kind == form.kind && p.name == form.name && p.totalAmount == form.totalAmount
    ensures form.kind == "loan" ==>
      && p.monthlyPayment == Some(form.monthlyPayment)
      && p.totalInstallments == Some(form.totalInstallments)
      && p.remainingInstallments == p.totalInstallments
      && (form.startDate.Some? ==>
            p.startDate == DateTime(form.startDate.value, 0) && p.dueDateDay == form.startDate.value.day)
      && (form.startDate.None? ==> p.startDate == now && p.dueDateDay == 1)
    ensures form.kind != "loan" ==>
      && p.monthlyPayment.None? && p.totalInstallments.None? && p.remainingInstallments.None?
      && p.dueDateDay == form.dueDateDay && p.startDate == now
  {
    if form.kind == "loan" then
      var start := if form.startDate.Some? then DateTime(form.startDate.value, 0) else now;
      var due := if form.startDate.Some? then form.startDate.value.day else 1;
      DebtPayload(form.kind, form.name, form.totalAmount, Some(form.monthlyPayment),
                  Some(form.totalInstallments), Some(form.totalInstallments), start, due)
    else
      DebtPayload(form.kind, form.name, form.totalAmount, None, None, None, now, form.dueDateDay)
  }
}
