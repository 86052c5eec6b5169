/**
 * The dashboard: the list of upcoming payments mergeBillsAndDebts builds from
 * the recurring bills and the debts, the action each entry of that list gets,
 * and the sign in front of a stat card's trend.
 */
module Dashboard {
  import opened Wrappers
  import opened Text
  import opened Dates
  import opened Records
  import opened Seqs

  /** The bill-like object built from a debt (its isVirtual flag is the
      VirtualItem case of Upcoming). */
  datatype VirtualBill = VirtualBill(id: ItemId, title: string, amount: real, dueDateStr: string, status: string, icon: string)

  /** An entry of the upcoming-payments list: a recurring bill as the API
      returned it, or a virtual item built from a debt. */
  datatype Upcoming = RealBill(bill: Transaction) | VirtualItem(item: VirtualBill)

  const OverduePrefix: string := "Gecikti: "

  /** `${due_date_day} ${month}`, prefixed by "Gecikti: " once today's day is
      past the due day; the Turkish name of today's month (toLocaleString) is
      the parameter monthName. */
  function DueDateText(dueDay: int, today: Date, monthName: string): (s: string)
    ensures var tail := IntToString(dueDay) + " " + monthName;
      && |tail| <= |s| && s[|s| - |tail|..] == tail
      && (StartsWith(s, OverduePrefix) <==> today.day > dueDay)
  {
    var tail := IntToString(dueDay) + " " + monthName;
    if today.day > dueDay then
      assert (OverduePrefix + tail)[..|OverduePrefix|] == OverduePrefix;
      OverduePrefix + tail
    else
      assert tail[0] == IntToString(dueDay)[0];
      tail
  }

  /** The item a debt becomes once it is known to owe this month. */
  function VirtualBillOf(debt: Debt, today: Date, monthName: string): VirtualBill
  {
    var loan := IsLoan(debt);
    VirtualBill(VirtualId(debt.id),
                debt.name + (if loan then " (Taksit)" else " (Ekstre)"),
                if loan then NumReal(debt.monthlyPayment) else debt.totalAmount,
                DueDateText(debt.dueDateDay, today, monthName),
                "unpaid",
                if loan then "real_estate_agent" else "credit_card")
  }

  /** The callback of `debts.map`: null for a loan with no installment
      remaining, the debt's item otherwise. */
  function DebtBill(debt: Debt, today: Date, monthName: string): (r: Option<VirtualBill>)
    ensures r.Some? <==> HasObligation(debt)
  {
    if IsLoan(debt) && Num(debt.remainingInstallments) <= 0 then None
    else Some(VirtualBillOf(debt, today, monthName))
  }

  /** `[...bills, ...debtBills]`: no sort is applied. */
  function MergeBillsAndDebts(bills: seq<Transaction>, debts: seq<Debt>, today: Date, monthName: string): seq<Upcoming>
  {
    var debtBills := FilterSome(Map(debts, (d: Debt) => DebtBill(d, today, monthName)));
    Map(bills, (b: Transaction) => RealBill(b)) + Map(debtBills, (v: VirtualBill) => VirtualItem(v))
  }

  /** The debts that owe something this month, in their order. */
  function OwingDebts(debts: seq<Debt>): seq<Debt>
  {
    Filter(debts, HasObligation)
  }

  /** The merged list is every bill, unchanged and in its order, then one
      virtual item per owing debt, in the debts' order. */
  lemma MergeLayout(bills: seq<Transaction>, debts: seq<Debt>, today: Date, monthName: string)
    ensures var r := MergeBillsAndDebts(bills, debts, today, monthName);
      var owing := OwingDebts(debts);
      && |r| == |bills| + |owing|
      && (forall i :: 0 <= i < |bills| ==> r[i] == RealBill(bills[i]))
      && (forall k :: 0 <= k < |owing| ==> r[|bills| + k] == VirtualItem(VirtualBillOf(owing[k], today, monthName)))
  {
    var owing := OwingDebts(debts);
    DebtBillsOfOwing(debts, today, monthName);
    var virtual := Map(Map(owing, (d: Debt) => VirtualBillOf(d, today, monthName)), (v: VirtualBill) => VirtualItem(v));
    var r := MergeBillsAndDebts(bills, debts, today, monthName);
    assert r == Map(bills, (b: Transaction) => RealBill(b)) + virtual;
    forall k | 0 <= k < |owing|
      ensures r[|bills| + k] == VirtualItem(VirtualBillOf(owing[k], today, monthName))
    {
      assert r[|bills| + k] == virtual[k];
    }
  }

  /** The debt items are the owing debts' items, in order. */
  lemma DebtBillsOfOwing(debts: seq<Debt>, today: Date, monthName: string)
    ensures FilterSome(Map(debts, (d: Debt) => DebtBill(d, today, monthName)))
         == Map(OwingDebts(debts), (d: Debt) => VirtualBillOf(d, today, monthName))
  {
    FilterSomeMap(debts, (d: Debt) => DebtBill(d, today, monthName), HasObligation,
                  (d: Debt) => VirtualBillOf(d, today, monthName));
  }

  /** A virtual item names its debt, carries the monthly payment of a loan
      and the total of anything else, is unpaid, and is marked overdue
      exactly when today's day is past the due day. */
  lemma VirtualBillFields(debt: Debt, today: Date, monthName: string)
    ensures var v := VirtualBillOf(debt, today, monthName);
      && v.id == VirtualId(debt.id) && StartsWith(ItemIdString(v.id), "debt-")
      && v.title == debt.name + (if IsLoan(debt) then " (Taksit)" else " (Ekstre)")
      && v.amount == (if IsLoan(debt) then NumReal(debt.monthlyPayment) else debt.totalAmount)
      && v.status == "unpaid"
      && v.icon == (if IsLoan(debt) then "real_estate_agent" else "credit_card")
      && (StartsWith(v.dueDateStr, OverduePrefix) <==> today.day > debt.dueDateDay)
  {
  }

  /** An owing debt appears once in the merged list for each time it appears
      among the debts; a loan with nothing remaining never appears. */
  lemma MergeCounts(debts: seq<Debt>, d: Debt)
    ensures multiset(OwingDebts(debts))[d] == if HasObligation(d) then multiset(debts)[d] else 0
  {
    FilterMultiset(debts, HasObligation, d);
  }

  // ---------------------------------------------------------------- actions

  /** What renderBills puts beside an entry. */
  datatype Action = DetailsLink | PayButton(id: int) | PaidLabel | AutoLabel

  function ActionFor(u: Upcoming): (a: Action)
    ensures a == DetailsLink <==> u.VirtualItem?
    ensures a.PayButton? <==> u.RealBill? && u.bill.status == "unpaid"
    ensures a.PayButton? ==> a.id == u.bill.id
    ensures a == PaidLabel <==> u.RealBill? && u.bill.status == "completed"
    ensures a == AutoLabel <==> u.RealBill? && u.bill.status != "unpaid" && u.bill.status != "completed"
  {
    match u
    case VirtualItem(_) => DetailsLink
    case RealBill(b) =>
      if b.status == "unpaid" then PayButton(b.id)
      else if b.status == "completed" then PaidLabel
      else AutoLabel
  }

  /** A virtual item is never offered a pay button, although its status is
      'unpaid'. */
  lemma VirtualItemsNotPayable(bills: seq<Transaction>, debts: seq<Debt>, today: Date, monthName: string, i: nat)
    requires i < |MergeBillsAndDebts(bills, debts, today, monthName)|
    requires i >= |bills|
    ensures var u := MergeBillsAndDebts(bills, debts, today, monthName)[i];
      u.VirtualItem? && u.item.status == "unpaid" && !ActionFor(u).PayButton?
  {
    MergeLayout(bills, debts, today, monthName);
    var owing := OwingDebts(debts);
    assert MergeBillsAndDebts(bills, debts, today, monthName)[|bills| + (i - |bills|)]
        == VirtualItem(VirtualBillOf(owing[i - |bills|], today, monthName));
  }

  // ---------------------------------------------------------------- stat cards

  /** `stat.trend > 0 ? '+' : ''`. */
  function TrendSign(trend: int): (s: string)
    ensures s == "+" <==> trend > 0
    ensures s == "" <==> trend <= 0
  {
    if trend > 0 then "+" else ""
  }
}
