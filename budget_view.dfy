/**
 * The budget page: for each budget status, the width of its progress bar,
 * its colour tier and its percentage label; and the body its form submits.
 */
module BudgetView {
  import opened Text
  import opened Records
  import Api

  /** `Math.min(item.percentage, 100)`: the bar never overflows. */
  function BarWidth(percentage: int): (w: int)
    ensures w <= 100 && w <= percentage
    ensures percentage <= 100 ==> w == percentage
    ensures percentage >= 100 ==> w == 100
  {
    if percentage < 100 then percentage else 100
  }

  datatype Tier = ErrorTier | WarningTier | SuccessTier

  /** Over the limit, close to it (80% or more), or well within it. */
  function TierOf(percentage: int): (t: Tier)
    ensures t == ErrorTier <==> percentage >= 100
    ensures t == WarningTier <==> 80 <= percentage < 100
    ensures t == SuccessTier <==> percentage < 80
  {
    if percentage >= 100 then ErrorTier
    else if percentage >= 80 then WarningTier
    else SuccessTier
  }

  /** `%${item.percentage}`: the raw percentage, not the bar width. */
  function Label(percentage: int): string
  {
    "%" + IntToString(percentage)
  }

  /** Past 100% the label and the bar disagree: the label keeps the real
      figure. */
  lemma LabelUnclamped(percentage: int)
    requires percentage > 100
    ensures Label(percentage) != Label(BarWidth(percentage))
  {
    if Label(percentage) == Label(BarWidth(percentage)) {
      assert IntToString(percentage) == Label(percentage)[1..];
      assert IntToString(100) == Label(BarWidth(percentage))[1..];
      NatToStringInjective(percentage, 100);
    }
  }

  /** On the status the backend sends, the error tier shows exactly when
      the limit is not positive or the month's spending has reached it. */
  lemma TierOfStatus(spent: real, amount: real)
    ensures TierOf(Api.Percent(spent, amount)) == ErrorTier <==> amount <= 0.0 || spent >= amount
    ensures amount <= 0.0 ==> BarWidth(Api.Percent(spent, amount)) == 100
  {
    Api.PercentSpec(spent, amount);
  }

  /** The budget form, already parsed, becomes exactly a category and an
      amount. */
  function BudgetPayload(category: string, amount: real): (b: BudgetCreate)
    ensures b.category == category && b.amount == amount
  {
    BudgetCreate(category, amount)
  }
}
