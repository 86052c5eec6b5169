/**
 * The income page: the total it displays under the fetched incomes, and the
 * body its form submits.
 */
module Income {
  import opened Wrappers
  import opened Dates
  import opened Records
  import opened Seqs

  /** `data.reduce((sum, item) => sum + item.amount, 0)`. */
  function IncomeTotal(data: seq<Transaction>): real
  {
    SumOf(data, Amount)
  }

  /** The total of two lists is the sum of their totals; it is 0 for none. */
  lemma IncomeTotalAdditive(a: seq<Transaction>, b: seq<Transaction>)
    ensures IncomeTotal(a + b) == IncomeTotal(a) + IncomeTotal(b)
    ensures IncomeTotal([]) == 0.0
  {
    SumOfAppend(a, b, Amount);
  }

  /** A list of non-negative amounts totals at least each of its items. */
  lemma IncomeTotalBounds(data: seq<Transaction>, i: nat)
    requires forall t :: t in data ==> t.amount >= 0.0
    requires i < |data|
    ensures IncomeTotal(data) >= data[i].amount >= 0.0
  {
    assert data == data[..i] + ([data[i]] + data[i + 1..]);
    SumOfAppend(data[..i], [data[i]] + data[i + 1..], Amount);
    SumOfAppend([data[i]], data[i + 1..], Amount);
    assert [data[i]][..0] == [];
    SumOfNonNegative(data[..i], Amount);
    SumOfNonNegative(data[i + 1..], Amount);
  }

  /** The income form as handleFormSubmit reads it, already parsed. */
  datatype IncomeForm = IncomeForm(title: string, amount: real, category: string)

  /** The body the income form submits: always an income, with no
      is_recurring, and the submission time. */
  function IncomePayload(form: IncomeForm, now: DateTime): (p: TransactionPayload)
    ensures p.kind == "income" && p.isRecurring.None? && p.date == now
    ensures p.title == form.title && p.amount == form.amount && p.category == form.category
  {
    TransactionPayload(form.title, form.amount, form.category, None, "income", now)
  }
}
