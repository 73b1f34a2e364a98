/** The dashboard's three figures: total balance, and the month's income and expenses. */
module AccountSummary {
  import opened Wrappers
  import opened Lists
  import opened JsNumber

  /** The `amount, type` projection of a transaction. */
  datatype TxRow = TxRow(amount: real, kind: string)

  function Identity(balance: real): real { balance }

  /** `accounts?.reduce(...) || 0`: the sum of the balances, 0 when none could be read. */
  function TotalBalance(balances: Option<seq<real>>): real {
    match balances
    case None => 0.0
    case Some(bs) => SumOf(bs, Identity)
  }

  function KindTest(kind: string): TxRow -> bool {
    (t: TxRow) => t.kind == kind
  }

  function TxAmount(t: TxRow): real { t.amount }

  function TxMagnitude(t: TxRow): real { Abs(t.amount) }

  /** The month's income: the amounts of the 'income' rows, as stored. */
  function MonthlyIncome(txs: Option<seq<TxRow>>): real {
    match txs
    case None => 0.0
    case Some(ts) => SumOf(Filter(ts, KindTest("income")), TxAmount)
  }

  /** The month's expenses: the magnitudes of the 'expense' rows, whatever their sign. */
  function MonthlyExpenses(txs: Option<seq<TxRow>>): real {
    match txs
    case None => 0.0
    case Some(ts) => SumOf(Filter(ts, KindTest("expense")), TxMagnitude)
  }

  /** The expense figure is never negative, whatever signs the amounts carry. */
  lemma MonthlyExpensesNonNegative(txs: Option<seq<TxRow>>)
    ensures MonthlyExpenses(txs) >= 0.0
  {
    if txs.Some? {
      SumOfNonNegative(Filter(txs.value, KindTest("expense")), TxMagnitude);
    }
  }

  /** A row of any other type changes neither the income nor the expenses. */
  lemma OtherKindsIgnored(ts: seq<TxRow>, t: TxRow)
    requires t.kind != "income" && t.kind != "expense"
    ensures MonthlyIncome(Some(ts + [t])) == MonthlyIncome(Some(ts))
    ensures MonthlyExpenses(Some(ts + [t])) == MonthlyExpenses(Some(ts))
  {
    FilterConcat(ts, [t], KindTest("income"));
    FilterConcat(ts, [t], KindTest("expense"));
    assert Filter([t], KindTest("income")) == [];
    assert Filter([t], KindTest("expense")) == [];
    assert Filter(ts, KindTest("income")) + [] == Filter(ts, KindTest("income"));
    assert Filter(ts, KindTest("expense")) + [] == Filter(ts, KindTest("expense"));
  }

  /** An expense adds its magnitude to the expenses, and an income its amount to the income. */
  lemma AddingRows(ts: seq<TxRow>, amount: real)
    ensures MonthlyExpenses(Some(ts + [TxRow(amount, "expense")])) == MonthlyExpenses(Some(ts)) + Abs(amount)
    ensures MonthlyIncome(Some(ts + [TxRow(amount, "income")])) == MonthlyIncome(Some(ts)) + amount
  {
    var e, i := TxRow(amount, "expense"), TxRow(amount, "income");
    FilterConcat(ts, [e], KindTest("expense"));
    FilterConcat(ts, [i], KindTest("income"));
    assert Filter([e], KindTest("expense")) == [e];
    assert Filter([i], KindTest("income")) == [i];
    SumOfConcat(Filter(ts, KindTest("expense")), [e], TxMagnitude);
    SumOfConcat(Filter(ts, KindTest("income")), [i], TxAmount);
  }

  /** With no accounts, or none readable, the total balance is 0; each account adds its balance. */
  lemma TotalBalanceSpec(bs: seq<real>, b: real)
    ensures TotalBalance(None) == 0.0 && TotalBalance(Some([])) == 0.0
    ensures TotalBalance(Some(bs + [b])) == TotalBalance(Some(bs)) + b
  {
    SumOfConcat(bs, [b], Identity);
  }
}
