/**
 * The bookkeeping arithmetic of the monthly-data routes: what a debt account's or a regular
 * account's monthly entry stores and which transactions replace the month's old ones, the
 * closing-balance auto-adjustment, the fixed-expense monthly equivalent and the dashboard's
 * investment-adjusted expenses. The database is read as values: a month's transactions for
 * one account are a sequence, and each route returns the new balance record together with the
 * month's new transaction list.
 */
module Ledger {
  import opened Wrappers
  import opened Money

  datatype TxKind = Income | MiscIncome | Expense | MiscExpense

  datatype Transaction = Transaction(kind: TxKind, amount: real, category: string)

  /** One account's balance record for one month. */
  datatype MonthlyBalance = MonthlyBalance(opening: real, closing: real, income: real, expenses: real)

  /** What a route leaves behind for the account and month: the record and the transactions. */
  datatype MonthEntry = MonthEntry(balance: MonthlyBalance, transactions: seq<Transaction>)

  const DebtOnlyError := "This endpoint is only for credit cards and loan accounts"
  const RegularOnlyError := "This endpoint is only for regular bank accounts"

  predicate IsIncome(k: TxKind) { k == Income || k == MiscIncome }
  predicate IsExpense(k: TxKind) { k == Expense || k == MiscExpense }
  predicate IsMisc(k: TxKind) { k == MiscIncome || k == MiscExpense }

  /** Sum of the amounts of the income and misc-income transactions. */
  function IncomeTotal(txs: seq<Transaction>): real
  {
    if |txs| == 0 then 0.0
    else IncomeTotal(txs[..|txs| - 1]) + (if IsIncome(txs[|txs| - 1].kind) then txs[|txs| - 1].amount else 0.0)
  }

  /** Sum of the amounts of the expense and misc-expense transactions. */
  function ExpenseTotal(txs: seq<Transaction>): real
  {
    if |txs| == 0 then 0.0
    else ExpenseTotal(txs[..|txs| - 1]) + (if IsExpense(txs[|txs| - 1].kind) then txs[|txs| - 1].amount else 0.0)
  }

  /** The change the transactions make to a regular account: income in, expenses out. */
  function Net(txs: seq<Transaction>): real
  {
    IncomeTotal(txs) - ExpenseTotal(txs)
  }

  /** The transactions that are not misc adjustments, in their order. */
  function NonMisc(txs: seq<Transaction>): (r: seq<Transaction>)
    ensures |r| <= |txs|
  {
    if |txs| == 0 then []
    else NonMisc(txs[..|txs| - 1]) + (if IsMisc(txs[|txs| - 1].kind) then [] else [txs[|txs| - 1]])
  }

  /** The sums over a single transaction. */
  lemma Single(t: Transaction)
    ensures IncomeTotal([t]) == if IsIncome(t.kind) then t.amount else 0.0
    ensures ExpenseTotal([t]) == if IsExpense(t.kind) then t.amount else 0.0
    ensures NonMisc([t]) == if IsMisc(t.kind) then [] else [t]
    ensures MiscIncomes([t]) == if t.kind == MiscIncome then [t] else []
  {
    assert [t][..0] == [];
  }

  lemma {:induction false} TotalsAppend(a: seq<Transaction>, b: seq<Transaction>)
    ensures IncomeTotal(a + b) == IncomeTotal(a) + IncomeTotal(b)
    ensures ExpenseTotal(a + b) == ExpenseTotal(a) + ExpenseTotal(b)
  {
    if |b| > 0 {
      assert (a + b)[..|a + b| - 1] == a + b[..|b| - 1];
      TotalsAppend(a, b[..|b| - 1]);
    } else {
      assert a + b == a;
    }
  }

  lemma {:induction false} NonMiscAppend(a: seq<Transaction>, b: seq<Transaction>)
    ensures NonMisc(a + b) == NonMisc(a) + NonMisc(b)
  {
    if |b| > 0 {
      assert (a + b)[..|a + b| - 1] == a + b[..|b| - 1];
      NonMiscAppend(a, b[..|b| - 1]);
    } else {
      assert a + b == a;
    }
  }

  /** Dropping the misc rows twice drops nothing more. */
  lemma {:induction false} NonMiscIdempotent(txs: seq<Transaction>)
    ensures NonMisc(NonMisc(txs)) == NonMisc(txs)
  {
    if |txs| > 0 {
      var last := txs[|txs| - 1];
      NonMiscIdempotent(txs[..|txs| - 1]);
      NonMiscAppend(NonMisc(txs[..|txs| - 1]), if IsMisc(last.kind) then [] else [last]);
    }
  }

  /** ASCII lower-casing, Python's `str.lower()` on the account types the application uses. */
  function Lower(s: string): (r: string)
    ensures |r| == |s|
    ensures forall i :: 0 <= i < |s| ==> r[i] == (if 'A' <= s[i] <= 'Z' then (s[i] as int + 32) as char else s[i])
  {
    seq(|s|, i requires 0 <= i < |s| => if 'A' <= s[i] <= 'Z' then (s[i] as int + 32) as char else s[i])
  }

  /** A credit card or loan: the account type, lower-cased, is `credit` or `loan`. */
  predicate IsDebtType(accountType: string)
  {
    Lower(accountType) == "credit" || Lower(accountType) == "loan"
  }

  // ---------------------------------------------------------------------------------------
  // Debt accounts
  // ---------------------------------------------------------------------------------------

  /** The month's spending on a debt account: the balance grew by it and shrank by the payment. */
  function MonthlySpend(opening: real, paid: real, closing: real): real
  {
    closing - opening + paid
  }

  /**
   * Recording a debt account's month: the record stores the payment as income and the
   * spending as expenses, and the month's transactions are replaced by a payment when
   * something was paid and a spending row when something was spent.
   */
  function DebtAccountData(accountType: string, opening: real, paid: real, closing: real): Result<MonthEntry, string>
  {
    if !IsDebtType(accountType) then Failure(DebtOnlyError)
    else
      var spend := MonthlySpend(opening, paid, closing);
      var category := if Lower(accountType) == "credit" then "Credit Card Spending" else "Loan Interest/Fees";
      Success(MonthEntry(MonthlyBalance(opening, closing, paid, spend), PaymentRow(paid) + SpendRow(spend, category)))
  }

  /** The payment row of a debt account's month, when something was paid. */
  function PaymentRow(paid: real): seq<Transaction>
  {
    if paid > 0.0 then [Transaction(Income, paid, "Debt Payment")] else []
  }

  /** The spending row of a debt account's month, when something was spent. */
  function SpendRow(spend: real, category: string): seq<Transaction>
  {
    if spend > 0.0 then [Transaction(Expense, spend, category)] else []
  }

  lemma DebtRowsFacts(paid: real, spend: real, category: string)
    ensures IncomeTotal(PaymentRow(paid)) == Max(0.0, paid) && ExpenseTotal(PaymentRow(paid)) == 0.0
    ensures IncomeTotal(SpendRow(spend, category)) == 0.0 && ExpenseTotal(SpendRow(spend, category)) == Max(0.0, spend)
    ensures NonMisc(PaymentRow(paid)) == PaymentRow(paid) && NonMisc(SpendRow(spend, category)) == SpendRow(spend, category)
  {
    if paid > 0.0 {
      Single(Transaction(Income, paid, "Debt Payment"));
    }
    if spend > 0.0 {
      Single(Transaction(Expense, spend, category));
    }
  }

  /**
   * A debt account's entry is rejected exactly for other account types; otherwise the record
   * balances (closing = opening + spend - payment), the spend is `closing - opening + paid`, and
   * a payment row exists exactly when something was paid, carrying the paid amount.
   */
  lemma DebtAccountDataFacts(accountType: string, opening: real, paid: real, closing: real)
    ensures var r := DebtAccountData(accountType, opening, paid, closing);
      && (r.Failure? <==> !IsDebtType(accountType))
      && (r.Failure? ==> r.error == DebtOnlyError)
      && (r.Success? ==>
            && r.value.balance.expenses == closing - opening + paid
            && r.value.balance.income == paid
            && r.value.balance.closing == r.value.balance.opening + r.value.balance.expenses - r.value.balance.income
            && ((exists t :: t in r.value.transactions && t.kind == Income) <==> paid > 0.0)
            && (forall t :: t in r.value.transactions && t.kind == Income ==> t.amount == paid))
  {
    var r := DebtAccountData(accountType, opening, paid, closing);
    if r.Success? && paid > 0.0 {
      assert r.value.transactions[0].kind == Income;
    }
  }

  /**
   * The new transactions of a debt account's month carry the positive parts of the payment
   * and of the spend, and nothing is misc.
   */
  lemma DebtAccountDataTotals(accountType: string, opening: real, paid: real, closing: real)
    requires IsDebtType(accountType)
    ensures var e := DebtAccountData(accountType, opening, paid, closing).value;
      && IncomeTotal(e.transactions) == Max(0.0, paid)
      && ExpenseTotal(e.transactions) == Max(0.0, closing - opening + paid)
      && NonMisc(e.transactions) == e.transactions
  {
    var spend := MonthlySpend(opening, paid, closing);
    var category := if Lower(accountType) == "credit" then "Credit Card Spending" else "Loan Interest/Fees";
    TotalsAppend(PaymentRow(paid), SpendRow(spend, category));
    NonMiscAppend(PaymentRow(paid), SpendRow(spend, category));
    DebtRowsFacts(paid, spend, category);
  }

  // ---------------------------------------------------------------------------------------
  // Regular accounts
  // ---------------------------------------------------------------------------------------

  /** A regular account's expenses: what it started with and received, less what it ended with. */
  function RegularExpenses(opening: real, income: real, closing: real): real
  {
    opening + income - closing
  }

  /** The income row of a regular account's month, when the income is positive. */
  function IncomeRow(income: real): seq<Transaction>
  {
    if income > 0.0 then [Transaction(Income, income, "Income")] else []
  }

  /**
   * The expense side of a regular account's month: an expense row for positive expenses,
   * a net-gain misc income of the absolute value for negative ones, nothing for zero.
   */
  function ExpenseRows(expenses: real): seq<Transaction>
  {
    if expenses > 0.0 then [Transaction(Expense, expenses, "Total Expenses")]
    else if expenses < 0.0 then [Transaction(MiscIncome, Abs(expenses), "Miscellaneous")]
    else []
  }

  /**
   * Recording a regular account's month: the record stores the income and the computed
   * expenses, and the month's transactions are replaced by the income row and the expense side.
   */
  function RegularAccountData(accountType: string, opening: real, income: real, closing: real): Result<MonthEntry, string>
  {
    if IsDebtType(accountType) then Failure(RegularOnlyError)
    else
      var expenses := RegularExpenses(opening, income, closing);
      Success(MonthEntry(MonthlyBalance(opening, closing, income, expenses), IncomeRow(income) + ExpenseRows(expenses)))
  }

  /** The misc-income rows of a transaction list. */
  function MiscIncomes(txs: seq<Transaction>): seq<Transaction>
  {
    if |txs| == 0 then []
    else MiscIncomes(txs[..|txs| - 1]) + (if txs[|txs| - 1].kind == MiscIncome then [txs[|txs| - 1]] else [])
  }

  lemma {:induction false} MiscIncomesAppend(a: seq<Transaction>, b: seq<Transaction>)
    ensures MiscIncomes(a + b) == MiscIncomes(a) + MiscIncomes(b)
  {
    if |b| > 0 {
      assert (a + b)[..|a + b| - 1] == a + b[..|b| - 1];
      MiscIncomesAppend(a, b[..|b| - 1]);
    } else {
      assert a + b == a;
    }
  }

  lemma RowsFacts(income: real, expenses: real)
    ensures MiscIncomes(IncomeRow(income)) == []
    ensures MiscIncomes(ExpenseRows(expenses))
      == if expenses < 0.0 then [Transaction(MiscIncome, -expenses, "Miscellaneous")] else []
    ensures Net(IncomeRow(income)) == Max(0.0, income)
    ensures Net(ExpenseRows(expenses)) == -expenses
  {
    if income > 0.0 {
      Single(Transaction(Income, income, "Income"));
    }
    if expenses > 0.0 {
      Single(Transaction(Expense, expenses, "Total Expenses"));
    } else if expenses < 0.0 {
      Single(Transaction(MiscIncome, Abs(expenses), "Miscellaneous"));
    }
  }

  /**
   * A regular account's entry is rejected exactly for credit and loan types; otherwise the
   * expenses are `opening + income - closing`, and there is exactly one misc income, of the
   * absolute value of the expenses, when they are negative, and none otherwise.
   */
  lemma RegularAccountDataFacts(accountType: string, opening: real, income: real, closing: real)
    ensures var r := RegularAccountData(accountType, opening, income, closing);
      && (r.Failure? <==> IsDebtType(accountType))
      && (r.Failure? ==> r.error == RegularOnlyError)
      && (r.Success? ==>
            && r.value.balance.expenses == opening + income - closing
            && r.value.balance.income == income
            && (opening + income - closing < 0.0 ==>
                  MiscIncomes(r.value.transactions) == [Transaction(MiscIncome, closing - opening - income, "Miscellaneous")])
            && (opening + income - closing >= 0.0 ==> MiscIncomes(r.value.transactions) == []))
  {
    var expenses := RegularExpenses(opening, income, closing);
    MiscIncomesAppend(IncomeRow(income), ExpenseRows(expenses));
    RowsFacts(income, expenses);
  }

  /**
   * With non-negative income, the new transactions of a regular account's month account for
   * the whole change of balance: opening plus their net equals the closing balance.
   */
  lemma RegularAccountDataReconciles(accountType: string, opening: real, income: real, closing: real)
    requires !IsDebtType(accountType) && income >= 0.0
    ensures var e := RegularAccountData(accountType, opening, income, closing).value;
      e.balance.opening + Net(e.transactions) == e.balance.closing
  {
    var expenses := RegularExpenses(opening, income, closing);
    TotalsAppend(IncomeRow(income), ExpenseRows(expenses));
    RowsFacts(income, expenses);
  }

  // ---------------------------------------------------------------------------------------
  // Closing-balance auto-adjustment
  // ---------------------------------------------------------------------------------------

  /** The opening balance of the month's record; a record created on the spot opens at 0. */
  function OpeningOf(record: Option<MonthlyBalance>): real
  {
    if record.Some? then record.value.opening else 0.0
  }

  /** The misc row that closes a gap between the stated and the expected closing balance. */
  function Adjustment(difference: real): seq<Transaction>
  {
    if Abs(difference) > Epsilon then
      if difference > 0.0 then [Transaction(MiscIncome, difference, "Miscellaneous")]
      else [Transaction(MiscExpense, Abs(difference), "Miscellaneous")]
    else []
  }

  /** The record after the month's transactions have been replaced by `txs`. */
  function Rebalanced(record: Option<MonthlyBalance>, closing: real, txs: seq<Transaction>): MonthEntry
  {
    MonthEntry(MonthlyBalance(OpeningOf(record), closing, IncomeTotal(txs), ExpenseTotal(txs)), txs)
  }

  /**
   * `set_closing_balance` as the route is written: the expected closing balance is computed from
   * ALL the month's transactions, including the misc rows an earlier adjustment added, and only
   * then are those misc rows deleted and a fresh one added.
   */
  function SetClosingBalanceAsWritten(record: Option<MonthlyBalance>, closing: real, txs: seq<Transaction>): MonthEntry
  {
    var difference := closing - (OpeningOf(record) + IncomeTotal(txs) - ExpenseTotal(txs));
    Rebalanced(record, closing, NonMisc(txs) + Adjustment(difference))
  }

  /**
   * The intended auto-adjustment: the expected closing balance is computed from the
   * transactions that survive, so the new misc row replaces the old ones instead of
   * being offset by them.
   */
  function SetClosingBalance(record: Option<MonthlyBalance>, closing: real, txs: seq<Transaction>): MonthEntry
  {
    Rebalanced(record, closing, Adjusted(OpeningOf(record), closing, NonMisc(txs)))
  }

  /** The kept rows followed by the misc row that makes them meet the closing balance. */
  function Adjusted(opening: real, closing: real, kept: seq<Transaction>): seq<Transaction>
  {
    kept + Adjustment(closing - (opening + IncomeTotal(kept) - ExpenseTotal(kept)))
  }

  /** The record agrees with its transactions to within a cent. */
  predicate Reconciled(b: MonthlyBalance)
  {
    Abs(b.opening + b.income - b.expenses - b.closing) <= Epsilon
  }

  lemma AdjustmentTotals(difference: real)
    ensures IncomeTotal(Adjustment(difference)) - ExpenseTotal(Adjustment(difference))
      == (if Abs(difference) > Epsilon then difference else 0.0)
    ensures NonMisc(Adjustment(difference)) == []
  {
    if Abs(difference) > Epsilon {
      if difference > 0.0 {
        Single(Transaction(MiscIncome, difference, "Miscellaneous"));
      } else {
        Single(Transaction(MiscExpense, Abs(difference), "Miscellaneous"));
      }
    }
  }

  /**
   * After the intended adjustment the record is reconciled: its opening balance plus income
   * less expenses meets the closing balance, exactly when a misc row was added and within a
   * cent when none was needed. The misc rows are replaced, and the other rows are kept.
   */
  lemma SetClosingBalanceReconciles(record: Option<MonthlyBalance>, closing: real, txs: seq<Transaction>)
    ensures var e := SetClosingBalance(record, closing, txs);
      && Reconciled(e.balance)
      && e.balance.closing == closing
      && e.balance.opening == OpeningOf(record)
      && NonMisc(e.transactions) == NonMisc(txs)
      && |e.transactions| <= |NonMisc(txs)| + 1
  {
    var kept := NonMisc(txs);
    var difference := closing - (OpeningOf(record) + IncomeTotal(kept) - ExpenseTotal(kept));
    TotalsAppend(kept, Adjustment(difference));
    AdjustmentTotals(difference);
    NonMiscAppend(kept, Adjustment(difference));
    NonMiscIdempotent(txs);
  }

  /** Submitting the same closing balance again changes nothing. */
  lemma SetClosingBalanceIdempotent(record: Option<MonthlyBalance>, closing: real, txs: seq<Transaction>)
    ensures var e := SetClosingBalance(record, closing, txs);
      SetClosingBalance(Some(e.balance), closing, e.transactions) == e
  {
    var kept := NonMisc(txs);
    var difference := closing - (OpeningOf(record) + IncomeTotal(kept) - ExpenseTotal(kept));
    var adjusted := Adjusted(OpeningOf(record), closing, kept);
    AdjustmentTotals(difference);
    NonMiscAppend(kept, Adjustment(difference));
    NonMiscIdempotent(txs);
    assert kept + [] == kept;
    assert NonMisc(adjusted) == kept;
  }

  /** On a month without misc rows the route as written does what was intended. */
  lemma AsWrittenAgreesWithoutMisc(record: Option<MonthlyBalance>, closing: real, txs: seq<Transaction>)
    requires forall i :: 0 <= i < |txs| ==> !IsMisc(txs[i].kind)
    ensures SetClosingBalanceAsWritten(record, closing, txs) == SetClosingBalance(record, closing, txs)
  {
    NonMiscNone(txs);
  }

  lemma {:induction false} NonMiscNone(txs: seq<Transaction>)
    requires forall i :: 0 <= i < |txs| ==> !IsMisc(txs[i].kind)
    ensures NonMisc(txs) == txs
  {
    if |txs| > 0 {
      NonMiscNone(txs[..|txs| - 1]);
    }
  }

  /**
   * Submitting the same closing balance twice, as written: the first submission adds a misc
   * income for the whole 100, the second finds the books balanced because that row is still
   * counted, deletes it and adds nothing, and the record ends un-reconciled by 100.
   */
  lemma DoubleSubmitDropsAdjustment()
    ensures var first := SetClosingBalanceAsWritten(None, 100.0, []);
      var second := SetClosingBalanceAsWritten(Some(first.balance), 100.0, first.transactions);
      && first.transactions == [Transaction(MiscIncome, 100.0, "Miscellaneous")]
      && Reconciled(first.balance)
      && second.transactions == []
      && !Reconciled(second.balance)
  {
    var first := SetClosingBalanceAsWritten(None, 100.0, []);
    var adj := [Transaction(MiscIncome, 100.0, "Miscellaneous")];
    assert NonMisc([]) == [];
    assert first.transactions == adj;
    assert adj[..0] == [];
    assert IncomeTotal(adj) == 100.0;
    assert NonMisc(adj) == [];
  }

  // ---------------------------------------------------------------------------------------
  // Fixed expenses and the dashboard
  // ---------------------------------------------------------------------------------------

  datatype FixedExpense = FixedExpense(amount: real, frequency: string, isActive: bool)

  /** Sum of the amounts of the active fixed expenses of one frequency. */
  function FrequencyTotal(expenses: seq<FixedExpense>, frequency: string): real
  {
    if |expenses| == 0 then 0.0
    else
      var e := expenses[|expenses| - 1];
      FrequencyTotal(expenses[..|expenses| - 1], frequency)
        + (if e.isActive && e.frequency == frequency then e.amount else 0.0)
  }

  /** The fixed-expenses page's total: monthly amounts plus a twelfth of yearly and a third of quarterly ones. */
  function MonthlyEquivalent(expenses: seq<FixedExpense>): real
  {
    FrequencyTotal(expenses, "monthly") + FrequencyTotal(expenses, "yearly") / 12.0
      + FrequencyTotal(expenses, "quarterly") / 3.0
  }

  /** What one fixed expense costs per month; inactive ones and unknown frequencies cost nothing. */
  function MonthlyShare(e: FixedExpense): real
  {
    if !e.isActive then 0.0
    else if e.frequency == "monthly" then e.amount
    else if e.frequency == "yearly" then e.amount / 12.0
    else if e.frequency == "quarterly" then e.amount / 3.0
    else 0.0
  }

  function SumOfShares(expenses: seq<FixedExpense>): real
  {
    if |expenses| == 0 then 0.0 else SumOfShares(expenses[..|expenses| - 1]) + MonthlyShare(expenses[|expenses| - 1])
  }

  /** The page's total equals the sum of the per-expense monthly costs. */
  lemma {:induction false} MonthlyEquivalentIsSumOfShares(expenses: seq<FixedExpense>)
    ensures MonthlyEquivalent(expenses) == SumOfShares(expenses)
  {
    if |expenses| > 0 {
      MonthlyEquivalentIsSumOfShares(expenses[..|expenses| - 1]);
    }
  }

  /** The dashboard's "actual expenses": computed expenses less investments, never below zero. */
  function ActualExpenses(calculatedExpenses: real, investments: real): (r: real)
    ensures r >= 0.0 && r >= calculatedExpenses - investments
    ensures r == 0.0 || r == calculatedExpenses - investments
  {
    Max(0.0, calculatedExpenses - investments)
  }

  // ---------------------------------------------------------------------------------------
  // Debt-payment history
  // ---------------------------------------------------------------------------------------

  datatype YearMonth = YearMonth(year: int, month: int)

  /** The `i`-th month back from (month, year), wrapping into the previous year at most once. */
  function MonthsBack(month: int, year: int, i: int): YearMonth
  {
    if month - i <= 0 then YearMonth(year - 1, month - i + 12) else YearMonth(year, month - i)
  }

  /** The months of the six-month payment history, newest first. */
  function HistoryMonths(month: int, year: int): (r: seq<YearMonth>)
    ensures |r| == 6
  {
    seq(6, i => MonthsBack(month, year, i))
  }

  /** Months counted from year 0, so that consecutive calendar months differ by one. */
  function Ordinal(ym: YearMonth): int
  {
    ym.year * 12 + ym.month
  }

  /** The history loop: one entry per month back, current month first. */
  method PaymentHistoryMonths(month: int, year: int) returns (history: seq<YearMonth>)
    ensures history == HistoryMonths(month, year)
  {
    history := [];
    for i := 0 to 6
      invariant history == seq(i, j => MonthsBack(month, year, j))
    {
      var histMonth := month - i;
      var histYear := year;
      if histMonth <= 0 {
        histMonth := histMonth + 12;
        histYear := histYear - 1;
      }
      history := history + [YearMonth(histYear, histMonth)];
    }
  }

  /**
   * For a calendar month, the history is six valid calendar months, each exactly one month
   * before the previous entry, starting at the current month.
   */
  lemma HistoryMonthsConsecutive(month: int, year: int)
    requires 1 <= month <= 12
    ensures var h := HistoryMonths(month, year);
      && h[0] == YearMonth(year, month)
      && (forall i :: 0 <= i < 6 ==> 1 <= h[i].month <= 12 && Ordinal(h[i]) == Ordinal(h[0]) - i)
  {
  }
}
