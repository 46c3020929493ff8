/**
 * Where the two simulators part ways on the same debts: each lemma takes a single debt
 * and follows one month of both runs.
 */
module SimulatorQuirks {
  import opened Money
  import opened Records
  import opened Avalanche
  import opened MinimumPayments
  import AvalancheFacts
  import Sorting

  /**
   * A debt cleared by its minimum payment alone: the baseline run marks the payment
   * paid off (app.py:1363-1367), the avalanche run leaves the mark False, because only
   * the overflow phase sets it and the overflow finds no debt left to pay
   * (app.py:1436-1440, 1473), whatever the budget.
   */
  lemma PaidOffByMinimumNotMarked(d: Debt, budget: real)
    requires d.balance > Epsilon && d.minPayment >= d.balance + Interest(d)
    ensures MinMonthPlan([d]).payments == [Payment(d.name, d.balance + Interest(d), true)]
    ensures MinMonthPlan([d]).remainingDebt == 0.0
    ensures AvMonthPlan([d], budget).payments == [Payment(d.name, d.balance + Interest(d), false)]
    ensures AvMonthPlan([d], budget).remainingDebt == 0.0
  {
    var s := [d];
    assert s[..0] == [];
    assert CappedMinimum(d) == d.balance + Interest(d);
    assert MinDebtMonth(d).balance == 0.0;
    assert MinMonthState(s) == [MinDebtMonth(d)];
    assert MinMonthPayments(s, 1) == [Payment(d.name, d.balance + Interest(d), true)];
    assert TotalBalance(MinMonthState(s)) == 0.0;
    var m := AvAfterMinimum(s, budget);
    assert AvMinState(s) == [AvMinDebt(d)];
    assert AvMinDebt(d).balance == 0.0;
    assert m.payments == AvMinPayments(s, 1) == [Payment(d.name, d.balance + Interest(d), false)];
    assert !AnyAbove(m.debts);
    assert AvMonth(s, budget) == m;
    assert TotalBalance(m.debts) == 0.0;
  }

  /**
   * A debt whose minimum does not cover its interest: the baseline run subtracts only
   * `max(0, payment - interest)` of principal and so leaves the balance where it was
   * (app.py:1353-1361); the avalanche run adds the interest first (app.py:1431-1434),
   * so the same budget leaves the balance higher.
   */
  lemma UnpaidInterest(d: Debt)
    requires d.balance > Epsilon && 0.0 <= d.minPayment < Interest(d)
    ensures MinMonthPlan([d]).remainingDebt == d.balance
    ensures AvMonthPlan([d], d.minPayment).remainingDebt == d.balance + Interest(d) - d.minPayment
    ensures AvMonthPlan([d], d.minPayment).remainingDebt > d.balance
  {
    var s := [d];
    assert s[..0] == [];
    assert CappedMinimum(d) == d.minPayment;
    assert MinDebtMonth(d) == d;
    assert MinMonthState(s) == [d];
    assert TotalBalance(s) == d.balance;
    var m := AvAfterMinimum(s, d.minPayment);
    assert AvMinState(s) == [AvMinDebt(d)];
    assert AvMinTotal(s, 1) == d.minPayment;
    assert m.remaining == 0.0;
    assert AvMonth(s, d.minPayment) == m;
  }

  /**
   * Hence the scenario with no extra is not the minimum-only baseline: on such a debt
   * their first months already end with different balances.
   */
  lemma ZeroExtraDiffersFromBaseline(d: Debt)
    requires d.balance > Epsilon && 0.0 <= d.minPayment < Interest(d)
    ensures |MinimumScenario([d]).monthlyPlan| > 0 && |AvalancheScenario([d], 0.0).monthlyPlan| > 0
    ensures MinimumScenario([d]).monthlyPlan[0].remainingDebt == d.balance
    ensures AvalancheScenario([d], 0.0).monthlyPlan[0].remainingDebt > d.balance
  {
    var s := [d];
    assert s[..0] == [];
    assert AnyAbove(s) by { assert s[0].balance > Epsilon; }
    UnpaidInterest(d);
    var r0 := MinRun(s, 0, []);
    MinLoopStep(r0);
    MinLoopExtends(MinNext(r0));
    assert MinimumScenario(s).monthlyPlan == MinLoop(r0).plan;
    assert SortByRate(s) == s by {
      assert Sorting.SortBy(s[..0], NegRate) == [];
      assert Sorting.Insert(d, [], NegRate) == [d];
    }
    assert TotalMinPayments(s) == d.minPayment;
    var a0 := AvStart(s);
    AvLoopStep(d.minPayment, a0);
    AvalancheFacts.AvLoopExtends(d.minPayment, AvNext(d.minPayment, a0));
    assert AvalancheScenario(s, 0.0).monthlyPlan == AvLoop(d.minPayment, a0).plan;
  }
}
