/**
 * The values the debt-payoff simulators work on: a debt taken from an account
 * snapshot, one debt's payment in one simulated month, one month of a payoff plan,
 * and the result of one simulated scenario (app.py:1229-1236, 1363-1377, 1385-1392).
 */
module Records {
  import opened Money
  import Sorting

  /** Both simulators stop after 30 years of months. */
  const MonthCap: nat := 360

  /**
   * One debt. app.py keeps it as a dict; each simulator copies the list of dicts and
   * then changes only `balance`.
   */
  datatype Debt = Debt(
    name: string,
    balance: real,
    minPayment: real,
    annualRate: real,
    monthlyRate: real,
    accountType: string)

  /** One debt's payment in one month (a `month_payments` entry). */
  datatype Payment = Payment(name: string, amount: real, isPaidOff: bool)

  /** One simulated month (a `monthly_plan` entry). */
  datatype MonthPlan = MonthPlan(payments: seq<Payment>, totalPayment: real, remainingDebt: real)

  /** What either simulator returns for one scenario. */
  datatype ScenarioResult = ScenarioResult(
    months: nat,
    extraPayment: real,
    consistentMonthlyPayment: real,
    monthlyPlan: seq<MonthPlan>,
    interestSaved: real,
    timeSavedMonths: int)

  function BalanceOf(d: Debt): real { d.balance }
  function MinPaymentOf(d: Debt): real { d.minPayment }

  /** `sum(d['balance'] for d in debts)`. */
  function TotalBalance(ds: seq<Debt>): real
  {
    if |ds| == 0 then 0.0 else TotalBalance(ds[..|ds| - 1]) + ds[|ds| - 1].balance
  }

  /** `sum(d['min_payment'] for d in debts)`. */
  function TotalMinPayments(ds: seq<Debt>): real
  {
    if |ds| == 0 then 0.0 else TotalMinPayments(ds[..|ds| - 1]) + ds[|ds| - 1].minPayment
  }

  /** Both totals are sums over the debts in the sense of `Sorting.SumBy`. */
  lemma {:induction false} TotalsAreSums(ds: seq<Debt>)
    ensures TotalBalance(ds) == Sorting.SumBy(ds, BalanceOf)
    ensures TotalMinPayments(ds) == Sorting.SumBy(ds, MinPaymentOf)
  {
    if |ds| > 0 {
      TotalsAreSums(ds[..|ds| - 1]);
    }
  }

  /** Sum of the amounts of a month's payment records. */
  function AmountPaid(ps: seq<Payment>): real
  {
    if |ps| == 0 then 0.0 else AmountPaid(ps[..|ps| - 1]) + ps[|ps| - 1].amount
  }

  /** `sum(month['total_payment'] for month in monthly_plan)`. */
  function TotalPaidOverPlan(plan: seq<MonthPlan>): real
  {
    if |plan| == 0 then 0.0 else TotalPaidOverPlan(plan[..|plan| - 1]) + plan[|plan| - 1].totalPayment
  }

  /** A plan without its last month. */
  function Front(plan: seq<MonthPlan>): (f: seq<MonthPlan>)
    ensures |plan| > 0 ==> |f| == |plan| - 1
  {
    if |plan| == 0 then [] else plan[..|plan| - 1]
  }

  /** Every month of the plan left more than 0.01 owing (as each month before the loop's last does). */
  ghost predicate AllLeftOwing(plan: seq<MonthPlan>)
  {
    forall j :: 0 <= j < |plan| ==> plan[j].remainingDebt > Epsilon
  }

  /** `any(d['balance'] > 0.01 for d in debts)`. */
  predicate AnyAbove(ds: seq<Debt>)
  {
    exists i :: 0 <= i < |ds| && ds[i].balance > Epsilon
  }

  /** How many debts are still above the paid-off threshold. */
  function CountAbove(ds: seq<Debt>): nat
  {
    if |ds| == 0 then 0
    else CountAbove(ds[..|ds| - 1]) + (if ds[|ds| - 1].balance > Epsilon then 1 else 0)
  }

  /**
   * Where debt `i`'s record sits in a month's payment list: each simulator appends one
   * record per debt above the threshold, in order, so it is the number of such debts
   * before `i` (the `debt_to_payment_map` of app.py:1421, 1442).
   */
  function PayIndex(s: seq<Debt>, i: nat): nat
    requires i <= |s|
  {
    CountAbove(s[..i])
  }

  lemma {:induction false} CountAbovePrefix(s: seq<Debt>, a: nat, b: nat)
    requires a <= b <= |s|
    ensures CountAbove(s[..a]) <= CountAbove(s[..b])
    decreases b - a
  {
    if a < b {
      CountAbovePrefix(s, a, b - 1);
      assert s[..b][..b - 1] == s[..b - 1];
    }
  }

  /** Records of distinct debts above the threshold sit at distinct, ordered positions. */
  lemma PayIndexOrdered(s: seq<Debt>, i: nat, j: nat)
    requires i < j <= |s| && s[i].balance > Epsilon
    ensures PayIndex(s, i) < PayIndex(s, j)
    ensures PayIndex(s, i) < CountAbove(s)
  {
    assert s[..i + 1][..i] == s[..i];
    CountAbovePrefix(s, i + 1, j);
    CountAbovePrefix(s, j, |s|);
    assert s[..|s|] == s;
  }

  /** Interest accrued on a debt this month, `balance * monthly_rate`. */
  function Interest(d: Debt): real { d.balance * d.monthlyRate }

  /**
   * The minimum payment capped at what is owed once interest is added,
   * `min(min_payment, balance + interest)` (app.py:1358, 1431).
   */
  function CappedMinimum(d: Debt): (r: real)
    ensures r <= d.minPayment && r <= d.balance + Interest(d)
    ensures r == d.minPayment || r == d.balance + Interest(d)
  {
    Min(d.minPayment, d.balance + Interest(d))
  }

  /** `b` is `a` with possibly different balances: the same debts in the same order. */
  ghost predicate SameDebts(a: seq<Debt>, b: seq<Debt>)
  {
    |a| == |b| && forall i :: 0 <= i < |a| ==> b[i] == a[i].(balance := b[i].balance)
  }

  /** Debts that differ only in their balances owe the same minimum payments in total. */
  lemma {:induction false} SameDebtsMinPayments(a: seq<Debt>, b: seq<Debt>)
    requires SameDebts(a, b)
    ensures TotalMinPayments(a) == TotalMinPayments(b)
  {
    if |a| > 0 {
      var n := |a| - 1;
      assert b[n] == a[n].(balance := b[n].balance);
      assert SameDebts(a[..n], b[..n]) by {
        forall i | 0 <= i < n ensures b[..n][i] == a[..n][i].(balance := b[..n][i].balance) {
          assert b[i] == a[i].(balance := b[i].balance);
        }
      }
      SameDebtsMinPayments(a[..n], b[..n]);
    }
  }

  lemma {:induction false} AnyAboveCount(ds: seq<Debt>)
    ensures AnyAbove(ds) <==> CountAbove(ds) > 0
  {
    if |ds| > 0 {
      var init := ds[..|ds| - 1];
      AnyAboveCount(init);
      if AnyAbove(init) {
        var i :| 0 <= i < |init| && init[i].balance > Epsilon;
        assert ds[i] == init[i];
      }
      if AnyAbove(ds) && ds[|ds| - 1].balance <= Epsilon {
        var i :| 0 <= i < |ds| && ds[i].balance > Epsilon;
        assert init[i] == ds[i];
      }
    }
  }

  /** Changing one debt's balance changes the count by that debt's change of status. */
  lemma {:induction false} CountAboveUpdate(ds: seq<Debt>, t: nat, d: Debt)
    requires t < |ds|
    ensures CountAbove(ds[t := d]) + (if ds[t].balance > Epsilon then 1 else 0)
         == CountAbove(ds) + (if d.balance > Epsilon then 1 else 0)
    decreases |ds|
  {
    var ds' := ds[t := d];
    if t < |ds| - 1 {
      assert ds'[..|ds'| - 1] == ds[..|ds| - 1][t := d];
      CountAboveUpdate(ds[..|ds| - 1], t, d);
    } else {
      assert ds'[..|ds'| - 1] == ds[..|ds| - 1];
    }
  }

  /** Changing one debt's balance changes the total balance by the difference. */
  lemma {:induction false} TotalBalanceUpdate(ds: seq<Debt>, t: nat, d: Debt)
    requires t < |ds|
    ensures TotalBalance(ds[t := d]) == TotalBalance(ds) - ds[t].balance + d.balance
    decreases |ds|
  {
    var ds' := ds[t := d];
    if t < |ds| - 1 {
      assert ds'[..|ds'| - 1] == ds[..|ds| - 1][t := d];
      TotalBalanceUpdate(ds[..|ds| - 1], t, d);
    } else {
      assert ds'[..|ds'| - 1] == ds[..|ds| - 1];
    }
  }

  /** Changing one payment record changes the amount paid by the difference. */
  lemma {:induction false} AmountPaidUpdate(ps: seq<Payment>, k: nat, p: Payment)
    requires k < |ps|
    ensures AmountPaid(ps[k := p]) == AmountPaid(ps) - ps[k].amount + p.amount
    decreases |ps|
  {
    var ps' := ps[k := p];
    if k < |ps| - 1 {
      assert ps'[..|ps'| - 1] == ps[..|ps| - 1][k := p];
      AmountPaidUpdate(ps[..|ps| - 1], k, p);
    } else {
      assert ps'[..|ps'| - 1] == ps[..|ps| - 1];
    }
  }

  lemma {:induction false} TotalBalanceNonNegative(ds: seq<Debt>)
    requires forall i :: 0 <= i < |ds| ==> ds[i].balance >= 0.0
    ensures TotalBalance(ds) >= 0.0
  {
    if |ds| > 0 {
      TotalBalanceNonNegative(ds[..|ds| - 1]);
    }
  }

  lemma {:induction false} TotalMinPaymentsNonNegative(ds: seq<Debt>)
    requires forall i :: 0 <= i < |ds| ==> ds[i].minPayment >= 0.0
    ensures TotalMinPayments(ds) >= 0.0
  {
    if |ds| > 0 {
      TotalMinPaymentsNonNegative(ds[..|ds| - 1]);
    }
  }
}
