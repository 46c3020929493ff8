/**
 * `calculate_minimum_payment_scenario` (app.py:1337-1392): the baseline run that pays
 * only each debt's minimum, in the caller's order, for at most 360 months.
 *
 * The specification follows the program's own structure: MinMonthState and
 * MinMonthPlan describe one month, MinLoop the `while` loop as a function of its
 * variables between two months. The method runs the loop over a copied array and is
 * proved equal to MinimumScenario.
 */
module MinimumPayments {
  import opened Money
  import opened Records

  /**
   * One debt after one minimum-only month. Interest is NOT added to the balance; the
   * principal, `max(0, payment - interest)`, is subtracted, so a minimum that does not
   * cover the interest leaves the balance where it was (app.py:1353-1361).
   */
  function MinDebtMonth(d: Debt): Debt
  {
    if d.balance > Epsilon then
      d.(balance := Max(0.0, d.balance - Max(0.0, CappedMinimum(d) - Interest(d))))
    else d
  }

  function MinMonthState(s: seq<Debt>): (r: seq<Debt>)
    ensures |r| == |s|
  {
    if |s| == 0 then [] else MinMonthState(s[..|s| - 1]) + [MinDebtMonth(s[|s| - 1])]
  }

  /** Each debt goes through the month on its own. */
  lemma {:induction false} MinMonthStateIndex(s: seq<Debt>)
    ensures forall i :: 0 <= i < |s| ==> MinMonthState(s)[i] == MinDebtMonth(s[i])
  {
    if |s| > 0 {
      MinMonthStateIndex(s[..|s| - 1]);
    }
  }

  /** The payment record of the first `n` debts, one per debt above the threshold. */
  function MinMonthPayments(s: seq<Debt>, n: nat): seq<Payment>
    requires n <= |s|
  {
    if n == 0 then []
    else
      MinMonthPayments(s, n - 1) +
        (if s[n - 1].balance > Epsilon
         then [Payment(s[n - 1].name, CappedMinimum(s[n - 1]), MinDebtMonth(s[n - 1]).balance <= Epsilon)]
         else [])
  }

  /** The running `total_payment` after the first `n` debts. */
  function MinMonthTotal(s: seq<Debt>, n: nat): real
    requires n <= |s|
  {
    if n == 0 then 0.0
    else MinMonthTotal(s, n - 1) + (if s[n - 1].balance > Epsilon then CappedMinimum(s[n - 1]) else 0.0)
  }

  /** The plan entry of a month that starts from debts `s`. */
  function MinMonthPlan(s: seq<Debt>): MonthPlan
  {
    MonthPlan(MinMonthPayments(s, |s|), MinMonthTotal(s, |s|), TotalBalance(MinMonthState(s)))
  }

  /** The loop variables between two months: the run's debts, `month` and `monthly_plan`. */
  datatype MinRun = MinRun(debts: seq<Debt>, month: nat, plan: seq<MonthPlan>)

  /**
   * The `while` loop of app.py:1346-1380 from loop state `r` on. It does not start
   * another month once no debt is above 0.01 or 360 months have run, and it leaves
   * right after a month whose `remaining_debt` is at most 0.01.
   */
  function MinLoop(r: MinRun): MinRun
    decreases MonthCap - r.month
  {
    if !AnyAbove(r.debts) || r.month >= MonthCap then r
    else if MinMonthPlan(r.debts).remainingDebt <= Epsilon then MinNext(r)
    else MinLoop(MinNext(r))
  }

  /** The loop variables after one more month. */
  function MinNext(r: MinRun): MinRun
  {
    MinRun(MinMonthState(r.debts), r.month + 1, r.plan + [MinMonthPlan(r.debts)])
  }

  /** The scenario `calculate_minimum_payment_scenario(debts)` returns. */
  function MinimumScenario(debts: seq<Debt>): ScenarioResult
  {
    var run := MinLoop(MinRun(debts, 0, []));
    ScenarioResult(run.month, 0.0, TotalMinPayments(debts), run.plan, 0.0, 0)
  }

  /** One month of the loop at app.py:1352-1371, in place on the run's copy of the debts. */
  method MinimumMonth(state: array<Debt>) returns (plan: MonthPlan)
    modifies state
    ensures state[..] == MinMonthState(old(state[..]))
    ensures plan == MinMonthPlan(old(state[..]))
  {
    ghost var start := state[..];
    var monthPayments: seq<Payment> := [];
    var totalPayment := 0.0;
    var remainingDebt := 0.0;
    for i := 0 to state.Length
      invariant forall j :: 0 <= j < i ==> state[j] == MinDebtMonth(start[j])
      invariant forall j :: i <= j < state.Length ==> state[j] == start[j]
      invariant monthPayments == MinMonthPayments(start, i)
      invariant totalPayment == MinMonthTotal(start, i)
      invariant remainingDebt == TotalBalance(state[..i])
    {
      var debt := state[i];
      if debt.balance > Epsilon {
        var interest := Interest(debt);
        var payment := Min(debt.minPayment, debt.balance + interest);
        var principal := Max(0.0, payment - interest);
        state[i] := debt.(balance := Max(0.0, debt.balance - principal));
        monthPayments := monthPayments + [Payment(debt.name, payment, state[i].balance <= Epsilon)];
        totalPayment := totalPayment + payment;
      }
      assert state[..i + 1][..i] == state[..i];
      remainingDebt := remainingDebt + state[i].balance;
    }
    MinMonthStateIndex(start);
    assert state[..] == MinMonthState(start);
    assert state[..] == state[..state.Length];
    plan := MonthPlan(monthPayments, totalPayment, remainingDebt);
  }

  method CalculateMinimumPaymentScenario(debts: seq<Debt>) returns (r: ScenarioResult)
    ensures r == MinimumScenario(debts)
  {
    var state := new Debt[|debts|](i requires 0 <= i < |debts| => debts[i]);
    assert state[..] == debts;
    var monthlyPlan: seq<MonthPlan> := [];
    var month: nat := 0;
    ghost var goal := MinLoop(MinRun(debts, 0, []));
    while AnyAbove(state[..]) && month < MonthCap
      invariant MinLoop(MinRun(state[..], month, monthlyPlan)) == goal
      decreases MonthCap - month
    {
      ghost var before := MinRun(state[..], month, monthlyPlan);
      MinLoopStep(before);
      var entry := MinimumMonth(state);
      monthlyPlan := monthlyPlan + [entry];
      month := month + 1;
      assert MinRun(state[..], month, monthlyPlan) == MinNext(before);
      if entry.remainingDebt <= Epsilon {
        assert MinRun(state[..], month, monthlyPlan) == goal;
        break;
      }
    }
    MinLoopEnd(MinRun(state[..], month, monthlyPlan));
    r := ScenarioResult(month, 0.0, TotalMinPayments(debts), monthlyPlan, 0.0, 0);
  }

  /** One more month of the loop, when its guard holds. */
  lemma MinLoopStep(r: MinRun)
    requires AnyAbove(r.debts) && r.month < MonthCap
    ensures MinLoop(r) == if MinMonthPlan(r.debts).remainingDebt <= Epsilon then MinNext(r) else MinLoop(MinNext(r))
  {
  }

  /** The loop leaves its state alone once its guard fails. */
  lemma MinLoopEnd(r: MinRun)
    ensures !AnyAbove(r.debts) || r.month >= MonthCap ==> MinLoop(r) == r
  {
  }

  // ---------------------------------------------------------------------------
  // What the baseline run promises.

  /** From the head of the loop, the run ends within 360 months with one plan entry per month. */
  lemma {:induction false} MinLoopShape(r: MinRun)
    requires r.month <= MonthCap && |r.plan| == r.month
    ensures var o := MinLoop(r); r.month <= o.month <= MonthCap && |o.plan| == o.month
    decreases MonthCap - r.month
  {
    if AnyAbove(r.debts) && r.month < MonthCap && MinMonthPlan(r.debts).remainingDebt > Epsilon {
      MinLoopShape(MinNext(r));
    }
  }

  /** The loop only appends to the plan: the months recorded so far stay as they are. */
  lemma {:induction false} MinLoopExtends(r: MinRun)
    ensures r.plan <= MinLoop(r).plan
    decreases MonthCap - r.month
  {
    if AnyAbove(r.debts) && r.month < MonthCap && MinMonthPlan(r.debts).remainingDebt > Epsilon {
      MinLoopExtends(MinNext(r));
    }
  }

  /** From the head of the loop, every month the run records but the last leaves more than 0.01 owing. */
  lemma {:induction false} MinLoopOwingUntilLast(r: MinRun)
    requires AllLeftOwing(r.plan)
    ensures AllLeftOwing(Front(MinLoop(r).plan))
    decreases MonthCap - r.month
  {
    if AnyAbove(r.debts) && r.month < MonthCap {
      var next := MinNext(r);
      assert Front(next.plan) == r.plan;
      if MinMonthPlan(r.debts).remainingDebt > Epsilon {
        MinLoopOwingUntilLast(next);
      }
    }
  }

  /**
   * From the head of the loop, unless the cap is reached the run ends with no debt above
   * 0.01 or right after a month it recorded that left at most 0.01 owing.
   */
  lemma {:induction false} MinLoopStops(r: MinRun)
    ensures var o := MinLoop(r);
      o.month < MonthCap ==>
        !AnyAbove(o.debts) || (|o.plan| > |r.plan| && o.plan[|o.plan| - 1].remainingDebt <= Epsilon)
    decreases MonthCap - r.month
  {
    if AnyAbove(r.debts) && r.month < MonthCap && MinMonthPlan(r.debts).remainingDebt > Epsilon {
      MinLoopStops(MinNext(r));
    }
  }

  /**
   * The baseline runs at most 360 months, records exactly one plan entry per month it
   * runs, and reports no extra payment and no savings.
   */
  lemma MinimumScenarioShape(debts: seq<Debt>)
    ensures var r := MinimumScenario(debts);
      && r.months <= MonthCap
      && |r.monthlyPlan| == r.months
      && r.extraPayment == 0.0
      && r.consistentMonthlyPayment == TotalMinPayments(debts)
      && r.interestSaved == 0.0 && r.timeSavedMonths == 0
  {
    MinLoopShape(MinRun(debts, 0, []));
  }

  /**
   * The baseline stops as soon as it may: every month but the last left more than 0.01
   * owing, and unless the cap was reached, the last month left at most 0.01 owing or
   * the run ended with no debt above 0.01.
   */
  lemma MinimumStopsAsSoonAsPaidOff(debts: seq<Debt>)
    ensures var r := MinimumScenario(debts);
      && |r.monthlyPlan| == r.months
      && (forall j :: 0 <= j < r.months - 1 ==> r.monthlyPlan[j].remainingDebt > Epsilon)
      && (r.months < MonthCap ==>
            !AnyAbove(MinLoop(MinRun(debts, 0, [])).debts)
            || (r.months > 0 && r.monthlyPlan[r.months - 1].remainingDebt <= Epsilon))
  {
    MinLoopShape(MinRun(debts, 0, []));
    MinLoopOwingUntilLast(MinRun(debts, 0, []));
    MinLoopStops(MinRun(debts, 0, []));
  }

  /** A minimum-only month keeps every debt but its balance, which never rises and never goes below 0. */
  lemma MinMonthStateFacts(s: seq<Debt>)
    ensures SameDebts(s, MinMonthState(s))
    ensures forall i :: 0 <= i < |s| ==> MinMonthState(s)[i].balance <= s[i].balance
    ensures forall i :: 0 <= i < |s| && s[i].balance >= 0.0 ==> MinMonthState(s)[i].balance >= 0.0
  {
    MinMonthStateIndex(s);
  }

  lemma {:induction false} TotalBalanceMonotone(a: seq<Debt>, b: seq<Debt>)
    requires |a| == |b|
    requires forall i :: 0 <= i < |a| ==> b[i].balance <= a[i].balance
    ensures TotalBalance(b) <= TotalBalance(a)
  {
    if |a| > 0 {
      TotalBalanceMonotone(a[..|a| - 1], b[..|b| - 1]);
    }
  }

  /** The amounts owed that the plan records never rise from one month to a later one. */
  ghost predicate NonIncreasing(plan: seq<MonthPlan>)
  {
    forall i, j :: 0 <= i <= j < |plan| ==> plan[j].remainingDebt <= plan[i].remainingDebt
  }

  /**
   * Along the run each debt keeps its identity, no balance rises and a non-negative
   * balance stays so.
   */
  lemma {:induction false} MinLoopKeepsDebts(r: MinRun)
    ensures var o := MinLoop(r);
      && SameDebts(r.debts, o.debts)
      && (forall i :: 0 <= i < |r.debts| ==> o.debts[i].balance <= r.debts[i].balance)
      && (forall i :: 0 <= i < |r.debts| && r.debts[i].balance >= 0.0 ==> o.debts[i].balance >= 0.0)
    decreases MonthCap - r.month
  {
    if AnyAbove(r.debts) && r.month < MonthCap {
      var entry := MinMonthPlan(r.debts);
      MinMonthStateFacts(r.debts);
      if entry.remainingDebt > Epsilon {
        MinLoopKeepsDebts(MinNext(r));
      }
    }
  }

  lemma NonIncreasingAppend(plan: seq<MonthPlan>, entry: MonthPlan)
    requires NonIncreasing(plan)
    requires |plan| > 0 ==> entry.remainingDebt <= plan[|plan| - 1].remainingDebt
    ensures NonIncreasing(plan + [entry])
  {
    var p := plan + [entry];
    forall i, j | 0 <= i <= j < |p| ensures p[j].remainingDebt <= p[i].remainingDebt {
      if j == |plan| && i < j {
        assert plan[|plan| - 1].remainingDebt <= plan[i].remainingDebt;
      }
    }
  }

  /** A minimum-only month never raises the total owed. */
  lemma MinMonthOwesNoMore(s: seq<Debt>)
    ensures TotalBalance(MinMonthState(s)) <= TotalBalance(s)
  {
    MinMonthStateFacts(s);
    TotalBalanceMonotone(s, MinMonthState(s));
  }

  /**
   * Along the run the amount owed that the months record never rises: each month
   * records the total balance after it, and a month never raises that total.
   */
  lemma {:induction false} MinLoopRemaining(r: MinRun)
    requires NonIncreasing(r.plan)
    requires |r.plan| > 0 ==> r.plan[|r.plan| - 1].remainingDebt == TotalBalance(r.debts)
    ensures NonIncreasing(MinLoop(r).plan)
    decreases MonthCap - r.month
  {
    if AnyAbove(r.debts) && r.month < MonthCap {
      var entry := MinMonthPlan(r.debts);
      var plan := r.plan + [entry];
      MinMonthOwesNoMore(r.debts);
      NonIncreasingAppend(r.plan, entry);
      if entry.remainingDebt > Epsilon {
        MinLoopRemaining(MinNext(r));
      }
    }
  }

  /**
   * The amount still owed never rises from one baseline month to a later one, whatever
   * the rates: an unpaid interest charge is never added to a balance.
   */
  lemma MinRemainingDebtNonIncreasing(debts: seq<Debt>)
    ensures NonIncreasing(MinimumScenario(debts).monthlyPlan)
  {
    MinLoopRemaining(MinRun(debts, 0, []));
  }

  /** A month's record holds one payment per debt above 0.01, in order. */
  lemma {:induction false} MinMonthPaymentsLength(s: seq<Debt>, n: nat)
    requires n <= |s|
    ensures |MinMonthPayments(s, n)| == CountAbove(s[..n])
  {
    if n > 0 {
      MinMonthPaymentsLength(s, n - 1);
      assert s[..n][..n - 1] == s[..n - 1];
    }
  }

  /** A month's `total_payment` is the sum of the payments it records. */
  lemma {:induction false} MinMonthPaymentsTotal(s: seq<Debt>, n: nat)
    requires n <= |s|
    ensures MinMonthTotal(s, n) == AmountPaid(MinMonthPayments(s, n))
  {
    if n > 0 {
      MinMonthPaymentsTotal(s, n - 1);
      var ps := MinMonthPayments(s, n);
      var ps' := MinMonthPayments(s, n - 1);
      if s[n - 1].balance > Epsilon {
        assert ps[..|ps| - 1] == ps';
      } else {
        assert ps == ps';
      }
    }
  }

  /**
   * The record of debt `i`, a debt above 0.01, names it, pays its minimum capped at what
   * it owes with interest, and is marked paid off exactly when its new balance is at most 0.01.
   */
  lemma {:induction false} MinMonthPaymentOf(s: seq<Debt>, n: nat, i: nat)
    requires i < n <= |s| && s[i].balance > Epsilon
    ensures PayIndex(s, i) < |MinMonthPayments(s, n)|
    ensures MinMonthPayments(s, n)[PayIndex(s, i)]
         == Payment(s[i].name, CappedMinimum(s[i]), MinMonthState(s)[i].balance <= Epsilon)
  {
    MinMonthStateIndex(s);
    MinMonthPaymentsLength(s, n - 1);
    if i < n - 1 {
      MinMonthPaymentOf(s, n - 1, i);
    } else {
      assert s[..n - 1] == s[..i];
    }
  }
}
