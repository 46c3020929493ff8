/**
 * What the avalanche run of app.py:1394-1504 promises, proved about the functions of
 * module Avalanche: the payoff order, the overflow phase's priority, conservation and
 * termination, each month's budget, and the shape of the result.
 */
module AvalancheFacts {
  import opened Money
  import opened Records
  import Sorting
  import opened Avalanche
  import MinimumPayments

  // ---------------------------------------------------------------------------
  // The payoff order (app.py:1397).

  /**
   * The run pays the debts in an order that is a permutation of the input, highest
   * annual rate first, with debts of equal rate in their input order.
   */
  lemma SortByRateOrder(debts: seq<Debt>)
    ensures multiset(SortByRate(debts)) == multiset(debts)
    ensures |SortByRate(debts)| == |debts|
    ensures forall i, j :: 0 <= i < j < |debts| ==> SortByRate(debts)[i].annualRate >= SortByRate(debts)[j].annualRate
    ensures forall q :: Sorting.WithKey(SortByRate(debts), NegRate, q) == Sorting.WithKey(debts, NegRate, q)
  {
    Sorting.SortBySortsAndPermutes(debts, NegRate);
    var sorted := SortByRate(debts);
    assert |sorted| == |debts| by {
      assert |multiset(sorted)| == |multiset(debts)|;
    }
    forall i, j | 0 <= i < j < |debts| ensures sorted[i].annualRate >= sorted[j].annualRate {
      assert NegRate(sorted[i]) <= NegRate(sorted[j]);
    }
    forall q ensures Sorting.WithKey(sorted, NegRate, q) == Sorting.WithKey(debts, NegRate, q) {
      Sorting.SortByStable(debts, NegRate, q);
    }
  }

  /** Sorting does not change the total of the minimum payments, so neither does the budget. */
  lemma SortByRateMinPayments(debts: seq<Debt>)
    ensures TotalMinPayments(SortByRate(debts)) == TotalMinPayments(debts)
  {
    TotalsAreSums(debts);
    TotalsAreSums(SortByRate(debts));
    Sorting.SumBySort(debts, NegRate, MinPaymentOf);
  }

  // ---------------------------------------------------------------------------
  // The overflow phase (app.py:1449-1476).

  /** `b` is `a` after some payments: no balance is higher, and none has gone below 0. */
  ghost predicate PaidDown(a: seq<Debt>, b: seq<Debt>)
    requires |a| == |b|
  {
    && (forall i :: 0 <= i < |a| ==> b[i].balance <= a[i].balance)
    && (forall i :: 0 <= i < |a| && a[i].balance >= 0.0 ==> b[i].balance >= 0.0)
  }

  /** Going from `a` to `b` left every debt at or below 0.01 as it was. */
  ghost predicate PaidOffUntouched(a: seq<Debt>, b: seq<Debt>)
    requires |a| == |b|
  {
    forall i :: 0 <= i < |a| && a[i].balance <= Epsilon ==> b[i] == a[i]
  }

  /** The overflow loop changes nothing but balances. */
  lemma {:induction false} OverflowKeepsDebts(start: seq<Debt>, m: Month)
    requires |m.debts| == |start| && |m.payments| == CountAbove(start)
    ensures SameDebts(m.debts, Overflow(start, m).debts)
    decreases CountAbove(m.debts) + (if m.remaining > Epsilon then 1 else 0)
  {
    if m.remaining > Epsilon && AnyAbove(m.debts) {
      var t := FirstAbove(m.debts);
      if start[t].balance > Epsilon {
        PayExtraDecreases(start, m, t);
        var next := PayExtra(start, m, t);
        assert next.debts == m.debts[t := next.debts[t]];
        OverflowKeepsDebts(start, next);
      }
    }
  }

  /** The overflow loop only pays debts down. */
  lemma {:induction false} OverflowPaysDown(start: seq<Debt>, m: Month)
    requires |m.debts| == |start| && |m.payments| == CountAbove(start)
    ensures PaidDown(m.debts, Overflow(start, m).debts)
    decreases CountAbove(m.debts) + (if m.remaining > Epsilon then 1 else 0)
  {
    if m.remaining > Epsilon && AnyAbove(m.debts) {
      var t := FirstAbove(m.debts);
      if start[t].balance > Epsilon {
        PayExtraDecreases(start, m, t);
        var next := PayExtra(start, m, t);
        assert next.debts == m.debts[t := next.debts[t]];
        OverflowPaysDown(start, next);
      }
    }
  }

  /** The overflow loop never touches a debt at or below 0.01. */
  lemma {:induction false} OverflowLeavesPaidOff(start: seq<Debt>, m: Month)
    requires |m.debts| == |start| && |m.payments| == CountAbove(start)
    ensures PaidOffUntouched(m.debts, Overflow(start, m).debts)
    decreases CountAbove(m.debts) + (if m.remaining > Epsilon then 1 else 0)
  {
    if m.remaining > Epsilon && AnyAbove(m.debts) {
      var t := FirstAbove(m.debts);
      if start[t].balance > Epsilon {
        PayExtraDecreases(start, m, t);
        var next := PayExtra(start, m, t);
        assert next.debts == m.debts[t := next.debts[t]];
        OverflowLeavesPaidOff(start, next);
      }
    }
  }

  /**
   * The overflow loop moves money from `remaining_extra` to `total_payment` and never
   * overdraws: their sum is unchanged, and a non-negative remainder stays non-negative
   * and never grows.
   */
  lemma {:induction false} OverflowConserves(start: seq<Debt>, m: Month)
    requires |m.debts| == |start| && |m.payments| == CountAbove(start)
    ensures var r := Overflow(start, m);
      && r.total + r.remaining == m.total + m.remaining
      && (m.remaining >= 0.0 ==> 0.0 <= r.remaining <= m.remaining)
    decreases CountAbove(m.debts) + (if m.remaining > Epsilon then 1 else 0)
  {
    if m.remaining > Epsilon && AnyAbove(m.debts) {
      var t := FirstAbove(m.debts);
      if start[t].balance > Epsilon {
        PayExtraDecreases(start, m, t);
        OverflowConserves(start, PayExtra(start, m, t));
      }
    }
  }

  /**
   * Going from `a` to `b`, a debt's balance went down only where every debt before it
   * ended at or below 0.01.
   */
  ghost predicate PaidInOrder(a: seq<Debt>, b: seq<Debt>)
    requires |a| == |b|
  {
    forall t, j :: 0 <= j < t < |a| && b[t].balance < a[t].balance ==> b[j].balance <= Epsilon
  }

  /**
   * Priority: the overflow loop gives extra money to a debt only if every debt before it
   * in the sorted order ends the month at or below 0.01.
   */
  lemma {:induction false} OverflowPriority(start: seq<Debt>, m: Month)
    requires |m.debts| == |start| && |m.payments| == CountAbove(start)
    ensures PaidInOrder(m.debts, Overflow(start, m).debts)
    decreases CountAbove(m.debts) + (if m.remaining > Epsilon then 1 else 0)
  {
    if m.remaining > Epsilon && AnyAbove(m.debts) {
      var t0 := FirstAbove(m.debts);
      if start[t0].balance > Epsilon {
        PayExtraDecreases(start, m, t0);
        var next := PayExtra(start, m, t0);
        var r := Overflow(start, next);
        assert next.debts == m.debts[t0 := next.debts[t0]];
        OverflowPriority(start, next);
        OverflowPaysDown(start, next);
        forall t, j | 0 <= j < t < |m.debts| && r.debts[t].balance < m.debts[t].balance
          ensures r.debts[j].balance <= Epsilon
        {
          if t == t0 {
            assert r.debts[j].balance <= next.debts[j].balance == m.debts[j].balance;
          } else {
            assert r.debts[t].balance < next.debts[t].balance;
          }
        }
      }
    }
  }

  /**
   * Every debt above 0.01 has a payment record this month, so the overflow loop ends
   * only when the budget is spent down to 0.01 or no debt is above 0.01: the source's
   * `target_debt_idx not in debt_to_payment_map` exit is never taken.
   */
  lemma {:induction false} OverflowSpends(start: seq<Debt>, m: Month)
    requires |m.debts| == |start| && |m.payments| == CountAbove(start)
    requires forall i :: 0 <= i < |start| && start[i].balance <= Epsilon ==> m.debts[i].balance <= Epsilon
    ensures var r := Overflow(start, m); r.remaining <= Epsilon || !AnyAbove(r.debts)
    decreases CountAbove(m.debts) + (if m.remaining > Epsilon then 1 else 0)
  {
    if m.remaining > Epsilon && AnyAbove(m.debts) {
      var t := FirstAbove(m.debts);
      assert start[t].balance > Epsilon;
      PayExtraDecreases(start, m, t);
      var next := PayExtra(start, m, t);
      assert next.debts == m.debts[t := next.debts[t]];
      OverflowSpends(start, next);
    }
  }

  /**
   * One pass of the overflow loop touches only its target and the target's own record:
   * the record gains exactly what comes off the target's balance and off the remaining
   * budget, and is marked paid off exactly when the new balance is at most 0.01
   * (app.py:1466-1476).
   */
  lemma PayExtraRecord(start: seq<Debt>, m: Month, t: nat)
    requires |m.debts| == |start| && |m.payments| == CountAbove(start)
    requires t < |start| && start[t].balance > Epsilon
    ensures PayIndex(start, t) < |m.payments|
    ensures var r := PayExtra(start, m, t); var k := PayIndex(start, t);
      && r.payments[k].name == m.payments[k].name
      && r.payments[k].amount - m.payments[k].amount == m.debts[t].balance - r.debts[t].balance
      && r.payments[k].amount - m.payments[k].amount == m.remaining - r.remaining
      && r.total - m.total == m.remaining - r.remaining
      && (m.remaining > 0.0 && m.debts[t].balance > 0.0 ==> r.remaining < m.remaining)
      && (r.payments[k].isPaidOff <==> r.debts[t].balance <= Epsilon)
      && (forall j :: 0 <= j < |m.payments| && j != k ==> r.payments[j] == m.payments[j])
      && (forall i :: 0 <= i < |start| && i != t ==> r.debts[i] == m.debts[i])
  {
    PayIndexOrdered(start, t, |start|);
  }

  /** Over the whole overflow loop, `total_payment` grows by what the records gain. */
  lemma {:induction false} OverflowTotal(start: seq<Debt>, m: Month)
    requires |m.debts| == |start| && |m.payments| == CountAbove(start)
    ensures Overflow(start, m).total - AmountPaid(Overflow(start, m).payments) == m.total - AmountPaid(m.payments)
    decreases CountAbove(m.debts) + (if m.remaining > Epsilon then 1 else 0)
  {
    if m.remaining > Epsilon && AnyAbove(m.debts) {
      var t := FirstAbove(m.debts);
      if start[t].balance > Epsilon {
        PayExtraDecreases(start, m, t);
        PayExtraRecord(start, m, t);
        var next := PayExtra(start, m, t);
        var k := PayIndex(start, t);
        assert next.payments == m.payments[k := next.payments[k]];
        AmountPaidUpdate(m.payments, k, next.payments[k]);
        OverflowTotal(start, next);
      }
    }
  }

  /**
   * How debt `t`'s record in state `m` relates to the state `m0` the overflow phase began
   * in: same name, its amount grown by what came off the debt's balance since, and it is
   * marked paid off exactly when the debt got extra money and is now at most 0.01.
   */
  ghost predicate RecordFollows(start: seq<Debt>, m0: Month, m: Month, t: nat)
    requires |m0.debts| == |start| && |m0.payments| == CountAbove(start)
    requires |m.debts| == |start| && |m.payments| == CountAbove(start)
    requires t < |start|
  {
    var k := PayIndex(start, t);
    && k < |m.payments|
    && m.payments[k].name == m0.payments[k].name
    && m.payments[k].amount - m0.payments[k].amount == m0.debts[t].balance - m.debts[t].balance
    && m.payments[k].amount >= m0.payments[k].amount
    && (m.payments[k].isPaidOff <==> m.payments[k].amount > m0.payments[k].amount && m.debts[t].balance <= Epsilon)
  }

  ghost predicate RecordsFollow(start: seq<Debt>, m0: Month, m: Month)
    requires |m0.debts| == |start| && |m0.payments| == CountAbove(start)
    requires |m.debts| == |start| && |m.payments| == CountAbove(start)
  {
    forall t :: 0 <= t < |start| && start[t].balance > Epsilon ==> RecordFollows(start, m0, m, t)
  }

  /** The overflow loop keeps every debt's record in step with the debt. */
  lemma {:induction false} OverflowRecords(start: seq<Debt>, m0: Month, m: Month)
    requires |m0.debts| == |start| && |m0.payments| == CountAbove(start)
    requires |m.debts| == |start| && |m.payments| == CountAbove(start)
    requires RecordsFollow(start, m0, m)
    ensures RecordsFollow(start, m0, Overflow(start, m))
    decreases CountAbove(m.debts) + (if m.remaining > Epsilon then 1 else 0)
  {
    if m.remaining > Epsilon && AnyAbove(m.debts) {
      var t := FirstAbove(m.debts);
      if start[t].balance > Epsilon {
        PayExtraDecreases(start, m, t);
        PayExtraRecord(start, m, t);
        var next := PayExtra(start, m, t);
        forall i | 0 <= i < |start| && start[i].balance > Epsilon
          ensures RecordFollows(start, m0, next, i)
        {
          assert RecordFollows(start, m0, m, i);
          if i < t {
            PayIndexOrdered(start, i, t);
          } else if i > t {
            PayIndexOrdered(start, t, i);
          }
        }
        OverflowRecords(start, m0, next);
      }
    }
  }

  // ---------------------------------------------------------------------------
  // One avalanche month.

  /** The minimum phase changes only the balances of debts above 0.01, leaving them at 0 or more. */
  lemma AvMinStateFacts(s: seq<Debt>)
    ensures SameDebts(s, AvMinState(s))
    ensures forall i :: 0 <= i < |s| && s[i].balance > Epsilon ==> AvMinState(s)[i].balance >= 0.0
    ensures PaidOffUntouched(s, AvMinState(s))
  {
    AvMinStateIndex(s);
  }

  /**
   * A month changes only balances; a debt at or below 0.01 is untouched and every
   * other debt ends the month at 0 or more.
   */
  lemma AvMonthKeeps(s: seq<Debt>, budget: real)
    ensures SameDebts(s, AvMonth(s, budget).debts)
    ensures forall i :: 0 <= i < |s| && s[i].balance > Epsilon ==> AvMonth(s, budget).debts[i].balance >= 0.0
    ensures PaidOffUntouched(s, AvMonth(s, budget).debts)
  {
    AvMinStateFacts(s);
    OverflowKeepsDebts(s, AvAfterMinimum(s, budget));
    OverflowPaysDown(s, AvAfterMinimum(s, budget));
    OverflowLeavesPaidOff(s, AvAfterMinimum(s, budget));
  }

  /**
   * A month spends its budget: `total_payment` plus what is left over is the budget,
   * and unless every debt is paid off at most 0.01 is left over.
   */
  lemma AvMonthSpends(s: seq<Debt>, budget: real)
    ensures AvMonth(s, budget).total + AvMonth(s, budget).remaining == budget
    ensures AvMonth(s, budget).remaining <= Epsilon || !AnyAbove(AvMonth(s, budget).debts)
  {
    AvMinStateFacts(s);
    OverflowConserves(s, AvAfterMinimum(s, budget));
    OverflowSpends(s, AvAfterMinimum(s, budget));
  }

  /** The month's minimums never exceed the debts' minimum payments when these are not negative. */
  lemma {:induction false} AvMinTotalCovered(s: seq<Debt>, n: nat)
    requires n <= |s|
    requires forall i :: 0 <= i < |s| ==> s[i].minPayment >= 0.0
    ensures AvMinTotal(s, n) <= TotalMinPayments(s[..n])
  {
    if n > 0 {
      AvMinTotalCovered(s, n - 1);
      assert s[..n][..n - 1] == s[..n - 1];
    }
  }

  /**
   * A month whose budget covers the debts' minimum payments pays at most the budget
   * and leaves a non-negative remainder (app.py:1418, 1445, 1466-1476).
   */
  lemma AvMonthWithinBudget(s: seq<Debt>, budget: real)
    requires forall i :: 0 <= i < |s| ==> s[i].minPayment >= 0.0
    requires budget >= TotalMinPayments(s)
    ensures 0.0 <= AvMonth(s, budget).remaining
    ensures AvMonth(s, budget).total <= budget
  {
    AvMinTotalCovered(s, |s|);
    assert s[..|s|] == s;
    OverflowConserves(s, AvAfterMinimum(s, budget));
  }

  /** An avalanche month's `total_payment` is the sum of its payment records. */
  lemma AvMonthPaymentsTotal(s: seq<Debt>, budget: real)
    ensures AvMonthPlan(s, budget).totalPayment == AmountPaid(AvMonthPlan(s, budget).payments)
  {
    AvMinPaymentsTotal(s, |s|);
    assert s[..|s|] == s;
    OverflowTotal(s, AvAfterMinimum(s, budget));
  }

  /**
   * The minimum phase records, for each debt above 0.01, its name and capped minimum at
   * the debt's position in the payment list, not yet marked paid off.
   */
  lemma {:induction false} AvMinPaymentsIndex(s: seq<Debt>, n: nat)
    requires n <= |s|
    ensures forall t :: 0 <= t < n && s[t].balance > Epsilon ==>
      PayIndex(s, t) < |AvMinPayments(s, n)| && AvMinPayments(s, n)[PayIndex(s, t)] == Payment(s[t].name, CappedMinimum(s[t]), false)
  {
    if n > 0 {
      AvMinPaymentsIndex(s, n - 1);
      AvMinPaymentsLength(s, n - 1);
    }
  }

  /**
   * After a month, the record of each debt that was above 0.01 carries the debt's name and
   * its capped minimum plus whatever extra the overflow phase took off its balance; it is
   * marked paid off exactly when the debt got extra and ended at most 0.01. A debt that the
   * minimum alone brought to 0.01 or below stays unmarked.
   */
  lemma AvMonthRecords(s: seq<Debt>, budget: real)
    ensures forall t :: 0 <= t < |s| && s[t].balance > Epsilon ==>
      var m := AvMonth(s, budget);
      var k := PayIndex(s, t);
      && k < |m.payments|
      && m.payments[k].name == s[t].name
      && m.payments[k].amount == CappedMinimum(s[t]) + (AvMinDebt(s[t]).balance - m.debts[t].balance)
      && m.payments[k].amount >= CappedMinimum(s[t])
      && (m.payments[k].isPaidOff <==> m.payments[k].amount > CappedMinimum(s[t]) && m.debts[t].balance <= Epsilon)
  {
    var m0 := AvAfterMinimum(s, budget);
    AvMinPaymentsIndex(s, |s|);
    AvMinStateIndex(s);
    assert RecordsFollow(s, m0, m0) by {
      forall t | 0 <= t < |s| && s[t].balance > Epsilon ensures RecordFollows(s, m0, m0, t) {
        assert m0.payments[PayIndex(s, t)].isPaidOff == false;
      }
    }
    OverflowRecords(s, m0, m0);
  }

  /**
   * Priority within a month: the overflow phase lowers a debt's balance only when every
   * debt before it ends the month at or below 0.01.
   */
  lemma AvMonthPriority(s: seq<Debt>, budget: real)
    ensures PaidInOrder(AvAfterMinimum(s, budget).debts, AvMonth(s, budget).debts)
  {
    OverflowPriority(s, AvAfterMinimum(s, budget));
  }

  // ---------------------------------------------------------------------------
  // The whole run.

  /** From the head of the loop, the run ends within 360 months with one plan entry per month. */
  lemma {:induction false} AvLoopShape(budget: real, r: AvRun)
    requires r.month <= MonthCap && |r.plan| == r.month
    ensures r.month <= AvLoop(budget, r).month <= MonthCap
    ensures |AvLoop(budget, r).plan| == AvLoop(budget, r).month
    decreases MonthCap - r.month
  {
    if AnyAbove(r.debts) && r.month < MonthCap && AvMonthPlan(r.debts, budget).remainingDebt > Epsilon {
      AvLoopShape(budget, AvNext(budget, r));
    }
  }

  /** The loop only appends to the plan: the months recorded so far stay as they are. */
  lemma {:induction false} AvLoopExtends(budget: real, r: AvRun)
    ensures r.plan <= AvLoop(budget, r).plan
    decreases MonthCap - r.month
  {
    if AnyAbove(r.debts) && r.month < MonthCap && AvMonthPlan(r.debts, budget).remainingDebt > Epsilon {
      AvLoopExtends(budget, AvNext(budget, r));
    }
  }

  /** From the head of the loop, every month the run records but the last leaves more than 0.01 owing. */
  lemma {:induction false} AvLoopOwingUntilLast(budget: real, r: AvRun)
    requires AllLeftOwing(r.plan)
    ensures AllLeftOwing(Front(AvLoop(budget, r).plan))
    decreases MonthCap - r.month
  {
    if AnyAbove(r.debts) && r.month < MonthCap {
      var next := AvNext(budget, r);
      assert Front(next.plan) == r.plan;
      if AvMonthPlan(r.debts, budget).remainingDebt > Epsilon {
        AvLoopOwingUntilLast(budget, next);
      }
    }
  }

  /**
   * From the head of the loop, unless the cap is reached the run ends with no debt above
   * 0.01 or right after a month it recorded that left at most 0.01 owing.
   */
  lemma {:induction false} AvLoopStops(budget: real, r: AvRun)
    ensures var o := AvLoop(budget, r);
      o.month < MonthCap ==>
        !AnyAbove(o.debts) || (|o.plan| > |r.plan| && o.plan[|o.plan| - 1].remainingDebt <= Epsilon)
    decreases MonthCap - r.month
  {
    if AnyAbove(r.debts) && r.month < MonthCap && AvMonthPlan(r.debts, budget).remainingDebt > Epsilon {
      AvLoopStops(budget, AvNext(budget, r));
    }
  }

  /** No balance is below 0. */
  ghost predicate NonNegative(ds: seq<Debt>)
  {
    forall i :: 0 <= i < |ds| ==> ds[i].balance >= 0.0
  }

  /** No minimum payment is below 0. */
  ghost predicate NonNegativeMinimums(ds: seq<Debt>)
  {
    forall i :: 0 <= i < |ds| ==> ds[i].minPayment >= 0.0
  }

  /**
   * Along the run each debt keeps everything but its balance, and balances that start
   * at 0 or more stay so.
   */
  lemma {:induction false} AvLoopKeepsDebts(budget: real, r: AvRun)
    ensures SameDebts(r.debts, AvLoop(budget, r).debts)
    ensures NonNegative(r.debts) ==> NonNegative(AvLoop(budget, r).debts)
    decreases MonthCap - r.month
  {
    if AnyAbove(r.debts) && r.month < MonthCap {
      AvMonthKeeps(r.debts, budget);
      if AvMonthPlan(r.debts, budget).remainingDebt > Epsilon {
        AvLoopKeepsDebts(budget, AvNext(budget, r));
      }
    }
  }

  /** Every month of the plan pays at most `budget`. */
  ghost predicate WithinBudget(plan: seq<MonthPlan>, budget: real)
  {
    forall k :: 0 <= k < |plan| ==> plan[k].totalPayment <= budget
  }

  /** A month does not change the debts' minimum payments. */
  lemma AvMonthKeepsMinimums(s: seq<Debt>, budget: real)
    ensures TotalMinPayments(AvMonth(s, budget).debts) == TotalMinPayments(s)
    ensures NonNegativeMinimums(s) ==> NonNegativeMinimums(AvMonth(s, budget).debts)
  {
    var after := AvMonth(s, budget).debts;
    AvMonthKeeps(s, budget);
    SameDebtsMinPayments(s, after);
    forall i | 0 <= i < |s| ensures after[i].minPayment == s[i].minPayment {
      assert after[i] == s[i].(balance := after[i].balance);
    }
  }

  /**
   * When the budget covers the debts' minimum payments and none of them is negative,
   * no month of the run pays more than the budget.
   */
  lemma {:induction false} AvLoopWithinBudget(budget: real, r: AvRun)
    requires NonNegativeMinimums(r.debts) && budget >= TotalMinPayments(r.debts)
    requires WithinBudget(r.plan, budget)
    ensures WithinBudget(AvLoop(budget, r).plan, budget)
    decreases MonthCap - r.month
  {
    if AnyAbove(r.debts) && r.month < MonthCap {
      AvMonthWithinBudget(r.debts, budget);
      AvMonthKeepsMinimums(r.debts, budget);
      if AvMonthPlan(r.debts, budget).remainingDebt > Epsilon {
        AvLoopWithinBudget(budget, AvNext(budget, r));
      }
    }
  }

  // ---------------------------------------------------------------------------
  // The scenario.

  /**
   * Once the order and the budget are fixed: the run stops at the cap at the latest,
   * records one plan entry per month, and the savings are never negative.
   */
  lemma AvalancheFromShape(debts: seq<Debt>, sorted: seq<Debt>, budget: real, extra: real)
    ensures AvalancheFrom(debts, sorted, budget, extra).months <= MonthCap
    ensures |AvalancheFrom(debts, sorted, budget, extra).monthlyPlan| == AvalancheFrom(debts, sorted, budget, extra).months
    ensures AvalancheFrom(debts, sorted, budget, extra).extraPayment == extra
    ensures AvalancheFrom(debts, sorted, budget, extra).consistentMonthlyPayment == budget
    ensures AvalancheFrom(debts, sorted, budget, extra).interestSaved >= 0.0
    ensures var r := AvalancheFrom(debts, sorted, budget, extra);
      var saved := MinimumPayments.MinimumScenario(debts).months - r.months;
      r.timeSavedMonths >= 0 && r.timeSavedMonths >= saved && (r.timeSavedMonths == 0 || r.timeSavedMonths == saved)
  {
    AvLoopShape(budget, AvStart(sorted));
  }

  /**
   * The run of a scenario stops as soon as it may: every month but the last left more
   * than 0.01 owing, and unless the cap ended it, the run ended with no debt above 0.01
   * or right after a month that left at most 0.01 owing.
   */
  lemma AvalancheFromStops(debts: seq<Debt>, sorted: seq<Debt>, budget: real, extra: real)
    ensures var r := AvalancheFrom(debts, sorted, budget, extra);
      var run := AvLoop(budget, AvStart(sorted));
      && |r.monthlyPlan| == r.months
      && AllLeftOwing(Front(r.monthlyPlan))
      && (r.months < MonthCap ==>
            !AnyAbove(run.debts) || (r.months > 0 && r.monthlyPlan[r.months - 1].remainingDebt <= Epsilon))
  {
    AvLoopShape(budget, AvStart(sorted));
    AvLoopOwingUntilLast(budget, AvStart(sorted));
    AvLoopStops(budget, AvStart(sorted));
  }

  /** No month pays more than the budget, when the budget covers the minimums. */
  lemma AvalancheFromWithinBudget(debts: seq<Debt>, sorted: seq<Debt>, budget: real, extra: real)
    requires NonNegativeMinimums(sorted) && budget >= TotalMinPayments(sorted)
    ensures WithinBudget(AvalancheFrom(debts, sorted, budget, extra).monthlyPlan, budget)
  {
    AvLoopWithinBudget(budget, AvStart(sorted));
  }

  /** Sorting by rate keeps every minimum payment non-negative when it was. */
  lemma SortByRateKeepsMinimums(debts: seq<Debt>)
    requires NonNegativeMinimums(debts)
    ensures NonNegativeMinimums(SortByRate(debts))
  {
    var sorted := SortByRate(debts);
    SortByRateOrder(debts);
    forall i | 0 <= i < |sorted| ensures sorted[i].minPayment >= 0.0 {
      assert sorted[i] in multiset(debts);
      var k :| 0 <= k < |debts| && debts[k] == sorted[i];
    }
  }

  /**
   * No month of `calculate_debt_scenario_with_extra(debts, extra)` pays more than the
   * debts' minimum payments plus the extra, for a non-negative extra and minimums.
   */
  lemma AvalancheScenarioWithinBudget(debts: seq<Debt>, extra: real)
    requires extra >= 0.0 && NonNegativeMinimums(debts)
    ensures WithinBudget(AvalancheScenario(debts, extra).monthlyPlan, TotalMinPayments(debts) + extra)
  {
    var sorted := SortByRate(debts);
    SortByRateKeepsMinimums(debts);
    SortByRateMinPayments(debts);
    SortedWithinBudget(debts, sorted, TotalMinPayments(sorted) + extra, extra);
  }

  /** The bound of AvalancheScenarioWithinBudget, once the order and the budget are named. */
  lemma SortedWithinBudget(debts: seq<Debt>, sorted: seq<Debt>, budget: real, extra: real)
    requires sorted == SortByRate(debts) && budget == TotalMinPayments(sorted) + extra
    requires extra >= 0.0 && NonNegativeMinimums(sorted) && TotalMinPayments(sorted) == TotalMinPayments(debts)
    ensures WithinBudget(AvalancheScenario(debts, extra).monthlyPlan, TotalMinPayments(debts) + extra)
  {
    AvalancheFromWithinBudget(debts, sorted, budget, extra);
    assert AvalancheScenario(debts, extra) == AvalancheFrom(debts, sorted, budget, extra);
  }

  /**
   * The scenario of calculate_debt_scenario_with_extra runs on the debts sorted by rate
   * with the sum of the minimums plus the extra as its consistent monthly payment; the
   * order of the debts does not change that sum.
   */
  lemma AvalancheScenarioBudget(debts: seq<Debt>, extra: real)
    ensures AvalancheScenario(debts, extra).extraPayment == extra
    ensures AvalancheScenario(debts, extra).consistentMonthlyPayment == TotalMinPayments(debts) + extra
  {
    SortByRateMinPayments(debts);
  }
}
