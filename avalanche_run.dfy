/**
 * The avalanche run of app.py:1394-1504 as the program executes it: in place on a
 * copy of the sorted debts, with the running totals the source keeps. Each method is
 * proved equal to the corresponding function of module Avalanche.
 */
module AvalancheSimulator {
  import opened Money
  import opened Records
  import opened Avalanche
  import MinimumPayments

  /** The minimum phase, in place, building `debt_to_payment_map` as it goes. */
  method AvalancheMinimumPhase(state: array<Debt>)
      returns (payments: seq<Payment>, payMap: map<nat, nat>, total: real, interest: real)
    modifies state
    ensures state[..] == AvMinState(old(state[..]))
    ensures payments == AvMinPayments(old(state[..]), state.Length)
    ensures total == AvMinTotal(old(state[..]), state.Length)
    ensures interest == AvMonthInterest(old(state[..]), state.Length)
    ensures payMap == PayMap(old(state[..]), state.Length)
  {
    ghost var start := state[..];
    payments, payMap, total, interest := [], map[], 0.0, 0.0;
    for i := 0 to state.Length
      invariant forall j :: 0 <= j < i ==> state[j] == AvMinDebt(start[j])
      invariant forall j :: i <= j < state.Length ==> state[j] == start[j]
      invariant payments == AvMinPayments(start, i)
      invariant |payments| == CountAbove(start[..i])
      invariant total == AvMinTotal(start, i)
      invariant interest == AvMonthInterest(start, i)
      invariant payMap == PayMap(start, i)
    {
      assert start[..i + 1][..i] == start[..i];
      var debt := state[i];
      if debt.balance > Epsilon {
        var monthInterest := Interest(debt);
        interest := interest + monthInterest;
        var minPayment := Min(debt.minPayment, debt.balance + monthInterest);
        var paid := debt.(balance := Max(0.0, debt.balance + monthInterest - minPayment));
        assert paid == AvMinDebt(start[i]);
        state[i] := paid;
        payments := payments + [Payment(debt.name, minPayment, false)];
        payMap := payMap[i := |payments| - 1];
        total := total + minPayment;
      } else {
        assert debt == AvMinDebt(start[i]);
      }
    }
    AvMinStateIndex(start);
    assert state[..] == AvMinState(start);
  }

  /** The `for` loop of app.py:1456-1460: the first debt, in sorted order, above 0.01. */
  method FindTarget(state: array<Debt>) returns (t: nat)
    requires AnyAbove(state[..])
    ensures t == FirstAbove(state[..])
  {
    t := 0;
    while state[t].balance <= Epsilon
      invariant t <= FirstAbove(state[..]) < state.Length
      decreases state.Length - t
    {
      t := t + 1;
    }
  }

  /** One pass of the overflow loop on target `t`, in place (app.py:1466-1476). */
  method ApplyExtra(
      ghost start: seq<Debt>, state: array<Debt>, t: nat, k: nat,
      payments0: seq<Payment>, total0: real, remaining0: real)
      returns (payments: seq<Payment>, total: real, remaining: real)
    requires state.Length == |start| && |payments0| == CountAbove(start)
    requires t < |start| && start[t].balance > Epsilon && k == PayIndex(start, t)
    modifies state
    ensures Month(state[..], payments, total, remaining)
         == PayExtra(start, Month(old(state[..]), payments0, total0, remaining0), t)
  {
    ghost var before := Month(state[..], payments0, total0, remaining0);
    var debt := state[t];
    var extra := Min(remaining0, debt.balance);
    var nd := debt.(balance := Max(0.0, debt.balance - extra));
    state[t] := nd;
    PayIndexOrdered(start, t, |start|);
    var p := payments0[k];
    payments := payments0[k := p.(amount := p.amount + extra, isPaidOff := nd.balance <= Epsilon)];
    total := total0 + extra;
    remaining := remaining0 - extra;
    ghost var next := PayExtra(start, before, t);
    assert next.payments == payments;
    assert next.debts == before.debts[t := nd] == state[..];
  }

  /** The overflow loop, in place on the debts. */
  method AvalancheOverflow(
      ghost start: seq<Debt>, state: array<Debt>, payMap: map<nat, nat>,
      payments0: seq<Payment>, total0: real, remaining0: real)
      returns (payments: seq<Payment>, total: real, remaining: real)
    requires state.Length == |start| && |payments0| == CountAbove(start)
    requires payMap == PayMap(start, |start|)
    modifies state
    ensures Month(state[..], payments, total, remaining)
         == Overflow(start, Month(old(state[..]), payments0, total0, remaining0))
  {
    PayMapFacts(start, |start|);
    payments, total, remaining := payments0, total0, remaining0;
    ghost var goal := Overflow(start, Month(state[..], payments, total, remaining));
    while remaining > Epsilon && AnyAbove(state[..])
      invariant |payments| == CountAbove(start)
      invariant Overflow(start, Month(state[..], payments, total, remaining)) == goal
      decreases CountAbove(state[..]) + (if remaining > Epsilon then 1 else 0)
    {
      ghost var before := Month(state[..], payments, total, remaining);
      var t := FindTarget(state);
      if t !in payMap {
        break;
      }
      payments, total, remaining := ApplyExtra(start, state, t, payMap[t], payments, total, remaining);
      PayExtraDecreases(start, before, t);
    }
  }

  /** One avalanche month: minimum phase, overflow phase, then `remaining_debt`. */
  method AvalancheMonth(state: array<Debt>, budget: real) returns (plan: MonthPlan, interest: real)
    modifies state
    ensures state[..] == AvMonth(old(state[..]), budget).debts
    ensures plan == AvMonthPlan(old(state[..]), budget)
    ensures interest == MonthInterest(old(state[..]))
  {
    ghost var start := state[..];
    var payments, payMap, total;
    payments, payMap, total, interest := AvalancheMinimumPhase(state);
    AvMinPaymentsLength(start, |start|);
    assert start[..|start|] == start;
    ghost var entry := Month(state[..], payments, total, budget - total);
    assert entry == AvAfterMinimum(start, budget);
    assert |entry.debts| == |start| && |entry.payments| == CountAbove(start);
    var remaining;
    payments, total, remaining := AvalancheOverflow(start, state, payMap, payments, total, budget - total);
    ghost var month := Month(state[..], payments, total, remaining);
    assert month == Overflow(start, entry);
    var remainingDebt := 0.0;
    for i := 0 to state.Length
      invariant state[..] == month.debts
      invariant remainingDebt == TotalBalance(state[..i])
    {
      assert state[..i + 1][..i] == state[..i];
      remainingDebt := remainingDebt + state[i].balance;
    }
    assert state[..] == state[..state.Length];
    plan := MonthPlan(payments, total, remainingDebt);
  }

  /** The month loop of app.py:1411-1489 over a copy of the sorted debts. */
  method AvalancheRun(sorted: seq<Debt>, totalMonthlyPayment: real)
      returns (month: nat, monthlyPlan: seq<MonthPlan>, totalInterestPaid: real)
    ensures var run := AvLoop(totalMonthlyPayment, AvStart(sorted));
      month == run.month && monthlyPlan == run.plan && totalInterestPaid == run.interest
  {
    var state := new Debt[|sorted|](i requires 0 <= i < |sorted| => sorted[i]);
    assert state[..] == sorted;
    monthlyPlan := [];
    month := 0;
    totalInterestPaid := 0.0;
    ghost var goal := AvLoop(totalMonthlyPayment, AvStart(sorted));
    while AnyAbove(state[..]) && month < MonthCap
      invariant AvLoop(totalMonthlyPayment, AvRun(state[..], month, monthlyPlan, totalInterestPaid)) == goal
      decreases MonthCap - month
    {
      ghost var before := AvRun(state[..], month, monthlyPlan, totalInterestPaid);
      AvLoopStep(totalMonthlyPayment, before);
      var entry, interest := AvalancheMonth(state, totalMonthlyPayment);
      monthlyPlan := monthlyPlan + [entry];
      totalInterestPaid := totalInterestPaid + interest;
      month := month + 1;
      assert AvRun(state[..], month, monthlyPlan, totalInterestPaid) == AvNext(totalMonthlyPayment, before);
      if entry.remainingDebt <= Epsilon {
        assert AvRun(state[..], month, monthlyPlan, totalInterestPaid) == goal;
        break;
      }
    }
    AvLoopEnd(totalMonthlyPayment, AvRun(state[..], month, monthlyPlan, totalInterestPaid));
  }

  method CalculateDebtScenarioWithExtra(debts: seq<Debt>, extraPayment: real) returns (r: ScenarioResult)
    ensures r == AvalancheScenario(debts, extraPayment)
  {
    r := ScenarioFromSorted(debts, SortByRate(debts), TotalMinPayments(SortByRate(debts)) + extraPayment, extraPayment);
  }

  /** The run and its comparison with the baseline, once the order and the budget are fixed. */
  method ScenarioFromSorted(debts: seq<Debt>, sorted: seq<Debt>, totalMonthlyPayment: real, extraPayment: real)
      returns (r: ScenarioResult)
    ensures r == AvalancheFrom(debts, sorted, totalMonthlyPayment, extraPayment)
  {
    var month, monthlyPlan, totalInterestPaid := AvalancheRun(sorted, totalMonthlyPayment);
    var minScenario := MinimumPayments.CalculateMinimumPaymentScenario(debts);
    var minInterest := TotalPaidOverPlan(minScenario.monthlyPlan) - TotalBalance(debts);
    var interestSaved := Max(0.0, minInterest - totalInterestPaid);
    var timeSaved := if minScenario.months >= month then minScenario.months - month else 0;
    r := ScenarioResult(month, extraPayment, totalMonthlyPayment, monthlyPlan, interestSaved, timeSaved);
  }
}
