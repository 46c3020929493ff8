/**
 * `calculate_debt_scenario_with_extra` (app.py:1394-1504): the avalanche run. The debts
 * are sorted once by annual rate, highest first; every month has the same budget,
 * `sum(min_payment) + extra`. Each month first adds interest to every debt above 0.01
 * and pays its capped minimum, then pours what is left of the budget into the first
 * debt in sorted order still above 0.01, again and again, until the budget or the debts
 * run out.
 *
 * As for the baseline, AvMonth describes one month and AvLoop the `while` loop as a
 * function of its variables between two months; the methods of module
 * AvalancheSimulator are proved equal to them.
 */
module Avalanche {
  import opened Money
  import opened Records
  import Sorting
  import MinimumPayments

  function NegRate(d: Debt): real { -d.annualRate }

  /** `sorted(debts, key=lambda x: x['annual_rate'], reverse=True)`. */
  function SortByRate(debts: seq<Debt>): seq<Debt>
  {
    Sorting.SortBy(debts, NegRate)
  }

  // ---------------------------------------------------------------------------
  // The minimum phase of a month (app.py:1424-1445).

  /** Interest is added to the balance first, then the capped minimum is paid. */
  function AvMinDebt(d: Debt): Debt
  {
    if d.balance > Epsilon then d.(balance := Max(0.0, d.balance + Interest(d) - CappedMinimum(d)))
    else d
  }

  function AvMinState(s: seq<Debt>): (r: seq<Debt>)
    ensures |r| == |s|
  {
    if |s| == 0 then [] else AvMinState(s[..|s| - 1]) + [AvMinDebt(s[|s| - 1])]
  }

  /** Each debt goes through the minimum phase on its own. */
  lemma {:induction false} AvMinStateIndex(s: seq<Debt>)
    ensures forall i :: 0 <= i < |s| ==> AvMinState(s)[i] == AvMinDebt(s[i])
  {
    if |s| > 0 {
      AvMinStateIndex(s[..|s| - 1]);
    }
  }

  /** The records of the first `n` debts: the capped minimum, not yet marked paid off. */
  function AvMinPayments(s: seq<Debt>, n: nat): seq<Payment>
    requires n <= |s|
  {
    if n == 0 then []
    else
      AvMinPayments(s, n - 1) +
        (if s[n - 1].balance > Epsilon then [Payment(s[n - 1].name, CappedMinimum(s[n - 1]), false)] else [])
  }

  function AvMinTotal(s: seq<Debt>, n: nat): real
    requires n <= |s|
  {
    if n == 0 then 0.0
    else AvMinTotal(s, n - 1) + (if s[n - 1].balance > Epsilon then CappedMinimum(s[n - 1]) else 0.0)
  }

  /**
   * `debt_to_payment_map` after the first `n` debts: each debt above 0.01 maps to the
   * position of its record in the month's payment list.
   */
  function PayMap(s: seq<Debt>, n: nat): map<nat, nat>
    requires n <= |s|
  {
    if n == 0 then map[]
    else if s[n - 1].balance > Epsilon then PayMap(s, n - 1)[n - 1 := CountAbove(s[..n - 1])]
    else PayMap(s, n - 1)
  }

  /** The map holds exactly the debts above 0.01, each at its record's position. */
  lemma {:induction false} PayMapFacts(s: seq<Debt>, n: nat)
    requires n <= |s|
    ensures forall t: nat :: t in PayMap(s, n) <==> t < n && s[t].balance > Epsilon
    ensures forall t: nat :: t in PayMap(s, n) ==> PayMap(s, n)[t] == PayIndex(s, t)
  {
    if n > 0 {
      PayMapFacts(s, n - 1);
    }
  }

  /** The interest the first `n` debts accrue this month (added to `total_interest_paid`). */
  function AvMonthInterest(s: seq<Debt>, n: nat): real
    requires n <= |s|
  {
    if n == 0 then 0.0
    else AvMonthInterest(s, n - 1) + (if s[n - 1].balance > Epsilon then Interest(s[n - 1]) else 0.0)
  }

  function MonthInterest(s: seq<Debt>): real
  {
    AvMonthInterest(s, |s|)
  }

  // ---------------------------------------------------------------------------
  // The overflow phase of a month (app.py:1449-1476).

  /**
   * The overflow loop's variables: the debts, the month's payment records,
   * `total_payment` and `remaining_extra`.
   */
  datatype Month = Month(debts: seq<Debt>, payments: seq<Payment>, total: real, remaining: real)

  /** The first debt at or after position `i` that is above 0.01, or `|s|` when there is none. */
  function FirstAboveFrom(s: seq<Debt>, i: nat): (t: nat)
    requires i <= |s|
    ensures i <= t <= |s|
    ensures t < |s| ==> s[t].balance > Epsilon
    ensures forall j :: i <= j < t ==> s[j].balance <= Epsilon
    decreases |s| - i
  {
    if i == |s| || s[i].balance > Epsilon then i else FirstAboveFrom(s, i + 1)
  }

  /** The first debt above 0.01, or `|s|` when there is none. */
  function FirstAbove(s: seq<Debt>): (t: nat)
    ensures t <= |s|
    ensures t < |s| <==> AnyAbove(s)
    ensures t < |s| ==> s[t].balance > Epsilon
    ensures forall j :: 0 <= j < t ==> s[j].balance <= Epsilon
  {
    FirstAboveFrom(s, 0)
  }

  /**
   * The overflow loop from state `m` on, in a month that started from debts `start`.
   * The debts that had a payment record this month are those of `start` above 0.01
   * (the keys of `debt_to_payment_map`); the record of debt `t` is at PayIndex(start, t).
   * A target without a record ends the loop.
   */
  function Overflow(start: seq<Debt>, m: Month): (r: Month)
    requires |m.debts| == |start| && |m.payments| == CountAbove(start)
    ensures |r.debts| == |start| && |r.payments| == CountAbove(start)
    decreases CountAbove(m.debts) + (if m.remaining > Epsilon then 1 else 0)
  {
    if m.remaining <= Epsilon || !AnyAbove(m.debts) then m
    else
      var t := FirstAbove(m.debts);
      if start[t].balance <= Epsilon then m
      else
        PayExtraDecreases(start, m, t);
        Overflow(start, PayExtra(start, m, t))
  }

  /**
   * One pass of the overflow loop on target `t`: `min(remaining_extra, balance)` comes
   * off its balance and is added to its payment record, which is marked paid off when
   * the new balance is at most 0.01.
   */
  function PayExtra(start: seq<Debt>, m: Month, t: nat): (r: Month)
    requires |m.debts| == |start| && |m.payments| == CountAbove(start)
    requires t < |start| && start[t].balance > Epsilon
    ensures |r.debts| == |start| && |r.payments| == CountAbove(start)
  {
    var d := m.debts[t];
    var extra := Min(m.remaining, d.balance);
    var nd := d.(balance := Max(0.0, d.balance - extra));
    PayIndexOrdered(start, t, |start|);
    var k := PayIndex(start, t);
    var p := m.payments[k];
    Month(
      m.debts[t := nd],
      m.payments[k := p.(amount := p.amount + extra, isPaidOff := nd.balance <= Epsilon)],
      m.total + extra,
      m.remaining - extra)
  }

  /**
   * Each pass either pays off its target or uses up the remaining budget, so the loop
   * terminates.
   */
  lemma PayExtraDecreases(start: seq<Debt>, m: Month, t: nat)
    requires |m.debts| == |start| && |m.payments| == CountAbove(start)
    requires t < |start| && start[t].balance > Epsilon
    requires m.remaining > Epsilon && m.debts[t].balance > Epsilon
    ensures var r := PayExtra(start, m, t);
      r.debts[t].balance <= Epsilon || r.remaining <= Epsilon
    ensures var r := PayExtra(start, m, t);
      CountAbove(r.debts) + (if r.remaining > Epsilon then 1 else 0)
      < CountAbove(m.debts) + (if m.remaining > Epsilon then 1 else 0)
  {
    var r := PayExtra(start, m, t);
    CountAboveUpdate(m.debts, t, r.debts[t]);
    assert r.debts == m.debts[t := r.debts[t]];
  }

  /** The state in which a month's overflow phase begins. */
  function AvAfterMinimum(s: seq<Debt>, budget: real): (m: Month)
    ensures |m.debts| == |s| && |m.payments| == CountAbove(s)
  {
    AvMinPaymentsLength(s, |s|);
    assert s[..|s|] == s;
    var total := AvMinTotal(s, |s|);
    Month(AvMinState(s), AvMinPayments(s, |s|), total, budget - total)
  }

  /** A whole avalanche month from debts `s` with monthly budget `budget`. */
  function AvMonth(s: seq<Debt>, budget: real): (m: Month)
    ensures |m.debts| == |s|
  {
    Overflow(s, AvAfterMinimum(s, budget))
  }

  function AvMonthPlan(s: seq<Debt>, budget: real): MonthPlan
  {
    var m := AvMonth(s, budget);
    MonthPlan(m.payments, m.total, TotalBalance(m.debts))
  }

  // ---------------------------------------------------------------------------
  // The whole run.

  /**
   * The loop variables between two months: the run's debts, `month`, `monthly_plan`
   * and `total_interest_paid`.
   */
  datatype AvRun = AvRun(debts: seq<Debt>, month: nat, plan: seq<MonthPlan>, interest: real)

  /**
   * The `while` loop of app.py:1411-1489 from loop state `r` on, with the monthly
   * budget `budget`. It does not start another month once no debt is above 0.01 or
   * 360 months have run, and it leaves right after a month whose `remaining_debt` is
   * at most 0.01.
   */
  function AvLoop(budget: real, r: AvRun): AvRun
    decreases MonthCap - r.month
  {
    if !AnyAbove(r.debts) || r.month >= MonthCap then r
    else if AvMonthPlan(r.debts, budget).remainingDebt <= Epsilon then AvNext(budget, r)
    else AvLoop(budget, AvNext(budget, r))
  }

  /** The loop variables after one more month. */
  function AvNext(budget: real, r: AvRun): AvRun
  {
    AvRun(AvMonth(r.debts, budget).debts, r.month + 1, r.plan + [AvMonthPlan(r.debts, budget)],
          r.interest + MonthInterest(r.debts))
  }

  /** One more month of the loop, when its guard holds. */
  lemma AvLoopStep(budget: real, r: AvRun)
    requires AnyAbove(r.debts) && r.month < MonthCap
    ensures AvLoop(budget, r)
         == if AvMonthPlan(r.debts, budget).remainingDebt <= Epsilon then AvNext(budget, r) else AvLoop(budget, AvNext(budget, r))
  {
  }

  /** The loop leaves its state alone once its guard fails. */
  lemma AvLoopEnd(budget: real, r: AvRun)
    ensures !AnyAbove(r.debts) || r.month >= MonthCap ==> AvLoop(budget, r) == r
  {
  }

  /** The loop state before the first month, on a copy of the sorted debts. */
  function AvStart(sorted: seq<Debt>): AvRun
  {
    AvRun(sorted, 0, [], 0.0)
  }

  /** The amount the baseline pays beyond the debts' balances, `min_interest` (app.py:1493). */
  function BaselineInterest(debts: seq<Debt>): real
  {
    TotalPaidOverPlan(MinimumPayments.MinimumScenario(debts).monthlyPlan) - TotalBalance(debts)
  }

  /** The scenario `calculate_debt_scenario_with_extra(debts, extra)` returns. */
  function AvalancheScenario(debts: seq<Debt>, extra: real): ScenarioResult
  {
    var sorted := SortByRate(debts);
    AvalancheFrom(debts, sorted, TotalMinPayments(sorted) + extra, extra)
  }

  /** The same scenario, given the debts in the order the run pays them and the monthly budget. */
  function AvalancheFrom(debts: seq<Debt>, sorted: seq<Debt>, budget: real, extra: real): ScenarioResult
  {
    var run := AvLoop(budget, AvStart(sorted));
    var baseline := MinimumPayments.MinimumScenario(debts);
    ScenarioResult(
      run.month, extra, budget, run.plan,
      Max(0.0, BaselineInterest(debts) - run.interest),
      if baseline.months >= run.month then baseline.months - run.month else 0)
  }

  /** A month's minimum phase records one payment per debt above 0.01, in order. */
  lemma {:induction false} AvMinPaymentsLength(s: seq<Debt>, n: nat)
    requires n <= |s|
    ensures |AvMinPayments(s, n)| == CountAbove(s[..n])
  {
    if n > 0 {
      AvMinPaymentsLength(s, n - 1);
      assert s[..n][..n - 1] == s[..n - 1];
    }
  }

  /** The minimum phase's `total_payment` is the sum of the payments it records. */
  lemma {:induction false} AvMinPaymentsTotal(s: seq<Debt>, n: nat)
    requires n <= |s|
    ensures AvMinTotal(s, n) == AmountPaid(AvMinPayments(s, n))
  {
    if n > 0 {
      AvMinPaymentsTotal(s, n - 1);
      var ps := AvMinPayments(s, n);
      var ps' := AvMinPayments(s, n - 1);
      if s[n - 1].balance > Epsilon {
        assert ps[..|ps| - 1] == ps';
      } else {
        assert ps == ps';
      }
    }
  }
}
