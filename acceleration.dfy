/**
 * `calculate_debt_acceleration` (app.py:1171-1331): validation of the request, the debt
 * list built from the active debt accounts, and the scenarios computed for it: the
 * minimum-only baseline first, then one avalanche scenario per selected option.
 *
 * The database reads become inputs: `accounts` is every bank account, in the order the
 * query returns them, and `closing` maps an account id to the closing balance of its
 * balance record for the current month (an id without a record, or with no closing
 * balance, is absent).
 */
module Acceleration {
  import opened Wrappers
  import opened Money
  import opened Records
  import opened Candidates
  import MinimumPayments
  import Avalanche
  import AvalancheSimulator
  import AvalancheFacts
  import Sorting

  const IncomeError: string := "Monthly income must be greater than 0"
  const ExpensesError: string := "Your expenses exceed your income. Please adjust your inputs."
  const NoDebtsError: string := "No active debt accounts found"

  /** The account types the debt query selects (app.py:1193-1195). */
  const DebtAccountTypes: seq<string> := ["credit", "loan", "Credit Card", "Loan"]

  datatype Account = Account(id: nat, name: string, accountType: string, isActive: bool)

  /**
   * The fields of the request the computation reads. `minimumPayments` is keyed by
   * account id; `monthly_savings` and `monthly_expenses` are read but never used.
   */
  datatype AccelerationRequest = AccelerationRequest(
    monthlyIncome: real,
    availableForDebt: real,
    extraContribution: real,
    minimumPayments: map<nat, real>)

  /** A returned scenario: the baseline has no option, the others carry the option they ran. */
  datatype ScenarioEntry = ScenarioEntry(result: ScenarioResult, option: Option<ScenarioOption>)

  datatype AccelerationReport = AccelerationReport(
    scenarios: seq<ScenarioEntry>,
    totalDebt: real,
    availableForDebt: real)

  // ---------------------------------------------------------------------------
  // The debt list (app.py:1193-1240).

  predicate IsDebtAccount(a: Account)
  {
    a.isActive && a.accountType in DebtAccountTypes
  }

  /** The accounts the query returns, in their order. */
  function DebtAccounts(accounts: seq<Account>): (r: seq<Account>)
    ensures forall a :: a in r <==> a in accounts && IsDebtAccount(a)
  {
    if |accounts| == 0 then []
    else
      var a := accounts[|accounts| - 1];
      DebtAccounts(accounts[..|accounts| - 1]) + (if IsDebtAccount(a) then [a] else [])
  }

  /** Python's `sub in s` on strings: `sub` starts at some position of `s`. */
  predicate Contains(s: string, sub: string)
    decreases |s|
  {
    (|sub| <= |s| && s[..|sub|] == sub) || (|s| > 0 && Contains(s[1..], sub))
  }

  /**
   * The annual rate of an account (app.py:1219-1227). Only the exact type
   * 'Credit Card' gets a card rate; every other debt type, 'credit' included, gets the
   * loan rate.
   */
  function AnnualRateFor(a: Account): real
  {
    if a.accountType == "Credit Card" then
      if Contains(a.name, "Platinum") then 0.13
      else if Contains(a.name, "Click") then 0.11
      else 0.15
    else 0.07
  }

  /** `closing_balance` of the current month's record, or 0. */
  function CurrentBalance(closing: map<nat, real>, id: nat): real
  {
    if id in closing then closing[id] else 0.0
  }

  /** `minimum_payments.get(str(account.id), 0)`. */
  function MinimumFor(minimumPayments: map<nat, real>, id: nat): real
  {
    if id in minimumPayments then minimumPayments[id] else 0.0
  }

  function MakeDebt(a: Account, balance: real, minimumPayments: map<nat, real>): Debt
  {
    var rate := AnnualRateFor(a);
    Debt(a.name, balance, MinimumFor(minimumPayments, a.id), rate, rate / 12.0, a.accountType)
  }

  /** The debts built from `accounts`: one per account with a positive current balance. */
  function DebtsOf(accounts: seq<Account>, closing: map<nat, real>, minimumPayments: map<nat, real>): seq<Debt>
  {
    if |accounts| == 0 then []
    else
      var a := accounts[|accounts| - 1];
      var balance := CurrentBalance(closing, a.id);
      DebtsOf(accounts[..|accounts| - 1], closing, minimumPayments)
        + (if balance > 0.0 then [MakeDebt(a, balance, minimumPayments)] else [])
  }

  /** The loop of app.py:1202-1240, with `total_debt` and `total_min_payments`. */
  method BuildDebts(accounts: seq<Account>, closing: map<nat, real>, minimumPayments: map<nat, real>)
      returns (debts: seq<Debt>, totalDebt: real, totalMinPayments: real)
    ensures debts == DebtsOf(accounts, closing, minimumPayments)
    ensures totalDebt == TotalBalance(debts)
    ensures totalMinPayments == TotalMinPayments(debts)
  {
    debts, totalDebt, totalMinPayments := [], 0.0, 0.0;
    for i := 0 to |accounts|
      invariant debts == DebtsOf(accounts[..i], closing, minimumPayments)
      invariant totalDebt == TotalBalance(debts)
      invariant totalMinPayments == TotalMinPayments(debts)
    {
      assert accounts[..i + 1][..i] == accounts[..i];
      var account := accounts[i];
      var currentBalance := CurrentBalance(closing, account.id);
      if currentBalance > 0.0 {
        var minPayment := MinimumFor(minimumPayments, account.id);
        var annualRate;
        if account.accountType == "Credit Card" {
          if Contains(account.name, "Platinum") {
            annualRate := 0.13;
          } else if Contains(account.name, "Click") {
            annualRate := 0.11;
          } else {
            annualRate := 0.15;
          }
        } else {
          annualRate := 0.07;
        }
        var debt := Debt(account.name, currentBalance, minPayment, annualRate, annualRate / 12.0, account.accountType);
        assert debt == MakeDebt(account, currentBalance, minimumPayments);
        assert (debts + [debt])[..|debts|] == debts;
        debts := debts + [debt];
        totalDebt := totalDebt + currentBalance;
        totalMinPayments := totalMinPayments + minPayment;
      }
    }
    assert accounts[..|accounts|] == accounts;
  }

  /** Every debt has a positive balance, one of the four rates, and a monthly rate of a twelfth. */
  lemma {:induction false} DebtsOfFacts(accounts: seq<Account>, closing: map<nat, real>, minimumPayments: map<nat, real>)
    ensures var ds := DebtsOf(accounts, closing, minimumPayments);
      && |ds| <= |accounts|
      && forall j :: 0 <= j < |ds| ==>
           && ds[j].balance > 0.0
           && ds[j].annualRate in {0.13, 0.11, 0.15, 0.07}
           && ds[j].monthlyRate == ds[j].annualRate / 12.0
  {
    if |accounts| > 0 {
      DebtsOfFacts(accounts[..|accounts| - 1], closing, minimumPayments);
    }
  }

  /**
   * The debts are exactly the accounts with a positive current balance, each with the
   * minimum the request gives for it (0 when it gives none).
   */
  lemma {:induction false} DebtsOfMembers(accounts: seq<Account>, closing: map<nat, real>, minimumPayments: map<nat, real>)
    ensures forall a :: a in accounts && CurrentBalance(closing, a.id) > 0.0 ==>
      MakeDebt(a, CurrentBalance(closing, a.id), minimumPayments) in DebtsOf(accounts, closing, minimumPayments)
    ensures forall d :: d in DebtsOf(accounts, closing, minimumPayments) ==>
      exists a :: a in accounts && CurrentBalance(closing, a.id) > 0.0 &&
        d == MakeDebt(a, CurrentBalance(closing, a.id), minimumPayments)
  {
    if |accounts| > 0 {
      var init := accounts[..|accounts| - 1];
      DebtsOfMembers(init, closing, minimumPayments);
      assert accounts == init + [accounts[|accounts| - 1]];
      forall d | d in DebtsOf(accounts, closing, minimumPayments)
        ensures exists a ::
          a in accounts && CurrentBalance(closing, a.id) > 0.0 && d == MakeDebt(a, CurrentBalance(closing, a.id), minimumPayments)
      {
        if d in DebtsOf(init, closing, minimumPayments) {
          var a :| a in init && CurrentBalance(closing, a.id) > 0.0
            && d == MakeDebt(a, CurrentBalance(closing, a.id), minimumPayments);
          assert a in accounts;
        }
      }
    }
  }

  /** The debts' balances are positive, so `total_debt` is positive whenever there is a debt. */
  lemma {:induction false} TotalDebtPositive(ds: seq<Debt>)
    requires forall j :: 0 <= j < |ds| ==> ds[j].balance > 0.0
    ensures |ds| > 0 ==> TotalBalance(ds) > 0.0
    ensures TotalBalance(ds) >= 0.0
  {
    if |ds| > 0 {
      TotalDebtPositive(ds[..|ds| - 1]);
    }
  }

  /** A lower-case 'credit' account gets the loan rate, whatever its name says. */
  lemma LowerCaseCreditGetsLoanRate(id: nat, isActive: bool)
    ensures AnnualRateFor(Account(id, "Platinum Card", "credit", isActive)) == 0.07
    ensures AnnualRateFor(Account(id, "Platinum Card", "Credit Card", isActive)) == 0.13
  {
    assert "Platinum Card"[..8] == "Platinum";
  }

  // ---------------------------------------------------------------------------
  // The scenarios (app.py:1245-1324).

  /** One entry per selected option, running the avalanche with that option's amount. */
  function ExtraScenarios(debts: seq<Debt>, selected: seq<ScenarioOption>): (r: seq<ScenarioEntry>)
    ensures |r| == |selected|
  {
    if |selected| == 0 then []
    else
      var o := selected[|selected| - 1];
      ExtraScenarios(debts, selected[..|selected| - 1])
        + [ScenarioEntry(Avalanche.AvalancheScenario(debts, o.extraAmount), Some(o))]
  }

  /** The options that get a scenario, for the request's budget and contribution. */
  function SelectedFor(req: AccelerationRequest): seq<ScenarioOption>
  {
    SelectedOptions(CandidateOptions(req.availableForDebt, req.extraContribution))
  }

  /** The response of `calculate_debt_acceleration` (errors raised while computing aside). */
  function Acceleration(req: AccelerationRequest, accounts: seq<Account>, closing: map<nat, real>)
    : Result<AccelerationReport, string>
  {
    if req.monthlyIncome <= 0.0 then Failure(IncomeError)
    else if req.availableForDebt < 0.0 then Failure(ExpensesError)
    else
      var debts := DebtsOf(DebtAccounts(accounts), closing, req.minimumPayments);
      if |debts| == 0 then Failure(NoDebtsError)
      else
        Success(AccelerationReport(
          [ScenarioEntry(MinimumPayments.MinimumScenario(debts), None)] + ExtraScenarios(debts, SelectedFor(req)),
          TotalBalance(debts),
          req.availableForDebt))
  }

  /** Options, de-duplication, sort and the cut to eleven (app.py:1255-1314). */
  method SelectScenarioOptions(availableForDebt: real, extraContribution: real) returns (top: seq<ScenarioOption>)
    ensures top == SelectedOptions(CandidateOptions(availableForDebt, extraContribution))
  {
    var options := ScenarioOptions(availableForDebt, extraContribution);
    var unique := UniqueScenarios(options);
    var sorted := Sorting.SortBy(unique, ExtraOf);
    top := if |sorted| <= MaxExtraScenarios then sorted else sorted[..MaxExtraScenarios];
  }

  /** The loop of app.py:1314-1324: one avalanche scenario per selected option. */
  method RunExtraScenarios(debts: seq<Debt>, top: seq<ScenarioOption>) returns (entries: seq<ScenarioEntry>)
    ensures entries == ExtraScenarios(debts, top)
  {
    entries := [];
    for i := 0 to |top|
      invariant entries == ExtraScenarios(debts, top[..i])
    {
      assert top[..i + 1][..i] == top[..i];
      var scenario := AvalancheSimulator.CalculateDebtScenarioWithExtra(debts, top[i].extraAmount);
      entries := entries + [ScenarioEntry(scenario, Some(top[i]))];
    }
    assert top[..|top|] == top;
  }

  method CalculateDebtAcceleration(req: AccelerationRequest, accounts: seq<Account>, closing: map<nat, real>)
      returns (resp: Result<AccelerationReport, string>)
    ensures resp == Acceleration(req, accounts, closing)
  {
    if req.monthlyIncome <= 0.0 {
      return Failure(IncomeError);
    }
    if req.availableForDebt < 0.0 {
      return Failure(ExpensesError);
    }
    var debts, totalDebt, totalMinPayments := BuildDebts(DebtAccounts(accounts), closing, req.minimumPayments);
    if |debts| == 0 {
      return Failure(NoDebtsError);
    }
    var minScenario := MinimumPayments.CalculateMinimumPaymentScenario(debts);
    var top := SelectScenarioOptions(req.availableForDebt, req.extraContribution);
    var extra := RunExtraScenarios(debts, top);
    resp := Success(AccelerationReport([ScenarioEntry(minScenario, None)] + extra, totalDebt, req.availableForDebt));
  }

  // ---------------------------------------------------------------------------
  // What the response says.

  /** No active debt account has a positive current balance. */
  predicate NoDebtOwing(accounts: seq<Account>, closing: map<nat, real>)
  {
    forall a :: a in accounts && IsDebtAccount(a) ==> CurrentBalance(closing, a.id) <= 0.0
  }

  /** The debt list is empty exactly when no active debt account has a positive balance. */
  lemma NoDebtsIffNoneOwing(accounts: seq<Account>, closing: map<nat, real>, minimumPayments: map<nat, real>)
    ensures |DebtsOf(DebtAccounts(accounts), closing, minimumPayments)| == 0 <==> NoDebtOwing(accounts, closing)
  {
    var selected := DebtAccounts(accounts);
    var debts := DebtsOf(selected, closing, minimumPayments);
    DebtsOfMembers(selected, closing, minimumPayments);
    if |debts| > 0 {
      assert debts[0] in debts;
      var a :| a in selected && CurrentBalance(closing, a.id) > 0.0
        && debts[0] == MakeDebt(a, CurrentBalance(closing, a.id), minimumPayments);
      assert !NoDebtOwing(accounts, closing);
    }
    if !NoDebtOwing(accounts, closing) {
      var a :| a in accounts && IsDebtAccount(a) && CurrentBalance(closing, a.id) > 0.0;
      assert MakeDebt(a, CurrentBalance(closing, a.id), minimumPayments) in debts;
    }
  }

  /**
   * The request fails exactly when the income is not positive, the available budget is
   * negative, or no active debt account has a positive balance, with the message of the
   * first check that fails.
   */
  lemma AccelerationErrors(req: AccelerationRequest, accounts: seq<Account>, closing: map<nat, real>)
    ensures var resp := Acceleration(req, accounts, closing);
      && (resp.Failure? <==>
            req.monthlyIncome <= 0.0 || req.availableForDebt < 0.0 || NoDebtOwing(accounts, closing))
      && (req.monthlyIncome <= 0.0 ==> resp == Failure(IncomeError))
      && (req.monthlyIncome > 0.0 && req.availableForDebt < 0.0 ==> resp == Failure(ExpensesError))
      && ((req.monthlyIncome > 0.0 && req.availableForDebt >= 0.0 && NoDebtOwing(accounts, closing))
          ==> resp == Failure(NoDebtsError))
  {
    NoDebtsIffNoneOwing(accounts, closing, req.minimumPayments);
  }

  /** Entry `i` runs the avalanche with option `i`'s amount and carries that option. */
  lemma {:induction false} ExtraScenariosIndex(debts: seq<Debt>, selected: seq<ScenarioOption>)
    ensures forall i :: 0 <= i < |selected| ==>
      ExtraScenarios(debts, selected)[i]
        == ScenarioEntry(Avalanche.AvalancheScenario(debts, selected[i].extraAmount), Some(selected[i]))
  {
    if |selected| > 0 {
      ExtraScenariosIndex(debts, selected[..|selected| - 1]);
    }
  }

  /**
   * On success the response lists the minimum-only scenario first and then one scenario
   * per selected option, at most twelve in all, and reports the positive total debt.
   */
  lemma AccelerationScenarios(req: AccelerationRequest, accounts: seq<Account>, closing: map<nat, real>)
    ensures var resp := Acceleration(req, accounts, closing);
      var debts := DebtsOf(DebtAccounts(accounts), closing, req.minimumPayments);
      resp.Success? ==>
        && |resp.value.scenarios| == 1 + |SelectedFor(req)| <= 1 + MaxExtraScenarios
        && resp.value.scenarios[0] == ScenarioEntry(MinimumPayments.MinimumScenario(debts), None)
        && resp.value.totalDebt == TotalBalance(debts) > 0.0
        && resp.value.availableForDebt == req.availableForDebt
  {
    var debts := DebtsOf(DebtAccounts(accounts), closing, req.minimumPayments);
    SelectedOptionsOrdered(CandidateOptions(req.availableForDebt, req.extraContribution));
    DebtsOfFacts(DebtAccounts(accounts), closing, req.minimumPayments);
    TotalDebtPositive(debts);
  }

  /**
   * On success every scenario after the first ran its option's amount as the extra,
   * with the debts' minimums plus that amount as its monthly payment, and the amounts
   * strictly increase down the list.
   */
  lemma AccelerationExtraScenarios(req: AccelerationRequest, accounts: seq<Account>, closing: map<nat, real>)
    ensures var resp := Acceleration(req, accounts, closing);
      var debts := DebtsOf(DebtAccounts(accounts), closing, req.minimumPayments);
      var sel := SelectedFor(req);
      resp.Success? ==>
        && |resp.value.scenarios| == 1 + |sel|
        && (forall i :: 0 <= i < |sel| ==>
              && resp.value.scenarios[i + 1].option == Some(sel[i])
              && resp.value.scenarios[i + 1].result.extraPayment == sel[i].extraAmount
              && resp.value.scenarios[i + 1].result.consistentMonthlyPayment == TotalMinPayments(debts) + sel[i].extraAmount)
        && (forall i, j :: 0 <= i < j < |sel| ==> sel[i].extraAmount < sel[j].extraAmount)
  {
    var debts := DebtsOf(DebtAccounts(accounts), closing, req.minimumPayments);
    var sel := SelectedFor(req);
    SelectedOptionsOrdered(CandidateOptions(req.availableForDebt, req.extraContribution));
    ExtraScenariosIndex(debts, sel);
    forall i | 0 <= i < |sel| {
      AvalancheFacts.AvalancheScenarioBudget(debts, sel[i].extraAmount);
    }
  }

  /** Every option that gets a scenario adds a positive amount to the minimums. */
  lemma SelectedAmountsPositive(req: AccelerationRequest)
    ensures forall i :: 0 <= i < |SelectedFor(req)| ==> SelectedFor(req)[i].extraAmount > 0.0
  {
    var options := CandidateOptions(req.availableForDebt, req.extraContribution);
    SelectedOptionsFromInput(options);
    CandidateAmountsPositive(req.availableForDebt, req.extraContribution);
    assert forall i :: 0 <= i < |SelectedFor(req)| ==> SelectedFor(req)[i] in options;
  }

  /** With non-negative minimums in the request, every debt's minimum is non-negative. */
  lemma {:induction false} DebtsOfMinimums(accounts: seq<Account>, closing: map<nat, real>, minimumPayments: map<nat, real>)
    requires forall id :: id in minimumPayments ==> minimumPayments[id] >= 0.0
    ensures AvalancheFacts.NonNegativeMinimums(DebtsOf(accounts, closing, minimumPayments))
  {
    if |accounts| > 0 {
      DebtsOfMinimums(accounts[..|accounts| - 1], closing, minimumPayments);
    }
  }

  /**
   * When the request's minimum payments are not negative, no month of any returned
   * avalanche scenario pays more than the debts' minimums plus that scenario's amount.
   */
  lemma AccelerationWithinBudget(req: AccelerationRequest, accounts: seq<Account>, closing: map<nat, real>)
    requires forall id :: id in req.minimumPayments ==> req.minimumPayments[id] >= 0.0
    ensures var resp := Acceleration(req, accounts, closing);
      var debts := DebtsOf(DebtAccounts(accounts), closing, req.minimumPayments);
      var sel := SelectedFor(req);
      resp.Success? ==>
        && |resp.value.scenarios| == 1 + |sel|
        && forall i :: 0 <= i < |sel| ==>
             AvalancheFacts.WithinBudget(resp.value.scenarios[i + 1].result.monthlyPlan,
                                         TotalMinPayments(debts) + sel[i].extraAmount)
  {
    var debts := DebtsOf(DebtAccounts(accounts), closing, req.minimumPayments);
    var sel := SelectedFor(req);
    ExtraScenariosIndex(debts, sel);
    SelectedAmountsPositive(req);
    DebtsOfMinimums(DebtAccounts(accounts), closing, req.minimumPayments);
    forall i | 0 <= i < |sel| {
      AvalancheFacts.AvalancheScenarioWithinBudget(debts, sel[i].extraAmount);
    }
  }
}
