# Debt payoff and monthly ledger model

A Dafny model of the computational core of a personal-finance web application (the
Flask app in `app.py`). It covers:

- **The two debt payoff simulators.**
  - `calculate_minimum_payment_scenario` pays only each debt's minimum, month by month, for up to 360 months.
  - `calculate_debt_scenario_with_extra` spends a fixed monthly budget, made of the minimums plus an extra amount, in avalanche order. It sorts the debts by annual rate, highest first. Each month it pays every minimum and then pours the rest into the first debt in that order that still owes more than 0.01.
- **Debt acceleration planning.** `calculate_debt_acceleration`:
  - validates the request;
  - builds the debt list from the active credit and loan accounts with a positive closing balance;
  - assigns each debt its interest rate;
  - generates candidate extra amounts, de-duplicates them by the amount rounded to the euro, and keeps the eleven smallest;
  - returns the minimum-only scenario followed by one avalanche scenario per selected amount.
- **The ledger arithmetic of the monthly-data routes.**
  - A debt account's monthly spend.
  - A regular account's expenses.
  - The closing-balance auto-adjustment with misc transactions.
  - The fixed-expense monthly equivalent.
  - The dashboard's investment-adjusted expenses.
  - The six-month payment-history window.
- **Two keyed-table operations.**
  - The fixed-expense tracking guard (one tracking row per expense and month) in its single and bulk forms.
  - The investment add-or-accumulate.

The simulators are imperative in the source: they mutate a copied list of debt records in
place with nested loops. The model follows that form in `avalanche_run.dfy` and
`minimum.dfy`:

- methods work on an `array<Debt>` with loop invariants;
- each method is proved equal to a specification function (`MinimumScenario`, `AvalancheScenario`);
- the promised properties are then proved as lemmas about those functions.

Candidate generation and de-duplication are imperative loops too (`ScenarioOptions`,
`UniqueScenarios`), proved against `CandidateOptions` and `UniqueOptions`.

Modelling conventions:

- Money is `real`. The application's 0.01 threshold is the exact constant `Money.Epsilon`.
- Python's `round(x, 0)` is `Money.RoundHalfEven`.
- Python's stable `sorted(..., reverse=True)` on the rate is a stable insertion sort ascending on the negated rate (`Sorting.SortBy`).
- Database reads are inputs: account lists, maps from account id to closing balance, and the month's transactions as a sequence.
- Each route returns the new balance record together with the month's new transaction list.

Files:

- `wrappers.dfy`, `money.dfy`: shared helpers.
- `sorting.dfy`: the stable sort.
- `records.dfy`: the simulators' values.
- `minimum.dfy`, `avalanche.dfy`, `avalanche_run.dfy`, `avalanche_facts.dfy`, `quirks.dfy`: the simulators.
- `candidates.dfy`, `acceleration.dfy`: acceleration planning.
- `ledger.dfy`, `tracking.dfy`: the routes' arithmetic and tables.

Where it matters, the model reproduces what the code does rather than what its comments suggest:

- The minimum-only run does not sort the debts.
- The minimum-only run never capitalises unpaid interest. A payment below the interest leaves the balance unchanged. The avalanche run adds the interest first, so an extra of 0 does not in general reproduce the minimum-only run (`SimulatorQuirks.ZeroExtraDiffersFromBaseline`).
- The avalanche run leaves `is_paid_off` False for a debt that its minimum alone cleared.
- Only the exact type `Credit Card` gets a card rate, so lower-case `credit` accounts get the 0.07 loan rate.
- Combined budget-plus-contribution candidates are not held to the 10-euro floor.

## Model

| member | source | states |
|---|---|---|
| Money.RoundHalfEven | app.py:1306 | the result is the integer nearest to the amount, and in a tie the even one, as Python's `round(x, 0)` |
| Records.CappedMinimum | app.py:1358 | a month's minimum is the smaller of the minimum payment and balance plus interest, and equals one of them |
| Sorting.SortBySortsAndPermutes | app.py:1397 | the sort returns a permutation of its input that is ordered by the key |
| Sorting.SortByStable | app.py:1397 | the sort keeps the input order among items with equal keys, as Python's `sorted` does |
| Sorting.SumBySort | app.py:1404 | sorting does not change a sum over the items |
| MinimumPayments.MinimumMonth | app.py:1347-1377 | one month in place: the array afterwards holds the specified post-month debts and the returned plan entry is the specified month's payments, total paid and remaining debt |
| MinimumPayments.CalculateMinimumPaymentScenario | app.py:1337-1392 | the loop over a copy of the debts returns exactly the scenario `MinimumScenario` specifies |
| MinimumPayments.MinLoopShape | app.py:1344-1377 | the run never goes past 360 months and records exactly one plan entry per month run |
| MinimumPayments.MinLoopExtends | app.py:1373-1377 | the loop only appends to the plan |
| MinimumPayments.MinLoopOwingUntilLast | app.py:1379-1380 | every recorded month but the last left more than 0.01 owing |
| MinimumPayments.MinLoopStops | app.py:1346-1380 | unless the cap is reached, the loop ends with no debt above 0.01 or right after a month left at most 0.01 owing |
| MinimumPayments.MinimumScenarioShape | app.py:1343-1392 | the baseline has at most 360 months, one plan entry per month, extra 0, monthly payment equal to the sum of the minimums, and zero savings |
| MinimumPayments.MinimumStopsAsSoonAsPaidOff | app.py:1346-1380 | every month before the last left more than 0.01 owing; below the cap the run ends because nothing is owed above 0.01 or the last month left at most 0.01 |
| MinimumPayments.MinMonthStateFacts | app.py:1352-1361 | a month keeps every debt but its balance, never raises a balance and never takes a non-negative one below zero |
| MinimumPayments.MinLoopKeepsDebts | app.py:1346-1380 | along the whole run, debts keep their identity, balances never rise, and non-negative balances stay non-negative |
| MinimumPayments.MinMonthOwesNoMore | app.py:1352-1371 | the total owed after a month is at most the total before it |
| MinimumPayments.MinRemainingDebtNonIncreasing | app.py:1346-1380 | the remaining debt recorded in the baseline plan never rises from one month to a later one |
| MinimumPayments.MinMonthPaymentsLength | app.py:1352-1367 | a month records one payment per debt that was above 0.01 at its start |
| MinimumPayments.MinMonthPaymentsTotal | app.py:1363-1369 | a month's `total_payment` is the sum of its recorded payments |
| MinimumPayments.MinMonthPaymentOf | app.py:1358-1367 | the payment recorded for an owing debt carries its name and capped minimum, and it is marked paid off iff the debt's new balance is at most 0.01 |
| Avalanche.FirstAbove | app.py:1456-1460 | the target index is the first debt above 0.01, or the length when there is none |
| Avalanche.PayMapFacts | app.py:1421-1442 | the debt-to-payment map holds exactly the debts that owed at the month's start, each pointing to its own payment record |
| Avalanche.PayExtraDecreases | app.py:1451-1476 | each pass of the overflow loop clears its target or uses up the budget, so the loop terminates |
| AvalancheFacts.PayExtraRecord | app.py:1466-1476 | one overflow pass changes only its target and the target's own record; the record gains exactly what comes off the target's balance and the remaining budget, and is marked paid off iff the new balance is at most 0.01 |
| AvalancheFacts.OverflowTotal | app.py:1451-1476 | across the overflow loop, `total_payment` grows by exactly what the payment records gain |
| AvalancheFacts.OverflowRecords | app.py:1451-1476 | the overflow loop keeps each owing debt's record in step with it: same name, amount grown by what came off the balance, marked paid off iff it got extra and is at most 0.01 |
| AvalancheSimulator.AvalancheMinimumPhase | app.py:1424-1445 | the in-place minimum phase leaves the specified balances, payments, total, interest and payment map |
| AvalancheSimulator.FindTarget | app.py:1453-1460 | the search returns the first debt above 0.01 |
| AvalancheSimulator.ApplyExtra | app.py:1465-1476 | one overflow pass, in place, produces the specified month state |
| AvalancheSimulator.AvalancheOverflow | app.py:1449-1476 | the in-place overflow loop produces the specified month state |
| AvalancheSimulator.AvalancheMonth | app.py:1412-1486 | one in-place month leaves the specified debts and returns the specified plan entry and interest |
| AvalancheSimulator.AvalancheRun | app.py:1407-1489 | the month loop over the sorted copy ends in the specified run |
| AvalancheSimulator.CalculateDebtScenarioWithExtra | app.py:1394-1504 | the method returns exactly `AvalancheScenario(debts, extra)` |
| AvalancheSimulator.ScenarioFromSorted | app.py:1399-1504 | from an already sorted list and budget, the method returns the specified scenario |
| AvalancheFacts.SortByRateOrder | app.py:1396-1397 | the avalanche order is a permutation in non-increasing annual rate and keeps the input order among equal rates |
| AvalancheFacts.SortByRateMinPayments | app.py:1403-1405 | sorting does not change the sum of the minimums that fixes the monthly budget |
| AvalancheFacts.OverflowKeepsDebts | app.py:1451-1476 | the overflow loop changes nothing but balances |
| AvalancheFacts.OverflowPaysDown | app.py:1466-1468 | the overflow loop never raises a balance or takes one below zero |
| AvalancheFacts.OverflowLeavesPaidOff | app.py:1456-1460 | the overflow loop leaves debts at or below 0.01 untouched |
| AvalancheFacts.OverflowConserves | app.py:1475-1476 | money is conserved: paid plus remaining budget is unchanged, and a non-negative remainder only shrinks and stays non-negative |
| AvalancheFacts.OverflowPriority | app.py:1453-1468 | extra money goes to a debt only when every debt before it in rate order ends the month at or below 0.01 |
| AvalancheFacts.OverflowSpends | app.py:1451 | when the overflow stops, at most 0.01 of budget is left or no debt is above 0.01 |
| AvalancheFacts.AvMinStateFacts | app.py:1424-1434 | the minimum phase keeps debts' identity, keeps owing balances non-negative, and leaves paid-off debts untouched |
| AvalancheFacts.AvMonthKeeps | app.py:1412-1480 | a month keeps debts' identity, keeps owing balances non-negative, and leaves paid-off debts untouched |
| AvalancheFacts.AvMonthSpends | app.py:1417-1476 | a month pays out exactly the budget less what is left of it, and leaves at most 0.01 unspent unless no debt is above 0.01 |
| AvalancheFacts.AvMinTotalCovered | app.py:1431-1445 | with non-negative minimums, the minimum phase pays at most the sum of the minimums |
| AvalancheFacts.AvMonthWithinBudget | app.py:1417-1476 | when the budget covers the minimums, a month pays at most the budget and never overspends |
| AvalancheFacts.AvMonthPaymentsTotal | app.py:1413-1486 | an avalanche month's `total_payment` is the sum of the amounts of its payment records |
| AvalancheFacts.AvMinPaymentsIndex | app.py:1424-1442 | the minimum phase puts each owing debt's record, with its name and capped minimum and not marked paid off, at that debt's position in the payment list |
| AvalancheFacts.AvMonthRecords | app.py:1424-1476 | after a month, each debt that was owing has its own record carrying its name and its capped minimum plus its extra; the record is marked paid off iff the debt got extra and ended at most 0.01, so a debt the minimum alone paid off stays unmarked |
| AvalancheFacts.AvMonthPriority | app.py:1447-1476 | within a month, extra money respects the avalanche order |
| AvalancheFacts.AvLoopShape | app.py:1411-1489 | the run never passes 360 months and records one plan entry per month |
| AvalancheFacts.AvLoopExtends | app.py:1482-1486 | the loop only appends to the plan |
| AvalancheFacts.AvLoopOwingUntilLast | app.py:1488-1489 | every recorded month but the last left more than 0.01 owing |
| AvalancheFacts.AvLoopStops | app.py:1411-1489 | unless the cap is reached, the loop ends with no debt above 0.01 or right after a month left at most 0.01 owing |
| AvalancheFacts.AvLoopKeepsDebts | app.py:1411-1489 | along the run debts keep their identity and non-negative balances stay non-negative |
| AvalancheFacts.AvMonthKeepsMinimums | app.py:1424-1476 | a month leaves the minimum payments, and so the budget's basis, unchanged |
| AvalancheFacts.AvLoopWithinBudget | app.py:1403-1476 | when the budget covers the minimums, no month of the run pays more than the budget |
| AvalancheFacts.AvalancheFromShape | app.py:1491-1504 | the scenario has at most 360 months, one plan entry each, the given extra and budget, non-negative interest saved, and time saved that is the baseline's months minus the run's, or 0 when that is negative |
| AvalancheFacts.AvalancheFromStops | app.py:1411-1489 | the avalanche plan stops as soon as the debts are paid off, as the baseline does |
| AvalancheFacts.AvalancheFromWithinBudget | app.py:1411-1476 | for any payment order and any budget that covers the non-negative minimums, no month of the run pays more than that budget |
| AvalancheFacts.AvalancheScenarioWithinBudget | app.py:1397-1476 | for a non-negative extra and non-negative minimums, no month of `calculate_debt_scenario_with_extra(debts, extra)` pays more than the sum of the minimums plus the extra |
| AvalancheFacts.SortByRateKeepsMinimums | app.py:1397-1401 | sorting keeps the minimums non-negative |
| AvalancheFacts.AvalancheScenarioBudget | app.py:1403-1405 | the scenario's extra is the given extra, and its monthly payment is the sum of the minimums plus that extra |
| SimulatorQuirks.PaidOffByMinimumNotMarked | app.py:1436-1473 | for a debt its minimum clears, the baseline marks the payment paid off, the avalanche run marks it not paid off, and both leave nothing owing |
| SimulatorQuirks.UnpaidInterest | app.py:1355-1434 | for a minimum below the interest, the baseline leaves the balance unchanged, while the avalanche run raises it by the unpaid interest |
| SimulatorQuirks.ZeroExtraDiffersFromBaseline | app.py:1394-1434 | with an extra of 0, such a debt's first avalanche month owes more than the baseline's first month |
| Candidates.AppendBudgetOptions | app.py:1265-1276 | the loop appends exactly the budget shares of at least 10, in percentage order |
| Candidates.AppendFixedOptions | app.py:1279-1286 | the loop appends exactly the fixed amounts of at least 10, in list order |
| Candidates.AppendCombinedOptions | app.py:1289-1301 | the loop appends all four contribution-plus-share options, without a floor |
| Candidates.ScenarioOptions | app.py:1255-1301 | the method builds exactly the candidate list that `CandidateOptions` specifies: budget shares, then fixed amounts, then combined options |
| Candidates.BudgetOptionsMembers | app.py:1267-1276 | every budget option is a listed share of at least 10, and every listed share of at least 10 is present |
| Candidates.FixedOptionsMembers | app.py:1279-1286 | every fixed option is a listed amount of at least 10, and every listed amount of at least 10 is present |
| Candidates.CombinedOptionsMembers | app.py:1291-1301 | the combined options are exactly contribution plus each listed share of the budget |
| Candidates.CandidateAmountsPositive | app.py:1258-1301 | every candidate adds a positive amount |
| Candidates.CandidateOptionsForms | app.py:1258-1301 | every candidate is a meaningful budget share (only with budget available), a meaningful base or contribution amount, or a combined option (only with both positive) |
| Candidates.CandidateBudgetShares | app.py:1265-1276 | a budget share is a candidate iff budget is available and the share is at least 10 |
| Candidates.CandidateFixedAmounts | app.py:1258-1286 | a base amount or positive contribution is a candidate iff it is at least 10 |
| Candidates.CandidateCombined | app.py:1289-1301 | the combined options are candidates iff both the contribution and the budget are positive |
| Candidates.CandidateCount | app.py:1258-1301 | there are at most 8 + 8 + 4 candidates |
| Candidates.CombinedBelowFloor | app.py:1289-1301 | a combined candidate of 1.25 exists, below the floor the other kinds must meet |
| Candidates.UniqueScenarios | app.py:1304-1308 | the dict-building loop returns exactly the values `UniqueOptions` specifies, in key-insertion order |
| Candidates.TableOfKeys | app.py:1304-1308 | the dict holds each key once, and exactly the rounded amounts of the candidates |
| Candidates.KeptExtends | app.py:1307-1308 | a kept option stays kept when a later option is not a budget option with its key |
| Candidates.KeptLast | app.py:1307-1308 | an option is kept when its key is new or it is a budget option |
| Candidates.TableOfKept | app.py:1304-1308 | each key's value is the last budget option with that key if there is one, otherwise the first option with that key |
| Candidates.UniqueOptionsFacts | app.py:1304-1308 | the de-duplicated options have distinct rounded amounts, come from the candidates, represent every candidate's key, and are each the kept option of their key |
| Candidates.DistinctAmounts | app.py:1306 | distinct rounded amounts imply distinct amounts |
| Candidates.SortedDistinct | app.py:1311 | sorting the de-duplicated options by amount gives a strictly increasing permutation |
| Candidates.SelectFromPrefix | app.py:1311-1314 | the selection keeps min(n, 11) of the n options, each no more often than it occurs, at the front of the sorted order |
| Candidates.SelectFromOrdered | app.py:1311-1314 | the selection strictly increases in amount and holds only de-duplicated options |
| Candidates.SelectFromSmallest | app.py:1311-1314 | an option is left out only when eleven are selected, all with smaller amounts |
| Candidates.SelectedOptionsOrdered | app.py:1304-1314 | at most eleven options get a scenario, in strictly increasing order of amount |
| Candidates.SelectedOptionsFromInput | app.py:1304-1314 | every selected option is one of the candidates |
| Candidates.SelectedOptionsKept | app.py:1304-1314 | each selected option is the one the de-duplication kept for its key |
| Candidates.SelectedOptionsSmallest | app.py:1304-1314 | a distinct option is left without a scenario only when eleven smaller ones have one |
| Acceleration.DebtAccounts | app.py:1193-1195 | the queried accounts are exactly the active ones of the four debt types |
| Acceleration.BuildDebts | app.py:1202-1240 | the loop builds exactly the specified debt list, with `total_debt` their balance sum and `total_min_payments` their minimums' sum |
| Acceleration.DebtsOfFacts | app.py:1215-1234 | every debt has a positive balance, one of the rates 0.13, 0.11, 0.15 or 0.07, and a monthly rate of a twelfth of it |
| Acceleration.DebtsOfMembers | app.py:1213-1238 | the debts are exactly the accounts with a positive current balance, each with the request's minimum (0 when the request gives none) |
| Acceleration.TotalDebtPositive | app.py:1239 | the total debt of a non-empty list is positive |
| Acceleration.LowerCaseCreditGetsLoanRate | app.py:1219-1227 | a `credit` account named Platinum gets 0.07, while a `Credit Card` one gets 0.13 |
| Acceleration.SelectScenarioOptions | app.py:1255-1314 | the options that get a scenario are exactly `SelectedOptions` of the candidates |
| Acceleration.RunExtraScenarios | app.py:1314-1324 | one avalanche scenario per selected option, in order |
| Acceleration.CalculateDebtAcceleration | app.py:1171-1331 | the method returns exactly the specified response |
| Acceleration.NoDebtsIffNoneOwing | app.py:1193-1243 | the debt list is empty iff no active account of a debt type has a positive current balance |
| Acceleration.AccelerationErrors | app.py:1186-1243 | the request fails iff income is not positive, the budget is negative, or no active debt account has a positive current balance, with the first failing check's message |
| Acceleration.ExtraScenariosIndex | app.py:1314-1324 | entry i is the avalanche scenario for option i's amount and carries that option |
| Acceleration.AccelerationScenarios | app.py:1245-1331 | on success there are 1 + (at most 11) scenarios, the minimum-only one first, and the reported total debt is positive |
| Acceleration.AccelerationExtraScenarios | app.py:1310-1324 | on success each later scenario ran its option's amount as the extra, with the minimums plus that amount as its monthly payment, and the amounts strictly increase |
| Acceleration.SelectedAmountsPositive | app.py:1258-1314 | every option that gets a scenario has a positive extra amount |
| Acceleration.DebtsOfMinimums | app.py:1213-1236 | with non-negative minimums in the request, every debt's minimum payment is non-negative |
| Acceleration.AccelerationWithinBudget | app.py:1314-1324 | with non-negative minimums in the request, no month of any returned avalanche scenario pays more than the debts' minimums plus that scenario's amount |
| Ledger.DebtAccountDataFacts | app.py:596-647 | a debt entry is rejected iff the type is not credit or loan; otherwise spend is `closing - opening + paid`, income is paid, and a payment row exists iff paid > 0, carrying the paid amount |
| Ledger.DebtAccountDataTotals | app.py:636-660 | a debt account's new rows total max(0, paid) of income and max(0, spend) of expenses, and none is misc |
| Ledger.RegularAccountDataFacts | app.py:679-755 | a regular entry is rejected iff the type is credit or loan; otherwise expenses are `opening + income - closing`, and negative expenses yield exactly one misc income of their absolute value, none otherwise |
| Ledger.RegularAccountDataReconciles | app.py:704-755 | with non-negative income, opening plus the new rows' net equals the closing balance |
| Ledger.SetClosingBalanceReconciles | app.py:518-573 | after the intended adjustment the record's opening + income - expenses meets the closing balance to within a cent; only misc rows are replaced |
| Ledger.SetClosingBalanceIdempotent | app.py:518-573 | submitting the same closing balance again changes nothing |
| Ledger.AsWrittenAgreesWithoutMisc | app.py:518-573 | on a month without misc rows, the route as written gives the intended result |
| Ledger.DoubleSubmitDropsAdjustment | app.py:518-533 | as written, a second identical submission deletes the adjustment and leaves the record unreconciled |
| Ledger.MonthlyEquivalentIsSumOfShares | app.py:810-815 | the monthly equivalent is the sum of each active expense's monthly cost: its amount, a twelfth or a third by frequency |
| Ledger.ActualExpenses | app.py:210 | actual expenses are calculated expenses less investments, but never below zero |
| Ledger.PaymentHistoryMonths | app.py:1114-1120 | the loop returns exactly the specified six months |
| Ledger.HistoryMonthsConsecutive | app.py:1115-1120 | for a calendar month, the history is six valid months, the current one first, each one month before the previous |
| Tracking.TrackOnceKeepsUnique | app.py:364-385 | adding a tracking row keeps at most one row per expense and month, and the expense is tracked afterwards |
| Tracking.MarkFixedExpensePaidFacts | app.py:361-385 | marking fails iff the expense is unknown; an already tracked expense changes nothing, otherwise exactly one row with the expense's amount is appended |
| Tracking.BulkAllocateFixedExpenses | app.py:438-472 | the loop returns the specified rows, and `allocations_made` is the number of rows added |
| Tracking.AllocatedKeepsUnique | app.py:441-472 | bulk allocation keeps the existing rows, adds only rows for the month, at most one per allocation, and never tracks an expense twice in a month |
| Tracking.AddInvestmentFacts | app.py:1550-1572 | adding creates no key but its own, adds exactly the amount to it, leaves other keys alone, and keeps the old notes only when the new ones are empty |
| Tracking.AddAllAccumulates | app.py:1556-1569 | repeated additions leave the key with the sum of what was added |

## Left out

- Flask routing, form and JSON parsing (`float(...)`, `int(...)`, the `str(account.id)` keys of `minimum_payments`), `flash`, `redirect`, templates and the broad `try/except` of `calculate_debt_acceleration`. These are web plumbing; inputs are taken already parsed.
- SQLAlchemy models, queries and commits. Tables are read as sequences and maps. A month's transactions for one account are a sequence whose order is not significant.
- Floating-point behaviour. Money is exact `real`, so sums and `/ 12` are exact, and the rounding residue of IEEE doubles is not modelled.
- Scenario names and descriptions, transaction descriptions, `datetime.now()`/`utcnow()` timestamps. They are display strings or clock reads that no computation uses. The current month is a parameter.
- `monthly_savings` and `monthly_expenses` of the acceleration request: they are read and never used.
- The `if scenario:` test at app.py:1316. It is always true, because the simulator always returns a non-empty dict.
- The dashboard's `closing_balance or opening_balance or 0` sums (app.py:199-201). Only the `max(0, …)` adjustment of app.py:210 is modelled.
- Ledger.Lower: models ASCII lower-casing only, where Python's `str.lower()` is Unicode-aware. The account types the application uses are ASCII.
- Tracking.BulkAllocateFixedExpenses: takes the form's `expense_<id>` entries already parsed. Entries with an empty account or an unparsable id are skipped by the route before the loop body and are not modelled. Rows added earlier in the same form are seen by the duplicate check, as SQLAlchemy's autoflush does.
- Investment deletion and the other CRUD routes; charts, stock lookup, CSV upload and the exports.
- AvalancheFacts.AvalancheScenarioWithinBudget: the monthly bound is claimed only for non-negative minimum payments and extra. The source accepts a negative minimum, and then a debt that is already paid off lowers the budget without lowering what the month pays. The same holds for Acceleration.AccelerationWithinBudget.

## Findings

| source | as written | input that shows it | evidently intended | confidence | as-written member | corrected member |
|---|---|---|---|---|---|---|
| app.py:518-533 | `set_closing_balance` computes the expected closing balance from all the month's transactions, including the misc rows an earlier adjustment added, and only then deletes those rows | opening 0 and no transactions; submit closing balance 100 twice. The first submission adds a misc income of 100. The second finds no difference, deletes that row, adds nothing, and leaves income 0 against a closing balance of 100 | compute the difference from the rows that survive the deletion, so the record reconciles and re-submitting changes nothing | not executed | Ledger.DoubleSubmitDropsAdjustment | Ledger.SetClosingBalanceReconciles |
