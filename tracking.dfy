/**
 * The two keyed-table operations of the monthly pages: marking fixed expenses as paid for
 * tracking (at most one tracking row per fixed expense and month), and adding an investment
 * (one entry per month, year and investment type, amounts accumulating).
 */
module Tracking {
  import opened Wrappers

  /** A fixed expense as the tracking routes read it. */
  datatype FixedExpenseRecord = FixedExpenseRecord(amount: real, category: string)

  /** A tracking-only expense row: which fixed expense it records, for which account and month. */
  datatype TrackingRow = TrackingRow(fixedExpenseId: nat, accountId: nat, month: int, year: int, amount: real, category: string)

  /** One (fixed expense, account) pair of the bulk-allocation form, already parsed. */
  datatype Allocation = Allocation(fixedExpenseId: nat, accountId: nat)

  const UnknownExpenseError := "Fixed expense not found"

  /** Some row already tracks this fixed expense for this month. */
  predicate Tracked(rows: seq<TrackingRow>, fixedExpenseId: nat, month: int, year: int)
  {
    exists i :: 0 <= i < |rows| && rows[i].fixedExpenseId == fixedExpenseId && rows[i].month == month && rows[i].year == year
  }

  /** No fixed expense is tracked twice in the same month. */
  predicate AtMostOnePerMonth(rows: seq<TrackingRow>)
  {
    forall i, j :: 0 <= i < j < |rows| ==>
      !(rows[i].fixedExpenseId == rows[j].fixedExpenseId && rows[i].month == rows[j].month && rows[i].year == rows[j].year)
  }

  /** The rows with a new tracking row added unless the expense is already tracked that month. */
  function TrackOnce(rows: seq<TrackingRow>, row: TrackingRow): (r: seq<TrackingRow>)
  {
    if Tracked(rows, row.fixedExpenseId, row.month, row.year) then rows else rows + [row]
  }

  lemma TrackOnceKeepsUnique(rows: seq<TrackingRow>, row: TrackingRow)
    requires AtMostOnePerMonth(rows)
    ensures AtMostOnePerMonth(TrackOnce(rows, row))
    ensures Tracked(TrackOnce(rows, row), row.fixedExpenseId, row.month, row.year)
    ensures TrackOnce(rows, row) == rows || TrackOnce(rows, row) == rows + [row]
  {
    var r := TrackOnce(rows, row);
    if !Tracked(rows, row.fixedExpenseId, row.month, row.year) {
      assert r[|rows|] == row;
    }
  }

  /**
   * Marking one fixed expense as paid: an unknown expense is an error; an expense already
   * tracked this month leaves the rows as they are; otherwise a row with the expense's amount
   * is added, its category falling back to `Fixed Expenses` when the expense has none.
   */
  function MarkFixedExpensePaid(rows: seq<TrackingRow>, expenses: map<nat, FixedExpenseRecord>,
                                fixedExpenseId: nat, accountId: nat, month: int, year: int): Result<seq<TrackingRow>, string>
  {
    if fixedExpenseId !in expenses then Failure(UnknownExpenseError)
    else
      var e := expenses[fixedExpenseId];
      var category := if e.category == "" then "Fixed Expenses" else e.category;
      Success(TrackOnce(rows, TrackingRow(fixedExpenseId, accountId, month, year, e.amount, category)))
  }

  /**
   * Marking as paid fails exactly for an unknown expense, never tracks an expense twice in a
   * month, changes nothing when the expense is already tracked and otherwise adds exactly one row.
   */
  lemma MarkFixedExpensePaidFacts(rows: seq<TrackingRow>, expenses: map<nat, FixedExpenseRecord>,
                                  fixedExpenseId: nat, accountId: nat, month: int, year: int)
    requires AtMostOnePerMonth(rows)
    ensures var r := MarkFixedExpensePaid(rows, expenses, fixedExpenseId, accountId, month, year);
      && (r.Failure? <==> fixedExpenseId !in expenses)
      && (r.Success? ==>
            && AtMostOnePerMonth(r.value)
            && Tracked(r.value, fixedExpenseId, month, year)
            && (Tracked(rows, fixedExpenseId, month, year) ==> r.value == rows)
            && (!Tracked(rows, fixedExpenseId, month, year) ==>
                  |r.value| == |rows| + 1 && r.value[..|rows|] == rows
                  && r.value[|rows|].amount == expenses[fixedExpenseId].amount))
  {
    if fixedExpenseId in expenses {
      var e := expenses[fixedExpenseId];
      var category := if e.category == "" then "Fixed Expenses" else e.category;
      TrackOnceKeepsUnique(rows, TrackingRow(fixedExpenseId, accountId, month, year, e.amount, category));
    }
  }

  /** Whether the bulk form's allocation adds a row to `rows`. */
  predicate Allocates(rows: seq<TrackingRow>, expenses: map<nat, FixedExpenseRecord>, accounts: set<nat>,
                      a: Allocation, month: int, year: int)
  {
    !Tracked(rows, a.fixedExpenseId, month, year) && a.fixedExpenseId in expenses && a.accountId in accounts
  }

  function AllocationRow(expenses: map<nat, FixedExpenseRecord>, a: Allocation, month: int, year: int): TrackingRow
    requires a.fixedExpenseId in expenses
  {
    TrackingRow(a.fixedExpenseId, a.accountId, month, year, expenses[a.fixedExpenseId].amount,
                expenses[a.fixedExpenseId].category)
  }

  /**
   * The rows after the bulk form's allocations, taken in order: each allocation of a known
   * expense to a known account adds a row unless the expense is already tracked that month,
   * counting the rows added earlier in the same form.
   */
  function Allocated(rows: seq<TrackingRow>, expenses: map<nat, FixedExpenseRecord>, accounts: set<nat>,
                     allocations: seq<Allocation>, month: int, year: int): seq<TrackingRow>
  {
    if |allocations| == 0 then rows
    else
      var before := Allocated(rows, expenses, accounts, allocations[..|allocations| - 1], month, year);
      var a := allocations[|allocations| - 1];
      if Allocates(before, expenses, accounts, a, month, year) then before + [AllocationRow(expenses, a, month, year)]
      else before
  }

  /**
   * The bulk-allocation loop: it returns the new rows and how many allocations were made.
   */
  method BulkAllocateFixedExpenses(rows: seq<TrackingRow>, expenses: map<nat, FixedExpenseRecord>, accounts: set<nat>,
                                   allocations: seq<Allocation>, month: int, year: int)
    returns (newRows: seq<TrackingRow>, allocationsMade: nat)
    ensures newRows == Allocated(rows, expenses, accounts, allocations, month, year)
    ensures |newRows| == |rows| + allocationsMade
  {
    newRows := rows;
    allocationsMade := 0;
    for k := 0 to |allocations|
      invariant newRows == Allocated(rows, expenses, accounts, allocations[..k], month, year)
      invariant |newRows| == |rows| + allocationsMade
    {
      var a := allocations[k];
      assert allocations[..k + 1][..k] == allocations[..k];
      if !Tracked(newRows, a.fixedExpenseId, month, year) {
        if a.fixedExpenseId in expenses && a.accountId in accounts {
          newRows := newRows + [AllocationRow(expenses, a, month, year)];
          allocationsMade := allocationsMade + 1;
        }
      }
    }
    assert allocations[..|allocations|] == allocations;
  }

  /**
   * The bulk allocation keeps the existing rows, only adds rows for the requested month, and
   * never tracks an expense twice in a month.
   */
  lemma {:induction false} AllocatedKeepsUnique(rows: seq<TrackingRow>, expenses: map<nat, FixedExpenseRecord>,
                                                accounts: set<nat>, allocations: seq<Allocation>, month: int, year: int)
    requires AtMostOnePerMonth(rows)
    ensures var r := Allocated(rows, expenses, accounts, allocations, month, year);
      && AtMostOnePerMonth(r)
      && |rows| <= |r| <= |rows| + |allocations|
      && r[..|rows|] == rows
      && (forall i :: |rows| <= i < |r| ==> r[i].month == month && r[i].year == year)
  {
    if |allocations| > 0 {
      var before := Allocated(rows, expenses, accounts, allocations[..|allocations| - 1], month, year);
      var a := allocations[|allocations| - 1];
      AllocatedKeepsUnique(rows, expenses, accounts, allocations[..|allocations| - 1], month, year);
      if Allocates(before, expenses, accounts, a, month, year) {
        var row := AllocationRow(expenses, a, month, year);
        TrackOnceKeepsUnique(before, row);
        assert TrackOnce(before, row) == before + [row];
        assert (before + [row])[..|rows|] == before[..|rows|];
      }
    }
  }

  // ---------------------------------------------------------------------------------------
  // Investments
  // ---------------------------------------------------------------------------------------

  datatype InvestmentKey = InvestmentKey(month: int, year: int, investmentType: string)

  datatype Investment = Investment(amount: real, notes: string)

  /**
   * Adding an investment: an existing entry for the month, year and type grows by the amount
   * and takes the new notes unless they are empty; otherwise a new entry is made.
   */
  function AddInvestment(table: map<InvestmentKey, Investment>, key: InvestmentKey, amount: real, notes: string)
    : map<InvestmentKey, Investment>
  {
    if key in table then
      table[key := Investment(table[key].amount + amount, if notes != "" then notes else table[key].notes)]
    else
      table[key := Investment(amount, notes)]
  }

  /** The amount recorded for a key, zero when there is none. */
  function AmountOf(table: map<InvestmentKey, Investment>, key: InvestmentKey): real
  {
    if key in table then table[key].amount else 0.0
  }

  /**
   * Adding an investment adds exactly its amount to its own key, leaves every other key as it
   * was and creates no key but its own.
   */
  lemma AddInvestmentFacts(table: map<InvestmentKey, Investment>, key: InvestmentKey, amount: real, notes: string)
    ensures var t := AddInvestment(table, key, amount, notes);
      && t.Keys == table.Keys + {key}
      && AmountOf(t, key) == AmountOf(table, key) + amount
      && (forall k :: k in table && k != key ==> t[k] == table[k])
      && (notes != "" ==> t[key].notes == notes)
      && (notes == "" && key in table ==> t[key].notes == table[key].notes)
  {
  }

  /** The amounts added for a key, in order. */
  function AddAll(table: map<InvestmentKey, Investment>, key: InvestmentKey, amounts: seq<real>): map<InvestmentKey, Investment>
  {
    if |amounts| == 0 then table
    else AddInvestment(AddAll(table, key, amounts[..|amounts| - 1]), key, amounts[|amounts| - 1], "")
  }

  function Sum(xs: seq<real>): real
  {
    if |xs| == 0 then 0.0 else Sum(xs[..|xs| - 1]) + xs[|xs| - 1]
  }

  /** Repeated additions accumulate: the key ends with the sum of everything added to it. */
  lemma {:induction false} AddAllAccumulates(table: map<InvestmentKey, Investment>, key: InvestmentKey, amounts: seq<real>)
    ensures AmountOf(AddAll(table, key, amounts), key) == AmountOf(table, key) + Sum(amounts)
    ensures forall k :: k in table && k != key ==> k in AddAll(table, key, amounts) && AddAll(table, key, amounts)[k] == table[k]
  {
    if |amounts| > 0 {
      AddAllAccumulates(table, key, amounts[..|amounts| - 1]);
    }
  }
}
