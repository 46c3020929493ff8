/**
 * The scenario options of `calculate_debt_acceleration` (app.py:1255-1314): shares of
 * the available budget, fixed extra amounts and the user's contribution combined with
 * budget shares; their de-duplication by the amount rounded to the euro; and the
 * choice of the eleven smallest.
 */
module Candidates {
  import opened Money
  import Sorting

  const BudgetPercentages: seq<real> := [0.10, 0.25, 0.33, 0.50, 0.67, 0.75, 0.90, 1.00]
  const BaseExtraAmounts: seq<real> := [50.0, 100.0, 200.0, 300.0, 500.0, 750.0, 1000.0]
  const CombinedPercentages: seq<real> := [0.25, 0.50, 0.75, 1.00]

  /** Budget shares and fixed amounts below this are dropped as not meaningful. */
  const MeaningfulAmount: real := 10.0

  /** How many options get an avalanche scenario, after the minimum-only one. */
  const MaxExtraScenarios: nat := 11

  /** Which list an option came from; the option's name and description follow from it. */
  datatype OptionKind = BudgetShare(percentage: real) | FixedAmount | CombinedShare(percentage: real)

  /**
   * An entry of `scenario_options`. The keys an entry does not set read as 0 where the
   * program uses `option.get(key, 0)` (app.py:1320-1323).
   */
  datatype ScenarioOption = ScenarioOption(
    kind: OptionKind,
    extraAmount: real,
    isBudgetScenario: bool,
    budgetPercentage: real,
    userContribution: real,
    budgetAllocation: real)

  function BudgetOption(available: real, p: real): ScenarioOption
  {
    ScenarioOption(BudgetShare(p), available * p, true, p * 100.0, 0.0, 0.0)
  }

  function FixedOption(amount: real): ScenarioOption
  {
    ScenarioOption(FixedAmount, amount, false, 0.0, 0.0, 0.0)
  }

  function CombinedOption(available: real, extra: real, p: real): ScenarioOption
  {
    ScenarioOption(CombinedShare(p), extra + available * p, true, 0.0, extra, available * p)
  }

  /** `base_extra_amounts`, with the user's contribution appended when it is positive. */
  function BaseAmounts(extra: real): seq<real>
  {
    BaseExtraAmounts + (if extra > 0.0 then [extra] else [])
  }

  /** The budget options for shares `ps` of `available` whose amount is meaningful. */
  function BudgetOptions(available: real, ps: seq<real>): seq<ScenarioOption>
  {
    if |ps| == 0 then []
    else
      BudgetOptions(available, ps[..|ps| - 1]) +
        (if available * ps[|ps| - 1] >= MeaningfulAmount then [BudgetOption(available, ps[|ps| - 1])] else [])
  }

  /** The fixed options for the meaningful amounts of `amounts`. */
  function FixedOptions(amounts: seq<real>): seq<ScenarioOption>
  {
    if |amounts| == 0 then []
    else
      FixedOptions(amounts[..|amounts| - 1]) +
        (if amounts[|amounts| - 1] >= MeaningfulAmount then [FixedOption(amounts[|amounts| - 1])] else [])
  }

  /** The combined options, one per share, with no floor on the amount. */
  function CombinedOptions(available: real, extra: real, ps: seq<real>): seq<ScenarioOption>
  {
    if |ps| == 0 then []
    else CombinedOptions(available, extra, ps[..|ps| - 1]) + [CombinedOption(available, extra, ps[|ps| - 1])]
  }

  /** `scenario_options` after app.py:1258-1301. */
  function CandidateOptions(available: real, extra: real): seq<ScenarioOption>
  {
    (if available > 0.0 then BudgetOptions(available, BudgetPercentages) else [])
    + FixedOptions(BaseAmounts(extra))
    + (if extra > 0.0 && available > 0.0 then CombinedOptions(available, extra, CombinedPercentages) else [])
  }

  /** The loop over `budget_percentages` (app.py:1265-1276). */
  method AppendBudgetOptions(options0: seq<ScenarioOption>, available: real) returns (options: seq<ScenarioOption>)
    ensures options == options0 + BudgetOptions(available, BudgetPercentages)
  {
    options := options0;
    for i := 0 to |BudgetPercentages|
      invariant options == options0 + BudgetOptions(available, BudgetPercentages[..i])
    {
      assert BudgetPercentages[..i + 1][..i] == BudgetPercentages[..i];
      var budgetAmount := available * BudgetPercentages[i];
      if budgetAmount >= MeaningfulAmount {
        options := options + [BudgetOption(available, BudgetPercentages[i])];
      }
    }
    assert BudgetPercentages[..|BudgetPercentages|] == BudgetPercentages;
  }

  /** The loop over `base_extra_amounts` (app.py:1279-1286). */
  method AppendFixedOptions(options0: seq<ScenarioOption>, amounts: seq<real>) returns (options: seq<ScenarioOption>)
    ensures options == options0 + FixedOptions(amounts)
  {
    options := options0;
    for i := 0 to |amounts|
      invariant options == options0 + FixedOptions(amounts[..i])
    {
      assert amounts[..i + 1][..i] == amounts[..i];
      if amounts[i] >= MeaningfulAmount {
        options := options + [FixedOption(amounts[i])];
      }
    }
    assert amounts[..|amounts|] == amounts;
  }

  /** The loop over `combined_percentages` (app.py:1289-1301). */
  method AppendCombinedOptions(options0: seq<ScenarioOption>, available: real, extra: real)
      returns (options: seq<ScenarioOption>)
    ensures options == options0 + CombinedOptions(available, extra, CombinedPercentages)
  {
    options := options0;
    for i := 0 to |CombinedPercentages|
      invariant options == options0 + CombinedOptions(available, extra, CombinedPercentages[..i])
    {
      assert CombinedPercentages[..i + 1][..i] == CombinedPercentages[..i];
      options := options + [CombinedOption(available, extra, CombinedPercentages[i])];
    }
    assert CombinedPercentages[..|CombinedPercentages|] == CombinedPercentages;
  }

  /** `scenario_options` as the program builds it. */
  method ScenarioOptions(available: real, extra: real) returns (options: seq<ScenarioOption>)
    ensures options == CandidateOptions(available, extra)
  {
    var baseAmounts := BaseExtraAmounts;
    if extra > 0.0 {
      baseAmounts := baseAmounts + [extra];
    }
    assert baseAmounts == BaseAmounts(extra);
    options := [];
    if available > 0.0 {
      options := AppendBudgetOptions(options, available);
    }
    ghost var budgetPart := options;
    assert budgetPart == (if available > 0.0 then BudgetOptions(available, BudgetPercentages) else []);
    options := AppendFixedOptions(options, baseAmounts);
    ghost var fixedPart := options;
    if extra > 0.0 && available > 0.0 {
      options := AppendCombinedOptions(options, available, extra);
    }
    assert options == fixedPart +
      (if extra > 0.0 && available > 0.0 then CombinedOptions(available, extra, CombinedPercentages) else []);
  }

  // ---------------------------------------------------------------------------
  // What the options are.

  lemma {:induction false} BudgetOptionsMembers(available: real, ps: seq<real>)
    ensures forall o :: o in BudgetOptions(available, ps) ==>
      o.kind.BudgetShare? && o.kind.percentage in ps && o == BudgetOption(available, o.kind.percentage)
      && o.extraAmount >= MeaningfulAmount
    ensures forall p :: p in ps && available * p >= MeaningfulAmount ==> BudgetOption(available, p) in BudgetOptions(available, ps)
    ensures |BudgetOptions(available, ps)| <= |ps|
  {
    if |ps| > 0 {
      BudgetOptionsMembers(available, ps[..|ps| - 1]);
      assert ps == ps[..|ps| - 1] + [ps[|ps| - 1]];
    }
  }

  lemma {:induction false} FixedOptionsMembers(amounts: seq<real>)
    ensures forall o :: o in FixedOptions(amounts) ==>
      o.kind.FixedAmount? && o.extraAmount in amounts && o == FixedOption(o.extraAmount)
      && o.extraAmount >= MeaningfulAmount
    ensures forall a :: a in amounts && a >= MeaningfulAmount ==> FixedOption(a) in FixedOptions(amounts)
    ensures |FixedOptions(amounts)| <= |amounts|
  {
    if |amounts| > 0 {
      FixedOptionsMembers(amounts[..|amounts| - 1]);
      assert amounts == amounts[..|amounts| - 1] + [amounts[|amounts| - 1]];
    }
  }

  lemma {:induction false} CombinedOptionsMembers(available: real, extra: real, ps: seq<real>)
    ensures forall o :: o in CombinedOptions(available, extra, ps) ==>
      o.kind.CombinedShare? && o.kind.percentage in ps && o == CombinedOption(available, extra, o.kind.percentage)
    ensures forall p :: p in ps ==> CombinedOption(available, extra, p) in CombinedOptions(available, extra, ps)
    ensures |CombinedOptions(available, extra, ps)| == |ps|
  {
    if |ps| > 0 {
      CombinedOptionsMembers(available, extra, ps[..|ps| - 1]);
      assert ps == ps[..|ps| - 1] + [ps[|ps| - 1]];
    }
  }

  /**
   * Every candidate is a meaningful budget share (only when budget is available), a
   * meaningful fixed amount from the base list or the user's contribution, or a
   * combined option (only when both the contribution and the budget are positive).
   */
  lemma CandidateOptionsForms(available: real, extra: real)
    ensures forall o :: o in CandidateOptions(available, extra) ==>
      match o.kind
      case BudgetShare(p) =>
        available > 0.0 && p in BudgetPercentages && o == BudgetOption(available, p) && o.extraAmount >= MeaningfulAmount
      case FixedAmount =>
        o.extraAmount in BaseAmounts(extra) && o == FixedOption(o.extraAmount) && o.extraAmount >= MeaningfulAmount
      case CombinedShare(p) =>
        extra > 0.0 && available > 0.0 && p in CombinedPercentages && o == CombinedOption(available, extra, p)
  {
    BudgetOptionsMembers(available, BudgetPercentages);
    FixedOptionsMembers(BaseAmounts(extra));
    CombinedOptionsMembers(available, extra, CombinedPercentages);
  }

  /** Every candidate adds a positive amount: the floor of 10, or a positive contribution plus a positive share. */
  lemma CandidateAmountsPositive(available: real, extra: real)
    ensures forall o :: o in CandidateOptions(available, extra) ==> o.extraAmount > 0.0
  {
    CandidateOptionsForms(available, extra);
    forall o | o in CandidateOptions(available, extra) ensures o.extraAmount > 0.0 {
      match o.kind
      case BudgetShare(p) =>
      case FixedAmount =>
      case CombinedShare(p) =>
        assert p in CombinedPercentages;
        assert p > 0.0;
        assert available * p > 0.0;
    }
  }

  /** A budget share is a candidate exactly when budget is available and the share is meaningful. */
  lemma CandidateBudgetShares(available: real, extra: real)
    ensures forall p :: p in BudgetPercentages ==>
      (BudgetOption(available, p) in CandidateOptions(available, extra) <==>
         available > 0.0 && available * p >= MeaningfulAmount)
  {
    BudgetOptionsMembers(available, BudgetPercentages);
    FixedOptionsMembers(BaseAmounts(extra));
    CombinedOptionsMembers(available, extra, CombinedPercentages);
  }

  /** A base amount, or the positive contribution, is a candidate exactly when it is meaningful. */
  lemma CandidateFixedAmounts(available: real, extra: real)
    ensures forall a :: a in BaseAmounts(extra) ==>
      (FixedOption(a) in CandidateOptions(available, extra) <==> a >= MeaningfulAmount)
  {
    BudgetOptionsMembers(available, BudgetPercentages);
    FixedOptionsMembers(BaseAmounts(extra));
    CombinedOptionsMembers(available, extra, CombinedPercentages);
  }

  /** The four combined options are candidates exactly when contribution and budget are positive. */
  lemma CandidateCombined(available: real, extra: real)
    ensures forall p :: p in CombinedPercentages ==>
      (CombinedOption(available, extra, p) in CandidateOptions(available, extra) <==> extra > 0.0 && available > 0.0)
  {
    BudgetOptionsMembers(available, BudgetPercentages);
    FixedOptionsMembers(BaseAmounts(extra));
    CombinedOptionsMembers(available, extra, CombinedPercentages);
  }

  /** There are at most 8 + 8 + 4 candidates. */
  lemma CandidateCount(available: real, extra: real)
    ensures |CandidateOptions(available, extra)| <= |BudgetPercentages| + |BaseExtraAmounts| + 1 + |CombinedPercentages|
  {
    BudgetOptionsMembers(available, BudgetPercentages);
    FixedOptionsMembers(BaseAmounts(extra));
    CombinedOptionsMembers(available, extra, CombinedPercentages);
  }

  /**
   * The combined options skip the floor: a contribution of 1 with a budget of 1 yields a
   * candidate of 1.25, below the 10 that budget shares and fixed amounts must reach.
   */
  lemma CombinedBelowFloor()
    ensures CombinedOption(1.0, 1.0, 0.25) in CandidateOptions(1.0, 1.0)
    ensures CombinedOption(1.0, 1.0, 0.25).extraAmount < MeaningfulAmount
  {
    CombinedOptionsMembers(1.0, 1.0, CombinedPercentages);
  }

  // ---------------------------------------------------------------------------
  // De-duplication: `unique_scenarios`, a dict keyed by the amount rounded to the euro.

  function Key(o: ScenarioOption): int
  {
    RoundHalfEven(o.extraAmount)
  }

  /** A Python dict: its keys in insertion order and its table. */
  datatype OptionTable = OptionTable(keys: seq<int>, table: map<int, ScenarioOption>)

  ghost predicate WellFormed(t: OptionTable)
  {
    && (forall i, j :: 0 <= i < j < |t.keys| ==> t.keys[i] != t.keys[j])
    && (forall k :: k in t.table <==> k in t.keys)
  }

  /**
   * One pass of the loop at app.py:1305-1308: a new key is added at the end; a budget
   * option replaces the entry of a key already present, keeping its place; any other
   * option leaves the dict alone.
   */
  function Store(t: OptionTable, o: ScenarioOption): OptionTable
  {
    var k := Key(o);
    if k !in t.table then OptionTable(t.keys + [k], t.table[k := o])
    else if o.isBudgetScenario then OptionTable(t.keys, t.table[k := o])
    else t
  }

  function TableOf(options: seq<ScenarioOption>): (t: OptionTable)
    ensures forall i :: 0 <= i < |t.keys| ==> t.keys[i] in t.table
  {
    if |options| == 0 then OptionTable([], map[])
    else Store(TableOf(options[..|options| - 1]), options[|options| - 1])
  }

  /** `dict.values()`, in key insertion order. */
  function Values(t: OptionTable): (vs: seq<ScenarioOption>)
    requires forall i :: 0 <= i < |t.keys| ==> t.keys[i] in t.table
    ensures |vs| == |t.keys|
  {
    seq(|t.keys|, i requires 0 <= i < |t.keys| => t.table[t.keys[i]])
  }

  function UniqueOptions(options: seq<ScenarioOption>): seq<ScenarioOption>
  {
    Values(TableOf(options))
  }

  /** The de-duplication loop, with the dict as a key list and a map. */
  method UniqueScenarios(options: seq<ScenarioOption>) returns (unique: seq<ScenarioOption>)
    ensures unique == UniqueOptions(options)
  {
    var keys: seq<int> := [];
    var table: map<int, ScenarioOption> := map[];
    for i := 0 to |options|
      invariant OptionTable(keys, table) == TableOf(options[..i])
    {
      assert options[..i + 1][..i] == options[..i];
      var option := options[i];
      var key := Key(option);
      if key !in table || option.isBudgetScenario {
        if key !in table {
          keys := keys + [key];
        }
        table := table[key := option];
      }
    }
    assert options[..|options|] == options;
    unique := [];
    for i := 0 to |keys|
      invariant unique == Values(OptionTable(keys, table))[..i]
    {
      unique := unique + [table[keys[i]]];
    }
  }

  /** Some option of `options` with key `k` is a budget option. */
  ghost predicate HasBudgetOption(options: seq<ScenarioOption>, k: int)
  {
    exists j :: 0 <= j < |options| && Key(options[j]) == k && options[j].isBudgetScenario
  }

  /**
   * Option `i` is the one the dict keeps for key `k`: the last budget option with that
   * key when there is one, and otherwise the first option with that key.
   */
  ghost predicate Kept(options: seq<ScenarioOption>, k: int, i: int)
  {
    && 0 <= i < |options| && Key(options[i]) == k
    && if HasBudgetOption(options, k) then
         && options[i].isBudgetScenario
         && forall j :: i < j < |options| && Key(options[j]) == k ==> !options[j].isBudgetScenario
       else
         forall j :: 0 <= j < i ==> Key(options[j]) != k
  }

  /** Key `k` occurs among `options`. */
  ghost predicate KeyOccurs(options: seq<ScenarioOption>, k: int)
  {
    exists i :: 0 <= i < |options| && Key(options[i]) == k
  }

  /** The dict holds each key once, and exactly the keys of the options. */
  lemma {:induction false} TableOfKeys(options: seq<ScenarioOption>)
    ensures WellFormed(TableOf(options))
    ensures forall k :: k in TableOf(options).table <==> KeyOccurs(options, k)
  {
    if |options| > 0 {
      var n := |options| - 1;
      var init := options[..n];
      TableOfKeys(init);
      assert TableOf(options) == Store(TableOf(init), options[n]);
      forall k ensures KeyOccurs(options, k) <==> KeyOccurs(init, k) || k == Key(options[n]) {
        if KeyOccurs(options, k) && k != Key(options[n]) {
          var i :| 0 <= i < |options| && Key(options[i]) == k;
          assert Key(init[i]) == k;
        }
        if KeyOccurs(init, k) {
          var i :| 0 <= i < |init| && Key(init[i]) == k;
          assert Key(options[i]) == k;
        }
      }
    }
  }

  /** A kept option stays kept when a later option does not replace it. */
  lemma KeptExtends(init: seq<ScenarioOption>, o: ScenarioOption, k: int, i: int)
    requires Kept(init, k, i)
    requires Key(o) != k || !o.isBudgetScenario
    ensures Kept(init + [o], k, i)
  {
    var options := init + [o];
    if HasBudgetOption(options, k) {
      var j :| 0 <= j < |options| && Key(options[j]) == k && options[j].isBudgetScenario;
      assert j < |init| && init[j] == options[j];
    }
  }

  /** The last option is kept when its key is new or it is a budget option. */
  lemma KeptLast(init: seq<ScenarioOption>, o: ScenarioOption)
    requires !KeyOccurs(init, Key(o)) || o.isBudgetScenario
    ensures Kept(init + [o], Key(o), |init|)
  {
    var options := init + [o];
    if !o.isBudgetScenario {
      forall j | 0 <= j < |init| ensures Key(options[j]) != Key(o) {
        assert options[j] == init[j];
      }
    }
  }

  /** For each key, the dict holds the option that Kept designates. */
  lemma {:induction false} TableOfKept(options: seq<ScenarioOption>)
    ensures forall k :: k in TableOf(options).table ==>
      exists i :: Kept(options, k, i) && TableOf(options).table[k] == options[i]
  {
    if |options| > 0 {
      var n := |options| - 1;
      var init := options[..n];
      var o := options[n];
      assert options == init + [o];
      TableOfKept(init);
      TableOfKeys(init);
      var t0 := TableOf(init);
      var t := TableOf(options);
      assert t == Store(t0, o);
      forall k | k in t.table
        ensures exists i :: Kept(options, k, i) && t.table[k] == options[i]
      {
        if k == Key(o) && (k !in t0.table || o.isBudgetScenario) {
          KeptLast(init, o);
          assert t.table[k] == options[n];
        } else {
          var i :| Kept(init, k, i) && t0.table[k] == init[i];
          KeptExtends(init, o, k, i);
          assert t.table[k] == options[i];
        }
      }
    }
  }

  /** The values are options of the input, with distinct keys, one per key of the input. */
  lemma UniqueOptionsFacts(options: seq<ScenarioOption>)
    ensures Sorting.DistinctBy(UniqueOptions(options), Key)
    ensures forall o :: o in UniqueOptions(options) ==> o in options
    ensures forall o :: o in options ==> exists u :: u in UniqueOptions(options) && Key(u) == Key(o)
    ensures forall u :: u in UniqueOptions(options) ==> exists i :: Kept(options, Key(u), i) && u == options[i]
  {
    TableOfKeys(options);
    TableOfKept(options);
    var t := TableOf(options);
    var vs := UniqueOptions(options);
    assert forall i :: 0 <= i < |vs| ==> vs[i] == t.table[t.keys[i]];
    forall u | u in vs ensures exists i :: Kept(options, Key(u), i) && u == options[i] {
      var p :| 0 <= p < |vs| && vs[p] == u;
      var i :| Kept(options, t.keys[p], i) && t.table[t.keys[p]] == options[i];
    }
    forall o | o in options ensures exists u :: u in vs && Key(u) == Key(o) {
      var i :| 0 <= i < |options| && options[i] == o;
      assert KeyOccurs(options, Key(o));
      assert Key(o) in t.keys;
      var p :| 0 <= p < |t.keys| && t.keys[p] == Key(o);
      var j :| Kept(options, Key(o), j) && t.table[Key(o)] == options[j];
      assert vs[p] in vs && Key(vs[p]) == Key(o);
    }
  }

  // ---------------------------------------------------------------------------
  // Sorting and the cut to eleven.

  function ExtraOf(o: ScenarioOption): real { o.extraAmount }

  /** `sorted(values, key=extra_amount)[:11]`. */
  function SelectFrom(unique: seq<ScenarioOption>): seq<ScenarioOption>
  {
    var sorted := Sorting.SortBy(unique, ExtraOf);
    if |sorted| <= MaxExtraScenarios then sorted else sorted[..MaxExtraScenarios]
  }

  /** The options that get an avalanche scenario (app.py:1311-1314). */
  function SelectedOptions(options: seq<ScenarioOption>): seq<ScenarioOption>
  {
    SelectFrom(UniqueOptions(options))
  }

  /** Options with distinct rounded amounts have distinct amounts. */
  lemma DistinctAmounts(unique: seq<ScenarioOption>)
    requires Sorting.DistinctBy(unique, Key)
    ensures Sorting.DistinctBy(unique, ExtraOf)
  {
    forall i, j | 0 <= i < j < |unique| ensures ExtraOf(unique[i]) != ExtraOf(unique[j]) {
      assert Key(unique[i]) != Key(unique[j]);
    }
  }

  /** Options with distinct keys, sorted by amount, strictly increase, and nothing is lost. */
  lemma SortedDistinct(unique: seq<ScenarioOption>)
    requires Sorting.DistinctBy(unique, Key)
    ensures var sorted := Sorting.SortBy(unique, ExtraOf);
      && multiset(sorted) == multiset(unique)
      && |sorted| == |unique|
      && forall i, j :: 0 <= i < j < |sorted| ==> sorted[i].extraAmount < sorted[j].extraAmount
  {
    var sorted := Sorting.SortBy(unique, ExtraOf);
    DistinctAmounts(unique);
    Sorting.SortBySortsAndPermutes(unique, ExtraOf);
    Sorting.DistinctBySort(unique, ExtraOf, ExtraOf);
    assert |sorted| == |unique| by {
      assert |multiset(sorted)| == |multiset(unique)|;
    }
    forall i, j | 0 <= i < j < |sorted| ensures sorted[i].extraAmount < sorted[j].extraAmount {
      assert ExtraOf(sorted[i]) <= ExtraOf(sorted[j]);
      assert ExtraOf(sorted[i]) != ExtraOf(sorted[j]);
    }
  }

  /**
   * The selection keeps min(n, 11) of the n options it is given, takes each at most as
   * often as it occurs, and is the front of the options sorted by amount.
   */
  lemma SelectFromPrefix(unique: seq<ScenarioOption>)
    ensures |SelectFrom(unique)| == (if |unique| <= MaxExtraScenarios then |unique| else MaxExtraScenarios)
    ensures multiset(SelectFrom(unique)) <= multiset(unique)
    ensures SelectFrom(unique) == Sorting.SortBy(unique, ExtraOf)[..|SelectFrom(unique)|]
  {
    var sorted := Sorting.SortBy(unique, ExtraOf);
    Sorting.SortBySortsAndPermutes(unique, ExtraOf);
    assert |sorted| == |unique| by {
      assert |multiset(sorted)| == |multiset(unique)|;
    }
    var n := |SelectFrom(unique)|;
    assert sorted == sorted[..n] + sorted[n..];
  }

  /**
   * From options with distinct keys, the selection is strictly increasing in amount and
   * holds only options it was given.
   */
  lemma SelectFromOrdered(unique: seq<ScenarioOption>)
    requires Sorting.DistinctBy(unique, Key)
    ensures var sel := SelectFrom(unique);
      && (forall i, j :: 0 <= i < j < |sel| ==> sel[i].extraAmount < sel[j].extraAmount)
      && (forall o :: o in sel ==> o in unique)
  {
    var sorted := Sorting.SortBy(unique, ExtraOf);
    var sel := SelectFrom(unique);
    SortedDistinct(unique);
    SelectFromPrefix(unique);
    forall o | o in sel ensures o in unique {
      assert o in multiset(sorted);
    }
  }

  /**
   * From options with distinct keys, an option is left out only when eleven are
   * selected, each with a smaller amount.
   */
  lemma SelectFromSmallest(unique: seq<ScenarioOption>)
    requires Sorting.DistinctBy(unique, Key)
    ensures var sel := SelectFrom(unique);
      forall o :: o in unique && o !in sel ==>
        |sel| == MaxExtraScenarios && sel[|sel| - 1].extraAmount < o.extraAmount
  {
    var sorted := Sorting.SortBy(unique, ExtraOf);
    var sel := SelectFrom(unique);
    SortedDistinct(unique);
    SelectFromPrefix(unique);
    forall o | o in unique && o !in sel
      ensures |sel| == MaxExtraScenarios && sel[|sel| - 1].extraAmount < o.extraAmount
    {
      assert o in multiset(sorted);
      var p :| 0 <= p < |sorted| && sorted[p] == o;
      assert p >= |sel|;
    }
  }

  /** At most eleven options get a scenario, in strictly increasing order of amount. */
  lemma SelectedOptionsOrdered(options: seq<ScenarioOption>)
    ensures |SelectedOptions(options)| <= MaxExtraScenarios
    ensures forall i, j :: 0 <= i < j < |SelectedOptions(options)| ==>
      SelectedOptions(options)[i].extraAmount < SelectedOptions(options)[j].extraAmount
  {
    UniqueOptionsFacts(options);
    SelectFromPrefix(UniqueOptions(options));
    SelectFromOrdered(UniqueOptions(options));
  }

  /** Each option that gets a scenario is the one the de-duplication kept for its key. */
  lemma SelectedOptionsKept(options: seq<ScenarioOption>)
    ensures forall s :: s in SelectedOptions(options) ==> exists i :: Kept(options, Key(s), i) && s == options[i]
  {
    UniqueOptionsFacts(options);
    SelectFromOrdered(UniqueOptions(options));
  }

  /** Every option that gets a scenario is one of the candidates. */
  lemma SelectedOptionsFromInput(options: seq<ScenarioOption>)
    ensures forall o :: o in SelectedOptions(options) ==> o in options
  {
    UniqueOptionsFacts(options);
    SelectFromOrdered(UniqueOptions(options));
  }

  /**
   * A distinct option is left without a scenario only when eleven options have one,
   * all with smaller amounts.
   */
  lemma SelectedOptionsSmallest(options: seq<ScenarioOption>)
    ensures forall o :: o in UniqueOptions(options) && o !in SelectedOptions(options) ==>
      |SelectedOptions(options)| == MaxExtraScenarios
      && SelectedOptions(options)[MaxExtraScenarios - 1].extraAmount < o.extraAmount
  {
    UniqueOptionsFacts(options);
    SelectFromSmallest(UniqueOptions(options));
  }
}
