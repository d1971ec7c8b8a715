/** The dashboard's derived figures: per-category planned/real/percentage/
    status, the filtered total, the budget total and difference, and the
    unfiltered distribution over expense types. All are recomputed from the
    ledger; nothing here is stored. */
module Dashboard {
  import Wrappers
  import Seqs
  import Constants
  import Ledger

  /** Which expense field a selection groups on. */
  datatype Field = ByCategory | ByType

  function KeyOf(e: Ledger.Expense, field: Field): string {
    match field
    case ByCategory => e.categoryId
    case ByType => e.typeId
  }

  /** The expenses whose `field` equals `k`, in ledger order. */
  function Select(es: seq<Ledger.Expense>, field: Field, k: string): (r: seq<Ledger.Expense>)
    ensures forall i :: 0 <= i < |r| ==> r[i] in es && KeyOf(r[i], field) == k
    ensures forall i :: 0 <= i < |es| && KeyOf(es[i], field) == k ==> es[i] in r
    ensures Seqs.IsSubsequence(r, es)
    ensures forall e :: multiset(r)[e] == if KeyOf(e, field) == k then multiset(es)[e] else 0
  {
    var keep := (e: Ledger.Expense) => KeyOf(e, field) == k;
    Seqs.FilterMembers(es, keep);
    Seqs.Filter(es, keep)
  }

  /** The expenses that pass the type filter: all of them for "all",
      otherwise those of that type. */
  function Visible(es: seq<Ledger.Expense>, filter: string): (r: seq<Ledger.Expense>)
    ensures forall i :: 0 <= i < |r| ==> r[i] in es && (filter == Ledger.ALL || r[i].typeId == filter)
    ensures forall i :: 0 <= i < |es| && (filter == Ledger.ALL || es[i].typeId == filter) ==> es[i] in r
    ensures Seqs.IsSubsequence(r, es)
    ensures forall e :: multiset(r)[e] == if filter == Ledger.ALL || e.typeId == filter then multiset(es)[e] else 0
    ensures filter == Ledger.ALL ==> r == es
  {
    if filter == Ledger.ALL then
      assert Seqs.IsSubsequence(es, es) by { Seqs.SubsequenceReflexive(es); }
      es
    else Select(es, ByType, filter)
  }

  /** `reduce((sum, e) => sum + e.amount, 0)`. */
  function SumAmounts(es: seq<Ledger.Expense>): real {
    if |es| == 0 then 0.0 else es[0].amount + SumAmounts(es[1..])
  }

  /** With no negative amounts no sum is negative. */
  lemma {:induction false} SumAmountsNonNegative(es: seq<Ledger.Expense>)
    requires forall i :: 0 <= i < |es| ==> es[i].amount >= 0.0
    ensures SumAmounts(es) >= 0.0
    decreases |es|
  {
    if |es| > 0 {
      SumAmountsNonNegative(es[1..]);
    }
  }

  /** `budgets[id] || 0`. */
  function Planned(budgets: map<string, real>, id: string): (r: real)
    ensures id in budgets ==> r == budgets[id]
    ensures id !in budgets ==> r == 0.0
  {
    if id in budgets && budgets[id] != 0.0 then budgets[id] else 0.0
  }

  /** Spending on a category under the active type filter: part of the
      filtered total when amounts are non-negative. */
  function Real(l: Ledger.MonthlyData, id: string): (r: real)
    ensures AmountsNonNegative(l.expenses) ==> 0.0 <= r <= FilteredTotal(l)
  {
    var shown := Visible(l.expenses, l.filterType);
    var mine := Select(shown, ByCategory, id);
    if AmountsNonNegative(l.expenses) then
      SubsequenceSumAtMost(shown, l.expenses);
      SubsequenceSumAtMost(mine, shown);
      SumAmountsNonNegative(mine);
      assert FilteredTotal(l) == SumAmounts(shown);
      SumAmounts(mine)
    else SumAmounts(mine)
  }

  /** `whole > 0 ? part / whole * 100 : 0`. */
  function Percentage(part: real, whole: real): (r: real)
    ensures whole > 0.0 ==> r * whole == part * 100.0
    ensures whole <= 0.0 ==> r == 0.0
  {
    if whole > 0.0 then part / whole * 100.0 else 0.0
  }

  datatype BudgetStatus = Neutral | Danger | Warning | Success

  /** The threshold classification of a category. */
  function StatusOf(planned: real, percentage: real): (r: BudgetStatus)
    ensures r == Neutral <==> !(planned > 0.0)
    ensures r == Danger <==> planned > 0.0 && percentage >= 100.0
    ensures r == Warning <==> planned > 0.0 && 80.0 <= percentage < 100.0
    ensures r == Success <==> planned > 0.0 && percentage < 80.0
  {
    if planned > 0.0 then
      if percentage >= 100.0 then Danger
      else if percentage >= 80.0 then Warning
      else Success
    else Neutral
  }

  /** How alarming a status is; neutral sits apart at 0. */
  function Severity(s: BudgetStatus): nat {
    match s
    case Neutral => 0
    case Success => 1
    case Warning => 2
    case Danger => 3
  }

  /** More spending against the same plan never makes the status better. */
  lemma MoreSpendingNeverImproves(planned: real, real1: real, real2: real)
    requires real1 <= real2
    ensures Severity(StatusOf(planned, Percentage(real1, planned)))
            <= Severity(StatusOf(planned, Percentage(real2, planned)))
  {
    if planned > 0.0 {
      var p1 := Percentage(real1, planned);
      var p2 := Percentage(real2, planned);
      assert p1 * planned <= p2 * planned;
      assert p1 <= p2;
    }
  }

  datatype CategoryStat = CategoryStat(category: Constants.Category, planned: real, spent: real,
                                       percentage: real, status: BudgetStatus)

  function StatOf(l: Ledger.MonthlyData, c: Constants.Category): CategoryStat {
    var planned := Planned(l.budgets, c.id);
    var spent := Real(l, c.id);
    var percentage := Percentage(spent, planned);
    CategoryStat(c, planned, spent, percentage, StatusOf(planned, percentage))
  }

  /** One row per category, in catalog order. */
  function CategoryStats(l: Ledger.MonthlyData, cats: seq<Constants.Category>): (r: seq<CategoryStat>)
    ensures |r| == |cats|
    ensures forall i :: 0 <= i < |cats| ==> r[i] == StatOf(l, cats[i])
  {
    if |cats| == 0 then [] else [StatOf(l, cats[0])] + CategoryStats(l, cats[1..])
  }

  /** Example: 800 spent of 1000 planned is 80%, a warning;
      1000 spent is a danger. */
  lemma StatusExample()
    ensures Percentage(800.0, 1000.0) == 80.0 && StatusOf(1000.0, 80.0) == Warning
    ensures Percentage(1000.0, 1000.0) == 100.0 && StatusOf(1000.0, 100.0) == Danger
    ensures StatusOf(0.0, Percentage(800.0, 0.0)) == Neutral
  {
  }

  /** Every expense has a non-negative amount. */
  predicate AmountsNonNegative(es: seq<Ledger.Expense>) {
    forall i :: 0 <= i < |es| ==> es[i].amount >= 0.0
  }

  /** Dropping expenses never raises a sum of non-negative amounts. */
  lemma {:induction false} SubsequenceSumAtMost(a: seq<Ledger.Expense>, b: seq<Ledger.Expense>)
    requires Seqs.IsSubsequence(a, b) && AmountsNonNegative(b)
    ensures AmountsNonNegative(a)
    ensures SumAmounts(a) <= SumAmounts(b)
    decreases |b|
  {
    if |a| == 0 {
      SumAmountsNonNegative(b);
    } else if a[0] == b[0] {
      SubsequenceSumAtMost(a[1..], b[1..]);
      assert a == [a[0]] + a[1..];
    } else {
      SubsequenceSumAtMost(a, b[1..]);
    }
  }

  /** The spending the active filter shows: everything under "all", and
      never more than the grand total when amounts are non-negative. */
  function FilteredTotal(l: Ledger.MonthlyData): (r: real)
    ensures l.filterType == Ledger.ALL ==> r == GrandTotal(l)
    ensures AmountsNonNegative(l.expenses) ==> 0.0 <= r <= GrandTotal(l)
  {
    var shown := Visible(l.expenses, l.filterType);
    if AmountsNonNegative(l.expenses) then
      SumAmountsNonNegative(shown);
      SubsequenceSumAtMost(shown, l.expenses);
      SumAmounts(shown)
    else SumAmounts(shown)
  }

  /** All spending, whatever the filter. */
  function GrandTotal(l: Ledger.MonthlyData): (r: real)
    ensures AmountsNonNegative(l.expenses) ==> r >= 0.0
  {
    if AmountsNonNegative(l.expenses) then
      SumAmountsNonNegative(l.expenses);
      SumAmounts(l.expenses)
    else SumAmounts(l.expenses)
  }

  /** The sum of `m`'s values over the keys `keys`, taken in any order. */
  ghost function SumOver(m: map<string, real>, keys: set<string>): real
    requires keys <= m.Keys
    decreases keys
  {
    if keys == {} then 0.0
    else
      var k :| k in keys;
      m[k] + SumOver(m, keys - {k})
  }

  /** Any key can be taken out first: the sum does not depend on order. */
  lemma {:induction false} SumOverRemove(m: map<string, real>, keys: set<string>, k: string)
    requires keys <= m.Keys && k in keys
    ensures SumOver(m, keys) == m[k] + SumOver(m, keys - {k})
    decreases keys
  {
    var j :| j in keys && SumOver(m, keys) == m[j] + SumOver(m, keys - {j});
    if j != k {
      SumOverRemove(m, keys - {j}, k);
      SumOverRemove(m, keys - {k}, j);
      assert (keys - {j}) - {k} == (keys - {k}) - {j};
    }
  }

  /** The sum over `keys` only reads the values at those keys. */
  lemma {:induction false} SumOverAgree(m: map<string, real>, m': map<string, real>, keys: set<string>)
    requires keys <= m.Keys && keys <= m'.Keys
    requires forall k :: k in keys ==> m[k] == m'[k]
    ensures SumOver(m, keys) == SumOver(m', keys)
    decreases keys
  {
    if keys != {} {
      var j :| j in keys && SumOver(m, keys) == m[j] + SumOver(m, keys - {j});
      SumOverRemove(m', keys, j);
      SumOverAgree(m, m', keys - {j});
    }
  }

  /** `Object.values(budgets).reduce((sum, val) => sum + (val || 0), 0)`. */
  ghost function TotalBudgeted(budgets: map<string, real>): (r: real)
    ensures budgets == map[] ==> r == 0.0
    ensures (forall k :: k in budgets ==> budgets[k] >= 0.0) ==> r >= 0.0
  {
    if forall k :: k in budgets ==> budgets[k] >= 0.0 then
      SumOverNonNegative(budgets, budgets.Keys);
      SumOver(budgets, budgets.Keys)
    else SumOver(budgets, budgets.Keys)
  }

  /** A sum of non-negative values is non-negative, in whatever order. */
  lemma {:induction false} SumOverNonNegative(m: map<string, real>, keys: set<string>)
    requires keys <= m.Keys
    requires forall k :: k in m ==> m[k] >= 0.0
    ensures SumOver(m, keys) >= 0.0
    decreases keys
  {
    if keys != {} {
      var k :| k in keys;
      SumOverRemove(m, keys, k);
      SumOverNonNegative(m, keys - {k});
    }
  }

  /** Setting one budget moves the total by the new value minus the old. */
  lemma TotalBudgetedAfterUpdate(l: Ledger.MonthlyData, id: string, parsed: Wrappers.Option<real>)
    ensures TotalBudgeted(Ledger.UpdateBudget(l, id, parsed).budgets)
            == TotalBudgeted(l.budgets) - Planned(l.budgets, id) + Ledger.ParsedOrZero(parsed)
  {
    var m := l.budgets;
    var m' := Ledger.UpdateBudget(l, id, parsed).budgets;
    var rest := m.Keys - {id};
    SumOverRemove(m', m'.Keys, id);
    assert m'.Keys - {id} == rest;
    SumOverAgree(m, m', rest);
    if id in m {
      SumOverRemove(m, m.Keys, id);
    } else {
      assert m.Keys == rest;
    }
  }

  /** Budgeted minus spent under the active filter. */
  ghost function Difference(l: Ledger.MonthlyData): (r: real)
    ensures r < 0.0 <==> FilteredTotal(l) > TotalBudgeted(l.budgets)
    ensures r > 0.0 <==> FilteredTotal(l) < TotalBudgeted(l.budgets)
  {
    TotalBudgeted(l.budgets) - FilteredTotal(l)
  }

  /** A new expense lowers the difference by its amount when the filter
      shows it, and leaves it alone otherwise. */
  lemma DifferenceAfterAddExpense(l: Ledger.MonthlyData, e: Ledger.Expense, newId: string)
    ensures Difference(Ledger.AddExpense(l, e, newId))
            == Difference(l) - (if l.filterType == Ledger.ALL || e.typeId == l.filterType then e.amount else 0.0)
  {
    var es := Ledger.AddExpense(l, e, newId).expenses;
    assert es[1..] == l.expenses;
    if l.filterType != Ledger.ALL {
      SelectStep(es, ByType, l.filterType);
    }
  }

  datatype TypeStat = TypeStat(expenseType: Constants.ExpenseType, amount: real, percentage: real)

  /** Distribution over types: always over all expenses, whatever the filter. */
  function TypeStats(l: Ledger.MonthlyData, types: seq<Constants.ExpenseType>): (r: seq<TypeStat>)
    ensures |r| == |types|
    ensures forall i :: 0 <= i < |types| ==>
              r[i].expenseType == types[i] && r[i].amount == SumAmounts(Select(l.expenses, ByType, types[i].id))
    ensures forall i :: 0 <= i < |types| ==> r[i].percentage == Percentage(r[i].amount, GrandTotal(l))
  {
    if |types| == 0 then []
    else
      var amount := SumAmounts(Select(l.expenses, ByType, types[0].id));
      [TypeStat(types[0], amount, Percentage(amount, GrandTotal(l)))] + TypeStats(l, types[1..])
  }

  /** The distribution does not depend on the active filter. */
  lemma TypeStatsIgnoreFilter(l: Ledger.MonthlyData, types: seq<Constants.ExpenseType>, filter: string)
    ensures TypeStats(Ledger.SetFilterType(l, filter), types) == TypeStats(l, types)
  {
  }

  // ---- Partition of a total over distinct keys ----

  /** Sum of the per-key totals for the keys `ks`. */
  function SumPerKey(es: seq<Ledger.Expense>, field: Field, ks: seq<string>): real
    decreases |ks|
  {
    if |ks| == 0 then 0.0 else SumAmounts(Select(es, field, ks[0])) + SumPerKey(es, field, ks[1..])
  }

  /** The amount of `e`, counted once for every key of `ks` it matches. */
  function Hits(e: Ledger.Expense, field: Field, ks: seq<string>): real
    decreases |ks|
  {
    if |ks| == 0 then 0.0
    else (if KeyOf(e, field) == ks[0] then e.amount else 0.0) + Hits(e, field, ks[1..])
  }

  lemma SelectStep(es: seq<Ledger.Expense>, field: Field, k: string)
    requires |es| > 0
    ensures SumAmounts(Select(es, field, k))
            == (if KeyOf(es[0], field) == k then es[0].amount else 0.0) + SumAmounts(Select(es[1..], field, k))
  {
    var t := Select(es[1..], field, k);
    if KeyOf(es[0], field) == k {
      assert Select(es, field, k) == [es[0]] + t;
      assert ([es[0]] + t)[1..] == t;
    }
  }

  lemma {:induction false} SumPerKeyStep(es: seq<Ledger.Expense>, field: Field, ks: seq<string>)
    requires |es| > 0
    ensures SumPerKey(es, field, ks) == Hits(es[0], field, ks) + SumPerKey(es[1..], field, ks)
    decreases |ks|
  {
    if |ks| > 0 {
      SelectStep(es, field, ks[0]);
      SumPerKeyStep(es, field, ks[1..]);
    }
  }

  lemma {:induction false} HitsAbsent(e: Ledger.Expense, field: Field, ks: seq<string>)
    requires KeyOf(e, field) !in ks
    ensures Hits(e, field, ks) == 0.0
    decreases |ks|
  {
    if |ks| > 0 {
      HitsAbsent(e, field, ks[1..]);
    }
  }

  lemma {:induction false} HitsOnce(e: Ledger.Expense, field: Field, ks: seq<string>)
    requires Seqs.Distinct(ks) && KeyOf(e, field) in ks
    ensures Hits(e, field, ks) == e.amount
    decreases |ks|
  {
    if KeyOf(e, field) == ks[0] {
      assert KeyOf(e, field) !in ks[1..];
      HitsAbsent(e, field, ks[1..]);
    } else {
      HitsOnce(e, field, ks[1..]);
    }
  }

  /** When every expense's key is one of the distinct keys `ks`, the per-key
      totals add up to the total of all expenses. */
  lemma {:induction false} PartitionSum(es: seq<Ledger.Expense>, field: Field, ks: seq<string>)
    requires Seqs.Distinct(ks)
    requires forall i :: 0 <= i < |es| ==> KeyOf(es[i], field) in ks
    ensures SumPerKey(es, field, ks) == SumAmounts(es)
    decreases |es|
  {
    if |es| == 0 {
      SumPerKeyEmpty(field, ks);
    } else {
      SumPerKeyStep(es, field, ks);
      HitsOnce(es[0], field, ks);
      PartitionSum(es[1..], field, ks);
    }
  }

  lemma {:induction false} SumPerKeyEmpty(field: Field, ks: seq<string>)
    ensures SumPerKey([], field, ks) == 0.0
    decreases |ks|
  {
    if |ks| > 0 {
      SumPerKeyEmpty(field, ks[1..]);
    }
  }

  // ---- Category rows against the filtered total ----

  function SumReals(stats: seq<CategoryStat>): real {
    if |stats| == 0 then 0.0 else stats[0].spent + SumReals(stats[1..])
  }

  lemma {:induction false} SumRealsIsSumPerKey(l: Ledger.MonthlyData, cats: seq<Constants.Category>)
    ensures SumReals(CategoryStats(l, cats))
            == SumPerKey(Visible(l.expenses, l.filterType), ByCategory, Constants.CategoryIds(cats))
    decreases |cats|
  {
    if |cats| > 0 {
      SumRealsIsSumPerKey(l, cats[1..]);
      assert CategoryStats(l, cats)[1..] == CategoryStats(l, cats[1..]);
      assert Constants.CategoryIds(cats)[1..] == Constants.CategoryIds(cats[1..]);
    }
  }

  /** When the categories have distinct ids and every expense is filed under
      one of them, the category rows' real spending adds up to the filtered
      total, and with the filter at "all" to the total of all expenses. */
  lemma CategoryRealsSumToFilteredTotal(l: Ledger.MonthlyData, cats: seq<Constants.Category>)
    requires Seqs.Distinct(Constants.CategoryIds(cats))
    requires forall i :: 0 <= i < |l.expenses| ==> l.expenses[i].categoryId in Constants.CategoryIds(cats)
    ensures SumReals(CategoryStats(l, cats)) == FilteredTotal(l)
    ensures l.filterType == Ledger.ALL ==> SumReals(CategoryStats(l, cats)) == GrandTotal(l)
  {
    var vis := Visible(l.expenses, l.filterType);
    var ids := Constants.CategoryIds(cats);
    forall i | 0 <= i < |vis| ensures KeyOf(vis[i], ByCategory) in ids {
      var j :| 0 <= j < |l.expenses| && l.expenses[j] == vis[i];
    }
    SumRealsIsSumPerKey(l, cats);
    PartitionSum(vis, ByCategory, ids);
  }

  // ---- Type distribution ----

  function SumTypeAmounts(stats: seq<TypeStat>): real {
    if |stats| == 0 then 0.0 else stats[0].amount + SumTypeAmounts(stats[1..])
  }

  function SumTypePercentages(stats: seq<TypeStat>): real {
    if |stats| == 0 then 0.0 else stats[0].percentage + SumTypePercentages(stats[1..])
  }

  lemma {:induction false} SumTypeAmountsIsSumPerKey(l: Ledger.MonthlyData, types: seq<Constants.ExpenseType>)
    ensures SumTypeAmounts(TypeStats(l, types)) == SumPerKey(l.expenses, ByType, Constants.TypeIds(types))
    decreases |types|
  {
    if |types| > 0 {
      SumTypeAmountsIsSumPerKey(l, types[1..]);
      assert TypeStats(l, types)[1..] == TypeStats(l, types[1..]);
      var ks := Constants.TypeIds(types);
      assert ks[1..] == Constants.TypeIds(types[1..]);
      assert SumPerKey(l.expenses, ByType, ks)
             == SumAmounts(Select(l.expenses, ByType, types[0].id)) + SumPerKey(l.expenses, ByType, ks[1..]);
    }
  }

  /** Each row's percentage is its amount over the grand total, so the
      percentages add up to the amounts' share of it. */
  lemma {:induction false} SumTypePercentagesScales(stats: seq<TypeStat>, total: real)
    requires total > 0.0
    requires forall i :: 0 <= i < |stats| ==> stats[i].percentage == Percentage(stats[i].amount, total)
    ensures SumTypePercentages(stats) * total == SumTypeAmounts(stats) * 100.0
    decreases |stats|
  {
    if |stats| > 0 {
      SumTypePercentagesScales(stats[1..], total);
      var p := stats[0].percentage;
      var a := stats[0].amount;
      assert p * total == a * 100.0;
      calc {
        SumTypePercentages(stats) * total;
        (p + SumTypePercentages(stats[1..])) * total;
        p * total + SumTypePercentages(stats[1..]) * total;
        a * 100.0 + SumTypeAmounts(stats[1..]) * 100.0;
        SumTypeAmounts(stats) * 100.0;
      }
    }
  }

  /** With every expense of one of the distinct types listed, the type amounts
      add up to the total of all expenses, and for a positive total the
      percentages add up to exactly 100. */
  lemma TypeDistributionIsComplete(l: Ledger.MonthlyData, types: seq<Constants.ExpenseType>)
    requires Seqs.Distinct(Constants.TypeIds(types))
    requires forall i :: 0 <= i < |l.expenses| ==> l.expenses[i].typeId in Constants.TypeIds(types)
    ensures SumTypeAmounts(TypeStats(l, types)) == GrandTotal(l)
    ensures GrandTotal(l) > 0.0 ==> SumTypePercentages(TypeStats(l, types)) == 100.0
  {
    var stats := TypeStats(l, types);
    var total := GrandTotal(l);
    SumTypeAmountsIsSumPerKey(l, types);
    PartitionSum(l.expenses, ByType, Constants.TypeIds(types));
    if total > 0.0 {
      PercentagesOfTotal(stats, total);
    }
  }

  lemma PercentagesOfTotal(stats: seq<TypeStat>, total: real)
    requires total > 0.0 && SumTypeAmounts(stats) == total
    requires forall i :: 0 <= i < |stats| ==> stats[i].percentage == Percentage(stats[i].amount, total)
    ensures SumTypePercentages(stats) == 100.0
  {
    SumTypePercentagesScales(stats, total);
    var x := SumTypePercentages(stats);
    assert x * total == SumTypeAmounts(stats) * 100.0;
    assert x * total == total * 100.0;
    CancelPositive(x, total);
  }

  lemma CancelPositive(x: real, t: real)
    requires t > 0.0 && x * t == t * 100.0
    ensures x == 100.0
  {
    assert (x - 100.0) * t == 0.0;
  }

  /** When there is nothing positive to divide by, every share is 0. */
  lemma TypePercentagesZeroWithoutTotal(l: Ledger.MonthlyData, types: seq<Constants.ExpenseType>)
    requires GrandTotal(l) <= 0.0
    ensures forall i :: 0 <= i < |types| ==> TypeStats(l, types)[i].percentage == 0.0
  {
  }

  /** The ids of the layout's section tabs. */
  const TAB_IDS: seq<string> := ["dashboard", "planning"]

  /** What the dashboard renders for the active tab. */
  datatype Section = CalendarView | PlanningView | Overview

  /** The calendar for "calendar", the planner for "planning", and the
      overview for every other value, including ones no tab carries. */
  function SectionOf(activeTab: string): (r: Section)
    ensures r == CalendarView <==> activeTab == "calendar"
    ensures r == PlanningView <==> activeTab == "planning"
    ensures activeTab in TAB_IDS ==> (r == Overview <==> activeTab == "dashboard")
  {
    if activeTab == "calendar" then CalendarView
    else if activeTab == "planning" then PlanningView
    else Overview
  }
}
