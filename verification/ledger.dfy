/** The monthly ledger and the pure `prev => next` updates the planner
    context applies to it. Ids that the source draws from `Date.now()` and
    numbers it reads with `parseFloat` are parameters here. */
module Ledger {
  import opened Wrappers
  import Seqs
  import Constants

  datatype MaturityStatus = Pending | Paid

  datatype Expense = Expense(id: string, amount: real, description: string,
                             categoryId: string, typeId: string, date: string)

  datatype Maturity = Maturity(id: string, service: string, amount: real,
                               typeId: string, date: string, status: MaturityStatus)

  /** One month's record. `filterType` is "all" or an expense-type id; it is
      not checked against the type table. */
  datatype MonthlyData = MonthlyData(income: real, budgets: map<string, real>,
                                     expenses: seq<Expense>, maturities: seq<Maturity>,
                                     filterType: string)

  const ALL: string := "all"

  const DEFAULT_MONTHLY_DATA: MonthlyData := MonthlyData(0.0, map[], [], [], ALL)

  /** `parseFloat(raw) || 0`: NaN (None) and zero give 0; any other number,
      negative ones included, is kept. */
  function ParsedOrZero(parsed: Option<real>): (r: real)
    ensures parsed.None? ==> r == 0.0
    ensures parsed.Some? ==> r == parsed.value
  {
    match parsed
    case None => 0.0
    case Some(v) => if v == 0.0 then 0.0 else v
  }

  /** The status toggle: pending becomes paid and paid becomes pending. */
  function Flip(s: MaturityStatus): (r: MaturityStatus)
    ensures r != s
  {
    if s == Pending then Paid else Pending
  }

  function UpdateIncome(l: MonthlyData, parsed: Option<real>): (r: MonthlyData)
    ensures parsed.None? ==> r.income == 0.0
    ensures parsed.Some? ==> r.income == parsed.value
    ensures r.budgets == l.budgets && r.expenses == l.expenses
    ensures r.maturities == l.maturities && r.filterType == l.filterType
  {
    l.(income := ParsedOrZero(parsed))
  }

  function UpdateBudget(l: MonthlyData, categoryId: string, parsed: Option<real>): (r: MonthlyData)
    ensures categoryId in r.budgets
    ensures r.budgets[categoryId] == (if parsed.Some? then parsed.value else 0.0)
    ensures r.budgets.Keys == l.budgets.Keys + {categoryId}
    ensures forall k :: k in l.budgets && k != categoryId ==> r.budgets[k] == l.budgets[k]
    ensures r.income == l.income && r.expenses == l.expenses
    ensures r.maturities == l.maturities && r.filterType == l.filterType
  {
    l.(budgets := l.budgets[categoryId := ParsedOrZero(parsed)])
  }

  /** The new expense, with its fresh id, goes in front. */
  function AddExpense(l: MonthlyData, e: Expense, newId: string): (r: MonthlyData)
    ensures |r.expenses| == |l.expenses| + 1
    ensures r.expenses[0] == e.(id := newId)
    ensures r.expenses[1..] == l.expenses
    ensures r.income == l.income && r.budgets == l.budgets
    ensures r.maturities == l.maturities && r.filterType == l.filterType
  {
    l.(expenses := [e.(id := newId)] + l.expenses)
  }

  /** Removes every expense carrying `id`, keeping the others in order. */
  function DeleteExpense(l: MonthlyData, id: string): (r: MonthlyData)
    ensures forall i :: 0 <= i < |r.expenses| ==> r.expenses[i] in l.expenses && r.expenses[i].id != id
    ensures forall i :: 0 <= i < |l.expenses| && l.expenses[i].id != id ==> l.expenses[i] in r.expenses
    ensures Seqs.IsSubsequence(r.expenses, l.expenses)
    ensures forall e :: multiset(r.expenses)[e] == if e.id != id then multiset(l.expenses)[e] else 0
    ensures (forall i :: 0 <= i < |l.expenses| ==> l.expenses[i].id != id) ==> r == l
    ensures r.income == l.income && r.budgets == l.budgets
    ensures r.maturities == l.maturities && r.filterType == l.filterType
  {
    var keep := (e: Expense) => e.id != id;
    Seqs.FilterMembers(l.expenses, keep);
    l.(expenses := Seqs.Filter(l.expenses, keep))
  }

  /** Replaces every expense carrying `id` by `e` re-stamped with that id. */
  function EditExpense(l: MonthlyData, id: string, e: Expense): (r: MonthlyData)
    ensures |r.expenses| == |l.expenses|
    ensures forall i :: 0 <= i < |l.expenses| && l.expenses[i].id == id ==> r.expenses[i] == e.(id := id)
    ensures forall i :: 0 <= i < |l.expenses| && l.expenses[i].id != id ==> r.expenses[i] == l.expenses[i]
    ensures r.income == l.income && r.budgets == l.budgets
    ensures r.maturities == l.maturities && r.filterType == l.filterType
  {
    l.(expenses := seq(|l.expenses|, i requires 0 <= i < |l.expenses| =>
                         if l.expenses[i].id == id then e.(id := id) else l.expenses[i]))
  }

  function SetFilterType(l: MonthlyData, filter: string): (r: MonthlyData)
    ensures r.filterType == filter
    ensures r.income == l.income && r.budgets == l.budgets
    ensures r.expenses == l.expenses && r.maturities == l.maturities
  {
    l.(filterType := filter)
  }

  /** Appends the maturity with a fresh id, always pending. */
  function AddMaturity(l: MonthlyData, m: Maturity, newId: string): (r: MonthlyData)
    ensures |r.maturities| == |l.maturities| + 1
    ensures r.maturities[..|l.maturities|] == l.maturities
    ensures r.maturities[|l.maturities|] == m.(id := newId, status := Pending)
    ensures r.income == l.income && r.budgets == l.budgets
    ensures r.expenses == l.expenses && r.filterType == l.filterType
  {
    l.(maturities := l.maturities + [m.(id := newId, status := Pending)])
  }

  /** Flips the status of every maturity carrying `id`. */
  function ToggleMaturityStatus(l: MonthlyData, id: string): (r: MonthlyData)
    ensures |r.maturities| == |l.maturities|
    ensures forall i :: 0 <= i < |l.maturities| && l.maturities[i].id == id ==>
              r.maturities[i] == l.maturities[i].(status := Flip(l.maturities[i].status))
    ensures forall i :: 0 <= i < |l.maturities| && l.maturities[i].id != id ==>
              r.maturities[i] == l.maturities[i]
    ensures r.income == l.income && r.budgets == l.budgets
    ensures r.expenses == l.expenses && r.filterType == l.filterType
  {
    l.(maturities := seq(|l.maturities|, i requires 0 <= i < |l.maturities| =>
                           var m := l.maturities[i];
                           if m.id == id then m.(status := Flip(m.status)) else m))
  }

  /** Removes every maturity carrying `id`, keeping the others in order. */
  function DeleteMaturity(l: MonthlyData, id: string): (r: MonthlyData)
    ensures forall i :: 0 <= i < |r.maturities| ==> r.maturities[i] in l.maturities && r.maturities[i].id != id
    ensures forall i :: 0 <= i < |l.maturities| && l.maturities[i].id != id ==> l.maturities[i] in r.maturities
    ensures Seqs.IsSubsequence(r.maturities, l.maturities)
    ensures forall m :: multiset(r.maturities)[m] == if m.id != id then multiset(l.maturities)[m] else 0
    ensures (forall i :: 0 <= i < |l.maturities| ==> l.maturities[i].id != id) ==> r == l
    ensures r.income == l.income && r.budgets == l.budgets
    ensures r.expenses == l.expenses && r.filterType == l.filterType
  {
    var keep := (m: Maturity) => m.id != id;
    Seqs.FilterMembers(l.maturities, keep);
    l.(maturities := Seqs.Filter(l.maturities, keep))
  }

  /** The expense a maturity turns into: filed under the "other" category. */
  function ExpenseOf(m: Maturity, newId: string): Expense {
    Expense(newId, m.amount, m.service, Constants.OTHER_CATEGORY_ID, m.typeId, m.date)
  }

  /** One update that both records the expense and marks the maturity paid. */
  function ConvertMaturityToExpense(l: MonthlyData, m: Maturity, newId: string): (r: MonthlyData)
    ensures |r.expenses| == |l.expenses| + 1
    ensures r.expenses[0] == Expense(newId, m.amount, m.service, "other", m.typeId, m.date)
    ensures r.expenses[1..] == l.expenses
    ensures |r.maturities| == |l.maturities|
    ensures forall i :: 0 <= i < |l.maturities| && l.maturities[i].id == m.id ==>
              r.maturities[i] == l.maturities[i].(status := Paid)
    ensures forall i :: 0 <= i < |l.maturities| && l.maturities[i].id != m.id ==>
              r.maturities[i] == l.maturities[i]
    ensures r.income == l.income && r.budgets == l.budgets && r.filterType == l.filterType
  {
    l.(expenses := [ExpenseOf(m, newId)] + l.expenses,
       maturities := seq(|l.maturities|, i requires 0 <= i < |l.maturities| =>
                           var x := l.maturities[i];
                           if x.id == m.id then x.(status := Paid) else x))
  }

  /** Deleting an expense id twice is the same as deleting it once. */
  lemma DeleteExpenseIdempotent(l: MonthlyData, id: string)
    ensures DeleteExpense(DeleteExpense(l, id), id) == DeleteExpense(l, id)
  {
    Seqs.FilterIdempotent(l.expenses, (e: Expense) => e.id != id);
  }

  /** Deleting a maturity id twice is the same as deleting it once. */
  lemma DeleteMaturityIdempotent(l: MonthlyData, id: string)
    ensures DeleteMaturity(DeleteMaturity(l, id), id) == DeleteMaturity(l, id)
  {
    Seqs.FilterIdempotent(l.maturities, (m: Maturity) => m.id != id);
  }

  /** Editing an id that no expense carries changes nothing. */
  lemma EditAbsentIsNoop(l: MonthlyData, id: string, e: Expense)
    requires forall i :: 0 <= i < |l.expenses| ==> l.expenses[i].id != id
    ensures EditExpense(l, id, e) == l
  {
    assert EditExpense(l, id, e).expenses == l.expenses;
  }

  /** Toggling the same id twice restores the ledger. */
  lemma ToggleTwiceIsIdentity(l: MonthlyData, id: string)
    ensures ToggleMaturityStatus(ToggleMaturityStatus(l, id), id) == l
  {
    var r := ToggleMaturityStatus(ToggleMaturityStatus(l, id), id);
    assert r.maturities == l.maturities;
  }

  /** When every maturity with the converted id is still pending, converting
      is the same as adding the expense and then toggling that id. */
  lemma ConvertIsAddThenToggle(l: MonthlyData, m: Maturity, newId: string)
    requires forall i :: 0 <= i < |l.maturities| && l.maturities[i].id == m.id ==>
               l.maturities[i].status == Pending
    ensures ConvertMaturityToExpense(l, m, newId)
            == ToggleMaturityStatus(AddExpense(l, ExpenseOf(m, newId), newId), m.id)
  {
    var a := ConvertMaturityToExpense(l, m, newId);
    var b := ToggleMaturityStatus(AddExpense(l, ExpenseOf(m, newId), newId), m.id);
    assert a.maturities == b.maturities;
  }
}
