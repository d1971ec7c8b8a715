/** The planning panel: income minus the budget total, and one budget input
    per category. */
module BudgetPlanner {
  import Wrappers
  import Constants
  import Ledger
  import Dashboard

  /** "Por asignar": what is left of the income after the budgets. */
  ghost function Remaining(l: Ledger.MonthlyData): (r: real)
    ensures r + Dashboard.TotalBudgeted(l.budgets) == l.income
  {
    l.income - Dashboard.TotalBudgeted(l.budgets)
  }

  /** The remaining figure is shown in red exactly when the budgets exceed
      the income. */
  lemma FlaggedExactlyWhenOverBudget(l: Ledger.MonthlyData)
    ensures Remaining(l) < 0.0 <==> Dashboard.TotalBudgeted(l.budgets) > l.income
  {
  }

  /** A category row's input: it updates that row's own category. */
  function EditRow(l: Ledger.MonthlyData, c: Constants.Category, parsed: Wrappers.Option<real>): (r: Ledger.MonthlyData)
    ensures Dashboard.Planned(r.budgets, c.id) == Ledger.ParsedOrZero(parsed)
    ensures forall id :: id != c.id ==> Dashboard.Planned(r.budgets, id) == Dashboard.Planned(l.budgets, id)
    ensures r.income == l.income && r.expenses == l.expenses
  {
    Ledger.UpdateBudget(l, c.id, parsed)
  }

  /** Editing a row moves the budget total by new minus old value and the
      remaining figure by the opposite amount. */
  lemma EditRowMovesTotals(l: Ledger.MonthlyData, c: Constants.Category, parsed: Wrappers.Option<real>)
    ensures Dashboard.TotalBudgeted(EditRow(l, c, parsed).budgets)
            == Dashboard.TotalBudgeted(l.budgets) + (Ledger.ParsedOrZero(parsed) - Dashboard.Planned(l.budgets, c.id))
    ensures Remaining(EditRow(l, c, parsed))
            == Remaining(l) - (Ledger.ParsedOrZero(parsed) - Dashboard.Planned(l.budgets, c.id))
  {
    Dashboard.TotalBudgetedAfterUpdate(l, c.id, parsed);
  }
}
