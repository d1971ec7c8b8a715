/** The expense form and list: the submit guard and reset, the prefill the
    calendar hands over, the category lookup with its fallback badge. The
    displayed list is `Dashboard.Visible`. */
module ExpenseTracker {
  import opened Wrappers
  import Constants
  import Ledger
  import Persistence

  /** A form slot: typed text, or the number a prefill put there. */
  datatype FormValue = Text(text: string) | Number(number: real)

  /** JavaScript truthiness of a slot: "" and 0 are falsy. */
  predicate Truthy(v: FormValue) {
    match v
    case Text(t) => t != ""
    case Number(x) => x != 0.0
  }

  datatype ExpenseForm = ExpenseForm(amount: FormValue, description: string, categoryId: string,
                                     typeId: string, date: string)

  /** `categories[0]?.id || ''`. */
  function DefaultCategoryId(cats: seq<Constants.Category>): (r: string)
    ensures |cats| == 0 ==> r == ""
    ensures |cats| > 0 ==> r == cats[0].id
  {
    if |cats| > 0 && cats[0].id != "" then cats[0].id else ""
  }

  /** The empty form: first category, first expense type, today's date. */
  function InitialForm(cats: seq<Constants.Category>, today: string): ExpenseForm {
    ExpenseForm(Text(""), "", DefaultCategoryId(cats), Constants.EXPENSE_TYPES[0].id, today)
  }

  /** `parseFloat` of the slot: the number itself, or the parsed text. */
  function AmountOf(v: FormValue, parsedText: real): real {
    match v
    case Text(_) => parsedText
    case Number(x) => x
  }

  datatype Submitted = Submitted(form: ExpenseForm, data: Ledger.MonthlyData)

  /** handleSubmit: with an amount and a description, one expense is added
      and the form is reset; otherwise nothing happens. */
  function Submit(form: ExpenseForm, cats: seq<Constants.Category>, today: string, parsedText: real,
                  newId: string, l: Ledger.MonthlyData): (r: Submitted)
    ensures !Truthy(form.amount) || form.description == "" ==> r == Submitted(form, l)
    ensures Truthy(form.amount) && form.description != "" ==>
              && r.form.amount == Text("") && r.form.description == ""
              && r.form.categoryId == DefaultCategoryId(cats)
              && r.form.typeId == "need" && r.form.date == today
              && |r.data.expenses| == |l.expenses| + 1
              && r.data.expenses[0] == Ledger.Expense(newId, AmountOf(form.amount, parsedText), form.description,
                                                      form.categoryId, form.typeId, form.date)
              && r.data.expenses[1..] == l.expenses
              && r.data.budgets == l.budgets && r.data.maturities == l.maturities
              && r.data.income == l.income && r.data.filterType == l.filterType
  {
    if !Truthy(form.amount) || form.description == "" then Submitted(form, l)
    else
      var draft := Ledger.Expense("", AmountOf(form.amount, parsedText), form.description,
                                  form.categoryId, form.typeId, form.date);
      Submitted(InitialForm(cats, today), Ledger.AddExpense(l, draft, newId))
  }

  /** The prefill effect: amount, description, type and date are taken from
      the prefill, the category is kept, and the slot is emptied. */
  function ApplyPrefill(form: ExpenseForm, slot: Option<Persistence.Prefill>): (r: (ExpenseForm, Option<Persistence.Prefill>))
    ensures slot.None? ==> r == (form, slot)
    ensures slot.Some? ==> r.1 == None
    ensures slot.Some? ==> r.0 == ExpenseForm(Number(slot.value.amount), slot.value.description,
                                              form.categoryId, slot.value.typeId, slot.value.date)
  {
    match slot
    case None => (form, None)
    case Some(p) => (form.(amount := Number(p.amount), description := p.description,
                           typeId := p.typeId, date := p.date), None)
  }

  /** What `getCategory` finds: the first category with the id, or the
      fallback badge. */
  datatype Lookup = Known(category: Constants.Category) | Unknown {
    function Name(): string {
      match this
      case Known(c) => c.name
      case Unknown => "?"
    }
    function Color(): string {
      match this
      case Known(c) => c.color
      case Unknown => "#ccc"
    }
  }

  function GetCategory(cats: seq<Constants.Category>, id: string): (r: Lookup)
    ensures r.Unknown? <==> forall i :: 0 <= i < |cats| ==> cats[i].id != id
    ensures r.Known? ==> exists i :: 0 <= i < |cats| && cats[i] == r.category && r.category.id == id
                                     && forall j :: 0 <= j < i ==> cats[j].id != id
  {
    if |cats| == 0 then Unknown
    else if cats[0].id == id then Known(cats[0])
    else
      var r := GetCategory(cats[1..], id);
      if r.Known? then
        var i :| 0 <= i < |cats[1..]| && cats[1..][i] == r.category && r.category.id == id
                 && forall j :: 0 <= j < i ==> cats[1..][j].id != id;
        assert cats[i + 1] == r.category && forall j :: 0 <= j < i + 1 ==> cats[j].id != id;
        r
      else r
  }

  /** Every expense filed under a seed category shows that category's badge. */
  lemma SeedCategoriesAreFound(id: string)
    requires id in Constants.CategoryIds(Constants.CATEGORIES)
    ensures GetCategory(Constants.CATEGORIES, id).Known?
  {
  }
}
