/** The fixed catalog tables: the seed list of spending categories and the
    four expense types used to classify expenses and maturities. */
module Constants {
  import Seqs

  /** A spending bucket; `color` is a style token. */
  datatype Category = Category(id: string, name: string, color: string)

  /** One of the four budgeting classifications. */
  datatype ExpenseType = ExpenseType(id: string, caption: string, color: string)

  /** The id that converted maturities are filed under. */
  const OTHER_CATEGORY_ID: string := "other"

  const CATEGORIES: seq<Category> := [
    Category("food", "Comida", "var(--color-category-food)"),
    Category("transport", "Transporte", "var(--color-category-transport)"),
    Category("utilities", "Servicios", "var(--color-category-utilities)"),
    Category("entertainment", "Entretenimiento", "var(--color-category-entertainment)"),
    Category("health", "Salud", "var(--color-category-health)"),
    Category("home", "Hogar", "var(--color-category-home)"),
    Category("education", "Educación", "var(--color-category-education)"),
    Category("debt", "Deudas", "var(--color-category-debt)"),
    Category("savings", "Ahorro", "var(--color-category-savings)"),
    Category("other", "Otros", "var(--color-category-other)")
  ]

  const EXPENSE_TYPES: seq<ExpenseType> := [
    ExpenseType("need", "Necesidad", "var(--color-type-need)"),
    ExpenseType("want", "Deseo", "var(--color-type-want)"),
    ExpenseType("savings", "Ahorro", "var(--color-type-savings)"),
    ExpenseType("debt", "Deuda", "var(--color-type-debt)")
  ]

  /** The ids of a category list, in list order. */
  function CategoryIds(cats: seq<Category>): (ids: seq<string>)
    ensures |ids| == |cats|
    ensures forall i :: 0 <= i < |cats| ==> ids[i] == cats[i].id
  {
    if |cats| == 0 then [] else [cats[0].id] + CategoryIds(cats[1..])
  }

  /** The ids of an expense-type list, in list order. */
  function TypeIds(types: seq<ExpenseType>): (ids: seq<string>)
    ensures |ids| == |types|
    ensures forall i :: 0 <= i < |types| ==> ids[i] == types[i].id
  {
    seq(|types|, i requires 0 <= i < |types| => types[i].id)
  }

  /** The seed categories have pairwise distinct ids and include the
      sentinel that maturity conversion relies on. */
  lemma CategoryTableWellFormed()
    ensures Seqs.Distinct(CategoryIds(CATEGORIES))
    ensures OTHER_CATEGORY_ID in CategoryIds(CATEGORIES)
    ensures |CATEGORIES| == 10
  {
    var ids := CategoryIds(CATEGORIES);
    assert ids == ["food", "transport", "utilities", "entertainment", "health",
                   "home", "education", "debt", "savings", "other"];
    assert ids[9] == OTHER_CATEGORY_ID;
  }

  /** The expense types are exactly need, want, savings and debt, in that
      order, so they are distinct and the forms' default is "need". */
  lemma ExpenseTypeTableWellFormed()
    ensures TypeIds(EXPENSE_TYPES) == ["need", "want", "savings", "debt"]
    ensures Seqs.Distinct(TypeIds(EXPENSE_TYPES))
    ensures EXPENSE_TYPES[0].id == "need"
  {
    var ids := TypeIds(EXPENSE_TYPES);
    assert ids == ["need", "want", "savings", "debt"];
  }
}
