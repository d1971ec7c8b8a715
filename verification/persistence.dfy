/** Storage of monthly ledgers and of the category catalog, and the planner
    session that owns the active month: every action is applied to the
    resident ledger and the result is written back under the month's key.
    The browser's string store and JSON are abstracted into a map from keys
    to parsed records, with None for an entry that does not parse. */
module Persistence {
  import opened Wrappers
  import Formatters
  import Constants
  import Ledger

  /** A parsed ledger entry: each field may be absent (older schema). */
  datatype StoredLedger = StoredLedger(income: Option<real>, budgets: Option<map<string, real>>,
                                       expenses: Option<seq<Ledger.Expense>>,
                                       maturities: Option<seq<Ledger.Maturity>>,
                                       filterType: Option<string>)

  type Storage = map<string, Option<StoredLedger>>

  const MONTH_KEY_PREFIX: string := "planner-"
  const CATEGORIES_KEY: string := "planner-categories"

  function StorageKey(monthKey: string): string {
    MONTH_KEY_PREFIX + monthKey
  }

  /** Different months are stored under different keys. */
  lemma StorageKeyInjective(a: string, b: string)
    requires a != b
    ensures StorageKey(a) != StorageKey(b)
  {
    assert StorageKey(a)[|MONTH_KEY_PREFIX|..] == a;
    assert StorageKey(b)[|MONTH_KEY_PREFIX|..] == b;
  }

  /** A month key never collides with the catalog's entry: keys end in a
      digit, "categories" does not. */
  lemma MonthEntryIsNotCatalogEntry(year: int, monthIndex: int)
    requires 0 <= monthIndex <= 11
    ensures StorageKey(Formatters.MonthYearKey(year, monthIndex)) != CATEGORIES_KEY
  {
    var k := Formatters.MonthYearKey(year, monthIndex);
    assert Formatters.IsDigit(k[|k| - 2..][1]);
    assert !Formatters.IsDigit(CATEGORIES_KEY[|CATEGORIES_KEY| - 1]);
  }

  /** `{ ...DEFAULT_MONTHLY_DATA, ...parsed }`: present fields win. */
  function MergeOverDefaults(s: StoredLedger): (r: Ledger.MonthlyData)
    ensures r.income == s.income.GetOr(Ledger.DEFAULT_MONTHLY_DATA.income)
    ensures r.budgets == s.budgets.GetOr(map[])
    ensures r.expenses == s.expenses.GetOr([])
    ensures r.maturities == s.maturities.GetOr([])
    ensures r.filterType == s.filterType.GetOr(Ledger.ALL)
  {
    var d := Ledger.DEFAULT_MONTHLY_DATA;
    Ledger.MonthlyData(s.income.GetOr(d.income), s.budgets.GetOr(d.budgets),
                       s.expenses.GetOr(d.expenses), s.maturities.GetOr(d.maturities),
                       s.filterType.GetOr(d.filterType))
  }

  /** loadMonthData: a parsed entry is merged over the defaults; a missing
      or unparseable entry gives the defaults. */
  function Load(storage: Storage, monthKey: string): (r: Ledger.MonthlyData)
    ensures StorageKey(monthKey) in storage && storage[StorageKey(monthKey)].Some? ==>
              r == MergeOverDefaults(storage[StorageKey(monthKey)].value)
    ensures StorageKey(monthKey) !in storage ==> r == Ledger.DEFAULT_MONTHLY_DATA
    ensures StorageKey(monthKey) in storage && storage[StorageKey(monthKey)].None? ==>
              r == Ledger.DEFAULT_MONTHLY_DATA
  {
    var key := StorageKey(monthKey);
    if key in storage && storage[key].Some? then MergeOverDefaults(storage[key].value)
    else Ledger.DEFAULT_MONTHLY_DATA
  }

  /** What serialising a full ledger and parsing it back gives. */
  function Serialize(l: Ledger.MonthlyData): StoredLedger {
    StoredLedger(Some(l.income), Some(l.budgets), Some(l.expenses), Some(l.maturities), Some(l.filterType))
  }

  /** The save effect: the whole ledger under the month's key. */
  function Save(storage: Storage, monthKey: string, l: Ledger.MonthlyData): (r: Storage)
    ensures r.Keys == storage.Keys + {StorageKey(monthKey)}
    ensures forall k :: k in storage && k != StorageKey(monthKey) ==> r[k] == storage[k]
  {
    storage[StorageKey(monthKey) := Some(Serialize(l))]
  }

  /** Saving and then loading the same month returns the saved ledger. */
  lemma SaveThenLoad(storage: Storage, monthKey: string, l: Ledger.MonthlyData)
    ensures Load(Save(storage, monthKey, l), monthKey) == l
  {
  }

  /** Saving one month leaves every other month's load unchanged. */
  lemma SaveIsolatesMonths(storage: Storage, monthKey: string, other: string, l: Ledger.MonthlyData)
    requires other != monthKey
    ensures Load(Save(storage, monthKey, l), other) == Load(storage, other)
  {
    StorageKeyInjective(monthKey, other);
  }

  /** The catalog load: the stored list, or the seed list when the entry is
      missing or unparseable. */
  function LoadCategories(stored: Option<seq<Constants.Category>>): (r: seq<Constants.Category>)
    ensures stored.Some? ==> r == stored.value
    ensures stored.None? ==> r == Constants.CATEGORIES
  {
    stored.GetOr(Constants.CATEGORIES)
  }

  /** addCategory: appends the category stamped with a fresh id. */
  function AddCategory(cats: seq<Constants.Category>, c: Constants.Category, newId: string): (r: seq<Constants.Category>)
    ensures |r| == |cats| + 1
    ensures r[..|cats|] == cats
    ensures r[|cats|] == c.(id := newId)
  {
    cats + [c.(id := newId)]
  }

  /** The planner actions on the active ledger. */
  datatype Action =
    | UpdateIncome(parsed: Option<real>)
    | UpdateBudget(categoryId: string, parsed: Option<real>)
    | AddExpense(expense: Ledger.Expense, newId: string)
    | DeleteExpense(id: string)
    | EditExpense(id: string, edited: Ledger.Expense)
    | SetFilterType(filter: string)
    | AddMaturity(maturity: Ledger.Maturity, newId: string)
    | ToggleMaturityStatus(id: string)
    | DeleteMaturity(id: string)
    | ConvertMaturityToExpense(maturity: Ledger.Maturity, newId: string)

  function Apply(l: Ledger.MonthlyData, a: Action): Ledger.MonthlyData {
    match a
    case UpdateIncome(p) => Ledger.UpdateIncome(l, p)
    case UpdateBudget(k, p) => Ledger.UpdateBudget(l, k, p)
    case AddExpense(e, id) => Ledger.AddExpense(l, e, id)
    case DeleteExpense(id) => Ledger.DeleteExpense(l, id)
    case EditExpense(id, e) => Ledger.EditExpense(l, id, e)
    case SetFilterType(f) => Ledger.SetFilterType(l, f)
    case AddMaturity(m, id) => Ledger.AddMaturity(l, m, id)
    case ToggleMaturityStatus(id) => Ledger.ToggleMaturityStatus(l, id)
    case DeleteMaturity(id) => Ledger.DeleteMaturity(l, id)
    case ConvertMaturityToExpense(m, id) => Ledger.ConvertMaturityToExpense(l, m, id)
  }

  /** The planner's state: the active month, the store of monthly ledgers,
      the resident ledger, the catalog, the parsed "planner-categories" entry
      (kept apart from the monthly entries, which never share its key by
      `MonthEntryIsNotCatalogEntry`), the active tab and the expense slot the
      calendar prefills. */
  datatype Session = Session(selectedMonth: string, storage: Storage, data: Ledger.MonthlyData,
                             categories: seq<Constants.Category>,
                             catalogEntry: Option<seq<Constants.Category>>,
                             activeTab: string, prefill: Option<Prefill>)

  /** What the calendar hands to the expense form. */
  datatype Prefill = Prefill(amount: real, description: string, typeId: string, date: string)

  /** The resident ledger is what the store holds for the active month. */
  ghost predicate Persisted(s: Session) {
    Load(s.storage, s.selectedMonth) == s.data
  }

  /** The resident catalog is what its entry loads. */
  ghost predicate CatalogPersisted(s: Session) {
    LoadCategories(s.catalogEntry) == s.categories
  }

  /** Start-up as written: the month is read from the clock twice, once for
      `selectedMonth` and once for the lazily loaded ledger; the catalog is
      loaded; then the save effects write the ledger under the selected
      month and the catalog under its own key. */
  function StartAsWritten(storage: Storage, catalogEntry: Option<seq<Constants.Category>>,
                          firstRead: string, secondRead: string): (r: Session)
    ensures r.selectedMonth == firstRead
    ensures r.data == Load(storage, secondRead)
    ensures r.categories == LoadCategories(catalogEntry)
    ensures Persisted(r) && CatalogPersisted(r)
    ensures Load(r.storage, firstRead) == Load(storage, secondRead)
    ensures forall k :: k != firstRead ==> Load(r.storage, k) == Load(storage, k)
    ensures r.activeTab == "dashboard" && r.prefill == None
  {
    var data := Load(storage, secondRead);
    var categories := LoadCategories(catalogEntry);
    SaveThenLoad(storage, firstRead, data);
    forall k | k != firstRead ensures Load(Save(storage, firstRead, data), k) == Load(storage, k) {
      SaveIsolatesMonths(storage, firstRead, k, data);
    }
    Session(firstRead, Save(storage, firstRead, data), data, categories, Some(categories), "dashboard", None)
  }

  /** When the month changes between the two clock reads, the month that
      was read first ends up holding the next month's ledger: here an
      income of 500 stored for January is replaced by February's defaults. */
  lemma StartAcrossMonthChangeLosesData()
    ensures var storage := map[StorageKey("2025-01") := Some(StoredLedger(Some(500.0), None, None, None, None))];
            var r := StartAsWritten(storage, None, "2025-01", "2025-02");
            && Load(storage, "2025-01").income == 500.0
            && Load(r.storage, "2025-01") == Ledger.DEFAULT_MONTHLY_DATA
  {
    var storage := map[StorageKey("2025-01") := Some(StoredLedger(Some(500.0), None, None, None, None))];
    StorageKeyInjective("2025-01", "2025-02");
    assert StorageKey("2025-02") !in storage;
  }

  /** Start-up with one clock read: the current month's ledger is loaded and
      written back, so no month's stored ledger changes. */
  function Start(storage: Storage, catalogEntry: Option<seq<Constants.Category>>, currentMonth: string): (r: Session)
    ensures r.selectedMonth == currentMonth
    ensures r.data == Load(storage, currentMonth)
    ensures r.categories == LoadCategories(catalogEntry)
    ensures Persisted(r) && CatalogPersisted(r)
    ensures forall k :: Load(r.storage, k) == Load(storage, k)
  {
    StartAsWritten(storage, catalogEntry, currentMonth, currentMonth)
  }

  /** addCategory, with the effect that writes the catalog back. */
  function AddCategoryTo(s: Session, c: Constants.Category, newId: string): (r: Session)
    ensures r.categories == AddCategory(s.categories, c, newId)
    ensures CatalogPersisted(r)
    ensures r.selectedMonth == s.selectedMonth && r.storage == s.storage && r.data == s.data
  {
    var categories := AddCategory(s.categories, c, newId);
    s.(categories := categories, catalogEntry := Some(categories))
  }

  /** An added category is still in the catalog after a restart. */
  lemma AddedCategorySurvivesRestart(s: Session, c: Constants.Category, newId: string, month: string)
    ensures var s1 := AddCategoryTo(s, c, newId);
            var s2 := Start(s1.storage, s1.catalogEntry, month);
            && s2.categories == s1.categories
            && s2.categories[|s.categories|] == c.(id := newId)
  {
    var s1 := AddCategoryTo(s, c, newId);
    assert LoadCategories(s1.catalogEntry) == s1.categories;
  }

  /** One action: a single ledger update, then a single write of the result. */
  function Dispatch(s: Session, a: Action): (r: Session)
    ensures r.data == Apply(s.data, a)
    ensures Persisted(r)
    ensures forall k :: k != s.selectedMonth ==> Load(r.storage, k) == Load(s.storage, k)
    ensures r.selectedMonth == s.selectedMonth
    ensures r.categories == s.categories && r.catalogEntry == s.catalogEntry
  {
    var data := Apply(s.data, a);
    SaveThenLoad(s.storage, s.selectedMonth, data);
    forall k | k != s.selectedMonth ensures Load(Save(s.storage, s.selectedMonth, data), k) == Load(s.storage, k) {
      SaveIsolatesMonths(s.storage, s.selectedMonth, k, data);
    }
    s.(storage := Save(s.storage, s.selectedMonth, data), data := data)
  }

  /** Switching month: the new month's ledger is loaded into the active slot
      and written back; the month left behind keeps what was saved for it. */
  function SwitchMonth(s: Session, monthKey: string): (r: Session)
    ensures r.selectedMonth == monthKey
    ensures r.data == Load(s.storage, monthKey)
    ensures Persisted(r)
    ensures forall k :: k != monthKey ==> Load(r.storage, k) == Load(s.storage, k)
    ensures Persisted(s) && s.selectedMonth != monthKey ==> Load(r.storage, s.selectedMonth) == s.data
    ensures r.categories == s.categories && r.catalogEntry == s.catalogEntry
  {
    var data := Load(s.storage, monthKey);
    SaveThenLoad(s.storage, monthKey, data);
    forall k | k != monthKey ensures Load(Save(s.storage, monthKey, data), k) == Load(s.storage, k) {
      SaveIsolatesMonths(s.storage, monthKey, k, data);
    }
    s.(selectedMonth := monthKey, storage := Save(s.storage, monthKey, data), data := data)
  }

  /** Loading a partial entry keeps the stored fields and defaults the rest;
      e.g. only an income of 500 gives that income and empty everything. */
  lemma PartialEntryMerges(storage: Storage, monthKey: string, income: real)
    requires StorageKey(monthKey) in storage
    requires storage[StorageKey(monthKey)] == Some(StoredLedger(Some(income), None, None, None, None))
    ensures Load(storage, monthKey) == Ledger.DEFAULT_MONTHLY_DATA.(income := income)
  {
  }

  /** Mutating the active month never changes what another month loads,
      whatever sequence of actions is dispatched. */
  lemma {:induction false} ActionsIsolateMonths(s: Session, actions: seq<Action>, other: string)
    requires other != s.selectedMonth
    ensures Load(DispatchAll(s, actions).storage, other) == Load(s.storage, other)
    decreases |actions|
  {
    if |actions| > 0 {
      var s1 := Dispatch(s, actions[0]);
      ActionsIsolateMonths(s1, actions[1..], other);
    }
  }

  function DispatchAll(s: Session, actions: seq<Action>): (r: Session)
    ensures r.selectedMonth == s.selectedMonth
    decreases |actions|
  {
    if |actions| == 0 then s else DispatchAll(Dispatch(s, actions[0]), actions[1..])
  }
}
