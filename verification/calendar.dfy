/** The maturities calendar: the Monday-first month grid, the per-day key and
    selection, the add-maturity form, the overdue alert and the "Pagar"
    button. The weekday of the 1st and whether a day is past come from the
    clock and are parameters. */
module Calendar {
  import opened Wrappers
  import Seqs
  import Formatters
  import Ledger
  import Persistence
  import ExpenseTracker
  import Dashboard

  predicate IsLeapYear(year: int) {
    year % 4 == 0 && (year % 100 != 0 || year % 400 == 0)
  }

  /** `new Date(year, month, 0).getDate()`: the Gregorian month length. */
  function DaysInMonth(year: int, month: int): (n: nat)
    requires 1 <= month <= 12
    ensures 28 <= n <= 31
    ensures month == 2 ==> (n == 29 <==> IsLeapYear(year))
    ensures month in {4, 6, 9, 11} ==> n == 30
    ensures month in {1, 3, 5, 7, 8, 10, 12} ==> n == 31
  {
    if month == 2 then (if IsLeapYear(year) then 29 else 28)
    else if month == 4 || month == 6 || month == 9 || month == 11 then 30
    else 31
  }

  /** The twelve month lengths add up to the length of the year. */
  lemma YearLength(year: int)
    ensures DaysInMonth(year, 1) + DaysInMonth(year, 2) + DaysInMonth(year, 3) + DaysInMonth(year, 4)
          + DaysInMonth(year, 5) + DaysInMonth(year, 6) + DaysInMonth(year, 7) + DaysInMonth(year, 8)
          + DaysInMonth(year, 9) + DaysInMonth(year, 10) + DaysInMonth(year, 11) + DaysInMonth(year, 12)
          == if IsLeapYear(year) then 366 else 365
  {
  }

  /** Empty cells before the 1st when weeks start on Monday; `firstDay` is
      `getDay()` of the 1st (0 = Sunday). */
  function MondayOffset(firstDay: int): (r: nat)
    requires 0 <= firstDay <= 6
    ensures r <= 6
    ensures r == (firstDay + 6) % 7
  {
    if firstDay == 0 then 6 else firstDay - 1
  }

  /** `Array.from({ length: n }, (_, i) => i + 1)`. */
  function DayNumbers(n: nat): (days: seq<nat>)
    ensures |days| == n
    ensures forall i :: 0 <= i < n ==> days[i] == i + 1
  {
    seq(n, i => i + 1)
  }

  /** `Array.from({ length: n }, (_, i) => i)`. */
  function Blanks(n: nat): (blanks: seq<nat>)
    ensures |blanks| == n
    ensures forall i :: 0 <= i < n ==> blanks[i] == i
  {
    seq(n, i => i)
  }

  /** Weekday (0 = Sunday) of day `d` of a month whose 1st falls on `firstDay`. */
  function Weekday(firstDay: int, d: int): int {
    (firstDay + d - 1) % 7
  }

  /** In the Monday-first grid day `d` lands in the column of its weekday:
      column 0 is Monday ... column 6 is Sunday. */
  lemma MondayGridColumns(firstDay: int, d: int)
    requires 0 <= firstDay <= 6 && d >= 1
    ensures (MondayOffset(firstDay) + d - 1) % 7 == (Weekday(firstDay, d) + 6) % 7
  {
    var k := firstDay + d - 1;
    assert MondayOffset(firstDay) + d - 1 == k + 6 - 7 * (if firstDay == 0 then 0 else 1);
    ModShift(k + 6, if firstDay == 0 then 0 else 1);
    ModOfMod(k);
  }

  lemma ModShift(a: int, q: int)
    ensures (a - 7 * q) % 7 == a % 7
  {
  }

  lemma ModOfMod(k: int)
    ensures (k % 7 + 6) % 7 == (k + 6) % 7
  {
    assert k == 7 * (k / 7) + k % 7;
    ModShift(k + 6, k / 7);
  }

  /** `${selectedMonth}-${String(day).padStart(2, '0')}`. */
  function DayKey(monthKey: string, day: nat): (k: string)
    requires 1 <= day <= 31
    ensures |k| == |monthKey| + 3
    ensures k[..|monthKey|] == monthKey && k[|monthKey|] == '-'
    ensures Formatters.AllDigits(k[|monthKey| + 1..])
    ensures Formatters.DigitsValue(k[|monthKey| + 1..]) == day
  {
    var k := monthKey + "-" + Formatters.TwoDigits(day);
    assert k[|monthKey| + 1..] == Formatters.TwoDigits(day);
    k
  }

  /** Different days of the same month have different keys. */
  lemma DayKeyInjective(monthKey: string, d1: nat, d2: nat)
    requires 1 <= d1 <= 31 && 1 <= d2 <= 31 && d1 != d2
    ensures DayKey(monthKey, d1) != DayKey(monthKey, d2)
  {
  }

  /** getDayMaturities: the maturities dated on that day, in order. */
  function DayMaturities(ms: seq<Ledger.Maturity>, monthKey: string, day: nat): (r: seq<Ledger.Maturity>)
    requires 1 <= day <= 31
    ensures forall i :: 0 <= i < |r| ==> r[i] in ms && r[i].date == DayKey(monthKey, day)
    ensures forall i :: 0 <= i < |ms| && ms[i].date == DayKey(monthKey, day) ==> ms[i] in r
    ensures Seqs.IsSubsequence(r, ms)
    ensures forall m :: multiset(r)[m] == if m.date == DayKey(monthKey, day) then multiset(ms)[m] else 0
  {
    var key := DayKey(monthKey, day);
    var onDay := (m: Ledger.Maturity) => m.date == key;
    Seqs.FilterMembers(ms, onDay);
    Seqs.Filter(ms, onDay)
  }

  /** `maturities.some(m => m.status === 'pending')`. */
  predicate AnyPending(ms: seq<Ledger.Maturity>) {
    exists i :: 0 <= i < |ms| && ms[i].status == Ledger.Pending
  }

  /** The red alert on a day: past, with a maturity of that day still pending. */
  function IsAlert(ms: seq<Ledger.Maturity>, monthKey: string, day: nat, isPast: bool): (r: bool)
    requires 1 <= day <= 31
    ensures r <==> isPast && exists i :: 0 <= i < |ms| && ms[i].date == DayKey(monthKey, day)
                                         && ms[i].status == Ledger.Pending
  {
    DayPendingIff(ms, monthKey, day);
    isPast && AnyPending(DayMaturities(ms, monthKey, day))
  }

  /** A day's selection has a pending maturity exactly when some maturity
      of the ledger is dated that day and pending. */
  lemma DayPendingIff(ms: seq<Ledger.Maturity>, monthKey: string, day: nat)
    requires 1 <= day <= 31
    ensures AnyPending(DayMaturities(ms, monthKey, day))
            <==> exists i :: 0 <= i < |ms| && ms[i].date == DayKey(monthKey, day) && ms[i].status == Ledger.Pending
  {
    var dms := DayMaturities(ms, monthKey, day);
    if AnyPending(dms) {
      var i :| 0 <= i < |dms| && dms[i].status == Ledger.Pending;
      var j :| 0 <= j < |ms| && ms[j] == dms[i];
    }
    if exists i :: 0 <= i < |ms| && ms[i].date == DayKey(monthKey, day) && ms[i].status == Ledger.Pending {
      var i :| 0 <= i < |ms| && ms[i].date == DayKey(monthKey, day) && ms[i].status == Ledger.Pending;
      var j :| 0 <= j < |dms| && dms[j] == ms[i];
    }
  }

  /** The add-maturity form; `amount` is the typed text. */
  datatype MaturityForm = MaturityForm(service: string, amount: string, typeId: string)

  /** Outcome of the form: the day still selected (None closes it) and the ledger. */
  datatype Saved = Saved(selectedDay: Option<nat>, data: Ledger.MonthlyData)

  /** handleSaveMaturity: with a service and an amount, one pending maturity
      dated on the selected day is added and the day is deselected. */
  function SaveMaturity(form: MaturityForm, monthKey: string, day: nat, parsedAmount: real,
                        newId: string, l: Ledger.MonthlyData): (r: Saved)
    requires 1 <= day <= 31
    ensures form.service == "" || form.amount == "" ==> r == Saved(Some(day), l)
    ensures form.service != "" && form.amount != "" ==>
              && r.selectedDay == None
              && |r.data.maturities| == |l.maturities| + 1
              && r.data.maturities[..|l.maturities|] == l.maturities
              && r.data.maturities[|l.maturities|]
                 == Ledger.Maturity(newId, form.service, parsedAmount, form.typeId, DayKey(monthKey, day), Ledger.Pending)
              && r.data.expenses == l.expenses && r.data.budgets == l.budgets
              && r.data.income == l.income && r.data.filterType == l.filterType
  {
    if form.service == "" || form.amount == "" then Saved(Some(day), l)
    else
      var m := Ledger.Maturity("", form.service, parsedAmount, form.typeId, DayKey(monthKey, day), Ledger.Pending);
      Saved(None, Ledger.AddMaturity(l, m, newId))
  }

  /** A saved maturity shows on its own day, and raises the alert there once
      the day is past. */
  lemma SavedMaturityShowsOnItsDay(form: MaturityForm, monthKey: string, day: nat, parsedAmount: real,
                                   newId: string, l: Ledger.MonthlyData)
    requires 1 <= day <= 31 && form.service != "" && form.amount != ""
    ensures var ms := SaveMaturity(form, monthKey, day, parsedAmount, newId, l).data.maturities;
            && ms[|ms| - 1] in DayMaturities(ms, monthKey, day)
            && IsAlert(ms, monthKey, day, true)
  {
    var ms := SaveMaturity(form, monthKey, day, parsedAmount, newId, l).data.maturities;
    assert ms[|ms| - 1].date == DayKey(monthKey, day);
    assert ms[|ms| - 1].status == Ledger.Pending;
  }

  /** handleConvertToExpense: the prefill built from a maturity. */
  function PayPrefill(m: Ledger.Maturity): (p: Persistence.Prefill)
    ensures p.amount == m.amount && p.description == m.service
    ensures p.typeId == m.typeId && p.date == m.date
  {
    Persistence.Prefill(m.amount, m.service, m.typeId, m.date)
  }

  /** "Pagar": fills the expense slot and sets the active tab to "expenses";
      the ledger, and so the maturity's status, is left as it is. */
  function Pay(s: Persistence.Session, m: Ledger.Maturity): (r: Persistence.Session)
    ensures r.prefill == Some(PayPrefill(m)) && r.activeTab == "expenses"
    ensures r.data == s.data && r.storage == s.storage && r.selectedMonth == s.selectedMonth
  {
    s.(prefill := Some(PayPrefill(m)), activeTab := "expenses")
  }

  /** The tab "Pagar" selects is not one of the layout's tabs, and the
      dashboard renders its overview for it: the calendar is closed and the
      expense form is not opened, so the prefill waits in its slot until the
      expense panel is opened. */
  lemma PayShowsOverview(s: Persistence.Session, m: Ledger.Maturity)
    ensures Pay(s, m).activeTab !in Dashboard.TAB_IDS
    ensures Dashboard.SectionOf(Pay(s, m).activeTab) == Dashboard.Overview
    ensures Pay(s, m).prefill.Some?
  {
  }

  /** Paying through the form records the maturity's amount, service, type
      and date under the form's category, not under "other", and leaves every
      maturity as it was: the pending one stays pending. */
  lemma PayThenSubmit(s: Persistence.Session, m: Ledger.Maturity, form: ExpenseTracker.ExpenseForm,
                      today: string, parsedText: real, newId: string)
    requires m.amount != 0.0 && m.service != ""
    ensures var s1 := Pay(s, m);
            var (f, slot) := ExpenseTracker.ApplyPrefill(form, s1.prefill);
            var out := ExpenseTracker.Submit(f, s1.categories, today, parsedText, newId, s1.data);
            && slot == None
            && out.data.expenses[0] == Ledger.Expense(newId, m.amount, m.service, form.categoryId, m.typeId, m.date)
            && out.data.maturities == s.data.maturities
  {
  }
}
