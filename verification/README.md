# Monthly budget planner: ledger model

A Dafny model of the state core of a personal monthly budget planner. Each
calendar month has a ledger holding an income, a budget per category, a list
of expenses (newest first) and a list of bill due-dates ("maturities") that
are pending or paid. The ledger is loaded from a key-value store under
`planner-YYYY-MM` and written back after every change. Screens derive their
figures from it: spent against planned per category, with a four-way status;
the budget total; and the split of spending over the four expense types.

Modules follow the source files:

- `Ledger` (ledger.dfy) holds the records and the `prev => next` actions of the planner context.
- `Persistence` (persistence.dfy) holds the store of monthly ledgers, the merge over defaults, the catalog and its own stored entry, and the session that owns the active month.
- `Dashboard` (dashboard.dfy) holds the aggregation: category rows, totals and the type distribution.
- `BudgetPlanner`, `ExpenseTracker`, `Calendar` and `Almanac` hold the derivations in those views.
- `Header` (header.dfy) holds month navigation; `Formatters` holds the month key; `Constants` holds the category and type tables.
- `Wrappers` and `Seqs` are helpers: `Option`, and an order-keeping filter.

Amounts and percentages are Dafny `real`, an idealisation of JavaScript
numbers. `parseFloat` results are inputs of type `Option<real>`, with `None`
standing for NaN. Ids drawn from `Date.now()`, the weekday of the 1st, "today"
and whether a day is past are all parameters.

`updateIncome` and `updateBudget` store `parseFloat(x) || 0`. That keeps
negative numbers and maps only NaN and 0 to 0, and `Ledger.UpdateIncome` and
`Ledger.UpdateBudget` do the same.

The calendar's "Pagar" button does not call `convertMaturityToExpense`. It
puts the maturity into the expense slot and sets the active tab to
"expenses". No tab has that id, and the dashboard renders its overview for
it (`Calendar.PayShowsOverview`). The expense form lives in the "Nuevo Gasto"
panel, which "Pagar" does not open, so the slot waits until the user opens
that panel. Once the form takes the slot and is submitted, the expense is
filed under the form's category, and the maturity stays pending until toggled
(`Calendar.PayThenSubmit`). `convertMaturityToExpense` is modelled as the
context defines it.

## Model

| member | source | states |
|---|---|---|
| Constants.CategoryTableWellFormed | src/utils/constants.js:1-12 | the ten seed category ids are pairwise distinct and include the "other" sentinel |
| Constants.ExpenseTypeTableWellFormed | src/utils/constants.js:14-19 | the type ids are exactly need, want, savings, debt, distinct, with "need" first |
| Formatters.MonthYearKey | src/utils/formatters.js:19-22 | the key is the printed year, a dash, and exactly two digits whose value is monthIndex+1, so it lies in 01..12 |
| Formatters.KeyRoundTrip | src/utils/formatters.js:21 | splitting a key at '-' and reading both parts as numbers gives back (year, monthIndex+1) for every year >= 0 |
| Formatters.ParseMonthKey | src/components/Header.jsx:11 | a key that reads gives a year and a month that are both non-negative |
| Formatters.ParseMonthKeyAccepts | src/components/Header.jsx:11 | a key reads exactly when the parts before and after its first dash are digit strings; a key without a dash reads as NaN |
| Header.NextMonth | src/components/Header.jsx:16-20 | next of (y, 12) is (y+1, 1); otherwise next of (y, m) is (y, m+1) |
| Header.PrevMonth | src/components/Header.jsx:9-13 | prev of (y, 1) is (y-1, 12); otherwise prev of (y, m) is (y, m-1) |
| Header.PrevKey | src/components/Header.jsx:9-13 | with the year kept as parsed: an unreadable key gives "NaN-NaN", and a key with a month in 1..12 gives the key of the previous calendar month |
| Header.NextKey | src/components/Header.jsx:16-20 | with the year kept as parsed: an unreadable key gives "NaN-NaN", and a key with a month in 1..12 gives the key of the next calendar month |
| Header.PrevKeyAsWritten | src/components/Header.jsx:9-13 | as written: "NaN-NaN" for an unreadable key, otherwise the previous month of the year the Date constructor makes of the parsed year |
| Header.NextKeyAsWritten | src/components/Header.jsx:16-20 | as written: "NaN-NaN" for an unreadable key, otherwise the next month of the year the Date constructor makes of the parsed year |
| Header.NavigationOnKeys | src/components/Header.jsx:9-20 | on a well-formed key, both buttons print the key of the calendar neighbour |
| Header.PrevKeyOfNextKey | src/components/Header.jsx:9-20 | next then previous returns to the same key |
| Header.NextKeyOfPrevKey | src/components/Header.jsx:9-20 | previous then next returns to the same key, as long as the year does not go negative |
| Header.AsWrittenAgreesFromYear100 | src/components/Header.jsx:9-20 | from year 100 on, the buttons as written agree with the corrected navigation |
| Header.PrevKeyAsWrittenJumpsCenturies | src/components/Header.jsx:9-13 | as written, previous of "99-12" is "1999-11" and not "99-11" |
| Header.DistinctMonthsHaveDistinctKeys | src/utils/formatters.js:21 | two different months with years >= 0 and months 1..12 never share a key |
| Ledger.ParsedOrZero | src/context/PlannerContext.jsx:83 | the parsed amount or 0: NaN gives 0 and every number, negatives included, is kept as it is |
| Ledger.UpdateIncome | src/context/PlannerContext.jsx:82-84 | income becomes the parsed number, or 0 for NaN; negatives are kept; no other field changes |
| Ledger.UpdateBudget | src/context/PlannerContext.jsx:86-91 | only budgets[k] is set, to the parsed number or 0; k may be new; other keys and fields are unchanged |
| Ledger.AddExpense | src/context/PlannerContext.jsx:93-99 | the new expense with the fresh id is at index 0, and the old list is exactly the tail |
| Ledger.DeleteExpense | src/context/PlannerContext.jsx:101-106 | exactly the expenses with other ids remain, each as many times as before, in order; the ledger is unchanged when the id is absent |
| Ledger.DeleteExpenseIdempotent | src/context/PlannerContext.jsx:101-106 | deleting the same id twice equals deleting it once |
| Ledger.EditExpense | src/context/PlannerContext.jsx:108-113 | length and order are kept; entries with the id become the new expense with that id; others are unchanged |
| Ledger.EditAbsentIsNoop | src/context/PlannerContext.jsx:108-113 | editing an id nobody carries changes nothing |
| Ledger.SetFilterType | src/context/PlannerContext.jsx:115-117 | only the filter changes |
| Ledger.AddMaturity | src/context/PlannerContext.jsx:120-126 | appends at the end with the fresh id and status pending, whatever status was passed in |
| Ledger.Flip | src/context/PlannerContext.jsx:130 | the toggle always changes the status (pending and paid swap) |
| Ledger.ToggleMaturityStatus | src/context/PlannerContext.jsx:128-133 | only maturities with the id have their status flipped; length and all else are kept |
| Ledger.ToggleTwiceIsIdentity | src/context/PlannerContext.jsx:128-133 | toggling an id twice restores the ledger |
| Ledger.DeleteMaturity | src/context/PlannerContext.jsx:135-140 | exactly the maturities with other ids remain, each as many times as before, in order; unchanged when the id is absent |
| Ledger.DeleteMaturityIdempotent | src/context/PlannerContext.jsx:135-140 | deleting the same maturity id twice equals deleting it once |
| Ledger.ConvertMaturityToExpense | src/context/PlannerContext.jsx:143-159 | one update prepends {amount, service as description, "other", type, date} and marks matching maturities paid, leaving the rest |
| Ledger.ConvertIsAddThenToggle | src/context/PlannerContext.jsx:143-159 | for a maturity still pending, converting equals adding the expense and then toggling it |
| Persistence.StorageKeyInjective | src/context/PlannerContext.jsx:18 | different month keys are stored under different entries |
| Persistence.MonthEntryIsNotCatalogEntry | src/context/PlannerContext.jsx:40 | no month's entry collides with the "planner-categories" entry |
| Persistence.MergeOverDefaults | src/context/PlannerContext.jsx:7-13 | each stored field wins; absent fields get 0, {}, [], [] and "all" |
| Persistence.Load | src/context/PlannerContext.jsx:16-27 | a parsed entry loads as its merge over the defaults; a missing or unparseable entry loads exactly the defaults |
| Persistence.Save | src/context/PlannerContext.jsx:63-70 | the save writes only the active month's entry |
| Persistence.SaveThenLoad | src/context/PlannerContext.jsx:16-27 | loading a month right after saving a ledger for it returns that ledger |
| Persistence.SaveIsolatesMonths | src/context/PlannerContext.jsx:63-70 | saving one month does not change what any other month loads |
| Persistence.PartialEntryMerges | src/context/PlannerContext.jsx:19-22 | an entry holding only an income loads that income with every other field at its default |
| Persistence.LoadCategories | src/context/PlannerContext.jsx:38-46 | the stored catalog, or the seed list when it is missing or unparseable |
| Persistence.AddCategory | src/context/PlannerContext.jsx:78-80 | the catalog grows by one at the end, with the fresh id, and the old list is the prefix |
| Persistence.StartAsWritten | src/context/PlannerContext.jsx:29-75 | start-up reads the month twice: the session selects the first month but holds the second month's ledger, and the save effect writes that ledger under the first month; the catalog is loaded and written back |
| Persistence.StartAcrossMonthChangeLosesData | src/context/PlannerContext.jsx:31-70 | when the month changes between the two reads, January's stored income of 500 is replaced by February's defaults |
| Persistence.Start | src/context/PlannerContext.jsx:29-75 | start-up with one clock read loads the current month and the catalog and leaves every month's stored ledger as it was |
| Persistence.AddCategoryTo | src/context/PlannerContext.jsx:72-80 | adding a category appends it to the catalog and writes the catalog to its own entry; the monthly store and the ledger are unchanged |
| Persistence.AddedCategorySurvivesRestart | src/context/PlannerContext.jsx:37-80 | after a category is added, a restart from the store loads the catalog with the new category at the end |
| Persistence.Dispatch | src/context/PlannerContext.jsx:62-70 | an action is one ledger update followed by one write; the store then holds the new ledger, and other months are untouched |
| Persistence.SwitchMonth | src/context/PlannerContext.jsx:54-70 | switching loads the new month into the active slot; the month left keeps its saved ledger |
| Persistence.ActionsIsolateMonths | src/context/PlannerContext.jsx:62-70 | no sequence of actions on the active month changes what another month loads |
| Dashboard.Select | src/components/Dashboard.jsx:21 | exactly the expenses whose category (or type) is the key, each as many times as in the ledger, in ledger order |
| Dashboard.Visible | src/components/ExpenseTracker.jsx:56-59 | every expense when the filter is "all", otherwise exactly those of that type, each as many times as in the ledger, in order |
| Dashboard.SumAmountsNonNegative | src/components/Dashboard.jsx:20-22 | a sum of non-negative amounts is non-negative |
| Dashboard.SubsequenceSumAtMost | src/components/Dashboard.jsx:16-22 | leaving expenses out keeps amounts non-negative and never raises their sum |
| Dashboard.Planned | src/components/Dashboard.jsx:15 | the budget for the id, or 0 when it has none |
| Dashboard.Real | src/components/Dashboard.jsx:16-22 | a category's spending under the filter lies between 0 and the filtered total when amounts are non-negative |
| Dashboard.Percentage | src/components/Dashboard.jsx:23 | for a positive plan, percentage × plan = real × 100; otherwise 0 |
| Dashboard.StatusOf | src/components/Dashboard.jsx:25-30 | neutral iff not planned > 0; otherwise danger iff ≥ 100, warning iff in [80, 100), success iff < 80 |
| Dashboard.MoreSpendingNeverImproves | src/components/Dashboard.jsx:23-30 | against the same plan, more spending never gives a less severe status |
| Dashboard.StatusExample | src/components/Dashboard.jsx:23-30 | 800 of 1000 is 80% and a warning; 1000 of 1000 is a danger; no plan is neutral |
| Dashboard.FilteredTotal | src/components/Dashboard.jsx:35-38 | equals the grand total under "all", and lies between 0 and the grand total when amounts are non-negative |
| Dashboard.GrandTotal | src/components/Dashboard.jsx:44 | the total of all expenses is non-negative when every amount is |
| Dashboard.TotalBudgeted | src/components/Dashboard.jsx:40 | no budgets total 0, and non-negative budgets have a non-negative total |
| Dashboard.SumOverNonNegative | src/components/Dashboard.jsx:40 | summing non-negative budget values in any order gives a non-negative total |
| Dashboard.Difference | src/components/Dashboard.jsx:41 | the difference is negative exactly when filtered spending exceeds the budget total, and positive exactly when it falls short |
| Dashboard.CategoryStats | src/components/Dashboard.jsx:14-32 | one row per category, in catalog order, each holding that category's figures |
| Dashboard.CategoryRealsSumToFilteredTotal | src/components/Dashboard.jsx:14-38 | with distinct ids covering every expense, the rows' real spending sums to the filtered total, which is the grand total under "all" |
| Dashboard.TotalBudgetedAfterUpdate | src/components/Dashboard.jsx:40 | setting one budget moves the budget total (over all keys) by new value minus old |
| Dashboard.DifferenceAfterAddExpense | src/components/Dashboard.jsx:35-41 | a new expense lowers budgeted-minus-spent by its amount exactly when the filter shows it |
| Dashboard.TypeStats | src/components/Dashboard.jsx:44-49 | one row per type, holding the unfiltered amount of that type and its share of the grand total |
| Dashboard.TypeStatsIgnoreFilter | src/components/Dashboard.jsx:44-49 | the distribution does not depend on the filter |
| Dashboard.TypeDistributionIsComplete | src/components/Dashboard.jsx:44-49 | with every expense of a listed distinct type, amounts sum to the grand total, and for a positive total the shares sum to exactly 100 |
| Dashboard.TypePercentagesZeroWithoutTotal | src/components/Dashboard.jsx:47 | with no positive total every share is 0 |
| Dashboard.SectionOf | src/components/Dashboard.jsx:67-77 | the calendar shows exactly for "calendar", the planner exactly for "planning", and the overview for every other value; among the layout's tabs, the overview is exactly "dashboard" |
| BudgetPlanner.Remaining | src/components/BudgetPlanner.jsx:10 | remaining plus the budget total is the income |
| BudgetPlanner.FlaggedExactlyWhenOverBudget | src/components/BudgetPlanner.jsx:46 | remaining is shown as negative exactly when the budget total exceeds the income |
| BudgetPlanner.EditRow | src/components/BudgetPlanner.jsx:71 | a row's input sets that row's category budget and no other |
| BudgetPlanner.EditRowMovesTotals | src/components/BudgetPlanner.jsx:9-10 | a row edit moves the total by new minus old and remaining by the opposite |
| ExpenseTracker.DefaultCategoryId | src/components/ExpenseTracker.jsx:48 | the first category's id, or "" when there are none |
| ExpenseTracker.Submit | src/components/ExpenseTracker.jsx:34-52 | nothing happens without amount or description; otherwise exactly the form's expense is added in front, the other ledger fields stay as they were, and the form resets |
| ExpenseTracker.ApplyPrefill | src/components/ExpenseTracker.jsx:21-32 | amount, description, type and date come from the prefill, the category is kept, and the slot is emptied |
| ExpenseTracker.GetCategory | src/components/ExpenseTracker.jsx:54 | the first category with the id, or the "?" / "#ccc" fallback exactly when none matches |
| ExpenseTracker.SeedCategoriesAreFound | src/components/ExpenseTracker.jsx:54 | every seed category id finds its category |
| Calendar.DaysInMonth | src/components/Calendar.jsx:17 | April, June, September and November have 30 days, February has 29 in leap years and 28 otherwise, and the other months have 31 |
| Calendar.YearLength | src/components/Calendar.jsx:17 | the twelve month lengths add up to 365, or 366 in a leap year |
| Calendar.MondayOffset | src/components/Calendar.jsx:22 | the Monday-first offset lies in 0..6 and equals (firstDay + 6) % 7 |
| Calendar.DayNumbers | src/components/Calendar.jsx:24 | the days are exactly 1..daysInMonth |
| Calendar.Blanks | src/components/Calendar.jsx:25 | the blanks have exactly offset entries |
| Calendar.MondayGridColumns | src/components/Calendar.jsx:22-25 | every day lands in its weekday's column, Monday first |
| Calendar.DayKey | src/components/Calendar.jsx:65 | the month key, a dash, and the day on two digits |
| Calendar.DayKeyInjective | src/components/Calendar.jsx:65 | different days of a month have different keys |
| Calendar.DayMaturities | src/components/Calendar.jsx:64-67 | exactly the maturities dated that day, each as many times as in the list, in order |
| Calendar.IsAlert | src/components/Calendar.jsx:108-111 | the alert shows iff the day is past and some maturity of that day is pending |
| Calendar.SaveMaturity | src/components/Calendar.jsx:40-51 | nothing happens without service or amount; otherwise one pending maturity dated on the selected day is appended, the other ledger fields stay as they were, and the day is closed |
| Calendar.SavedMaturityShowsOnItsDay | src/components/Calendar.jsx:40-51 | a saved maturity is listed on its day and raises the alert there once the day is past |
| Calendar.PayPrefill | src/components/Calendar.jsx:55-60 | the prefill carries the maturity's amount, service as description, type and date |
| Calendar.Pay | src/components/Calendar.jsx:53-62 | "Pagar" puts the maturity into the expense slot and sets the active tab to "expenses"; it changes neither the ledger nor the store |
| Calendar.PayShowsOverview | src/components/Calendar.jsx:61 | the tab "Pagar" selects is none of the layout's tabs, so the dashboard shows its overview while the prefill waits in its slot |
| Calendar.PayThenSubmit | src/components/Calendar.jsx:53-62 | paying through the form files the expense under the form's category and leaves the maturity pending |
| Almanac.MonthName | src/components/Almanac.jsx:15 | monthNames[month-1] is defined for months 1..12, and different for each |
| Almanac.SundayBlanks | src/components/Almanac.jsx:13 | the Sunday-first grid has firstDay blanks |
| Almanac.SundayGridColumns | src/components/Almanac.jsx:10-13 | every day lands in its weekday's column, Sunday first; the two grids differ by a one-day rotation |
| Almanac.GetDayInfo | src/components/Almanac.jsx:17-23 | hasAny iff some maturity is dated that day; hasPending iff one of them is pending; hasPending implies hasAny |

## Findings

| source | as written | input that shows it | evidently intended | confidence | as-written member | corrected member |
|---|---|---|---|---|---|---|
| src/context/PlannerContext.jsx:31-70 | the month is read from the clock twice, for `selectedMonth` (line 31) and for the lazily loaded ledger (line 48), and the save effect writes that ledger under `selectedMonth` | start-up while the month changes, with January holding an income of 500 | the ledger loaded for the month that is selected | low: needs the month to change between two initialisers of the same render; not executed | Persistence.StartAcrossMonthChangeLosesData | Persistence.Start |
| src/components/Header.jsx:9-13 | `new Date(year, month - 2, 1)` is given the parsed year directly, and the Date constructor reads years 0..99 as 1900..1999 | previous of "99-12" | "99-11" (the same for next, from any year 0..99) | high on the reading of the Date constructor; not executed | Header.PrevKeyAsWrittenJumpsCenturies | Header.PrevKeyOfNextKey |

The corrected navigation (`Header.PrevKey`, `Header.NextKey`) keeps the parsed
year as it is. Within the range the model covers, the as-written functions
differ from it only for years 0..99 (`Header.AsWrittenAgreesFromYear100`). Reaching those years takes about two
thousand years of "previous" clicks.

`Persistence.Start` reads the month once and passes it to
`Persistence.StartAsWritten` for both reads, and `Persistence.Start` proves
that start-up then changes no month's stored ledger.

## Left out

- The catalog's save effect has no `try`/`catch`, so a failing write throws into React. Like the other storage failures, this is not modelled.
- Browser storage and JSON are abstracted into a map from keys to parsed records. Quota failures and the catch-and-log around them are not modelled, and neither are stored fields that are present but `null`, which the source's `maturities || []` guards against.
- React effect scheduling and the first-mount guard are not modelled: a month switch is an explicit load of the new key followed by a save. The source also briefly writes the old month's ledger under the new key before the loaded one replaces it; that transient write is not modelled.
- Ids come from `Date.now()` and are parameters here. Their uniqueness is not claimed: two calls in the same millisecond collide.
- `parseFloat` is an input. `Number` is modelled only on digit strings (the empty string reads as 0); other strings read as NaN, although JavaScript also accepts signs, spaces and exponents there.
- Amounts are never NaN in the model: NaN amounts from an unparseable expense or maturity amount are not represented, and neither is IEEE-754 rounding.
- Budget values are always numbers, so `val || 0` and `budgets[id] || 0` only turn missing keys into 0; non-numeric stored budget values are not modelled.
- Calendar.DaysInMonth: uses the Gregorian rule on the year as parsed. The source's `new Date(year, month, 0)` reads years 0..99 as 1900..1999, which differs in February of year 0. Beyond the JavaScript Date range (±8.64e15 ms, about years -271821 to 275760) that constructor gives an Invalid Date, and `daysInMonth` is NaN with an empty grid; the model has no such limit and returns a Gregorian length for every year.
- Header.PrevKeyAsWritten / Header.NextKeyAsWritten: do not model the JavaScript Date range. From "275760-09" on (and symmetrically near year -271821) the source's `new Date(...)` is an Invalid Date, so the buttons set "NaN-NaN" and the title's `Intl.DateTimeFormat` throws a RangeError; the model prints the next calendar key. `Number` on digit strings is also exact here, whereas JavaScript rounds values above 2^53. The same holds for `Header.PrevKey`, `Header.NextKey` and `Formatters.ParseMonthKey`.
- Formatters.KeyRoundTrip: holds only for years >= 0. A negative year prints a leading '-', and splitting at '-' then misreads the key.
- Header.NextKeyOfPrevKey: requires the previous month to stay in a year >= 0, for the same reason.
- `formatCurrency`, `formatDate`, `Intl.DateTimeFormat`, the header's month title, `Math.round` and the conic-gradient strings are display formatting and are not modelled.
- `isToday` and `isPast` read the clock; "is past" is a parameter of `Calendar.IsAlert`.
- The day-click handler's form reset, `window.confirm` before a delete, tab switching other than "Pagar", audio, animation and all markup are not modelled.
