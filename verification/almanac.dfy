/** The dashboard's small calendar: a Sunday-first grid with each day marked
    by whether it has maturities and whether one of them is pending. */
module Almanac {
  import Ledger
  import Calendar

  const MONTH_NAMES: seq<string> := ["Enero", "Febrero", "Marzo", "Abril", "Mayo", "Junio", "Julio",
                                     "Agosto", "Septiembre", "Octubre", "Noviembre", "Diciembre"]

  /** `monthNames[month - 1]`: defined, and different, for every month 1..12. */
  function MonthName(month: int): (name: string)
    requires 1 <= month <= 12
    ensures name in MONTH_NAMES
    ensures |MONTH_NAMES| == 12
    ensures forall i :: 0 <= i < 12 && i != month - 1 ==> MONTH_NAMES[i] != name
  {
    MONTH_NAMES[month - 1]
  }

  /** Empty cells before the 1st when weeks start on Sunday. */
  function SundayBlanks(firstDay: nat): (blanks: seq<nat>)
    requires firstDay <= 6
    ensures |blanks| == firstDay
  {
    Calendar.Blanks(firstDay)
  }

  /** In the Sunday-first grid day `d` lands in its weekday's column, and
      the two grids' offsets differ by the one-day rotation. */
  lemma SundayGridColumns(firstDay: nat, d: int)
    requires firstDay <= 6 && d >= 1
    ensures (|SundayBlanks(firstDay)| + d - 1) % 7 == Calendar.Weekday(firstDay, d)
    ensures Calendar.MondayOffset(firstDay) == (|SundayBlanks(firstDay)| + 6) % 7
  {
  }

  datatype DayInfo = DayInfo(hasPending: bool, hasAny: bool)

  /** getDayInfo. */
  function GetDayInfo(ms: seq<Ledger.Maturity>, monthKey: string, day: nat): (r: DayInfo)
    requires 1 <= day <= 31
    ensures r.hasAny <==> exists i :: 0 <= i < |ms| && ms[i].date == Calendar.DayKey(monthKey, day)
    ensures r.hasPending <==> exists i :: 0 <= i < |ms| && ms[i].date == Calendar.DayKey(monthKey, day)
                                         && ms[i].status == Ledger.Pending
    ensures r.hasPending ==> r.hasAny
  {
    var dms := Calendar.DayMaturities(ms, monthKey, day);
    Calendar.DayPendingIff(ms, monthKey, day);
    DayAnyIff(ms, monthKey, day);
    DayInfo(Calendar.AnyPending(dms), |dms| > 0)
  }

  lemma DayAnyIff(ms: seq<Ledger.Maturity>, monthKey: string, day: nat)
    requires 1 <= day <= 31
    ensures |Calendar.DayMaturities(ms, monthKey, day)| > 0
            <==> exists i :: 0 <= i < |ms| && ms[i].date == Calendar.DayKey(monthKey, day)
  {
    var dms := Calendar.DayMaturities(ms, monthKey, day);
    if |dms| > 0 {
      assert dms[0] in ms;
    }
    if exists i :: 0 <= i < |ms| && ms[i].date == Calendar.DayKey(monthKey, day) {
      var i :| 0 <= i < |ms| && ms[i].date == Calendar.DayKey(monthKey, day);
      assert ms[i] in dms;
    }
  }
}
