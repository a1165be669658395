/** The month/year stepper of src/components/MonthYearSelect.tsx. The
    component keeps no state: its two buttons compute a new (month, year) and
    hand it to the page's `onMonthChange`/`onYearChange` callbacks, which are
    merged here into one function returning a Period. Months are 1..12. */
module MonthYearSelect {

  datatype Period = Period(month: int, year: int)

  predicate ValidMonth(m: int) { 1 <= m <= 12 }

  /** The number of months since January of year 0; consecutive calendar months
      have consecutive indices. */
  function MonthIndex(p: Period): int { p.year * 12 + (p.month - 1) }

  /** The period with a given month index. */
  function FromIndex(k: int): (p: Period)
    ensures ValidMonth(p.month)
    ensures MonthIndex(p) == k
  {
    Period(k % 12 + 1, k / 12)
  }

  /** A period with a month in 1..12 is determined by its month index. */
  lemma IndexDetermines(p: Period, q: Period)
    requires ValidMonth(p.month) && ValidMonth(q.month)
    requires MonthIndex(p) == MonthIndex(q)
    ensures p == q
  {
  }

  /** handlerNextMonth: December wraps to January of the next year. */
  function Next(p: Period): (r: Period)
    ensures p.month == 12 ==> r == Period(1, p.year + 1)
    ensures p.month != 12 ==> r == Period(p.month + 1, p.year)
    ensures ValidMonth(p.month) ==> ValidMonth(r.month) && MonthIndex(r) == MonthIndex(p) + 1
  {
    if p.month == 12 then Period(1, p.year + 1) else Period(p.month + 1, p.year)
  }

  /** handlerPrevMonth: January wraps to December of the previous year. */
  function Prev(p: Period): (r: Period)
    ensures p.month == 1 ==> r == Period(12, p.year - 1)
    ensures p.month != 1 ==> r == Period(p.month - 1, p.year)
    ensures ValidMonth(p.month) ==> ValidMonth(r.month) && MonthIndex(r) == MonthIndex(p) - 1
  {
    if p.month == 1 then Period(12, p.year - 1) else Period(p.month - 1, p.year)
  }

  /** On a valid period the two steps are the calendar successor and predecessor. */
  lemma StepsAreCalendarMoves(p: Period)
    requires ValidMonth(p.month)
    ensures Next(p) == FromIndex(MonthIndex(p) + 1)
    ensures Prev(p) == FromIndex(MonthIndex(p) - 1)
  {
    IndexDetermines(Next(p), FromIndex(MonthIndex(p) + 1));
    IndexDetermines(Prev(p), FromIndex(MonthIndex(p) - 1));
  }

  /** Previous undoes next and next undoes previous. */
  lemma StepsUndoEachOther(p: Period)
    requires ValidMonth(p.month)
    ensures Prev(Next(p)) == p
    ensures Next(Prev(p)) == p
  {
  }

  /** The `years` window: eleven years centred on the current one. */
  function Years(currentYear: int): (r: seq<int>)
    ensures |r| == 11
    ensures r[0] == currentYear - 5 && r[10] == currentYear + 5
    ensures forall i, j :: 0 <= i < j < |r| ==> r[i] < r[j]
    ensures forall y :: y in r <==> currentYear - 5 <= y <= currentYear + 5
    ensures currentYear in r
  {
    var r := seq(11, i => currentYear - 5 + i);
    assert forall y | currentYear - 5 <= y <= currentYear + 5 :: y in r by {
      forall y | currentYear - 5 <= y <= currentYear + 5 ensures y in r {
        assert r[y - currentYear + 5] == y;
      }
    }
    r
  }

  const MonthNames: seq<string> := [
    "Janeiro", "Fevereiro", "Março", "Abril", "Maio", "Junho",
    "Julho", "Agosto", "Setembro", "Outubro", "Novembro", "Dezembro"
  ]

  datatype MonthOption = MonthOption(value: int, name: string)

  /** The options of the month `<select>`: name number i carries value i + 1. */
  function MonthOptions(): (r: seq<MonthOption>)
    ensures |r| == |MonthNames| == 12
    ensures forall i :: 0 <= i < |r| ==> r[i].value == i + 1 && r[i].name == MonthNames[i]
    ensures forall m :: ValidMonth(m) <==> exists i :: 0 <= i < |r| && r[i].value == m
    ensures forall i, j :: 0 <= i < j < |r| ==> r[i].name != r[j].name
  {
    var r := seq(|MonthNames|, i requires 0 <= i < |MonthNames| => MonthOption(i + 1, MonthNames[i]));
    assert forall m :: ValidMonth(m) ==> r[m - 1].value == m;
    r
  }
}
