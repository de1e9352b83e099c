/**
 * The month-range filter that the dashboard and the statistics page share: each month of the
 * selected year is dated on its first day and kept when that day lies within the chosen range.
 */
module Months {
  import opened Wrappers
  import opened Seqs

  /** The Spanish month abbreviations the data uses, January first. */
  const MonthNames: seq<string> :=
    ["Ene", "Feb", "Mar", "Abr", "May", "Jun", "Jul", "Ago", "Sep", "Oct", "Nov", "Dic"]

  /** `indexOf`: the first position of `name`, or -1 when it is absent. */
  function IndexOf(names: seq<string>, name: string): (r: int)
    ensures -1 <= r < |names|
    ensures r == -1 <==> name !in names
    ensures r >= 0 ==> names[r] == name && forall i :: 0 <= i < r ==> names[i] != name
  {
    if |names| == 0 then -1
    else if names[0] == name then 0
    else
      var k := IndexOf(names[1..], name);
      if k == -1 then -1 else k + 1
  }

  /** In a list without repeats, every name is found at its own position. */
  lemma IndexOfDistinct(names: seq<string>, i: int)
    requires forall a, b :: 0 <= a < b < |names| ==> names[a] != names[b]
    requires 0 <= i < |names|
    ensures IndexOf(names, names[i]) == i
  {
  }

  /** Each month's name is found at its own position. */
  lemma MonthIndices()
    ensures forall i :: 0 <= i < 12 ==> IndexOf(MonthNames, MonthNames[i]) == i
  {
    assert forall a, b :: 0 <= a < b < 12 ==> MonthNames[a] != MonthNames[b];
    forall i | 0 <= i < 12
      ensures IndexOf(MonthNames, MonthNames[i]) == i
    {
      IndexOfDistinct(MonthNames, i);
    }
  }

  /** A calendar day; the month counts from 0, as JavaScript's `Date` does. */
  datatype Date = Date(year: int, month: int, day: int)

  predicate ValidDate(d: Date)
  {
    0 <= d.month < 12 && 1 <= d.day <= 31
  }

  /**
   * A number that orders days in time. `year * 12 + month` also reproduces JavaScript rolling a
   * month of -1 over to December of the year before.
   */
  function DayNumber(d: Date): int
  {
    (d.year * 12 + d.month) * 32 + d.day
  }

  /** On valid dates, the day numbers are ordered exactly as the calendar is. */
  lemma DayNumberOrdersDates(a: Date, b: Date)
    requires ValidDate(a) && ValidDate(b)
    ensures DayNumber(a) < DayNumber(b) <==>
      a.year < b.year || (a.year == b.year && (a.month < b.month || (a.month == b.month && a.day < b.day)))
  {
    var ma, mb := a.year * 12 + a.month, b.year * 12 + b.month;
    assert ma < mb <==> a.year < b.year || (a.year == b.year && a.month < b.month);
  }

  /** The day picker's range; either end may still be unset. */
  datatype DateRange = DateRange(from: Option<Date>, to: Option<Date>)

  /** A range that is present and has both ends. */
  predicate Complete(range: Option<DateRange>)
  {
    range.Some? && range.value.from.Some? && range.value.to.Some?
  }

  /** `new Date(year, indexOf(name), 1)`. */
  function FirstOfMonth(year: int, name: string): Date
  {
    Date(year, IndexOf(MonthNames, name), 1)
  }

  /** Without a complete range every month passes; otherwise its first day must lie within it. */
  predicate InRange(year: int, name: string, range: Option<DateRange>)
  {
    !Complete(range) ||
    (DayNumber(range.value.from.value) <= DayNumber(FirstOfMonth(year, name)) &&
     DayNumber(FirstOfMonth(year, name)) <= DayNumber(range.value.to.value))
  }

  /** The filter of both pages' `useEffect`, over rows that carry a month name. */
  function RangeFilter<T(!new)>(rows: seq<T>, nameOf: T -> string, year: int, range: Option<DateRange>): (r: seq<T>)
    ensures |r| <= |rows|
    ensures forall x :: x in r <==> x in rows && InRange(year, nameOf(x), range)
  {
    Filter(rows, x => InRange(year, nameOf(x), range))
  }

  /** With no complete range the year's list is kept whole. */
  lemma NoRangeKeepsAll<T(!new)>(rows: seq<T>, nameOf: T -> string, year: int, range: Option<DateRange>)
    requires !Complete(range)
    ensures RangeFilter(rows, nameOf, year, range) == rows
  {
    FilterAll(rows, x => InRange(year, nameOf(x), range));
  }

  /** The filter works month by month: what it keeps stays in the year's order. */
  lemma RangeFilterConcat<T(!new)>(a: seq<T>, b: seq<T>, nameOf: T -> string, year: int, range: Option<DateRange>)
    ensures RangeFilter(a + b, nameOf, year, range) ==
      RangeFilter(a, nameOf, year, range) + RangeFilter(b, nameOf, year, range)
  {
    FilterConcat(a, b, x => InRange(year, nameOf(x), range));
  }

  /** A single month is kept exactly when it is in range. */
  lemma RangeFilterOne<T(!new)>(x: T, nameOf: T -> string, year: int, range: Option<DateRange>)
    ensures RangeFilter([x], nameOf, year, range) == if InRange(year, nameOf(x), range) then [x] else []
  {
    assert [x][..0] == [];
  }

  /** A range from the first of January to the last of December keeps every month of that year. */
  lemma WholeYearKeepsAll<T(!new)>(rows: seq<T>, nameOf: T -> string, year: int)
    requires forall x :: x in rows ==> nameOf(x) in MonthNames
    ensures RangeFilter(rows, nameOf, year, Some(DateRange(Some(Date(year, 0, 1)), Some(Date(year, 11, 31))))) == rows
  {
    var range := Some(DateRange(Some(Date(year, 0, 1)), Some(Date(year, 11, 31))));
    forall x | x in rows
      ensures InRange(year, nameOf(x), range)
    {
      var i := IndexOf(MonthNames, nameOf(x));
      assert 0 <= i < 12;
    }
    FilterAll(rows, x => InRange(year, nameOf(x), range));
  }

  /** A range lying wholly in the following year keeps nothing, whatever the names. */
  lemma NextYearKeepsNothing<T(!new)>(rows: seq<T>, nameOf: T -> string, year: int)
    ensures RangeFilter(rows, nameOf, year, Some(DateRange(Some(Date(year + 1, 0, 1)), Some(Date(year + 1, 11, 31))))) == []
  {
    var range := Some(DateRange(Some(Date(year + 1, 0, 1)), Some(Date(year + 1, 11, 31))));
    FilterNone(rows, x => InRange(year, nameOf(x), range));
  }
}
