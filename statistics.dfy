/**
 * The statistics page (`dashboard/estadisticas`): monthly emissions split into six categories,
 * filtered by year and date range, with the period total, a pie of the category sums, the change
 * from the other year and the monthly average.
 */
module Statistics {
  import opened Wrappers
  import opened Seqs
  import opened Months

  /** One month of data: its total and the six categories it splits into. */
  datatype Month = Month(
    name: string, total: real, buildings: real, vehicles: real, machinery: real, personnel: real,
    supply: real, energy: real)

  function NameOf(m: Month): string { m.name }
  function Total(m: Month): real { m.total }
  function Buildings(m: Month): real { m.buildings }
  function Vehicles(m: Month): real { m.vehicles }
  function Machinery(m: Month): real { m.machinery }
  function Personnel(m: Month): real { m.personnel }
  function Supply(m: Month): real { m.supply }
  function Energy(m: Month): real { m.energy }

  /** A month whose total is the sum of its categories. */
  predicate Consistent(m: Month)
  {
    m.total == m.buildings + m.vehicles + m.machinery + m.personnel + m.supply + m.energy
  }

  datatype Year = Y2023 | Y2024

  function YearNumber(y: Year): int
  {
    match y
    case Y2023 => 2023
    case Y2024 => 2024
  }

  /** `emissionsData`: all of 2023, January to June of 2024. */
  function YearData(y: Year): seq<Month>
  {
    match y
    case Y2023 => [
      Month("Ene", 1.5, 0.5, 0.3, 0.2, 0.1, 0.1, 0.3),
      Month("Feb", 1.4, 0.4, 0.3, 0.2, 0.1, 0.1, 0.3),
      Month("Mar", 1.6, 0.5, 0.4, 0.2, 0.1, 0.1, 0.3),
      Month("Abr", 1.3, 0.4, 0.3, 0.1, 0.1, 0.1, 0.3),
      Month("May", 1.5, 0.5, 0.3, 0.2, 0.1, 0.1, 0.3),
      Month("Jun", 1.4, 0.4, 0.3, 0.2, 0.1, 0.1, 0.3),
      Month("Jul", 1.3, 0.4, 0.3, 0.1, 0.1, 0.1, 0.3),
      Month("Ago", 1.2, 0.4, 0.2, 0.1, 0.1, 0.1, 0.3),
      Month("Sep", 1.1, 0.3, 0.2, 0.1, 0.1, 0.1, 0.3),
      Month("Oct", 1.0, 0.3, 0.2, 0.1, 0.1, 0.1, 0.2),
      Month("Nov", 0.9, 0.3, 0.2, 0.1, 0.1, 0.1, 0.1),
      Month("Dic", 0.8, 0.2, 0.2, 0.1, 0.1, 0.1, 0.1)]
    case Y2024 => [
      Month("Ene", 1.2, 0.4, 0.2, 0.1, 0.1, 0.1, 0.3),
      Month("Feb", 1.1, 0.3, 0.2, 0.1, 0.1, 0.1, 0.3),
      Month("Mar", 1.3, 0.4, 0.3, 0.1, 0.1, 0.1, 0.3),
      Month("Abr", 1.0, 0.3, 0.2, 0.1, 0.1, 0.1, 0.2),
      Month("May", 0.9, 0.3, 0.2, 0.1, 0.1, 0.1, 0.1),
      Month("Jun", 1.1, 0.3, 0.2, 0.1, 0.1, 0.1, 0.3)]
  }

  /** In the data every month's total is the sum of its six categories. */
  lemma DataConsistent(y: Year)
    ensures forall m :: m in YearData(y) ==> Consistent(m)
  {
  }

  /** What the effect puts in `chartData`. */
  function Filtered(y: Year, range: Option<DateRange>): seq<Month>
  {
    RangeFilter(YearData(y), NameOf, YearNumber(y), range)
  }

  /** With no complete range the page works on the whole year. */
  lemma NoRangeWholeYear(y: Year, range: Option<DateRange>)
    requires !Complete(range)
    ensures Filtered(y, range) == YearData(y)
  {
    NoRangeKeepsAll(YearData(y), NameOf, YearNumber(y), range);
  }

  /** The "Emisiones Totales" card: the sum of the filtered months' totals. */
  function PeriodTotal(rows: seq<Month>): real
  {
    Sum(rows, Total)
  }

  // ---------------------------------------------------------------------------------------
  // The pie

  /** One slice of the pie, and one line of the category totals. */
  datatype Slice = Slice(name: string, value: real)

  function SliceValue(s: Slice): real { s.value }

  /** `pieData`: each category summed over the filtered months. */
  function PieData(rows: seq<Month>): (r: seq<Slice>)
    ensures |r| == 6
  {
    [Slice("Edificios", Sum(rows, Buildings)), Slice("Vehículos", Sum(rows, Vehicles)),
     Slice("Maquinaria", Sum(rows, Machinery)), Slice("Personal", Sum(rows, Personnel)),
     Slice("Suministro", Sum(rows, Supply)), Slice("Energía", Sum(rows, Energy))]
  }

  /** The six category sums of a list of months. */
  function CategorySums(rows: seq<Month>): real
  {
    Sum(rows, Buildings) + Sum(rows, Vehicles) + Sum(rows, Machinery) + Sum(rows, Personnel) +
    Sum(rows, Supply) + Sum(rows, Energy)
  }

  /** Over consistent months, the category sums add up to the sum of the totals. */
  lemma {:induction false} CategorySumsAddUp(rows: seq<Month>)
    requires forall m :: m in rows ==> Consistent(m)
    ensures CategorySums(rows) == PeriodTotal(rows)
    decreases |rows|
  {
    if |rows| > 0 {
      var init, last := rows[..|rows| - 1], rows[|rows| - 1];
      assert forall m :: m in init ==> m in rows;
      assert last in rows;
      CategorySumsAddUp(init);
    }
  }

  /** The six slices of a pie add up to the sum of its category sums. */
  lemma SliceSum(rows: seq<Month>)
    ensures Sum(PieData(rows), SliceValue) == CategorySums(rows)
  {
    var s := PieData(rows);
    assert s[..0] == [] && s[..6] == s;
    SumPrefixStep(s, SliceValue, 1);
    SumPrefixStep(s, SliceValue, 2);
    SumPrefixStep(s, SliceValue, 3);
    SumPrefixStep(s, SliceValue, 4);
    SumPrefixStep(s, SliceValue, 5);
    SumPrefixStep(s, SliceValue, 6);
  }

  /** On the page, the pie's slices always add up to the period total on the card. */
  lemma SlicesAddUpToPeriodTotal(y: Year, range: Option<DateRange>)
    ensures Sum(PieData(Filtered(y, range)), SliceValue) == PeriodTotal(Filtered(y, range))
  {
    DataConsistent(y);
    SliceSum(Filtered(y, range));
    CategorySumsAddUp(Filtered(y, range));
  }

  // ---------------------------------------------------------------------------------------
  // The yearly change

  /** The year compared with: 2023 for 2024, and 2024 for 2023. */
  function PreviousYear(y: Year): (r: Year)
    ensures r != y
  {
    if y == Y2024 then Y2023 else Y2024
  }

  /** `(current - previous) / previous * 100`; a zero previous total, NaN on the page, is `None`. */
  function Change(current: real, previous: real): (r: Option<real>)
    ensures r.None? <==> previous == 0.0
    ensures r.Some? ==> r.value * previous == (current - previous) * 100.0
    ensures r.Some? && previous > 0.0 ==> (r.value < 0.0 <==> current < previous)
  {
    if previous == 0.0 then None else Some((current - previous) / previous * 100.0)
  }

  /** The "Cambio Anual" card: whole years compared, whatever the date range. */
  function YearlyChange(y: Year): Option<real>
  {
    Change(PeriodTotal(YearData(y)), PeriodTotal(YearData(PreviousYear(y))))
  }

  /** All twelve months of 2023 total 15 tonnes. */
  lemma Total2023()
    ensures PeriodTotal(YearData(Y2023)) == 15.0
  {
    var s := YearData(Y2023);
    assert s[..0] == [] && s[..12] == s;
    SumPrefixStep(s, Total, 1);
    SumPrefixStep(s, Total, 2);
    SumPrefixStep(s, Total, 3);
    SumPrefixStep(s, Total, 4);
    SumPrefixStep(s, Total, 5);
    SumPrefixStep(s, Total, 6);
    SumPrefixStep(s, Total, 7);
    SumPrefixStep(s, Total, 8);
    SumPrefixStep(s, Total, 9);
    SumPrefixStep(s, Total, 10);
    SumPrefixStep(s, Total, 11);
    SumPrefixStep(s, Total, 12);
  }

  /** The six months of 2024 total 6.6 tonnes. */
  lemma Total2024()
    ensures PeriodTotal(YearData(Y2024)) == 6.6
  {
    var s := YearData(Y2024);
    assert s[..0] == [] && s[..6] == s;
    SumPrefixStep(s, Total, 1);
    SumPrefixStep(s, Total, 2);
    SumPrefixStep(s, Total, 3);
    SumPrefixStep(s, Total, 4);
    SumPrefixStep(s, Total, 5);
    SumPrefixStep(s, Total, 6);
  }

  /** So the card shows a 56% fall for 2024 and a rise of 1400/11 % for 2023. */
  lemma YearlyChanges()
    ensures YearlyChange(Y2024) == Some(-56.0)
    ensures YearlyChange(Y2023) == Some(1400.0 / 11.0)
  {
    Total2023();
    Total2024();
  }

  // ---------------------------------------------------------------------------------------
  // The monthly average

  /**
   * The "Promedio Mensual" card as written: the period total over the number of filtered months,
   * with no guard, so NaN (here `None`) when the range leaves no month.
   */
  function MonthlyAverageAsWritten(rows: seq<Month>): (r: Option<real>)
    ensures r.None? <==> |rows| == 0
  {
    if |rows| == 0 then None else Some(PeriodTotal(rows) / (|rows| as real))
  }

  /** A range wholly in the following year leaves no month, and the card shows NaN. */
  lemma EmptyRangeAverageIsNaN(y: Year)
    ensures MonthlyAverageAsWritten(Filtered(y, Some(DateRange(Some(Date(YearNumber(y) + 1, 0, 1)), Some(Date(YearNumber(y) + 1, 11, 31)))))) == None
  {
    NextYearKeepsNothing(YearData(y), NameOf, YearNumber(y));
  }

  /** The card with the `|| 0` guard the asset pages use: 0 when no month is left. */
  function MonthlyAverage(rows: seq<Month>): real
  {
    Average(rows, Total)
  }

  /** The guarded average agrees with the card wherever the card shows a number. */
  lemma MonthlyAverageAgrees(rows: seq<Month>)
    requires |rows| > 0
    ensures MonthlyAverageAsWritten(rows) == Some(MonthlyAverage(rows))
  {
  }

  /** The guarded average lies between the smallest and the largest monthly total, or is 0. */
  lemma MonthlyAverageBounds(rows: seq<Month>, lo: real, hi: real)
    requires forall m :: m in rows ==> lo <= m.total <= hi
    ensures |rows| > 0 ==> lo <= MonthlyAverage(rows) <= hi
    ensures |rows| == 0 ==> MonthlyAverage(rows) == 0.0
  {
    if |rows| > 0 {
      AverageBounds(rows, Total, lo, hi);
    }
  }

  // ---------------------------------------------------------------------------------------
  // The page

  /** The page's state: the year, the range, the filtered months, the pie and the category totals. */
  class StatisticsPage {
    var selectedYear: Year
    var dateRange: Option<DateRange>
    var chartData: seq<Month>
    var pieChartData: seq<Slice>
    var categoryTotals: seq<Slice>

    /** What the effect leaves behind after every change of year or range. */
    predicate Valid()
      reads this
    {
      chartData == Filtered(selectedYear, dateRange) && pieChartData == PieData(chartData) &&
      categoryTotals == pieChartData
    }

    /** The state once the effect has run on mounting: 2024, no range, all of 2024's months. */
    constructor()
      ensures selectedYear == Y2024 && dateRange == None && chartData == YearData(Y2024)
      ensures Valid()
    {
      selectedYear := Y2024;
      dateRange := None;
      chartData := YearData(Y2024);
      pieChartData := [];
      categoryTotals := [];
      new;
      NoRangeWholeYear(Y2024, None);
      Refresh();
    }

    /** The effect: filter the year's months, then sum each category for the pie and the totals. */
    method Refresh()
      modifies this
      ensures selectedYear == old(selectedYear) && dateRange == old(dateRange)
      ensures Valid()
    {
      var filtered := RangeFilter(YearData(selectedYear), NameOf, YearNumber(selectedYear), dateRange);
      chartData := filtered;
      var pieData := PieData(filtered);
      pieChartData := pieData;
      categoryTotals := pieData;
    }

    /** The period selector. */
    method SetSelectedYear(y: Year)
      modifies this
      ensures selectedYear == y && dateRange == old(dateRange)
      ensures chartData == Filtered(y, dateRange)
      ensures Valid()
    {
      selectedYear := y;
      Refresh();
    }

    /** The date picker. */
    method SetDateRange(range: Option<DateRange>)
      modifies this
      ensures dateRange == range && selectedYear == old(selectedYear)
      ensures chartData == Filtered(selectedYear, range)
      ensures Valid()
    {
      dateRange := range;
      Refresh();
    }

    /** The slices shown always add up to the total on the card. */
    function PieTotal(): (r: real)
      reads this
      requires Valid()
      ensures r == PeriodTotal(chartData)
    {
      SlicesAddUpToPeriodTotal(selectedYear, dateRange);
      Sum(pieChartData, SliceValue)
    }
  }
}
