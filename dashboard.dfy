/**
 * The main dashboard (`dashboard`): the emissions of six asset categories with their total and
 * percentage shares, a monthly chart of the selected year filtered by a date range, and an
 * annual reduction goal whose progress a button advances.
 */
module Dashboard {
  import opened Wrappers
  import opened Seqs
  import opened Months

  /** An asset category and its emissions in tonnes of CO2e. */
  datatype Category = Category(name: string, emissions: real)

  function Emissions(c: Category): real
  {
    c.emissions
  }

  /** The six categories the page shows. */
  const Categories := [
    Category("Edificios", 0.5), Category("Vehículos", 0.3), Category("Maquinaria", 0.2),
    Category("Personal", 0.1), Category("Cadena de Suministro", 0.1), Category("Energía", 0.3)]

  /** `totalEmissions`: the sum of the categories' emissions. */
  function TotalEmissions(cats: seq<Category>): real
  {
    Sum(cats, Emissions)
  }

  /** The annual goal: a 20% reduction of the total. */
  function GoalReduction(total: real): (r: real)
    ensures r * 5.0 == total
  {
    total * 0.2
  }

  /** The six categories add up to 1.5 tonnes, and the goal line reads 0.3 tonnes. */
  lemma CategoriesTotal()
    ensures TotalEmissions(Categories) == 1.5
    ensures GoalReduction(TotalEmissions(Categories)) == 0.3
  {
    var s := Categories;
    var a, b, c, d, e := s[..1], s[..2], s[..3], s[..4], s[..5];
    assert a[..0] == [] && b[..1] == a && c[..2] == b && d[..3] == c && e[..4] == d && s[..5] == e;
    assert Sum(a, Emissions) == 0.5;
    assert Sum(b, Emissions) == 0.8;
    assert Sum(c, Emissions) == 1.0;
    assert Sum(d, Emissions) == 1.1;
    assert Sum(e, Emissions) == 1.2;
  }

  /** The percentage bars: each category's emissions over the total, times 100, in order. */
  function Shares(cats: seq<Category>, total: real): (r: seq<real>)
    requires total != 0.0
    ensures |r| == |cats|
    ensures forall i :: 0 <= i < |cats| ==> r[i] * total == cats[i].emissions * 100.0
  {
    seq(|cats|, i requires 0 <= i < |cats| => (cats[i].emissions / total) * 100.0)
  }

  function Value(x: real): real
  {
    x
  }

  /** Summed, the shares are the summed emissions over the total, times 100. */
  lemma SharesSum(cats: seq<Category>, total: real)
    requires total != 0.0
    ensures Sum(Shares(cats, total), Value) * total == Sum(cats, Emissions) * 100.0
  {
    SumPairwiseScaled(Shares(cats, total), cats, Value, Emissions, total, 100.0);
  }

  /** Whenever the total is not zero, the shares add up to 100%. */
  lemma SharesAddUpTo100(cats: seq<Category>)
    requires TotalEmissions(cats) != 0.0
    ensures Sum(Shares(cats, TotalEmissions(cats)), Value) == 100.0
  {
    var t := TotalEmissions(cats);
    SharesSum(cats, t);
    assert Sum(Shares(cats, t), Value) * t == 100.0 * t;
  }

  /** One of the three category cards: its emissions, the arrow and the change figure. */
  datatype CategoryCard = CategoryCard(name: string, emissions: real, arrowUp: bool, change: real)

  /** The cards of the first three categories; the arrow points up above 0.2 tonnes. */
  function Cards(cats: seq<Category>): (r: seq<CategoryCard>)
    ensures |r| == if |cats| < 3 then |cats| else 3
    ensures forall i :: 0 <= i < |r| ==>
      r[i].name == cats[i].name && r[i].emissions == cats[i].emissions &&
      (r[i].arrowUp <==> cats[i].emissions > 0.2) && r[i].change * 10.0 == cats[i].emissions
  {
    var shown := if |cats| < 3 then cats else cats[..3];
    seq(|shown|, i requires 0 <= i < |shown| =>
      CategoryCard(shown[i].name, shown[i].emissions, shown[i].emissions > 0.2, shown[i].emissions * 0.1))
  }

  /** Buildings and vehicles show an up arrow; machinery, at exactly 0.2 tonnes, shows a down arrow. */
  lemma CardArrows()
    ensures |Cards(Categories)| == 3
    ensures Cards(Categories)[0].arrowUp && Cards(Categories)[1].arrowUp
    ensures !Cards(Categories)[2].arrowUp
  {
  }

  // ---------------------------------------------------------------------------------------
  // The monthly chart

  /** One bar of the chart. */
  datatype MonthTotal = MonthTotal(name: string, total: real)

  function NameOf(m: MonthTotal): string
  {
    m.name
  }

  datatype Year = Y2023 | Y2024

  function YearNumber(y: Year): int
  {
    match y
    case Y2023 => 2023
    case Y2024 => 2024
  }

  /** `emissionsData`: May to December of 2023, January to June of 2024. */
  function YearData(y: Year): seq<MonthTotal>
  {
    match y
    case Y2023 => [
      MonthTotal("May", 1.5), MonthTotal("Jun", 1.4), MonthTotal("Jul", 1.3), MonthTotal("Ago", 1.2),
      MonthTotal("Sep", 1.1), MonthTotal("Oct", 1.0), MonthTotal("Nov", 0.9), MonthTotal("Dic", 0.8)]
    case Y2024 => [
      MonthTotal("Ene", 1.2), MonthTotal("Feb", 1.1), MonthTotal("Mar", 1.3), MonthTotal("Abr", 1.0),
      MonthTotal("May", 0.9), MonthTotal("Jun", 1.1)]
  }

  /** What the effect puts in `chartData`: the selected year's months within the range. */
  function ChartData(y: Year, range: Option<DateRange>): seq<MonthTotal>
  {
    RangeFilter(YearData(y), NameOf, YearNumber(y), range)
  }

  /** Every month of the data is named by one of the twelve abbreviations. */
  lemma YearDataNamed(y: Year)
    ensures forall m :: m in YearData(y) ==> m.name in MonthNames
  {
  }

  /** With no complete range the chart shows the whole year. */
  lemma NoRangeChartsWholeYear(y: Year, range: Option<DateRange>)
    requires !Complete(range)
    ensures ChartData(y, range) == YearData(y)
  {
    NoRangeKeepsAll(YearData(y), NameOf, YearNumber(y), range);
  }

  /** A range over the whole of the following year empties the chart. */
  lemma NextYearEmptiesChart(y: Year)
    ensures ChartData(y, Some(DateRange(Some(Date(YearNumber(y) + 1, 0, 1)), Some(Date(YearNumber(y) + 1, 11, 31))))) == []
  {
    NextYearKeepsNothing(YearData(y), NameOf, YearNumber(y));
  }

  // ---------------------------------------------------------------------------------------
  // The goal progress

  /** The "Actualizar Progreso" button: five points more, never past 100. */
  function Advance(p: int): (r: int)
    ensures r <= 100 && (r == 100 || r == p + 5)
    ensures p <= 100 ==> p <= r
    ensures p >= 95 ==> r == 100
    ensures p + 5 <= 100 ==> r == p + 5
  {
    if 100 < p + 5 then 100 else p + 5
  }

  /** The progress after `n` clicks. */
  function AdvanceTimes(p: int, n: nat): int
  {
    if n == 0 then p else Advance(AdvanceTimes(p, n - 1))
  }

  /** `n` clicks add 5n points, capped at 100. */
  lemma {:induction false} AdvanceTimesCapped(p: int, n: nat)
    requires p <= 100
    ensures AdvanceTimes(p, n) == if p + 5 * n < 100 then p + 5 * n else 100
  {
    if n > 0 {
      AdvanceTimesCapped(p, n - 1);
    }
  }

  /** From the starting 65%, seven clicks reach the goal. */
  lemma SevenClicksReachGoal()
    ensures AdvanceTimes(65, 6) == 95 && AdvanceTimes(65, 7) == 100
  {
    AdvanceTimesCapped(65, 6);
    AdvanceTimesCapped(65, 7);
  }

  /** The page's state: the goal progress, the selected year, the range and the chart's months. */
  class DashboardPage {
    var goalProgress: int
    var selectedYear: Year
    var dateRange: Option<DateRange>
    var chartData: seq<MonthTotal>

    /** The progress is a percentage, and the chart reflects the year and the range. */
    predicate Valid()
      reads this
    {
      0 <= goalProgress <= 100 && chartData == ChartData(selectedYear, dateRange)
    }

    /** The initial state: 65%, 2024, no range, all of 2024's months. */
    constructor()
      ensures goalProgress == 65 && selectedYear == Y2024 && dateRange == None
      ensures chartData == YearData(Y2024)
      ensures Valid()
    {
      goalProgress := 65;
      selectedYear := Y2024;
      dateRange := None;
      chartData := YearData(Y2024);
      NoRangeChartsWholeYear(Y2024, None);
    }

    /** The button: `min(100, goalProgress + 5)`. */
    method UpdateProgress()
      requires Valid()
      modifies this
      ensures goalProgress == Advance(old(goalProgress))
      ensures old(goalProgress) <= goalProgress
      ensures old(goalProgress) == 100 ==> goalProgress == 100
      ensures selectedYear == old(selectedYear) && dateRange == old(dateRange) && chartData == old(chartData)
      ensures Valid()
    {
      goalProgress := if 100 < goalProgress + 5 then 100 else goalProgress + 5;
    }

    /** The year selector; the effect then refilters the chart. */
    method SetSelectedYear(y: Year)
      requires Valid()
      modifies this
      ensures selectedYear == y && chartData == ChartData(y, dateRange)
      ensures goalProgress == old(goalProgress) && dateRange == old(dateRange)
      ensures Valid()
    {
      selectedYear := y;
      chartData := RangeFilter(YearData(selectedYear), NameOf, YearNumber(selectedYear), dateRange);
    }

    /** The date picker; the effect then refilters the chart. */
    method SetDateRange(range: Option<DateRange>)
      requires Valid()
      modifies this
      ensures dateRange == range && chartData == ChartData(selectedYear, range)
      ensures goalProgress == old(goalProgress) && selectedYear == old(selectedYear)
      ensures Valid()
    {
      dateRange := range;
      chartData := RangeFilter(YearData(selectedYear), NameOf, YearNumber(selectedYear), dateRange);
    }
  }
}
