/**
 * The building-management page (`gestion-activos/edificios`): offices, warehouses, factories and
 * data centres with their floor area, energy rating and carbon footprint.
 */
module Buildings {
  import opened Wrappers
  import opened Seqs
  import opened Tables

  datatype BuildingType = Office | Warehouse | Factory | DataCentre | Other

  function TypeName(t: BuildingType): string
  {
    match t
    case Office => "Oficina"
    case Warehouse => "Almacén"
    case Factory => "Fábrica"
    case DataCentre => "Centro de datos"
    case Other => "Otro"
  }

  /** A row of the table; the area is in square metres, the footprint in tCO2e. */
  datatype Building = Building(
    id: string, name: string, buildingType: BuildingType, address: string, area: real,
    floors: int, yearBuilt: int, energyRating: string, carbonFootprint: real)

  /** The dialog's state, `Partial<Building>`. */
  datatype BuildingForm = BuildingForm(
    id: Option<string>, name: Option<string>, buildingType: Option<BuildingType>,
    address: Option<string>, area: Option<real>, floors: Option<int>, yearBuilt: Option<int>,
    energyRating: Option<string>, carbonFootprint: Option<real>)

  const EmptyForm := BuildingForm(None, None, None, None, None, None, None, None, None)

  function ToForm(b: Building): BuildingForm
  {
    BuildingForm(Some(b.id), Some(b.name), Some(b.buildingType), Some(b.address), Some(b.area),
                 Some(b.floors), Some(b.yearBuilt), Some(b.energyRating), Some(b.carbonFootprint))
  }

  /** `{ ...building, ...currentBuilding }`. */
  function Merge(b: Building, f: BuildingForm): Building
  {
    Building(f.id.GetOr(b.id), f.name.GetOr(b.name), f.buildingType.GetOr(b.buildingType),
             f.address.GetOr(b.address), f.area.GetOr(b.area), f.floors.GetOr(b.floors),
             f.yearBuilt.GetOr(b.yearBuilt), f.energyRating.GetOr(b.energyRating),
             f.carbonFootprint.GetOr(b.carbonFootprint))
  }

  /** The new building of the add branch: one floor, built this year, rated "N/A" by default. */
  function Build(id: string, f: BuildingForm, today: Today): Building
  {
    Building(id, TextOr(f.name, ""), f.buildingType.GetOr(Other), TextOr(f.address, ""),
             f.area.GetOr(0.0), f.floors.GetOr(1), f.yearBuilt.GetOr(today.year),
             TextOr(f.energyRating, "N/A"), f.carbonFootprint.GetOr(0.0))
  }

  /** The search box looks into the name, the address and the type. */
  function SearchFields(b: Building): seq<string>
  {
    [b.name, b.address, TypeName(b.buildingType)]
  }

  const Ops := RecordOps((b: Building) => b.id, SearchFields, (f: BuildingForm) => f.id,
                         Merge, Build, ToForm, EmptyForm)

  const Initial := [
    Building("1", "Edificio Central", Office, "Calle Principal 123", 5000.0, 10, 2005, "B", 120.5),
    Building("2", "Almacén Norte", Warehouse, "Av. Industrial 456", 10000.0, 1, 2010, "C", 85.2),
    Building("3", "Fábrica Sur", Factory, "Carretera Sur Km 5", 15000.0, 2, 2000, "D", 250.8)]

  // ---------------------------------------------------------------------------------------
  // The record operations

  lemma MergeOwnForm(b: Building)
    ensures Merge(b, ToForm(b)) == b
  {
  }

  lemma BuildFromFilledForm(b: Building, id: string, today: Today)
    requires b.energyRating != ""
    ensures Build(id, ToForm(b), today) == b.(id := id)
  {
  }

  lemma BuildDefaults(id: string, today: Today)
    ensures var b := Build(id, EmptyForm, today);
      b.name == "" && b.buildingType == Other && b.address == "" && b.area == 0.0 &&
      b.floors == 1 && b.yearBuilt == today.year && b.energyRating == "N/A" &&
      b.carbonFootprint == 0.0
  {
  }

  lemma OpsKeepIds()
    ensures KeepsIds(Ops)
  {
  }

  lemma InitialIdsAscending()
    ensures IdsAscending(Initial, Ops.idOf)
  {
    CountingIds(Initial, Ops.idOf);
  }

  // ---------------------------------------------------------------------------------------
  // The summary cards, all over the buildings the search box lets through

  function Carbon(b: Building): real
  {
    b.carbonFootprint
  }

  function Area(b: Building): real
  {
    b.area
  }

  /** "Huella de Carbono Total". */
  function CarbonTotal(rows: seq<Building>): real
  {
    Sum(rows, Carbon)
  }

  /** "Promedio por Edificio": `total / length || 0`. */
  function AverageCarbon(rows: seq<Building>): real
  {
    Average(rows, Carbon)
  }

  /** The total floor area card. */
  function TotalArea(rows: seq<Building>): real
  {
    Sum(rows, Area)
  }

  /** The average lies between the smallest and the largest footprint. */
  lemma AverageWithinFootprints(rows: seq<Building>, lo: real, hi: real)
    requires |rows| > 0
    requires forall b :: b in rows ==> lo <= b.carbonFootprint <= hi
    ensures lo <= AverageCarbon(rows) <= hi
  {
    AverageBounds(rows, Carbon, lo, hi);
  }

  /** Narrowing the search never raises the footprint or area cards, footprints and areas being non-negative. */
  lemma SearchLowersTotals(rows: seq<Building>, term: string)
    requires forall b :: b in rows ==> 0.0 <= b.carbonFootprint && 0.0 <= b.area
    ensures CarbonTotal(Search(rows, SearchFields, term)) <= CarbonTotal(rows)
    ensures TotalArea(Search(rows, SearchFields, term)) <= TotalArea(rows)
  {
    SearchSumAtMost(rows, SearchFields, term, Carbon);
    SearchSumAtMost(rows, SearchFields, term, Area);
  }

  // ---------------------------------------------------------------------------------------
  // Badge

  datatype Tone = Green | Lime | Yellow | Orange | Red

  /** The energy-rating badge: A green, B lime, C yellow, D orange, anything else red. */
  function RatingTone(rating: string): (t: Tone)
    ensures t == Green <==> rating == "A"
    ensures t == Lime <==> rating == "B"
    ensures t == Yellow <==> rating == "C"
    ensures t == Orange <==> rating == "D"
    ensures t == Red <==> rating !in {"A", "B", "C", "D"}
  {
    if rating == "A" then Green
    else if rating == "B" then Lime
    else if rating == "C" then Yellow
    else if rating == "D" then Orange
    else Red
  }
}
