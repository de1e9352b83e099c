/**
 * The vehicle-management page (`gestion-activos/vehiculos`): the fleet with its fuel, mileage and
 * carbon footprint. It is the one asset page whose add button opens the dialog in add mode.
 */
module Vehicles {
  import opened Wrappers
  import opened Seqs
  import opened Tables

  datatype VehicleType = Car | Truck | Van | Motorcycle | Other
  datatype Fuel = Petrol | Diesel | Electric | Hybrid | CNG | LPG

  /** A row of the table; consumption is in litres per 100 km, the footprint in tCO2e. */
  datatype Vehicle = Vehicle(
    id: string, name: string, vehicleType: VehicleType, brand: string, model: string, year: int,
    licensePlate: string, fuel: Fuel, consumption: real, mileage: int, carbonFootprint: real)

  /** The dialog's state, `Partial<Vehicle>`. */
  datatype VehicleForm = VehicleForm(
    id: Option<string>, name: Option<string>, vehicleType: Option<VehicleType>,
    brand: Option<string>, model: Option<string>, year: Option<int>,
    licensePlate: Option<string>, fuel: Option<Fuel>, consumption: Option<real>,
    mileage: Option<int>, carbonFootprint: Option<real>)

  const EmptyForm := VehicleForm(None, None, None, None, None, None, None, None, None, None, None)

  function ToForm(v: Vehicle): VehicleForm
  {
    VehicleForm(Some(v.id), Some(v.name), Some(v.vehicleType), Some(v.brand), Some(v.model),
                Some(v.year), Some(v.licensePlate), Some(v.fuel), Some(v.consumption),
                Some(v.mileage), Some(v.carbonFootprint))
  }

  /** `{ ...vehicle, ...currentVehicle }`. */
  function Merge(v: Vehicle, f: VehicleForm): Vehicle
  {
    Vehicle(f.id.GetOr(v.id), f.name.GetOr(v.name), f.vehicleType.GetOr(v.vehicleType),
            f.brand.GetOr(v.brand), f.model.GetOr(v.model), f.year.GetOr(v.year),
            f.licensePlate.GetOr(v.licensePlate), f.fuel.GetOr(v.fuel),
            f.consumption.GetOr(v.consumption), f.mileage.GetOr(v.mileage),
            f.carbonFootprint.GetOr(v.carbonFootprint))
  }

  /** The new vehicle of the add branch: the year defaults to the current year, the fuel to petrol. */
  function Build(id: string, f: VehicleForm, today: Today): Vehicle
  {
    Vehicle(id, TextOr(f.name, ""), f.vehicleType.GetOr(Other), TextOr(f.brand, ""),
            TextOr(f.model, ""), f.year.GetOr(today.year), TextOr(f.licensePlate, ""),
            f.fuel.GetOr(Petrol), f.consumption.GetOr(0.0), f.mileage.GetOr(0),
            f.carbonFootprint.GetOr(0.0))
  }

  /** The search box looks into the name, the brand, the model and the licence plate. */
  function SearchFields(v: Vehicle): seq<string>
  {
    [v.name, v.brand, v.model, v.licensePlate]
  }

  const Ops := RecordOps((v: Vehicle) => v.id, SearchFields, (f: VehicleForm) => f.id,
                         Merge, Build, ToForm, EmptyForm)

  const Initial := [
    Vehicle("1", "Coche Ejecutivo", Car, "Tesla", "Model 3", 2022, "ABC123", Electric,
            0.0, 15000, 0.5),
    Vehicle("2", "Camión de Reparto", Truck, "Volvo", "FH16", 2020, "XYZ789", Diesel,
            30.0, 50000, 45.2),
    Vehicle("3", "Furgoneta de Servicio", Van, "Ford", "Transit", 2021, "DEF456", CNG,
            8.0, 30000, 15.8)]

  // ---------------------------------------------------------------------------------------
  // The record operations

  lemma MergeOwnForm(v: Vehicle)
    ensures Merge(v, ToForm(v)) == v
  {
  }

  lemma BuildFromFilledForm(v: Vehicle, id: string, today: Today)
    ensures Build(id, ToForm(v), today) == v.(id := id)
  {
  }

  lemma BuildDefaults(id: string, today: Today)
    ensures var v := Build(id, EmptyForm, today);
      v.name == "" && v.vehicleType == Other && v.brand == "" && v.model == "" &&
      v.year == today.year && v.licensePlate == "" && v.fuel == Petrol &&
      v.consumption == 0.0 && v.mileage == 0 && v.carbonFootprint == 0.0
  {
  }

  lemma OpsKeepIds()
    ensures KeepsIds(Ops)
  {
  }

  lemma InitialIdsAscending()
    ensures IdsAscending(Initial, Ops.idOf)
  {
    CountingIds(Initial, Ops.idOf);
  }

  /**
   * The add button followed by a submit: the new vehicle has the next id and the defaults, and
   * the ids stay ascending.
   */
  method AddBlankVehicle(page: AssetTable<Vehicle, VehicleForm>, today: Today)
    requires page.ops == Ops
    modifies page
    ensures page.rows == old(page.rows) + [Build(NextId(old(page.rows), Ops.idOf), EmptyForm, today)]
    ensures old(IdsAscending(page.rows, Ops.idOf)) ==> IdsAscending(page.rows, Ops.idOf)
    ensures !page.isDialogOpen && page.searchTerm == old(page.searchTerm)
  {
    OpsKeepIds();
    page.OpenForAdd();
    page.HandleSubmit(today);
  }

  // ---------------------------------------------------------------------------------------
  // The summary cards, all over the vehicles the search box lets through

  function Carbon(v: Vehicle): real
  {
    v.carbonFootprint
  }

  function Mileage(v: Vehicle): real
  {
    v.mileage as real
  }

  /** "Huella de Carbono Total". */
  function CarbonTotal(rows: seq<Vehicle>): real
  {
    Sum(rows, Carbon)
  }

  /** "Promedio por Vehículo": `total / length || 0`, so 0 for an empty list. */
  function AverageCarbon(rows: seq<Vehicle>): real
  {
    Average(rows, Carbon)
  }

  /** "Kilometraje Total". */
  function TotalMileage(rows: seq<Vehicle>): real
  {
    Sum(rows, Mileage)
  }

  /** The average lies between the smallest and the largest footprint. */
  lemma AverageWithinFootprints(rows: seq<Vehicle>, lo: real, hi: real)
    requires |rows| > 0
    requires forall v :: v in rows ==> lo <= v.carbonFootprint <= hi
    ensures lo <= AverageCarbon(rows) <= hi
  {
    AverageBounds(rows, Carbon, lo, hi);
  }

  // ---------------------------------------------------------------------------------------
  // Badge

  datatype Tone = Green | Blue | Yellow | Red

  /** The fuel badge: electric green, hybrid blue, natural gas or LPG yellow, petrol and diesel red. */
  function FuelTone(f: Fuel): (t: Tone)
    ensures t == Green <==> f == Electric
    ensures t == Blue <==> f == Hybrid
    ensures t == Yellow <==> f in {CNG, LPG}
    ensures t == Red <==> f in {Petrol, Diesel}
  {
    match f
    case Electric => Green
    case Hybrid => Blue
    case CNG | LPG => Yellow
    case _ => Red
  }
}
