/**
 * The energy-management page (`gestion-activos/energia`): the organisation's energy sources with
 * their annual production and carbon footprint, split into renewable and non-renewable output.
 */
module Energy {
  import opened Wrappers
  import opened Seqs
  import opened Tables

  datatype SourceType = Electricity | NaturalGas | Diesel | Solar | Wind | Biomass | Other
  datatype Status = Active | Inactive | Maintenance

  function TypeName(t: SourceType): string
  {
    match t
    case Electricity => "Electricidad"
    case NaturalGas => "Gas Natural"
    case Diesel => "Diésel"
    case Solar => "Solar"
    case Wind => "Eólica"
    case Biomass => "Biomasa"
    case Other => "Otro"
  }

  /** A row of the table; production is in kWh per year, the footprint in tCO2e. */
  datatype EnergySource = EnergySource(
    id: string, name: string, sourceType: SourceType, location: string, capacity: real,
    unit: string, annualProduction: real, carbonFootprint: real, lastMaintenance: string,
    status: Status)

  /** The dialog's state, `Partial<EnergySource>`. */
  datatype EnergyForm = EnergyForm(
    id: Option<string>, name: Option<string>, sourceType: Option<SourceType>,
    location: Option<string>, capacity: Option<real>, unit: Option<string>,
    annualProduction: Option<real>, carbonFootprint: Option<real>,
    lastMaintenance: Option<string>, status: Option<Status>)

  const EmptyForm := EnergyForm(None, None, None, None, None, None, None, None, None, None)

  function ToForm(s: EnergySource): EnergyForm
  {
    EnergyForm(Some(s.id), Some(s.name), Some(s.sourceType), Some(s.location), Some(s.capacity),
               Some(s.unit), Some(s.annualProduction), Some(s.carbonFootprint),
               Some(s.lastMaintenance), Some(s.status))
  }

  /** `{ ...source, ...currentEnergySource }`. */
  function Merge(s: EnergySource, f: EnergyForm): EnergySource
  {
    EnergySource(f.id.GetOr(s.id), f.name.GetOr(s.name), f.sourceType.GetOr(s.sourceType),
                 f.location.GetOr(s.location), f.capacity.GetOr(s.capacity), f.unit.GetOr(s.unit),
                 f.annualProduction.GetOr(s.annualProduction),
                 f.carbonFootprint.GetOr(s.carbonFootprint),
                 f.lastMaintenance.GetOr(s.lastMaintenance), f.status.GetOr(s.status))
  }

  /** The new source of the add branch, with the page's defaults. */
  function Build(id: string, f: EnergyForm, today: Today): EnergySource
  {
    EnergySource(id, TextOr(f.name, ""), f.sourceType.GetOr(Other), TextOr(f.location, ""),
                 f.capacity.GetOr(0.0), TextOr(f.unit, "kW"), f.annualProduction.GetOr(0.0),
                 f.carbonFootprint.GetOr(0.0), TextOr(f.lastMaintenance, today.date),
                 f.status.GetOr(Active))
  }

  /** The search box looks into the name, the type and the location. */
  function SearchFields(s: EnergySource): seq<string>
  {
    [s.name, TypeName(s.sourceType), s.location]
  }

  const Ops := RecordOps((s: EnergySource) => s.id, SearchFields, (f: EnergyForm) => f.id,
                         Merge, Build, ToForm, EmptyForm)

  const Initial := [
    EnergySource("1", "Panel Solar A", Solar, "Techo Edificio Principal", 100.0, "kW",
                 175000.0, 0.0, "2023-05-15", Active),
    EnergySource("2", "Generador Diésel", Diesel, "Planta Baja", 500.0, "kW",
                 50000.0, 35.5, "2023-08-01", Inactive),
    EnergySource("3", "Turbina Eólica", Wind, "Campo Norte", 2.0, "MW",
                 5000000.0, 0.0, "2023-09-30", Active)]

  // ---------------------------------------------------------------------------------------
  // The record operations

  lemma MergeOwnForm(s: EnergySource)
    ensures Merge(s, ToForm(s)) == s
  {
  }

  lemma BuildFromFilledForm(s: EnergySource, id: string, today: Today)
    requires s.unit != "" && s.lastMaintenance != ""
    ensures Build(id, ToForm(s), today) == s.(id := id)
  {
  }

  lemma BuildDefaults(id: string, today: Today)
    ensures var s := Build(id, EmptyForm, today);
      s.name == "" && s.sourceType == Other && s.location == "" && s.capacity == 0.0 &&
      s.unit == "kW" && s.annualProduction == 0.0 && s.carbonFootprint == 0.0 &&
      s.lastMaintenance == today.date && s.status == Active
  {
  }

  lemma OpsKeepIds()
    ensures KeepsIds(Ops)
  {
  }

  lemma InitialIdsAscending()
    ensures IdsAscending(Initial, Ops.idOf)
  {
    CountingIds(Initial, Ops.idOf);
  }

  // ---------------------------------------------------------------------------------------
  // The summary cards

  /** Solar, wind and biomass count as renewable. */
  predicate Renewable(s: EnergySource)
  {
    s.sourceType in {Solar, Wind, Biomass}
  }

  predicate NonRenewable(s: EnergySource)
  {
    s.sourceType !in {Solar, Wind, Biomass}
  }

  function Production(s: EnergySource): real
  {
    s.annualProduction
  }

  function Carbon(s: EnergySource): real
  {
    s.carbonFootprint
  }

  /** "Producción Anual Total": over the sources the search box lets through. */
  function TotalProduction(rows: seq<EnergySource>): real
  {
    Sum(rows, Production)
  }

  /** "Producción Renovable" (`getTotalRenewableProduction`), over every source. */
  function RenewableProduction(rows: seq<EnergySource>): real
  {
    Sum(Filter(rows, Renewable), Production)
  }

  /** `getTotalNonRenewableProduction`, which the page defines but does not show. */
  function NonRenewableProduction(rows: seq<EnergySource>): real
  {
    Sum(Filter(rows, NonRenewable), Production)
  }

  /** "Huella de Carbono Total": over the sources the search box lets through. */
  function CarbonTotal(rows: seq<EnergySource>): real
  {
    Sum(rows, Carbon)
  }

  /** Renewable and non-renewable production add up to the total production. */
  lemma ProductionSplits(rows: seq<EnergySource>)
    ensures RenewableProduction(rows) + NonRenewableProduction(rows) == TotalProduction(rows)
  {
    SumPartition(rows, Renewable, NonRenewable, Production);
  }

  /** With non-negative production, the renewable share never exceeds the total. */
  lemma RenewableAtMostTotal(rows: seq<EnergySource>)
    requires forall s :: s in rows ==> 0.0 <= s.annualProduction
    ensures 0.0 <= RenewableProduction(rows) <= TotalProduction(rows)
  {
    ProductionSplits(rows);
    SumNonneg(Filter(rows, Renewable), Production);
    SumNonneg(Filter(rows, NonRenewable), Production);
  }

  /**
   * With an empty search box the production card (over the filtered list) shows the production of
   * every source, and so is at least the renewable card when production is non-negative.
   */
  lemma CardsAgreeWithoutSearch(rows: seq<EnergySource>)
    requires forall s :: s in rows ==> 0.0 <= s.annualProduction
    ensures TotalProduction(Search(rows, SearchFields, "")) == TotalProduction(rows)
    ensures RenewableProduction(rows) <= TotalProduction(Search(rows, SearchFields, ""))
  {
    SearchEmptyTerm(rows, SearchFields);
    RenewableAtMostTotal(rows);
  }

  // ---------------------------------------------------------------------------------------
  // Badge

  datatype Tone = Green | Yellow | Red

  /** The status badge: active green, inactive red, in maintenance yellow. */
  function StatusTone(s: Status): (t: Tone)
    ensures t == Green <==> s == Active
    ensures t == Red <==> s == Inactive
    ensures t == Yellow <==> s == Maintenance
  {
    match s
    case Active => Green
    case Inactive => Red
    case Maintenance => Yellow
  }
}
