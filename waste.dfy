/**
 * The waste-management page (`gestion-activos/residuos`): a table of waste streams with their
 * quantities, disposal method and recycling rate, and the summary cards above it.
 */
module Waste {
  import opened Wrappers
  import opened Seqs
  import opened Tables

  datatype WasteType = Organic | Plastic | Paper | Glass | Metal | Electronic | Hazardous | Other
  datatype Unit = Kg | Ton | Litres
  datatype Disposal = Recycling | Composting | Incineration | Landfill | SpecialTreatment

  function TypeName(t: WasteType): string
  {
    match t
    case Organic => "Orgánico"
    case Plastic => "Plástico"
    case Paper => "Papel"
    case Glass => "Vidrio"
    case Metal => "Metal"
    case Electronic => "Electrónico"
    case Hazardous => "Peligroso"
    case Other => "Otro"
  }

  function DisposalName(d: Disposal): string
  {
    match d
    case Recycling => "Reciclaje"
    case Composting => "Compostaje"
    case Incineration => "Incineración"
    case Landfill => "Vertedero"
    case SpecialTreatment => "Tratamiento especial"
  }

  /** A row of the table. `recyclingRate` is a percentage; `carbonFootprint` is in tCO2e. */
  datatype WasteStream = WasteStream(
    id: string, name: string, wasteType: WasteType, quantity: real, unit: Unit,
    disposal: Disposal, recyclingRate: real, carbonFootprint: real,
    lastCollection: string, notes: string)

  /** The dialog's state, `Partial<WasteStream>`. */
  datatype WasteForm = WasteForm(
    id: Option<string>, name: Option<string>, wasteType: Option<WasteType>,
    quantity: Option<real>, unit: Option<Unit>, disposal: Option<Disposal>,
    recyclingRate: Option<real>, carbonFootprint: Option<real>,
    lastCollection: Option<string>, notes: Option<string>)

  const EmptyForm := WasteForm(None, None, None, None, None, None, None, None, None, None)

  /** `setCurrentWasteStream(stream)` in `handleEdit`: every field set. */
  function ToForm(s: WasteStream): WasteForm
  {
    WasteForm(Some(s.id), Some(s.name), Some(s.wasteType), Some(s.quantity), Some(s.unit),
              Some(s.disposal), Some(s.recyclingRate), Some(s.carbonFootprint),
              Some(s.lastCollection), Some(s.notes))
  }

  /** `{ ...stream, ...currentWasteStream }`: the fields set in the form win. */
  function Merge(s: WasteStream, f: WasteForm): WasteStream
  {
    WasteStream(f.id.GetOr(s.id), f.name.GetOr(s.name), f.wasteType.GetOr(s.wasteType),
                f.quantity.GetOr(s.quantity), f.unit.GetOr(s.unit), f.disposal.GetOr(s.disposal),
                f.recyclingRate.GetOr(s.recyclingRate), f.carbonFootprint.GetOr(s.carbonFootprint),
                f.lastCollection.GetOr(s.lastCollection), f.notes.GetOr(s.notes))
  }

  /** The new stream of `handleSubmit`'s add branch, with the page's defaults for unset fields. */
  function Build(id: string, f: WasteForm, today: Today): WasteStream
  {
    WasteStream(id, TextOr(f.name, ""), f.wasteType.GetOr(Other), f.quantity.GetOr(0.0),
                f.unit.GetOr(Kg), f.disposal.GetOr(Recycling), f.recyclingRate.GetOr(0.0),
                f.carbonFootprint.GetOr(0.0), TextOr(f.lastCollection, today.date),
                TextOr(f.notes, ""))
  }

  /** The search box looks into the name, the type and the disposal method. */
  function SearchFields(s: WasteStream): seq<string>
  {
    [s.name, TypeName(s.wasteType), DisposalName(s.disposal)]
  }

  const Ops := RecordOps((s: WasteStream) => s.id, SearchFields, (f: WasteForm) => f.id,
                         Merge, Build, ToForm, EmptyForm)

  /** The three streams the page loads when it mounts. */
  const Initial := [
    WasteStream("1", "Residuos de Oficina", Paper, 500.0, Kg, Recycling, 80.0, 0.5,
                "2023-10-15", "Principalmente papel y cartón"),
    WasteStream("2", "Desechos de Cafetería", Organic, 200.0, Kg, Composting, 100.0, 0.1,
                "2023-10-16", "Restos de alimentos y servilletas"),
    WasteStream("3", "Equipos Electrónicos", Electronic, 50.0, Kg, Recycling, 90.0, 1.2,
                "2023-09-30", "Computadoras y periféricos obsoletos")]

  // ---------------------------------------------------------------------------------------
  // The record operations

  /** Editing a stream without touching the form gives the stream back. */
  lemma MergeOwnForm(s: WasteStream)
    ensures Merge(s, ToForm(s)) == s
  {
  }

  /** An empty form merges to the stream unchanged. */
  lemma MergeEmptyForm(s: WasteStream)
    ensures Merge(s, EmptyForm) == s
  {
  }

  /** A new stream built from a complete form takes every field from it but the id. */
  lemma BuildFromFilledForm(s: WasteStream, id: string, today: Today)
    requires s.lastCollection != ""
    ensures Build(id, ToForm(s), today) == s.(id := id)
  {
  }

  /** A new stream built from an empty form has the page's defaults. */
  lemma BuildDefaults(id: string, today: Today)
    ensures var s := Build(id, EmptyForm, today);
      s.name == "" && s.wasteType == Other && s.quantity == 0.0 && s.unit == Kg &&
      s.disposal == Recycling && s.recyclingRate == 0.0 && s.carbonFootprint == 0.0 &&
      s.lastCollection == today.date && s.notes == ""
  {
  }

  /** The page's operations keep ids: adding and editing keep the ids ascending. */
  lemma OpsKeepIds()
    ensures KeepsIds(Ops)
  {
  }

  /** The initial ids are "1", "2", "3", ascending. */
  lemma InitialIdsAscending()
    ensures IdsAscending(Initial, Ops.idOf)
  {
    CountingIds(Initial, Ops.idOf);
  }

  // ---------------------------------------------------------------------------------------
  // The summary cards

  /** A stream's quantity in kilograms: tons count a thousand, kilograms and litres count as they are. */
  function QuantityKg(s: WasteStream): (r: real)
    ensures s.unit == Ton ==> r == s.quantity * 1000.0
    ensures s.unit != Ton ==> r == s.quantity
  {
    match s.unit
    case Ton => s.quantity * 1000.0
    case Litres => s.quantity
    case Kg => s.quantity
  }

  /** "Cantidad Total de Residuos" (`getTotalWaste`), over every stream whatever the search box says. */
  function TotalWaste(rows: seq<WasteStream>): real
  {
    Sum(rows, QuantityKg)
  }

  /** The recycled share of one stream, in kilograms. */
  function RecycledKg(s: WasteStream): real
  {
    QuantityKg(s) * s.recyclingRate / 100.0
  }

  /** "Residuos Reciclados" (`getRecycledWaste`), over every stream. */
  function RecycledWaste(rows: seq<WasteStream>): real
  {
    Sum(rows, RecycledKg)
  }

  /** "Huella de Carbono Total", over every stream. */
  function CarbonTotal(rows: seq<WasteStream>): real
  {
    Sum(rows, Carbon)
  }

  function Carbon(s: WasteStream): real
  {
    s.carbonFootprint
  }

  /** A stream with a non-negative quantity and a rate between 0 and 100 per cent. */
  predicate Sensible(s: WasteStream)
  {
    0.0 <= s.quantity && 0.0 <= s.recyclingRate <= 100.0
  }

  /** With sensible streams, the recycled waste lies between nothing and the total waste. */
  lemma RecycledAtMostTotal(rows: seq<WasteStream>)
    requires forall s :: s in rows ==> Sensible(s)
    ensures 0.0 <= RecycledWaste(rows) <= TotalWaste(rows)
  {
    forall s | s in rows
      ensures 0.0 <= RecycledKg(s) <= QuantityKg(s)
    {
      assert 0.0 <= QuantityKg(s);
      assert RecycledKg(s) == QuantityKg(s) * (s.recyclingRate / 100.0);
    }
    SumNonneg(rows, RecycledKg);
    SumMono(rows, RecycledKg, QuantityKg);
  }

  // ---------------------------------------------------------------------------------------
  // Badges

  datatype Tone = Green | Yellow | Orange | Red | Blue | Purple | Gray | Indigo

  /** The recycling-rate badge: above 75 green, above 50 yellow, above 25 orange, else red. */
  function RateTone(rate: real): (t: Tone)
    ensures t == Green <==> rate > 75.0
    ensures t == Yellow <==> 50.0 < rate <= 75.0
    ensures t == Orange <==> 25.0 < rate <= 50.0
    ensures t == Red <==> rate <= 25.0
  {
    if rate > 75.0 then Green else if rate > 50.0 then Yellow else if rate > 25.0 then Orange else Red
  }

  /** How alarming a rate badge is: green 0 up to red 3. */
  function Alarm(t: Tone): nat
  {
    match t
    case Green => 0
    case Yellow => 1
    case Orange => 2
    case _ => 3
  }

  /** A higher recycling rate never shows a more alarming badge. */
  lemma RateToneMonotone(a: real, b: real)
    requires a <= b
    ensures Alarm(RateTone(b)) <= Alarm(RateTone(a))
  {
  }

  /** The type badge's colour. */
  function TypeTone(t: WasteType): Tone
  {
    match t
    case Organic => Green
    case Plastic => Blue
    case Paper => Yellow
    case Glass => Purple
    case Metal => Gray
    case Electronic => Red
    case Hazardous => Orange
    case Other => Indigo
  }

  /** Every waste type has a colour of its own. */
  lemma TypeToneInjective(a: WasteType, b: WasteType)
    ensures TypeTone(a) == TypeTone(b) ==> a == b
  {
  }

  /** The disposal badge's colour: recycling green, composting yellow, incineration red, landfill gray. */
  function DisposalTone(d: Disposal): Tone
  {
    match d
    case Recycling => Green
    case Composting => Yellow
    case Incineration => Red
    case Landfill => Gray
    case SpecialTreatment => Purple
  }

  /** Every disposal method has a colour of its own. */
  lemma DisposalToneInjective(a: Disposal, b: Disposal)
    ensures DisposalTone(a) == DisposalTone(b) ==> a == b
  {
  }
}
