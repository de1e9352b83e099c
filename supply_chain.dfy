/**
 * The supply-chain page (`gestion-activos/cadena-suministros`): suppliers, logistics partners,
 * warehouses and retailers with their carbon footprint and a sustainability score out of 100.
 */
module SupplyChain {
  import opened Wrappers
  import opened Seqs
  import opened Text
  import opened Tables

  datatype Kind = Supplier | Logistics | Warehouse | Retailer

  function KindName(k: Kind): string
  {
    match k
    case Supplier => "supplier"
    case Logistics => "logistics"
    case Warehouse => "warehouse"
    case Retailer => "retailer"
  }

  /**
   * A row of the table. The add branch casts the form's type without a default, so a record
   * added without choosing a type has none: `kind` is optional.
   */
  datatype Item = Item(
    id: string, name: string, kind: Option<Kind>, location: string, carbonFootprint: real,
    sustainabilityScore: real)

  /** The dialog's state, `Partial<SupplyChainItem>`. */
  datatype ItemForm = ItemForm(
    id: Option<string>, name: Option<string>, kind: Option<Kind>, location: Option<string>,
    carbonFootprint: Option<real>, sustainabilityScore: Option<real>)

  const EmptyForm := ItemForm(None, None, None, None, None, None)

  function ToForm(x: Item): ItemForm
  {
    ItemForm(Some(x.id), Some(x.name), x.kind, Some(x.location), Some(x.carbonFootprint),
             Some(x.sustainabilityScore))
  }

  /** `{ ...item, ...currentItem }`. */
  function Merge(x: Item, f: ItemForm): Item
  {
    Item(f.id.GetOr(x.id), f.name.GetOr(x.name), if f.kind.Some? then f.kind else x.kind,
         f.location.GetOr(x.location), f.carbonFootprint.GetOr(x.carbonFootprint),
         f.sustainabilityScore.GetOr(x.sustainabilityScore))
  }

  /** The new item of the add branch: the type is taken as it is, set or not. */
  function Build(id: string, f: ItemForm, today: Today): Item
  {
    Item(id, TextOr(f.name, ""), f.kind, TextOr(f.location, ""), f.carbonFootprint.GetOr(0.0),
         f.sustainabilityScore.GetOr(0.0))
  }

  /** The text of the type as the search box reads it. */
  function KindText(k: Option<Kind>): string
  {
    match k
    case Some(kind) => KindName(kind)
    case None => ""
  }

  /** The search box looks into the name, the type and the location. */
  function SearchFields(x: Item): seq<string>
  {
    [x.name, KindText(x.kind), x.location]
  }

  const Ops := RecordOps((x: Item) => x.id, SearchFields, (f: ItemForm) => f.id,
                         Merge, Build, ToForm, EmptyForm)

  /** The four items the page starts with. */
  const Initial := [
    Item("1", "Eco Fabrics Co.", Some(Supplier), "Barcelona, Spain", 50.0, 85.0),
    Item("2", "Green Logistics Ltd.", Some(Logistics), "Madrid, Spain", 75.0, 70.0),
    Item("3", "Sustainable Storage Solutions", Some(Warehouse), "Valencia, Spain", 30.0, 90.0),
    Item("4", "EcoFashion Outlet", Some(Retailer), "Seville, Spain", 25.0, 80.0)]

  // ---------------------------------------------------------------------------------------
  // The record operations

  lemma MergeOwnForm(x: Item)
    ensures Merge(x, ToForm(x)) == x
  {
  }

  lemma BuildFromFilledForm(x: Item, id: string, today: Today)
    ensures Build(id, ToForm(x), today) == x.(id := id)
  {
  }

  /** A new item built from an empty form has no type and zero footprint and score. */
  lemma BuildDefaults(id: string, today: Today)
    ensures var x := Build(id, EmptyForm, today);
      x.name == "" && x.kind.None? && x.location == "" && x.carbonFootprint == 0.0 &&
      x.sustainabilityScore == 0.0
  {
  }

  lemma OpsKeepIds()
    ensures KeepsIds(Ops)
  {
  }

  lemma InitialIdsAscending()
    ensures IdsAscending(Initial, Ops.idOf)
  {
    CountingIds(Initial, Ops.idOf);
  }

  // ---------------------------------------------------------------------------------------
  // The summary cards, all over every item whatever the search box says

  function Carbon(x: Item): real
  {
    x.carbonFootprint
  }

  function Score(x: Item): real
  {
    x.sustainabilityScore
  }

  /** "Huella de Carbono Total" (`getTotalCarbonFootprint`). */
  function CarbonTotal(rows: seq<Item>): real
  {
    Sum(rows, Carbon)
  }

  /**
   * `getAverageSustainabilityScore` as written: `total / length` with no guard, which is NaN
   * (here `None`) once every item has been deleted.
   */
  function AverageScoreAsWritten(rows: seq<Item>): (r: Option<real>)
    ensures r.None? <==> |rows| == 0
  {
    if |rows| == 0 then None else Some(Sum(rows, Score) / (|rows| as real))
  }

  /** Deleting the last item leaves the score card showing NaN. */
  lemma AverageScoreEmptyIsNaN()
    ensures AverageScoreAsWritten(Delete([Initial[0]], Ops.idOf, "1")) == None
  {
    assert Delete([Initial[0]], Ops.idOf, "1") == [];
  }

  /** The score card with the `|| 0` guard the other pages use: 0 for an empty list. */
  function AverageScore(rows: seq<Item>): real
  {
    Average(rows, Score)
  }

  /** The guarded average agrees with the page wherever the page shows a number. */
  lemma AverageScoreAgrees(rows: seq<Item>)
    requires |rows| > 0
    ensures AverageScoreAsWritten(rows) == Some(AverageScore(rows))
  {
  }

  /** With every score out of 100, the guarded average is a score out of 100 too. */
  lemma AverageScoreInRange(rows: seq<Item>)
    requires forall x :: x in rows ==> 0.0 <= x.sustainabilityScore <= 100.0
    ensures 0.0 <= AverageScore(rows) <= 100.0
  {
    if |rows| > 0 {
      AverageBounds(rows, Score, 0.0, 100.0);
    }
  }

  predicate IsSupplier(x: Item)
  {
    x.kind == Some(Supplier)
  }

  /** "Proveedores Activos": the number of items of type supplier. */
  function SupplierCount(rows: seq<Item>): (r: nat)
    ensures r <= |rows|
  {
    Count(rows, IsSupplier)
  }

  /** The initial data has one supplier. */
  lemma InitialSupplierCount()
    ensures SupplierCount(Initial) == 1
  {
    var a, b, c := Initial[..1], Initial[..2], Initial[..3];
    assert a[..0] == [] && b[..1] == a && c[..2] == b && Initial[..3] == c;
    assert Filter(a, IsSupplier) == a;
    assert Filter(b, IsSupplier) == a;
    assert Filter(c, IsSupplier) == a;
  }

  /** The initial scores average 81.25 out of 100. */
  lemma InitialAverageScore()
    ensures AverageScore(Initial) == 81.25
  {
    var a, b, c := Initial[..1], Initial[..2], Initial[..3];
    assert a[..0] == [] && b[..1] == a && c[..2] == b && Initial[..3] == c;
    assert Sum(a, Score) == 85.0;
    assert Sum(b, Score) == 155.0;
    assert Sum(c, Score) == 245.0;
    assert Sum(Initial, Score) == 325.0;
  }

  // ---------------------------------------------------------------------------------------
  // Badges

  datatype Tone = Green | Yellow | Red | Blue | Purple

  /** The score badge: above 80 green, above 60 yellow, else red. */
  function ScoreTone(score: real): (t: Tone)
    ensures t == Green <==> score > 80.0
    ensures t == Yellow <==> 60.0 < score <= 80.0
    ensures t == Red <==> score <= 60.0
  {
    if score > 80.0 then Green else if score > 60.0 then Yellow else Red
  }

  /** How alarming a score badge is: green 0, yellow 1, red 2. */
  function Alarm(t: Tone): nat
  {
    match t
    case Green => 0
    case Yellow => 1
    case _ => 2
  }

  /** A higher score never shows a more alarming badge. */
  lemma ScoreToneMonotone(a: real, b: real)
    requires a <= b
    ensures Alarm(ScoreTone(b)) <= Alarm(ScoreTone(a))
  {
  }

  /** The type badge: supplier blue, logistics green, warehouse yellow, anything else purple. */
  function KindTone(k: Option<Kind>): Tone
  {
    if k == Some(Supplier) then Blue
    else if k == Some(Logistics) then Green
    else if k == Some(Warehouse) then Yellow
    else Purple
  }

  /** The type badge's text: the type with its first letter in upper case ("Supplier"). */
  function KindLabel(k: Kind): (r: string)
    ensures Lower(r) == Lower(KindName(k))
  {
    LowerCapitalize(KindName(k));
    Capitalize(KindName(k))
  }
}
