/**
 * The carbon-footprint calculator (`calculadora`): a five-step questionnaire whose answers are
 * turned into one yearly figure in tonnes of CO2e, shown rounded to two decimals together with
 * one of five profiles.
 */
module Calculator {
  import opened Wrappers
  import opened Seqs

  // ---------------------------------------------------------------------------------------
  // The answers

  datatype HousingType = Apartment | House | OtherHousing
  datatype EnergySource = Fossil | Mixed | Renewable
  datatype Insulation = NoInsulation | Basic | Advanced
  datatype Heating = ElectricHeating | Gas | Oil | HeatPump | OtherHeating
  datatype Cooling = NoCooling | Fans | AirConditioning
  datatype Transport = Car | PublicTransport | Bicycle | Walking
  datatype CarType = Gasoline | Diesel | Hybrid | ElectricCar | NoCar
  datatype Diet = MeatHeavy | AverageDiet | Vegetarian | Vegan

  /** Which materials the household separates for recycling. */
  datatype RecyclingHabits = RecyclingHabits(paper: bool, plastic: bool, glass: bool, metal: bool, organic: bool)

  /**
   * One questionnaire. The car type and its fuel efficiency are optional in the schema; the three
   * household counts are required by it but have no starting value, so they stay `None` until
   * the user types in their fields.
   */
  datatype Answers = Answers(
    housingType: HousingType, houseSize: real, energySource: EnergySource,
    energyEfficiency: real, insulationType: Insulation, heatingSystem: Heating, coolingSystem: Cooling,
    waterUsage: real, adultsNumber: Option<real>, childrenNumber: Option<real>, elderlyNumber: Option<real>,
    primaryTransport: Transport, carType: Option<CarType>, carFuelEfficiency: Option<real>,
    weeklyDriving: real, publicTransportUsage: real, flightsPerYear: real,
    longDistanceBusTrainTrips: real,
    dietType: Diet, localFoodPercentage: real, foodWaste: real, clothingPurchases: real,
    electronicsUsage: real,
    recyclingHabits: RecyclingHabits, compostingHabits: bool, singleUsePlasticsReduction: real,
    workFromHome: real, greenEnergyInvestment: bool, communityInvolvement: bool,
    carbonOffsetPurchases: bool)

  /** The ranges the form's schema enforces before the answers reach the calculation. */
  predicate SchemaValid(v: Answers)
  {
    10.0 <= v.houseSize <= 1000.0 && 1.0 <= v.energyEfficiency <= 5.0 &&
    0.0 <= v.waterUsage <= 1000.0 &&
    HouseholdCount(v.adultsNumber) && HouseholdCount(v.childrenNumber) && HouseholdCount(v.elderlyNumber) &&
    (v.carFuelEfficiency.Some? ==> 0.0 <= v.carFuelEfficiency.value <= 50.0) &&
    0.0 <= v.weeklyDriving <= 2000.0 && 0.0 <= v.publicTransportUsage <= 40.0 &&
    0.0 <= v.flightsPerYear <= 100.0 && 0.0 <= v.longDistanceBusTrainTrips <= 50.0 &&
    0.0 <= v.localFoodPercentage <= 100.0 && 0.0 <= v.foodWaste <= 100.0 &&
    0.0 <= v.clothingPurchases <= 200.0 && 0.0 <= v.electronicsUsage <= 24.0 &&
    0.0 <= v.singleUsePlasticsReduction <= 5.0 && 0.0 <= v.workFromHome <= 7.0
  }

  /** A required household count: present, and between 0 and 20. */
  predicate HouseholdCount(n: Option<real>)
  {
    n.Some? && 0.0 <= n.value <= 20.0
  }

  /** The answers the form starts with; the household counts have no starting value. */
  const Defaults := Answers(
    Apartment, 50.0, Mixed, 3.0, Basic, ElectricHeating, Fans, 150.0, None, None, None,
    Car, Some(Gasoline), Some(10.0), 100.0, 5.0, 2.0, 5.0,
    AverageDiet, 20.0, 20.0, 50.0, 4.0,
    RecyclingHabits(false, false, false, false, false), false, 2.0,
    0.0, false, false, false)

  // ---------------------------------------------------------------------------------------
  // The factor tables; the last branch of every chain catches all remaining answers

  function EnergyFactor(e: EnergySource): real
  {
    if e == Fossil then 1.5 else if e == Mixed then 1.0 else 0.5
  }

  function InsulationFactor(i: Insulation): real
  {
    if i == NoInsulation then 1.2 else if i == Basic then 1.0 else 0.8
  }

  function HeatingFactor(h: Heating): real
  {
    if h == Oil then 1.5 else if h == Gas then 1.2 else if h == ElectricHeating then 1.0 else 0.8
  }

  function CoolingFactor(c: Cooling): real
  {
    if c == AirConditioning then 1.3 else if c == Fans then 1.1 else 1.0
  }

  function TransportFactor(t: Transport): real
  {
    if t == Car then 2.0 else if t == PublicTransport then 1.0 else 0.5
  }

  /** 0 when there is no car or no car type was given. */
  function CarTypeFactor(c: Option<CarType>): real
  {
    if c == Some(Gasoline) then 1.5
    else if c == Some(Diesel) then 1.8
    else if c == Some(Hybrid) then 1.0
    else if c == Some(ElectricCar) then 0.5
    else 0.0
  }

  /**
   * `carFuelEfficiency ? 10 / carFuelEfficiency : 1`: an absent or zero efficiency is falsy and
   * gives 1, so the division only ever happens by a non-zero number.
   */
  function CarEfficiencyFactor(e: Option<real>): (r: real)
    ensures e.None? || e.value == 0.0 ==> r == 1.0
    ensures e.Some? && e.value != 0.0 ==> r * e.value == 10.0
  {
    if e.Some? && e.value != 0.0 then 10.0 / e.value else 1.0
  }

  function DietFactor(d: Diet): real
  {
    if d == MeatHeavy then 2.0 else if d == AverageDiet then 1.5 else if d == Vegetarian then 1.0 else 0.8
  }

  /** The factor tables' values all lie between 0.5 and 2 (and between 0 and 1.8 for the car type). */
  lemma FactorRanges(v: Answers)
    ensures 0.5 <= EnergyFactor(v.energySource) <= 1.5
    ensures 0.8 <= InsulationFactor(v.insulationType) <= 1.2
    ensures 0.8 <= HeatingFactor(v.heatingSystem) <= 1.5
    ensures 1.0 <= CoolingFactor(v.coolingSystem) <= 1.3
    ensures 0.5 <= TransportFactor(v.primaryTransport) <= 2.0
    ensures 0.0 <= CarTypeFactor(v.carType) <= 1.8
    ensures 0.8 <= DietFactor(v.dietType) <= 2.0
  {
  }

  /** Within the schema's range, a given efficiency yields a factor of at least 10/50. */
  lemma CarEfficiencyPositive(e: Option<real>)
    requires e.Some? ==> 0.0 <= e.value <= 50.0
    ensures 0.2 <= CarEfficiencyFactor(e)
  {
    if e.Some? && e.value != 0.0 {
      assert CarEfficiencyFactor(e) * e.value == 10.0;
    }
  }

  // ---------------------------------------------------------------------------------------
  // Products of factors

  /** The product of a list of factors, multiplied left to right. */
  function Product(xs: seq<real>): real
    decreases |xs|
  {
    if |xs| == 0 then 1.0 else Product(xs[..|xs| - 1]) * xs[|xs| - 1]
  }

  // Small facts about products of two numbers, used step by step below.

  lemma MulNonneg(a: real, b: real)
    requires 0.0 <= a && 0.0 <= b
    ensures 0.0 <= a * b
  {
  }

  lemma MulWithinOne(a: real, b: real)
    requires 0.0 < a <= 1.0 && 0.0 < b <= 1.0
    ensures 0.0 < a * b <= 1.0
  {
    assert a * b <= a * 1.0;
    assert 0.0 < a * b;
  }

  lemma MulMono(a: real, b: real, m: real)
    requires a <= b && 0.0 <= m
    ensures a * m <= b * m
  {
  }

  lemma MulBothMono(a: real, b: real, c: real, d: real)
    requires 0.0 <= a <= b && 0.0 <= c <= d
    ensures a * c <= b * d
  {
    MulMono(a, b, c);
    assert b * c <= b * d;
  }

  /** Non-negative factors give a non-negative product. */
  lemma {:induction false} ProductNonneg(xs: seq<real>)
    requires forall i :: 0 <= i < |xs| ==> 0.0 <= xs[i]
    ensures 0.0 <= Product(xs)
    decreases |xs|
  {
    if |xs| > 0 {
      ProductNonneg(xs[..|xs| - 1]);
      MulNonneg(Product(xs[..|xs| - 1]), xs[|xs| - 1]);
    }
  }

  /** Factors in (0, 1] give a product in (0, 1]. */
  lemma {:induction false} ProductWithinOne(xs: seq<real>)
    requires forall i :: 0 <= i < |xs| ==> 0.0 < xs[i] <= 1.0
    ensures 0.0 < Product(xs) <= 1.0
    decreases |xs|
  {
    if |xs| > 0 {
      ProductWithinOne(xs[..|xs| - 1]);
      MulWithinOne(Product(xs[..|xs| - 1]), xs[|xs| - 1]);
    }
  }

  /** Raising one non-negative factor, the others unchanged, never lowers the product. */
  lemma {:induction false} ProductMonotone(xs: seq<real>, ys: seq<real>, k: int)
    requires |xs| == |ys| && 0 <= k < |xs|
    requires forall i :: 0 <= i < |xs| ==> 0.0 <= xs[i]
    requires forall i :: 0 <= i < |xs| && i != k ==> xs[i] == ys[i]
    requires xs[k] <= ys[k]
    ensures Product(xs) <= Product(ys)
    decreases |xs|
  {
    var n := |xs| - 1;
    ProductNonneg(xs[..n]);
    if k == n {
      assert xs[..n] == ys[..n];
    } else {
      ProductMonotone(xs[..n], ys[..n], k);
    }
    MulBothMono(Product(xs[..n]), Product(ys[..n]), xs[n], ys[n]);
  }

  lemma Product3(a: real, b: real, c: real)
    ensures Product([a, b, c]) == a * b * c
  {
    assert [a][..0] == [];
    assert Product([a]) == a;
    assert [a, b][..1] == [a];
    assert Product([a, b]) == a * b;
    assert [a, b, c][..2] == [a, b];
  }

  lemma Product4(a: real, b: real, c: real, d: real)
    ensures Product([a, b, c, d]) == a * b * c * d
  {
    assert [a, b, c, d][..3] == [a, b, c];
    Product3(a, b, c);
  }

  lemma Product6(a: real, b: real, c: real, d: real, e: real, f: real)
    ensures Product([a, b, c, d, e, f]) == a * b * c * d * e * f
  {
    assert [a, b, c, d, e, f][..5] == [a, b, c, d, e];
    assert [a, b, c, d, e][..4] == [a, b, c, d];
    Product4(a, b, c, d);
  }

  lemma Product8(a: real, b: real, c: real, d: real, e: real, f: real, g: real, h: real)
    ensures Product([a, b, c, d, e, f, g, h]) == a * b * c * d * e * f * g * h
  {
    assert [a, b, c, d, e, f, g, h][..7] == [a, b, c, d, e, f, g];
    assert [a, b, c, d, e, f, g][..6] == [a, b, c, d, e, f];
    Product6(a, b, c, d, e, f);
  }

  // ---------------------------------------------------------------------------------------
  // The terms of the running sum

  /** Housing: twice the size in hundreds of m², times the energy, efficiency, insulation, heating, cooling and water factors. */
  function HousingFactors(v: Answers): seq<real>
  {
    [2.0, v.houseSize / 100.0, EnergyFactor(v.energySource), (6.0 - v.energyEfficiency) / 5.0,
     InsulationFactor(v.insulationType), HeatingFactor(v.heatingSystem), CoolingFactor(v.coolingSystem),
     v.waterUsage / 150.0]
  }

  function HousingTerm(v: Answers): real
  {
    Product(HousingFactors(v))
  }

  /** Driving: hundreds of km a week, times the transport, car-type and fuel-efficiency factors. */
  function DrivingFactors(v: Answers): seq<real>
  {
    [v.weeklyDriving / 100.0, TransportFactor(v.primaryTransport), CarTypeFactor(v.carType),
     CarEfficiencyFactor(v.carFuelEfficiency)]
  }

  function DrivingTerm(v: Answers): real
  {
    Product(DrivingFactors(v))
  }

  /** Driving, public transport, flights and long-distance trips. */
  function TransportTerm(v: Answers): real
  {
    DrivingTerm(v) + (v.publicTransportUsage / 10.0) * 0.5 + v.flightsPerYear * 0.5 +
    v.longDistanceBusTrainTrips * 0.1
  }

  /** Consumption: twice the diet factor, times the local-food, waste, clothing and electronics factors. */
  function ConsumptionFactors(v: Answers): seq<real>
  {
    [2.0, DietFactor(v.dietType), 1.0 - v.localFoodPercentage / 200.0, 1.0 + v.foodWaste / 100.0,
     v.clothingPurchases / 50.0, v.electronicsUsage / 8.0]
  }

  function ConsumptionTerm(v: Answers): real
  {
    Product(ConsumptionFactors(v))
  }

  /** The sum before the multipliers: housing, then transport, then consumption. */
  function BaseFootprint(v: Answers): real
  {
    HousingTerm(v) + TransportTerm(v) + ConsumptionTerm(v)
  }

  // ---------------------------------------------------------------------------------------
  // The multipliers

  function Flags(r: RecyclingHabits): seq<bool>
  {
    [r.paper, r.plastic, r.glass, r.metal, r.organic]
  }

  /** JavaScript's `Boolean` used as a filter. */
  predicate Truthy(b: bool)
  {
    b
  }

  /** `Object.values(recyclingHabits).filter(Boolean).length`. */
  function RecycledCount(r: RecyclingHabits): (n: nat)
    ensures n <= 5
  {
    Count(Flags(r), Truthy)
  }

  /** One more separated material lowers the recycling factor by 0.1. */
  function RecyclingFactor(r: RecyclingHabits): real
  {
    1.0 - (RecycledCount(r) as real) * 0.1
  }

  function CompostingFactor(composting: bool): real
  {
    if composting then 0.9 else 1.0
  }

  function PlasticReductionFactor(p: real): real
  {
    1.0 - p * 0.05
  }

  function RecyclingFactors(v: Answers): seq<real>
  {
    [RecyclingFactor(v.recyclingHabits), CompostingFactor(v.compostingHabits),
     PlasticReductionFactor(v.singleUsePlasticsReduction)]
  }

  function RecyclingMultiplier(v: Answers): real
  {
    Product(RecyclingFactors(v))
  }

  /** Working from home, green-energy investment, community involvement and offsets. */
  function LifestyleFactors(v: Answers): seq<real>
  {
    [1.0 - v.workFromHome * 0.02, if v.greenEnergyInvestment then 0.95 else 1.0,
     if v.communityInvolvement then 0.98 else 1.0, if v.carbonOffsetPurchases then 0.9 else 1.0]
  }

  function LifestyleMultiplier(v: Answers): real
  {
    Product(LifestyleFactors(v))
  }

  /** The unrounded yearly footprint in tCO2e. */
  function Footprint(v: Answers): real
  {
    BaseFootprint(v) * RecyclingMultiplier(v) * LifestyleMultiplier(v)
  }

  /** Nothing separated, nothing counted. */
  lemma NoFlagsNoCount(r: RecyclingHabits)
    requires !r.paper && !r.plastic && !r.glass && !r.metal && !r.organic
    ensures RecycledCount(r) == 0
  {
    var flags := Flags(r);
    var a, b, c, d := flags[..1], flags[..2], flags[..3], flags[..4];
    assert a[..0] == [] && b[..1] == a && c[..2] == b && d[..3] == c && flags[..4] == d;
    assert Filter(a, Truthy) == [];
    assert Filter(b, Truthy) == [];
    assert Filter(c, Truthy) == [];
    assert Filter(d, Truthy) == [];
  }

  /** Turning on one more recycling flag adds one to the count. */
  lemma {:induction false} CountOneMore(s: seq<bool>, k: int)
    requires 0 <= k < |s| && !s[k]
    ensures Count(s[k := true], Truthy) == Count(s, Truthy) + 1
    decreases |s|
  {
    var t := s[k := true];
    var last := |s| - 1;
    assert t[..last] == if k < last then s[..last][k := true] else s[..last];
    if k < last {
      CountOneMore(s[..last], k);
    }
  }

  /**
   * The recycling factor lies between 0.5 (all five materials) and 1 (none), and each extra
   * material lowers it by exactly 0.1.
   */
  lemma RecyclingFactorSteps(r: RecyclingHabits, r': RecyclingHabits, k: int)
    requires 0 <= k < 5 && !Flags(r)[k] && Flags(r') == Flags(r)[k := true]
    ensures 0.5 <= RecyclingFactor(r) <= 1.0
    ensures RecyclingFactor(r') == RecyclingFactor(r) - 0.1
  {
    CountOneMore(Flags(r), k);
  }

  /** Within the schema both multipliers are positive and at most 1. */
  lemma MultipliersInRange(v: Answers)
    requires SchemaValid(v)
    ensures 0.0 < RecyclingMultiplier(v) <= 1.0
    ensures 0.0 < LifestyleMultiplier(v) <= 1.0
  {
    ProductWithinOne(RecyclingFactors(v));
    ProductWithinOne(LifestyleFactors(v));
  }

  // Each term and multiplier written out as the product the running sum multiplies.

  lemma HousingExpanded(v: Answers)
    ensures HousingTerm(v) ==
      2.0 * (v.houseSize / 100.0) * EnergyFactor(v.energySource) * ((6.0 - v.energyEfficiency) / 5.0) *
      InsulationFactor(v.insulationType) * HeatingFactor(v.heatingSystem) * CoolingFactor(v.coolingSystem) *
      (v.waterUsage / 150.0)
  {
    var h := HousingFactors(v);
    Product8(h[0], h[1], h[2], h[3], h[4], h[5], h[6], h[7]);
  }

  lemma DrivingExpanded(v: Answers)
    ensures DrivingTerm(v) ==
      (v.weeklyDriving / 100.0) * TransportFactor(v.primaryTransport) * CarTypeFactor(v.carType) *
      CarEfficiencyFactor(v.carFuelEfficiency)
  {
    var d := DrivingFactors(v);
    Product4(d[0], d[1], d[2], d[3]);
  }

  lemma ConsumptionExpanded(v: Answers)
    ensures ConsumptionTerm(v) ==
      2.0 * DietFactor(v.dietType) * (1.0 - v.localFoodPercentage / 200.0) * (1.0 + v.foodWaste / 100.0) *
      (v.clothingPurchases / 50.0) * (v.electronicsUsage / 8.0)
  {
    var c := ConsumptionFactors(v);
    Product6(c[0], c[1], c[2], c[3], c[4], c[5]);
  }

  lemma MultipliersExpanded(v: Answers)
    ensures RecyclingMultiplier(v) ==
      RecyclingFactor(v.recyclingHabits) * CompostingFactor(v.compostingHabits) * PlasticReductionFactor(v.singleUsePlasticsReduction)
    ensures LifestyleMultiplier(v) ==
      (1.0 - v.workFromHome * 0.02) * (if v.greenEnergyInvestment then 0.95 else 1.0) *
      (if v.communityInvolvement then 0.98 else 1.0) * (if v.carbonOffsetPurchases then 0.9 else 1.0)
  {
    var r := RecyclingFactors(v);
    Product3(r[0], r[1], r[2]);
    var l := LifestyleFactors(v);
    Product4(l[0], l[1], l[2], l[3]);
  }

  // ---------------------------------------------------------------------------------------
  // Properties of the footprint

  /** Within the schema every factor of every term is non-negative. */
  lemma TermsNonneg(v: Answers)
    requires SchemaValid(v)
    ensures 0.0 <= HousingTerm(v) && 0.0 <= DrivingTerm(v) && 0.0 <= ConsumptionTerm(v)
    ensures 0.0 <= TransportTerm(v) && 0.0 <= BaseFootprint(v)
  {
    FactorRanges(v);
    CarEfficiencyPositive(v.carFuelEfficiency);
    ProductNonneg(HousingFactors(v));
    ProductNonneg(DrivingFactors(v));
    ProductNonneg(ConsumptionFactors(v));
  }

  /** Within the schema the footprint is never negative. */
  lemma FootprintNonneg(v: Answers)
    requires SchemaValid(v)
    ensures 0.0 <= Footprint(v)
  {
    TermsNonneg(v);
    MultipliersInRange(v);
    MulNonneg(BaseFootprint(v), RecyclingMultiplier(v));
    MulNonneg(BaseFootprint(v) * RecyclingMultiplier(v), LifestyleMultiplier(v));
  }

  /**
   * Two answer sets that agree on housing, consumption and both multipliers are ordered by
   * their transport terms.
   */
  lemma FootprintFollowsTransport(v: Answers, w: Answers)
    requires SchemaValid(v)
    requires HousingTerm(v) == HousingTerm(w) && ConsumptionTerm(v) == ConsumptionTerm(w)
    requires RecyclingMultiplier(v) == RecyclingMultiplier(w)
    requires LifestyleMultiplier(v) == LifestyleMultiplier(w)
    requires TransportTerm(v) <= TransportTerm(w)
    ensures Footprint(v) <= Footprint(w)
  {
    MultipliersInRange(v);
    var bv, bw := BaseFootprint(v), BaseFootprint(w);
    var rm, lm := RecyclingMultiplier(v), LifestyleMultiplier(v);
    MulMono(bv, bw, rm);
    MulMono(bv * rm, bw * rm, lm);
  }

  /** Answers that differ only in their transport part share every other term. */
  lemma OtherTermsUnchanged(v: Answers, w: Answers)
    requires w == v.(weeklyDriving := w.weeklyDriving, flightsPerYear := w.flightsPerYear,
                     longDistanceBusTrainTrips := w.longDistanceBusTrainTrips)
    ensures HousingTerm(v) == HousingTerm(w) && ConsumptionTerm(v) == ConsumptionTerm(w)
    ensures RecyclingMultiplier(v) == RecyclingMultiplier(w)
    ensures LifestyleMultiplier(v) == LifestyleMultiplier(w)
  {
    assert HousingFactors(v) == HousingFactors(w);
    assert ConsumptionFactors(v) == ConsumptionFactors(w);
    assert RecyclingFactors(v) == RecyclingFactors(w);
    assert LifestyleFactors(v) == LifestyleFactors(w);
  }

  /** Driving more never lowers the footprint. */
  lemma MoreDrivingNeverLowers(v: Answers, km: real)
    requires SchemaValid(v) && v.weeklyDriving <= km
    ensures Footprint(v) <= Footprint(v.(weeklyDriving := km))
  {
    var w := v.(weeklyDriving := km);
    OtherTermsUnchanged(v, w);
    FactorRanges(v);
    CarEfficiencyPositive(v.carFuelEfficiency);
    ProductMonotone(DrivingFactors(v), DrivingFactors(w), 0);
    FootprintFollowsTransport(v, w);
  }

  /** Flying more never lowers the footprint. */
  lemma MoreFlightsNeverLower(v: Answers, flights: real)
    requires SchemaValid(v) && v.flightsPerYear <= flights
    ensures Footprint(v) <= Footprint(v.(flightsPerYear := flights))
  {
    var w := v.(flightsPerYear := flights);
    OtherTermsUnchanged(v, w);
    assert DrivingFactors(w) == DrivingFactors(v);
    FootprintFollowsTransport(v, w);
  }

  /** More long-distance bus or train trips never lower the footprint. */
  lemma MoreTripsNeverLower(v: Answers, trips: real)
    requires SchemaValid(v) && v.longDistanceBusTrainTrips <= trips
    ensures Footprint(v) <= Footprint(v.(longDistanceBusTrainTrips := trips))
  {
    var w := v.(longDistanceBusTrainTrips := trips);
    OtherTermsUnchanged(v, w);
    assert DrivingFactors(w) == DrivingFactors(v);
    FootprintFollowsTransport(v, w);
  }

  /** Separating one more material never raises the footprint. */
  lemma MoreRecyclingNeverRaises(v: Answers, r': RecyclingHabits, k: int)
    requires SchemaValid(v) && 0 <= k < 5
    requires !Flags(v.recyclingHabits)[k] && Flags(r') == Flags(v.recyclingHabits)[k := true]
    ensures Footprint(v.(recyclingHabits := r')) <= Footprint(v)
  {
    var w := v.(recyclingHabits := r');
    RecyclingFactorSteps(v.recyclingHabits, r', k);
    MultipliersInRange(v);
    TermsNonneg(v);
    var fv, fw := RecyclingFactors(v), RecyclingFactors(w);
    ProductWithinOne(fv);
    assert forall i :: 0 <= i < 3 && i != 0 ==> fw[i] == fv[i];
    ProductMonotone(fw, fv, 0);
    assert HousingFactors(w) == HousingFactors(v);
    assert DrivingFactors(w) == DrivingFactors(v);
    assert ConsumptionFactors(w) == ConsumptionFactors(v);
    assert LifestyleFactors(w) == LifestyleFactors(v);
    var b, lm := BaseFootprint(v), LifestyleMultiplier(v);
    var rw, rv := RecyclingMultiplier(w), RecyclingMultiplier(v);
    MulMono(rw, rv, b);
    assert b * rw <= b * rv;
    MulMono(b * rw, b * rv, lm);
  }

  /** Without a car type (or with "none") the weekly driving does not count at all. */
  lemma NoCarIgnoresDriving(v: Answers, km: real)
    requires v.carType.None? || v.carType == Some(NoCar)
    ensures DrivingTerm(v) == 0.0
    ensures Footprint(v.(weeklyDriving := km)) == Footprint(v)
  {
    var w := v.(weeklyDriving := km);
    OtherTermsUnchanged(v, w);
    var t, e := TransportFactor(v.primaryTransport), CarEfficiencyFactor(v.carFuelEfficiency);
    Product4(v.weeklyDriving / 100.0, t, 0.0, e);
    Product4(km / 100.0, t, 0.0, e);
    assert DrivingTerm(w) == 0.0;
    assert BaseFootprint(w) == BaseFootprint(v);
  }

  /** The housing type and the number of adults, children and elderly people are never read. */
  lemma HouseholdIgnored(v: Answers, h: HousingType, adults: Option<real>, children: Option<real>, elderly: Option<real>)
    ensures Footprint(v.(housingType := h, adultsNumber := adults, childrenNumber := children, elderlyNumber := elderly)) == Footprint(v)
  {
    var w := v.(housingType := h, adultsNumber := adults, childrenNumber := children, elderlyNumber := elderly);
    assert HousingFactors(w) == HousingFactors(v);
    assert DrivingFactors(w) == DrivingFactors(v);
    assert ConsumptionFactors(w) == ConsumptionFactors(v);
    assert RecyclingFactors(w) == RecyclingFactors(v);
    assert LifestyleFactors(w) == LifestyleFactors(v);
  }

  // ---------------------------------------------------------------------------------------
  // Rounding and profiles

  /** `Math.round(x * 100) / 100`: round half up to two decimals. */
  function Round2(x: real): (r: real)
    ensures x - 0.005 < r <= x + 0.005
  {
    ((x * 100.0 + 0.5).Floor as real) / 100.0
  }

  /** The rounded value is a whole number of hundredths. */
  lemma Round2Hundredths(x: real)
    ensures (Round2(x) * 100.0).Floor as real == Round2(x) * 100.0
  {
  }

  datatype Profile = EcoWarrior | ClimateConscious | AverageCitizen | HighImpact | ExtremeFootprint

  function Label(p: Profile): string
  {
    match p
    case EcoWarrior => "Eco-Warrior"
    case ClimateConscious => "Consciente del Clima"
    case AverageCitizen => "Ciudadano Promedio"
    case HighImpact => "Alto Impacto"
    case ExtremeFootprint => "Huella Extrema"
  }

  /** The five bands, each with an exclusive upper bound. */
  function Classify(f: real): (p: Profile)
    ensures p == EcoWarrior <==> f < 4.0
    ensures p == ClimateConscious <==> 4.0 <= f < 8.0
    ensures p == AverageCitizen <==> 8.0 <= f < 12.0
    ensures p == HighImpact <==> 12.0 <= f < 16.0
    ensures p == ExtremeFootprint <==> 16.0 <= f
  {
    if f < 4.0 then EcoWarrior
    else if f < 8.0 then ClimateConscious
    else if f < 12.0 then AverageCitizen
    else if f < 16.0 then HighImpact
    else ExtremeFootprint
  }

  function Rank(p: Profile): nat
  {
    match p
    case EcoWarrior => 0
    case ClimateConscious => 1
    case AverageCitizen => 2
    case HighImpact => 3
    case ExtremeFootprint => 4
  }

  /** A larger footprint never gets a milder profile. */
  lemma ClassifyMonotone(a: real, b: real)
    requires a <= b
    ensures Rank(Classify(a)) <= Rank(Classify(b))
  {
  }

  /**
   * The profile comes from the unrounded figure, so a footprint just under 4 is shown as 4
   * but classed as Eco-Warrior.
   */
  lemma RoundedAndProfileDisagreeAtFour()
    ensures Round2(3.999) == 4.0 && Classify(3.999) == EcoWarrior
  {
    assert (3.999 * 100.0 + 0.5).Floor == 400;
  }

  /** The answers with the three household counts typed in. */
  function WithHousehold(v: Answers, adults: real, children: real, elderly: real): Answers
  {
    v.(adultsNumber := Some(adults), childrenNumber := Some(children), elderlyNumber := Some(elderly))
  }

  /**
   * The starting answers fail the schema, because the household counts are missing; once they
   * are typed in, the answers pass exactly when each count lies between 0 and 20.
   */
  lemma DefaultsNeedHousehold(adults: real, children: real, elderly: real)
    ensures !SchemaValid(Defaults)
    ensures SchemaValid(WithHousehold(Defaults, adults, children, elderly)) <==>
      0.0 <= adults <= 20.0 && 0.0 <= children <= 20.0 && 0.0 <= elderly <= 20.0
  {
  }

  /**
   * The starting answers, with any household counts typed in, give 0.66 + 4.75 + 1.62 = 7.03,
   * times 0.9 for halving plastics twice.
   */
  lemma DefaultsFootprint(adults: real, children: real, elderly: real)
    ensures HousingTerm(Defaults) == 0.66
    ensures TransportTerm(Defaults) == 4.75
    ensures ConsumptionTerm(Defaults) == 1.62
    ensures var w := WithHousehold(Defaults, adults, children, elderly);
      Footprint(w) == 6.327 && Round2(Footprint(w)) == 6.33 && Classify(Footprint(w)) == ClimateConscious
  {
    NoFlagsNoCount(Defaults.recyclingHabits);
    HousingExpanded(Defaults);
    DrivingExpanded(Defaults);
    ConsumptionExpanded(Defaults);
    MultipliersExpanded(Defaults);
    assert (632.7 + 0.5).Floor == 633;
    HouseholdIgnored(Defaults, Defaults.housingType, Some(adults), Some(children), Some(elderly));
  }

  // ---------------------------------------------------------------------------------------
  // The wizard

  const StepCount := 5

  /** The calculator's state: the step shown, and the result and profile once calculated. */
  class Wizard {
    var currentStep: int
    var result: Option<real>
    var profile: Option<Profile>

    /** The step is one of the five, and a result always comes with its profile. */
    predicate Valid()
      reads this
    {
      0 <= currentStep < StepCount && (result.Some? <==> profile.Some?)
    }

    constructor()
      ensures Valid() && currentStep == 0 && result == None && profile == None
    {
      currentStep := 0;
      result := None;
      profile := None;
    }

    /** The questionnaire is shown until there is a result. */
    function ShowsForm(): bool
      reads this
    {
      result.None?
    }

    /** The progress bar: `(currentStep + 1) / steps.length * 100`. */
    function Progress(): (r: real)
      reads this
      ensures Valid() ==> 20.0 <= r <= 100.0
      ensures Valid() && currentStep == StepCount - 1 ==> r == 100.0
    {
      ((currentStep + 1) as real) / (StepCount as real) * 100.0
    }

    /**
     * `onSubmit`: the running sum of the housing, transport and consumption terms, then the
     * recycling and lifestyle multipliers; the result is rounded, the profile is taken from the
     * unrounded figure.
     */
    method OnSubmit(v: Answers)
      modifies this
      ensures result == Some(Round2(Footprint(v))) && profile == Some(Classify(Footprint(v)))
      ensures currentStep == old(currentStep)
    {
      var footprint := 0.0;
      // Housing
      footprint := footprint + HousingTerm(v);
      // Transport
      footprint := footprint + DrivingTerm(v);
      footprint := footprint + (v.publicTransportUsage / 10.0) * 0.5;
      footprint := footprint + v.flightsPerYear * 0.5;
      footprint := footprint + v.longDistanceBusTrainTrips * 0.1;
      // Consumption
      footprint := footprint + ConsumptionTerm(v);
      assert footprint == BaseFootprint(v);
      // Recycling and waste
      footprint := footprint * RecyclingMultiplier(v);
      // Lifestyle
      footprint := footprint * LifestyleMultiplier(v);
      assert footprint == Footprint(v);

      result := Some(Round2(footprint));
      if footprint < 4.0 {
        profile := Some(EcoWarrior);
      } else if footprint < 8.0 {
        profile := Some(ClimateConscious);
      } else if footprint < 12.0 {
        profile := Some(AverageCitizen);
      } else if footprint < 16.0 {
        profile := Some(HighImpact);
      } else {
        profile := Some(ExtremeFootprint);
      }
    }

    /**
     * `nextStep`: advance while there is a next step; on the last step submit the form, which
     * calculates only when the answers pass the schema.
     */
    method NextStep(v: Answers)
      requires Valid()
      modifies this
      ensures Valid()
      ensures old(currentStep) < StepCount - 1 ==>
        currentStep == old(currentStep) + 1 && result == old(result) && profile == old(profile)
      ensures old(currentStep) == StepCount - 1 ==> currentStep == old(currentStep)
      ensures old(currentStep) == StepCount - 1 && SchemaValid(v) ==>
        result == Some(Round2(Footprint(v))) && profile == Some(Classify(Footprint(v)))
      ensures old(currentStep) == StepCount - 1 && !SchemaValid(v) ==>
        result == old(result) && profile == old(profile)
    {
      if currentStep < StepCount - 1 {
        currentStep := currentStep + 1;
      } else if SchemaValid(v) {
        OnSubmit(v);
      }
    }

    /** `prevStep`: go back one step, except on the first. */
    method PrevStep()
      requires Valid()
      modifies this
      ensures Valid()
      ensures currentStep == if old(currentStep) > 0 then old(currentStep) - 1 else old(currentStep)
      ensures result == old(result) && profile == old(profile)
    {
      if currentStep > 0 {
        currentStep := currentStep - 1;
      }
    }

    /** "Volver a calcular": clear the result and the profile; the step is left where it was. */
    method Recalculate()
      requires Valid()
      modifies this
      ensures Valid() && ShowsForm()
      ensures result == None && profile == None && currentStep == old(currentStep)
    {
      result := None;
      profile := None;
    }
  }

  /**
   * Clicking "Siguiente" through the five steps of an untouched form and then "Calcular": the
   * schema rejects the missing household counts, so no result appears.
   */
  method SubmitUntouchedForm() returns (r: Option<real>)
    ensures r == None
  {
    var w := new Wizard();
    DefaultsNeedHousehold(0.0, 0.0, 0.0);
    w.NextStep(Defaults);
    w.NextStep(Defaults);
    w.NextStep(Defaults);
    w.NextStep(Defaults);
    w.NextStep(Defaults);
    r := w.result;
  }

  /** The same clicks after typing the household counts in: the result is 6.33 tonnes. */
  method SubmitFilledDefaults(adults: real, children: real, elderly: real) returns (r: Option<real>)
    requires 0.0 <= adults <= 20.0 && 0.0 <= children <= 20.0 && 0.0 <= elderly <= 20.0
    ensures r == Some(6.33)
  {
    var v := WithHousehold(Defaults, adults, children, elderly);
    var w := new Wizard();
    DefaultsNeedHousehold(adults, children, elderly);
    DefaultsFootprint(adults, children, elderly);
    w.NextStep(v);
    w.NextStep(v);
    w.NextStep(v);
    w.NextStep(v);
    w.NextStep(v);
    r := w.result;
  }

  /** The result bar: `result / 20 * 100`, full at 20 tonnes. */
  function ResultBar(result: real): (r: real)
    ensures 0.0 <= result <= 20.0 ==> 0.0 <= r <= 100.0
  {
    result / 20.0 * 100.0
  }
}
