/** The emission computation of the carbon-footprint calculator: the fixed
    emission factors, the contribution of each lifestyle category and the
    monthly total with its tree equivalent. All quantities are exact reals
    (kg CO2e per month unless stated otherwise). */
module Emissions {

  // Emission factors, kg CO2e per unit.
  const ElectricityPerKWh: real := 0.5
  const CarPerKm: real := 0.18
  const MotorcyclePerKm: real := 0.08
  const PublicTransportPerKm: real := 0.05
  const WastePerKg: real := 0.5
  /** A month is approximated by four weeks of waste. */
  const WeeksPerMonth: real := 4.0
  /** Monthly emissions of each known diet; any other diet contributes 0. */
  const DietMonthly: map<string, real> := map["daging" := 250.0, "vegetarian" := 100.0, "vegan" := 50.0]
  /** A mature tree absorbs about 21 kg CO2 per year. */
  const Co2PerTreePerYear: real := 21.0

  // Vehicle names as the input stores them.
  const Car: string := "mobil"
  const Motorcycle: string := "motor"
  const PublicTransport: string := "umum"
  const WalkOrBike: string := "sepeda/jalan kaki"

  // Breakdown category names, in the order the breakdown is built.
  const Electricity: string := "listrik"
  const Transport: string := "transportasi"
  const Waste: string := "sampah"
  const Diet: string := "makanan"
  const CategoryOrder: seq<string> := [Electricity, Transport, Waste, Diet]

  /** One key/value pair of the breakdown object, kept in insertion order. */
  datatype Entry = Entry(category: string, amount: real)

  /** The five inputs of a calculation. */
  datatype Inputs = Inputs(electricityKWh: real, vehicleType: string, transportKm: real,
                           wasteKg: real, dietType: string)

  const DefaultInputs: Inputs := Inputs(0.0, Car, 0.0, 0.0, "daging")

  /** What a calculation produces: monthly total, breakdown and trees needed to offset a year. */
  datatype EmissionResult = EmissionResult(total: real, breakdown: seq<Entry>, trees: real)

  /** Sum of the amounts of a breakdown. */
  function Sum(b: seq<Entry>): real
  {
    if b == [] then 0.0 else b[0].amount + Sum(b[1..])
  }

  /** The category names of a breakdown, in order. */
  function Categories(b: seq<Entry>): (names: seq<string>)
    ensures |names| == |b|
    ensures forall i :: 0 <= i < |b| ==> names[i] == b[i].category
  {
    if b == [] then [] else [b[0].category] + Categories(b[1..])
  }

  /** The value stored under a category name: the amount of the first entry with that name. */
  function Amount(b: seq<Entry>, c: string): (r: real)
    requires c in Categories(b)
    ensures exists k :: 0 <= k < |b| && b[k] == Entry(c, r)
  {
    if b[0].category == c then b[0].amount
    else
      var r := Amount(b[1..], c);
      assert b[1..][0] == b[1];
      r
  }

  /** No entry before position k carries name c, and entry k does: the lookup
      returns entry k's amount, so a repeated name reads its first occurrence. */
  lemma {:induction false} AmountIsFirst(b: seq<Entry>, c: string, k: nat)
    requires k < |b| && b[k].category == c
    requires forall j :: 0 <= j < k ==> b[j].category != c
    ensures c in Categories(b) && Amount(b, c) == b[k].amount
  {
    assert Categories(b)[k] == c;
    if k > 0 {
      AmountIsFirst(b[1..], c, k - 1);
    }
  }

  /** Electricity contribution; a zero (falsy) reading skips the multiplication. */
  function ElectricityEmission(kWh: real): (r: real)
    ensures r == kWh * ElectricityPerKWh
    ensures r == 0.0 <==> kWh == 0.0
  {
    if kWh != 0.0 then kWh * ElectricityPerKWh else 0.0
  }

  /** Transport contribution: the distance times the rate of the vehicle; a zero
      distance, walking or cycling, and any unrecognised vehicle contribute 0. */
  function TransportEmission(vehicle: string, km: real): (r: real)
    ensures vehicle == Car ==> r == km * 0.18
    ensures vehicle == Motorcycle ==> r == km * 0.08
    ensures vehicle == PublicTransport ==> r == km * 0.05
    ensures vehicle !in {Car, Motorcycle, PublicTransport} ==> r == 0.0
    ensures km == 0.0 ==> r == 0.0
  {
    if km != 0.0 then
      var distance := km;
      if vehicle == Car then distance * CarPerKm
      else if vehicle == Motorcycle then distance * MotorcyclePerKm
      else if vehicle == PublicTransport then distance * PublicTransportPerKm
      else if vehicle == WalkOrBike then 0.0
      else 0.0
    else 0.0
  }

  /** Waste contribution: weekly kilograms over a four-week month. */
  function WasteEmission(kg: real): (r: real)
    ensures r == kg * 2.0
    ensures r == 0.0 <==> kg == 0.0
  {
    if kg != 0.0 then kg * WastePerKg * WeeksPerMonth else 0.0
  }

  /** Diet contribution: the table value, or 0 when the diet is unknown or its value is falsy. */
  function DietEmission(diet: string): (r: real)
    ensures diet == "daging" ==> r == 250.0
    ensures diet == "vegetarian" ==> r == 100.0
    ensures diet == "vegan" ==> r == 50.0
    ensures diet !in {"daging", "vegetarian", "vegan"} ==> r == 0.0
    ensures r >= 0.0
  {
    if diet in DietMonthly && DietMonthly[diet] != 0.0 then DietMonthly[diet] else 0.0
  }

  /** Trees needed to absorb a year of the given monthly total. */
  function TreesEquivalent(total: real): (trees: real)
    ensures trees * 21.0 == total * 12.0
    ensures total >= 0.0 ==> trees >= 0.0
  {
    var annualEmissions := total * 12.0;
    annualEmissions / Co2PerTreePerYear
  }

  /** The breakdown object built from the four contributions, in insertion order. */
  function Breakdown(electricity: real, transport: real, waste: real, diet: real): (b: seq<Entry>)
    ensures Categories(b) == CategoryOrder
    ensures b[0].amount == electricity && b[1].amount == transport
    ensures b[2].amount == waste && b[3].amount == diet
    ensures Sum(b) == electricity + transport + waste + diet
  {
    var b := [Entry(Electricity, electricity), Entry(Transport, transport), Entry(Waste, waste), Entry(Diet, diet)];
    assert Sum(b[3..]) == diet by { assert b[3..][1..] == []; }
    assert Sum(b[2..]) == waste + diet by { assert b[2..][1..] == b[3..]; }
    assert Sum(b[1..]) == transport + waste + diet by { assert b[1..][1..] == b[2..]; }
    b
  }

  /** Read by name, the breakdown holds each contribution under its own key. */
  lemma BreakdownByKey(electricity: real, transport: real, waste: real, diet: real)
    ensures var b := Breakdown(electricity, transport, waste, diet);
            && Amount(b, Electricity) == electricity && Amount(b, Transport) == transport
            && Amount(b, Waste) == waste && Amount(b, Diet) == diet
  {
    var b := Breakdown(electricity, transport, waste, diet);
    AmountIsFirst(b, Electricity, 0);
    AmountIsFirst(b, Transport, 1);
    AmountIsFirst(b, Waste, 2);
    AmountIsFirst(b, Diet, 3);
  }

  /** One calculation: each category's contribution, their exact sum, and the tree equivalent. */
  function Compute(i: Inputs): (r: EmissionResult)
    ensures Categories(r.breakdown) == CategoryOrder
    ensures r.total == Sum(r.breakdown)
    ensures r.trees * 21.0 == r.total * 12.0
    ensures r.breakdown[0].amount == i.electricityKWh * 0.5
    ensures r.breakdown[1].amount == TransportEmission(i.vehicleType, i.transportKm)
    ensures r.breakdown[2].amount == i.wasteKg * 0.5 * 4.0
    ensures r.breakdown[3].amount == DietEmission(i.dietType)
  {
    var electricity := ElectricityEmission(i.electricityKWh);
    var transport := TransportEmission(i.vehicleType, i.transportKm);
    var waste := WasteEmission(i.wasteKg);
    var diet := DietEmission(i.dietType);
    var total := electricity + transport + waste + diet;
    EmissionResult(total, Breakdown(electricity, transport, waste, diet), TreesEquivalent(total))
  }

  /** With every input at its default, only the meat-heavy diet contributes. */
  lemma DefaultCalculation()
    ensures Compute(DefaultInputs).breakdown ==
            [Entry(Electricity, 0.0), Entry(Transport, 0.0), Entry(Waste, 0.0), Entry(Diet, 250.0)]
    ensures Compute(DefaultInputs).total == 250.0
  {
  }

  /** Non-negative inputs give non-negative contributions, total and tree count. */
  lemma NonNegativeInputs(i: Inputs)
    requires i.electricityKWh >= 0.0 && i.transportKm >= 0.0 && i.wasteKg >= 0.0
    ensures forall k :: 0 <= k < 4 ==> Compute(i).breakdown[k].amount >= 0.0
    ensures Compute(i).total >= DietEmission(i.dietType) >= 0.0
    ensures Compute(i).trees >= 0.0
  {
  }

  /** Looking the four categories up by name in a calculated breakdown and adding
      them gives the total: listrik + transportasi + sampah + makanan. */
  lemma TotalIsSumOfCategories(i: Inputs)
    ensures var bd := Compute(i).breakdown;
            Compute(i).total == Amount(bd, Electricity) + Amount(bd, Transport)
                                + Amount(bd, Waste) + Amount(bd, Diet)
  {
  }
}
