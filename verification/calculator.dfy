/** The calculator's state: the five inputs, the last result and its suggestion,
    and the visibility of the info panel, with the operations that change them. */
module CalculatorState {
  import opened Emissions
  import opened Suggestions

  /** What parsing a text field as a decimal number yields. */
  datatype ParsedNumber = Finite(value: real) | NotANumber

  /** A numeric field keeps a parsed number, falling back to 0 for a falsy one (NaN or zero). */
  function Coerce(p: ParsedNumber): (r: real)
    ensures p.Finite? ==> r == p.value
    ensures p.NotANumber? ==> r == 0.0
    ensures r != 0.0 ==> p == Finite(r)
  {
    if p.Finite? && p.value != 0.0 then p.value else 0.0
  }

  class Calculator {
    // Inputs.
    var electricityKWh: real
    var vehicleType: string
    var transportKm: real
    var wasteKg: real
    var dietType: string
    // Results of the last calculation; an empty breakdown means none since creation or reset.
    var totalEmissions: real
    var emissionBreakdown: seq<Entry>
    var treesEquivalent: real
    var staticSuggestions: string
    // Presentation flag.
    var showInfoModal: bool

    /** The results hang together: the total is the breakdown's sum, the trees
        follow from the total, and a computed breakdown has the four categories
        in order and carries its own suggestion. */
    ghost predicate Valid()
      reads this
    {
      && totalEmissions == Sum(emissionBreakdown)
      && treesEquivalent * 21.0 == totalEmissions * 12.0
      && (emissionBreakdown == [] ==> staticSuggestions == "")
      && (emissionBreakdown != [] ==>
            Categories(emissionBreakdown) == CategoryOrder
            && staticSuggestions == Suggestion(emissionBreakdown, totalEmissions))
    }

    /** True once a calculation has run since creation or the last reset. */
    ghost predicate Computed()
      reads this
    {
      emissionBreakdown != []
    }

    function Input(): Inputs
      reads this
    {
      Inputs(electricityKWh, vehicleType, transportKm, wasteKg, dietType)
    }

    function Result(): EmissionResult
      reads this
    {
      EmissionResult(totalEmissions, emissionBreakdown, treesEquivalent)
    }

    constructor ()
      ensures Valid() && !Computed()
      ensures Input() == DefaultInputs
      ensures totalEmissions == 0.0 && treesEquivalent == 0.0 && staticSuggestions == ""
      ensures !showInfoModal
    {
      electricityKWh := 0.0;
      vehicleType := Car;
      transportKm := 0.0;
      wasteKg := 0.0;
      dietType := "daging";
      totalEmissions := 0.0;
      emissionBreakdown := [];
      treesEquivalent := 0.0;
      staticSuggestions := "";
      showInfoModal := false;
    }

    /** Recomputes every category from the current inputs and replaces total,
        breakdown, trees and suggestion together; inputs and flag are kept. */
    method Calculate()
      modifies this
      ensures Valid() && Computed()
      ensures Input() == old(Input()) && showInfoModal == old(showInfoModal)
      ensures Result() == Compute(Input())
      ensures staticSuggestions == Suggestion(emissionBreakdown, totalEmissions)
    {
      var electricityEmissions := ElectricityEmission(electricityKWh);
      var transportEmissions := TransportEmission(vehicleType, transportKm);
      var wasteEmissions := WasteEmission(wasteKg);
      var dietEmissions := DietEmission(dietType);

      var total := electricityEmissions + transportEmissions + wasteEmissions + dietEmissions;
      totalEmissions := total;
      emissionBreakdown := Breakdown(electricityEmissions, transportEmissions, wasteEmissions, dietEmissions);

      var annualEmissions := total * 12.0;
      treesEquivalent := annualEmissions / Co2PerTreePerYear;

      staticSuggestions := StaticSuggestions(emissionBreakdown, totalEmissions);
    }

    /** Restores the default inputs and clears the results; the info panel stays as it is. */
    method Reset()
      modifies this
      ensures Valid() && !Computed()
      ensures Input() == DefaultInputs
      ensures totalEmissions == 0.0 && treesEquivalent == 0.0 && staticSuggestions == ""
      ensures showInfoModal == old(showInfoModal)
    {
      electricityKWh := 0.0;
      vehicleType := Car;
      transportKm := 0.0;
      wasteKg := 0.0;
      dietType := "daging";
      totalEmissions := 0.0;
      emissionBreakdown := [];
      treesEquivalent := 0.0;
      staticSuggestions := "";
    }

    // Input handlers: each stores one field and recomputes nothing.

    method SetElectricity(p: ParsedNumber)
      requires Valid()
      modifies this`electricityKWh
      ensures Valid()
      ensures electricityKWh == Coerce(p)
    {
      electricityKWh := Coerce(p);
    }

    method SetTransportKm(p: ParsedNumber)
      requires Valid()
      modifies this`transportKm
      ensures Valid()
      ensures transportKm == Coerce(p)
    {
      transportKm := Coerce(p);
    }

    method SetVehicle(v: string)
      requires Valid()
      modifies this`vehicleType
      ensures Valid()
      ensures vehicleType == v
    {
      vehicleType := v;
    }

    method SetWaste(p: ParsedNumber)
      requires Valid()
      modifies this`wasteKg
      ensures Valid()
      ensures wasteKg == Coerce(p)
    {
      wasteKg := Coerce(p);
    }

    method SetDiet(d: string)
      requires Valid()
      modifies this`dietType
      ensures Valid()
      ensures dietType == d
    {
      dietType := d;
    }

    method OpenInfo()
      requires Valid()
      modifies this`showInfoModal
      ensures Valid()
      ensures showInfoModal
    {
      showInfoModal := true;
    }

    method CloseInfo()
      requires Valid()
      modifies this`showInfoModal
      ensures Valid()
      ensures !showInfoModal
    {
      showInfoModal := false;
    }
  }

  /** A fresh calculator, calculated at once: only the meat-heavy diet
      contributes, and the suggestion is the diet advice. */
  method DefaultSession() returns (total: real, trees: real, suggestion: string)
    ensures total == 250.0 && trees * 21.0 == 3000.0
    ensures suggestion == Header + DietAdvice + Closing
  {
    var c := new Calculator();
    c.Calculate();
    DefaultCalculation();
    ChosenCategory(0.0, 0.0, 0.0, 250.0);
    total, trees, suggestion := c.totalEmissions, c.treesEquivalent, c.staticSuggestions;
  }

  /** Whatever was entered and calculated, a reset restores the defaults and
      clears the result while an open info panel stays open. */
  method ResetAfterUse(kWh: ParsedNumber, vehicle: string, km: ParsedNumber, waste: ParsedNumber, diet: string)
    returns (panelOpen: bool, inputs: Inputs, computed: bool, suggestion: string)
    ensures panelOpen && inputs == DefaultInputs && !computed && suggestion == ""
  {
    var c := new Calculator();
    c.OpenInfo();
    c.SetElectricity(kWh);
    c.SetVehicle(vehicle);
    c.SetTransportKm(km);
    c.SetWaste(waste);
    c.SetDiet(diet);
    c.Calculate();
    c.Reset();
    panelOpen, inputs, computed, suggestion := c.showInfoModal, c.Input(), c.emissionBreakdown != [], c.staticSuggestions;
  }

  /** Changing an input after a calculation leaves the shown result stale until
      the next calculation, which then agrees with a calculation from scratch. */
  method EditThenRecalculate(kWh: ParsedNumber, vehicle: string)
    returns (before: EmissionResult, stale: EmissionResult, after: EmissionResult)
    ensures stale == before
    ensures after == Compute(Inputs(Coerce(kWh), vehicle, 0.0, 0.0, "daging"))
    ensures after.total == Coerce(kWh) * 0.5 + 250.0
  {
    var c := new Calculator();
    c.Calculate();
    before := c.Result();
    c.SetElectricity(kWh);
    c.SetVehicle(vehicle);
    stale := c.Result();
    assert c.Input() == Inputs(Coerce(kWh), vehicle, 0.0, 0.0, "daging");
    c.Calculate();
    after := c.Result();
    TotalIsSumOfCategories(c.Input());
  }

  /** Calculating twice without an input change gives the same result and suggestion. */
  method CalculateTwice(c: Calculator) returns (first: EmissionResult, second: EmissionResult, s1: string, s2: string)
    modifies c
    ensures first == second && s1 == s2
  {
    c.Calculate();
    first, s1 := c.Result(), c.staticSuggestions;
    c.Calculate();
    second, s2 := c.Result(), c.staticSuggestions;
  }
}
