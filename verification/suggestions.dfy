/** Derivation of the improvement suggestion from an emission breakdown: the
    category with the strictly greatest positive amount, earliest first on ties,
    selects one fixed advice block framed by a fixed header and closing line. */
module Suggestions {
  import opened Emissions

  datatype Option<T> = None | Some(value: T)

  /** Returned when there is nothing to advise on yet. */
  const Sentinel: string := "Hitung jejak karbon Anda untuk mendapatkan saran personalisasi!"
  const Header: string := "Berikut adalah beberapa saran untuk mengurangi jejak karbon Anda:\n\n"
  const Closing: string := "\nSetiap langkah kecil berarti besar! Mari bersama menciptakan Indonesia bebas emisi."

  // Advice blocks, each represented by its heading line.
  const ElectricityAdvice: string := "Fokus pada penghematan listrik:\n"
  const TransportAdvice: string := "Fokus pada pengurangan emisi transportasi:\n"
  const WasteAdvice: string := "Fokus pada pengelolaan sampah yang lebih baik:\n"
  const DietAdvice: string := "Fokus pada pola makan yang lebih berkelanjutan:\n"
  const GeneralAdvice: string := "Secara umum, Anda bisa:\n"

  /** Index of the entry a left-to-right scan keeps as the highest, where an
      entry replaces the current one only when its amount is strictly greater
      (the scan starts from amount 0 and no entry). */
  function Lead(b: seq<Entry>): (r: Option<nat>)
    ensures r.None? <==> forall j :: 0 <= j < |b| ==> b[j].amount <= 0.0
    ensures r.Some? ==> r.value < |b| && b[r.value].amount > 0.0
    ensures r.Some? ==> forall j :: 0 <= j < r.value ==> b[j].amount < b[r.value].amount
    ensures r.Some? ==> forall j :: r.value < j < |b| ==> b[j].amount <= b[r.value].amount
  {
    if b == [] then None
    else
      var last := |b| - 1;
      match Lead(b[..last])
      case None => if b[last].amount > 0.0 then Some(last) else None
      case Some(k) => if b[last].amount > b[k].amount then Some(last) else Some(k)
  }

  /** Entry i is positive, strictly above every earlier entry and at least every later one. */
  ghost predicate IsFirstMaximum(b: seq<Entry>, i: int)
  {
    && 0 <= i < |b| && b[i].amount > 0.0
    && (forall j :: 0 <= j < i ==> b[j].amount < b[i].amount)
    && (forall j :: i < j < |b| ==> b[j].amount <= b[i].amount)
  }

  /** The category name the scan ends with; the empty name when no amount is positive. */
  function LeadingCategory(b: seq<Entry>): (c: string)
    ensures (forall j :: 0 <= j < |b| ==> b[j].amount <= 0.0) ==> c == ""
    ensures forall i :: IsFirstMaximum(b, i) ==> c == b[i].category
  {
    match Lead(b)
    case None => ""
    case Some(k) => b[k].category
  }

  /** The advice block for a category name; any other name gets the general block. */
  function Advice(category: string): (block: string)
    ensures category == "listrik" ==> block == ElectricityAdvice
    ensures category == "transportasi" ==> block == TransportAdvice
    ensures category == "sampah" ==> block == WasteAdvice
    ensures category == "makanan" ==> block == DietAdvice
    ensures category !in CategoryOrder ==> block == GeneralAdvice
  {
    if category == Electricity then ElectricityAdvice
    else if category == Transport then TransportAdvice
    else if category == Waste then WasteAdvice
    else if category == Diet then DietAdvice
    else GeneralAdvice
  }

  /** The suggestion for a breakdown, given the current monthly total. */
  function Suggestion(b: seq<Entry>, total: real): (r: string)
    ensures r == Sentinel <==> |b| == 0 || total == 0.0
    ensures r != Sentinel ==> |r| >= |Header| + |Closing|
    ensures r != Sentinel ==> r[..|Header|] == Header && r[|r| - |Closing|..] == Closing
  {
    if |b| == 0 || total == 0.0 then Sentinel
    else
      var s := Header + Advice(LeadingCategory(b)) + Closing;
      assert |Sentinel| < |Header| + |Closing|;
      s
  }

  /** The scan with its running highest category and amount, as a loop. */
  method StaticSuggestions(b: seq<Entry>, total: real) returns (s: string)
    ensures s == Suggestion(b, total)
  {
    if |b| == 0 || total == 0.0 {
      return Sentinel;
    }
    var highestCategory := "";
    var highestEmission := 0.0;
    for k := 0 to |b|
      invariant Lead(b[..k]).None? ==> highestCategory == "" && highestEmission == 0.0
      invariant Lead(b[..k]).Some? ==> highestCategory == b[Lead(b[..k]).value].category
      invariant Lead(b[..k]).Some? ==> highestEmission == b[Lead(b[..k]).value].amount
    {
      assert b[..k + 1][..k] == b[..k];
      if b[k].amount > highestEmission {
        highestEmission := b[k].amount;
        highestCategory := b[k].category;
      }
    }
    assert b[..|b|] == b;
    s := Header;
    s := s + Advice(highestCategory);
    s := s + Closing;
  }

  /** The characterisation of Lead determines it: the first entry that is positive,
      beats every earlier entry strictly and every later entry weakly is the one chosen. */
  lemma LeadIsFirstMaximum(b: seq<Entry>, i: nat)
    requires i < |b| && b[i].amount > 0.0
    requires forall j :: 0 <= j < i ==> b[j].amount < b[i].amount
    requires forall j :: i < j < |b| ==> b[j].amount <= b[i].amount
    ensures Lead(b) == Some(i)
  {
  }

  /** Which category a calculated breakdown selects, stated over its four amounts. */
  lemma ChosenCategory(e: real, t: real, w: real, d: real)
    ensures LeadingCategory(Breakdown(e, t, w, d)) ==
            if e > 0.0 && e >= t && e >= w && e >= d then Electricity
            else if t > 0.0 && t > e && t >= w && t >= d then Transport
            else if w > 0.0 && w > e && w > t && w >= d then Waste
            else if d > 0.0 && d > e && d > t && d > w then Diet
            else ""
  {
    var b := Breakdown(e, t, w, d);
    if e > 0.0 && e >= t && e >= w && e >= d {
      LeadIsFirstMaximum(b, 0);
    } else if t > 0.0 && t > e && t >= w && t >= d {
      LeadIsFirstMaximum(b, 1);
    } else if w > 0.0 && w > e && w > t && w >= d {
      LeadIsFirstMaximum(b, 2);
    } else if d > 0.0 && d > e && d > t && d > w {
      LeadIsFirstMaximum(b, 3);
    }
  }

  /** Equal electricity and transport amounts: the earlier category, electricity, wins. */
  lemma TieKeepsEarlierCategory()
    ensures Suggestion(Breakdown(10.0, 10.0, 0.0, 0.0), 20.0) == Header + ElectricityAdvice + Closing
  {
  }

  /** A non-empty breakdown with a non-zero total but no positive amount gets the general block. */
  lemma GeneralAdviceWhenNothingPositive(b: seq<Entry>, total: real)
    requires |b| > 0 && total != 0.0
    requires forall j :: 0 <= j < |b| ==> b[j].amount <= 0.0
    ensures Suggestion(b, total) == Header + GeneralAdvice + Closing
  {
  }

  /** The advice blocks are pairwise distinct, so a suggestion names the category that won. */
  lemma AdviceIdentifiesCategory(c1: string, c2: string)
    requires c1 in CategoryOrder && c2 in CategoryOrder
    ensures Advice(c1) == Advice(c2) <==> c1 == c2
    ensures Advice(c1) != GeneralAdvice
  {
  }

  /** With non-negative inputs and a known diet the total is positive, so a
      calculation always yields one of the four category blocks, never the prompt. */
  lemma KnownDietGetsCategoryAdvice(i: Inputs)
    requires i.electricityKWh >= 0.0 && i.transportKm >= 0.0 && i.wasteKg >= 0.0
    requires i.dietType in DietMonthly
    ensures Suggestion(Compute(i).breakdown, Compute(i).total) != Sentinel
    ensures LeadingCategory(Compute(i).breakdown) in CategoryOrder
  {
  }
}
