/** The decision logic of the forecasting page (src/pages/Forecasting.tsx:20-142):
    the soil-health report, the soil-impact multiplier and the fixed-table yield
    estimator. The random draw of the estimator is a parameter. */
module Forecasting {
  import opened Options
  import opened Text
  import opened Tables
  import opened Prediction

  // ---------------------------------------------------------------------------
  // Soil-health report (lines 20-59)
  // ---------------------------------------------------------------------------

  /** Where a reading falls against a band; both ends belong to the band, since
      the source tests `x < low` and `x > high`. */
  datatype Band = Below | Within | Above

  function BandOf(x: real, low: real, high: real): Band
  {
    if x < low then Below else if x > high then Above else Within
  }

  /** The status labels of the report. */
  datatype Status = Acidic | Alkaline | Optimal | Low | Medium | High {
    function Label(): string
    {
      match this
      case Acidic => "Acidic"
      case Alkaline => "Alkaline"
      case Optimal => "Optimal"
      case Low => "Low"
      case Medium => "Medium"
      case High => "High"
    }
  }

  datatype Nutrient = PH | Nitrogen | Phosphorus | Potassium

  /** One row of the report: the reading as given, its status and the advice. */
  datatype Reading = Reading(value: real, status: Status, recommendation: string)

  datatype SoilHealth = SoilHealth(pH: Reading, nitrogen: Reading, phosphorus: Reading, potassium: Reading)

  function PhStatus(b: Band): Status
  {
    match b
    case Below => Acidic
    case Above => Alkaline
    case Within => Optimal
  }

  function LevelStatus(b: Band): Status
  {
    match b
    case Below => Low
    case Above => High
    case Within => Medium
  }

  /** The advice the report gives for a nutrient whose reading falls in `b`. */
  function Advice(n: Nutrient, b: Band): string
  {
    match (n, b)
    case (PH, Below) => "Add lime to increase soil pH for better nutrient availability"
    case (PH, Above) => "Add organic matter or sulfur to lower pH gradually"
    case (PH, Within) => "pH is in optimal range for most crops"
    case (Nitrogen, Below) => "Apply nitrogen-rich fertilizers or incorporate legumes in rotation"
    case (Nitrogen, Above) => "Reduce nitrogen application, consider nitrogen-consuming crops"
    case (Nitrogen, Within) => "Maintain current nitrogen management practices"
    case (Phosphorus, Below) => "Apply phosphate fertilizers and incorporate organic matter"
    case (Phosphorus, Above) => "Reduce phosphorus application to prevent runoff issues"
    case (Phosphorus, Within) => "Maintain current phosphorus levels with balanced fertilization"
    case (Potassium, Below) => "Apply potassium-rich fertilizers like potassium sulfate"
    case (Potassium, Above) => "Reduce potassium application in future seasons"
    case (Potassium, Within) => "Maintain current potassium management practices"
  }

  /** The band a status names. */
  function StatusBand(s: Status): Band
  {
    match s
    case Acidic | Low => Below
    case Alkaline | High => Above
    case Optimal | Medium => Within
  }

  /** The pH row: acidic below 5.5, alkaline above 7.5, optimal in between. */
  function PhReading(ph: real): (r: Reading)
    ensures r.value == ph
    ensures r.status in {Acidic, Optimal, Alkaline}
    ensures r.status == Acidic <==> ph < 5.5
    ensures r.status == Alkaline <==> ph > 7.5
    ensures r.recommendation == Advice(PH, StatusBand(r.status))
  {
    var b := BandOf(ph, 5.5, 7.5);
    Reading(ph, PhStatus(b), Advice(PH, b))
  }

  /** A nutrient row: low below `low`, high above `high`, medium in between. */
  function LevelReading(n: Nutrient, x: real, low: real, high: real): (r: Reading)
    requires low <= high
    ensures r.value == x
    ensures r.status in {Low, Medium, High}
    ensures r.status == Low <==> x < low
    ensures r.status == High <==> x > high
    ensures r.recommendation == Advice(n, StatusBand(r.status))
  {
    var b := BandOf(x, low, high);
    Reading(x, LevelStatus(b), Advice(n, b))
  }

  /** `analyzeSoilHealth`: classifies pH against [5.5, 7.5], nitrogen against
      [250, 450], phosphorus against [12, 25] and potassium against [150, 280]
      (kg/ha); no input is rejected. */
  function AnalyzeSoilHealth(ph: real, nitrogen: real, phosphorus: real, potassium: real): (h: SoilHealth)
    ensures h.pH.value == ph && h.nitrogen.value == nitrogen
    ensures h.phosphorus.value == phosphorus && h.potassium.value == potassium
    ensures h.pH.status in {Acidic, Optimal, Alkaline}
    ensures h.pH.status == Acidic <==> ph < 5.5
    ensures h.pH.status == Alkaline <==> ph > 7.5
    ensures h.nitrogen.status in {Low, Medium, High}
    ensures h.nitrogen.status == Low <==> nitrogen < 250.0
    ensures h.nitrogen.status == High <==> nitrogen > 450.0
    ensures h.phosphorus.status in {Low, Medium, High}
    ensures h.phosphorus.status == Low <==> phosphorus < 12.0
    ensures h.phosphorus.status == High <==> phosphorus > 25.0
    ensures h.potassium.status in {Low, Medium, High}
    ensures h.potassium.status == Low <==> potassium < 150.0
    ensures h.potassium.status == High <==> potassium > 280.0
  {
    SoilHealth(
      PhReading(ph),
      LevelReading(Nitrogen, nitrogen, 250.0, 450.0),
      LevelReading(Phosphorus, phosphorus, 12.0, 25.0),
      LevelReading(Potassium, potassium, 150.0, 280.0))
  }

  /** Each piece of advice is decided by the same test as the status next to
      it: the advice is the one for the band the status names, so equal
      statuses always come with equal advice. */
  lemma AdviceFollowsStatus(ph: real, nitrogen: real, phosphorus: real, potassium: real)
    ensures var h := AnalyzeSoilHealth(ph, nitrogen, phosphorus, potassium);
      && h.pH.recommendation == Advice(PH, StatusBand(h.pH.status))
      && h.nitrogen.recommendation == Advice(Nitrogen, StatusBand(h.nitrogen.status))
      && h.phosphorus.recommendation == Advice(Phosphorus, StatusBand(h.phosphorus.status))
      && h.potassium.recommendation == Advice(Potassium, StatusBand(h.potassium.status))
  {
  }

  /** The band ends themselves are inside the band. */
  lemma SoilHealthBoundaries()
    ensures AnalyzeSoilHealth(5.5, 250.0, 12.0, 150.0) ==
      SoilHealth(Reading(5.5, Optimal, Advice(PH, Within)),
                 Reading(250.0, Medium, Advice(Nitrogen, Within)),
                 Reading(12.0, Medium, Advice(Phosphorus, Within)),
                 Reading(150.0, Medium, Advice(Potassium, Within)))
    ensures AnalyzeSoilHealth(7.5, 450.0, 25.0, 280.0) ==
      SoilHealth(Reading(7.5, Optimal, Advice(PH, Within)),
                 Reading(450.0, Medium, Advice(Nitrogen, Within)),
                 Reading(25.0, Medium, Advice(Phosphorus, Within)),
                 Reading(280.0, Medium, Advice(Potassium, Within)))
    ensures AnalyzeSoilHealth(7.51, 300.0, 15.0, 200.0).pH.status == Alkaline
    ensures AnalyzeSoilHealth(5.0, 300.0, 15.0, 200.0).pH.status == Acidic
  {
  }

  // ---------------------------------------------------------------------------
  // Soil-impact multiplier (lines 61-91)
  // ---------------------------------------------------------------------------

  /** The soil classes the multiplier distinguishes. */
  datatype SoilCategory = Black | Red | Alluvial | UsarOrCalcareous | Laterite | Unclassified

  /** The keywords in the order the source tests them. */
  const SoilKeywords: seq<(string, SoilCategory)> := [
    ("black", Black), ("red", Red), ("alluvial", Alluvial),
    ("usar", UsarOrCalcareous), ("calcareous", UsarOrCalcareous), ("laterite", Laterite)]

  /** `calculateSoilImpact`'s chain of `includes` tests on the lower-cased soil type. */
  function SoilCategoryOf(soilType: string): SoilCategory
  {
    var s := ToLower(soilType);
    if Contains(s, "black") then Black
    else if Contains(s, "red") then Red
    else if Contains(s, "alluvial") then Alluvial
    else if Contains(s, "usar") || Contains(s, "calcareous") then UsarOrCalcareous
    else if Contains(s, "laterite") then Laterite
    else Unclassified
  }

  function SoilTypeFactor(c: SoilCategory): real
  {
    match c
    case Black => 1.18
    case Red => 0.95
    case Alluvial => 1.2
    case UsarOrCalcareous => 0.75
    case Laterite => 0.8
    case Unclassified => 1.0
  }

  /** The nutrient bands the multiplier, the confidence score and the factor
      labels all test. */
  predicate IdealPh(ph: real) { 6.0 <= ph <= 7.5 }
  predicate IdealNitrogen(nitrogen: real) { 300.0 < nitrogen < 400.0 }
  predicate RichPhosphorus(phosphorus: real) { phosphorus > 15.0 }
  predicate RichPotassium(potassium: real) { potassium > 210.0 }

  function PhFactor(ph: real): real { if IdealPh(ph) then 1.05 else 0.95 }
  function NitrogenFactor(nitrogen: real): real { if IdealNitrogen(nitrogen) then 1.05 else 0.97 }
  function PhosphorusFactor(phosphorus: real): real { if RichPhosphorus(phosphorus) then 1.03 else 0.98 }
  function PotassiumFactor(potassium: real): real { if RichPotassium(potassium) then 1.03 else 0.97 }

  /** Exact, case-sensitive region names; any other region is neutral. */
  function RegionFactor(region: string): real
  {
    if region == "Punjab" then 1.15
    else if region == "Maharashtra" then 0.92
    else if region == "Karnataka" then 0.97
    else if region == "Uttar Pradesh" then 1.05
    else 1.0
  }

  /** The smallest and largest product the six factors can form. */
  const MinSoilImpact: real := 0.75 * 0.95 * 0.97 * 0.98 * 0.97 * 0.92
  const MaxSoilImpact: real := 1.2 * 1.05 * 1.05 * 1.03 * 1.03 * 1.15

  /** Bounds of positive factors multiply. */
  lemma ProductWithin(a: real, b: real, aLo: real, aHi: real, bLo: real, bHi: real)
    requires 0.0 < aLo <= a <= aHi
    requires 0.0 < bLo <= b <= bHi
    ensures 0.0 < aLo * bLo <= a * b <= aHi * bHi
  {
    assert a * b - aLo * bLo == a * (b - bLo) + bLo * (a - aLo);
    assert aHi * bHi - a * b == aHi * (bHi - b) + b * (aHi - a);
  }

  /** `calculateSoilImpact`: the soil-type factor times the four nutrient
      factors times the region factor. */
  function SoilImpact(soilType: string, region: string, ph: real, nitrogen: real, phosphorus: real, potassium: real): (m: real)
    ensures 0.0 < MinSoilImpact <= m <= MaxSoilImpact
  {
    var f0 := SoilTypeFactor(SoilCategoryOf(soilType));
    var f1 := f0 * PhFactor(ph);
    var f2 := f1 * NitrogenFactor(nitrogen);
    var f3 := f2 * PhosphorusFactor(phosphorus);
    var f4 := f3 * PotassiumFactor(potassium);
    var f5 := f4 * RegionFactor(region);
    ProductWithin(f0, PhFactor(ph), 0.75, 1.2, 0.95, 1.05);
    ProductWithin(f1, NitrogenFactor(nitrogen), 0.75 * 0.95, 1.2 * 1.05, 0.97, 1.05);
    ProductWithin(f2, PhosphorusFactor(phosphorus), 0.75 * 0.95 * 0.97, 1.2 * 1.05 * 1.05, 0.98, 1.03);
    ProductWithin(f3, PotassiumFactor(potassium), 0.75 * 0.95 * 0.97 * 0.98, 1.2 * 1.05 * 1.05 * 1.03, 0.97, 1.03);
    ProductWithin(f4, RegionFactor(region), 0.75 * 0.95 * 0.97 * 0.98 * 0.97, 1.2 * 1.05 * 1.05 * 1.03 * 1.03, 0.92, 1.15);
    f5
  }

  /** The multiplier is the product of the six factors, whatever the order. */
  lemma SoilImpactIsProduct(soilType: string, region: string, ph: real, nitrogen: real, phosphorus: real, potassium: real)
    ensures SoilImpact(soilType, region, ph, nitrogen, phosphorus, potassium)
         == RegionFactor(region) * SoilTypeFactor(SoilCategoryOf(soilType))
            * (PhFactor(ph) * NitrogenFactor(nitrogen)) * (PhosphorusFactor(phosphorus) * PotassiumFactor(potassium))
  {
  }

  /** Reference reading of the keyword list: the class of the first keyword, at
      position `i` or later, that `s` contains. */
  function FirstKeywordFrom(s: string, i: nat): (c: SoilCategory)
    requires i <= |SoilKeywords|
    ensures c == Unclassified <==> forall k | i <= k < |SoilKeywords| :: !Contains(s, SoilKeywords[k].0)
    ensures c != Unclassified ==>
      exists k | i <= k < |SoilKeywords| ::
        && SoilKeywords[k].1 == c
        && Contains(s, SoilKeywords[k].0)
        && forall m | i <= m < k :: !Contains(s, SoilKeywords[m].0)
    decreases |SoilKeywords| - i
  {
    if i == |SoilKeywords| then Unclassified
    else if Contains(s, SoilKeywords[i].0) then SoilKeywords[i].1
    else FirstKeywordFrom(s, i + 1)
  }

  /** The chain of `if`s is the first-match reading of the keyword list, so
      the soil class is that of the first listed keyword the soil type holds,
      and a soil type holding none of them is unclassified (factor 1.0). */
  lemma SoilCategoryIsFirstKeyword(soilType: string)
    ensures SoilCategoryOf(soilType) == FirstKeywordFrom(ToLower(soilType), 0)
  {
    var t := ToLower(soilType);
    assert FirstKeywordFrom(t, 5) == if Contains(t, "laterite") then Laterite else Unclassified;
    assert FirstKeywordFrom(t, 4) == if Contains(t, "calcareous") then UsarOrCalcareous else FirstKeywordFrom(t, 5);
    assert FirstKeywordFrom(t, 3) == if Contains(t, "usar") then UsarOrCalcareous else FirstKeywordFrom(t, 4);
    assert FirstKeywordFrom(t, 2) == if Contains(t, "alluvial") then Alluvial else FirstKeywordFrom(t, 3);
    assert FirstKeywordFrom(t, 1) == if Contains(t, "red") then Red else FirstKeywordFrom(t, 2);
    assert FirstKeywordFrom(t, 0) == if Contains(t, "black") then Black else FirstKeywordFrom(t, 1);
  }

  /** "black cotton" is black soil (factor 1.18). */
  lemma BlackCottonFactor(soilType: string)
    requires soilType == "black cotton"
    ensures SoilTypeFactor(SoilCategoryOf(soilType)) == 1.18
  {
    assert ToLower(soilType) == soilType;
    assert soilType[..5] == "black";
  }

  /** "red and yellow" holds "red" but not "black" (factor 0.95). */
  lemma RedAndYellowFactor(soilType: string)
    requires soilType == "red and yellow"
    ensures SoilTypeFactor(SoilCategoryOf(soilType)) == 0.95
  {
    assert ToLower(soilType) == soilType;
    RedAndYellowIsNotBlack(soilType);
    assert Contains(soilType, "red") by {
      assert soilType[..3] == "red";
    }
    RedSoilFactor(soilType);
  }

  /** No 'b' occurs in "red and yellow", so "black" is not contained in it. */
  lemma RedAndYellowIsNotBlack(s: string)
    requires s == "red and yellow"
    ensures !Contains(s, "black")
  {
    ContainedCharOccurs(s, "black", 0);
    assert forall j | 0 <= j < |s| :: s[j] != 'b';
  }

  /** A soil type holding "red" but not "black" is red soil (factor 0.95). */
  lemma RedSoilFactor(soilType: string)
    requires !Contains(ToLower(soilType), "black") && Contains(ToLower(soilType), "red")
    ensures SoilTypeFactor(SoilCategoryOf(soilType)) == 0.95
  {
  }

  /** "loam" holds none of the keywords, so it keeps the neutral factor 1.0. */
  lemma LoamFactor(soilType: string)
    requires soilType == "loam"
    ensures SoilTypeFactor(SoilCategoryOf(soilType)) == 1.0
  {
    assert ToLower(soilType) == soilType;
    ContainedCharOccurs(soilType, "black", 0);
    ContainedCharOccurs(soilType, "red", 0);
    ContainedCharOccurs(soilType, "alluvial", 4);
    ContainedCharOccurs(soilType, "usar", 0);
    ContainedCharOccurs(soilType, "calcareous", 0);
    ContainedCharOccurs(soilType, "laterite", 2);
  }

  // ---------------------------------------------------------------------------
  // Fixed-table yield estimator (lines 93-142)
  // ---------------------------------------------------------------------------

  /** Quintals per hectare by crop (lower case) and by variety, in source order. */
  const CropYields: Table<string, real> := [
    ("rice", 50.0), ("wheat", 45.0), ("maize", 38.0), ("groundnut", 19.0), ("soybean", 16.0),
    ("IR36", 55.0), ("MTU7029", 53.0), ("BPT5204", 52.0),
    ("HD2967", 48.0), ("PBW550", 46.0), ("DBW17", 45.0),
    ("DHM117", 41.0), ("DHM121", 43.0), ("Vivek-27", 40.0),
    ("TAG-24", 20.0), ("GG-20", 18.0), ("TG-37A", 17.0),
    ("JS-335", 17.0), ("JS-9560", 16.0), ("NRC-37", 15.0)]

  const DefaultBaseYield: real := 25.0

  /** `cropYields[variety] ?? cropYields[crop.toLowerCase()] ?? 25`. */
  function BaseYield(crop: string, variety: string): (y: real)
    ensures y >= 15.0
    ensures y == DefaultBaseYield || exists i | 0 <= i < |CropYields| :: CropYields[i].1 == y
  {
    CropYieldsAtLeast15();
    Lookup(CropYields, variety).GetOr(Lookup(CropYields, ToLower(crop)).GetOr(DefaultBaseYield))
  }

  lemma CropYieldsAtLeast15()
    ensures forall i | 0 <= i < |CropYields| :: CropYields[i].1 >= 15.0
  {
  }

  /** The variety key is tried first, the lower-cased crop second, 25 last. */
  lemma BaseYieldPrecedence(crop: string, variety: string)
    ensures variety in Keys(CropYields) ==>
      Lookup(CropYields, variety) == Some(BaseYield(crop, variety))
    ensures variety !in Keys(CropYields) && ToLower(crop) in Keys(CropYields) ==>
      Lookup(CropYields, ToLower(crop)) == Some(BaseYield(crop, variety))
    ensures variety !in Keys(CropYields) && ToLower(crop) !in Keys(CropYields) ==>
      BaseYield(crop, variety) == DefaultBaseYield
  {
  }

  /** A known variety decides the base yield whatever the crop; the crop is
      matched without regard to case. */
  lemma BaseYieldIndependence(crop: string, otherCrop: string, variety: string)
    ensures variety in Keys(CropYields) ==> BaseYield(crop, variety) == BaseYield(otherCrop, variety)
    ensures BaseYield(crop, variety) == BaseYield(ToLower(crop), variety)
  {
    ToLowerIdempotent(crop);
  }

  /** The four factor rows of `calculateFixedYield`, labelled by the same tests
      as the multiplier and the confidence score. */
  function FixedYieldFactors(soilType: string, region: string, impact: real, ph: real, nitrogen: real): (fs: seq<Factor>)
    ensures |fs| == 4
    ensures fs[0].name == SoilTypeFactorName && fs[1].name == PhFactorName
    ensures fs[2].name == NitrogenFactorName && fs[3].name == RegionFactorName
    ensures fs[0].impact == Positive <==> impact > 1.0
    ensures fs[0].impact == Neutral <==> impact <= 1.0
    ensures fs[0].advice.SoilSuits? && fs[0].advice.soilType == soilType && fs[0].advice.region == region
    ensures fs[0].advice.soilGrade == ExcellentSoil <==> impact > 1.1
    ensures fs[0].advice.soilGrade == GoodSoil <==> 1.0 < impact <= 1.1
    ensures fs[0].advice.soilGrade == AdequateSoil <==> impact <= 1.0
    ensures fs[1].impact == Positive <==> IdealPh(ph)
    ensures fs[1].impact == Negative <==> !IdealPh(ph)
    ensures fs[1].advice == OptimalPh <==> IdealPh(ph)
    ensures fs[1].advice == AdjustPh <==> !IdealPh(ph)
    ensures fs[2].impact == Positive <==> IdealNitrogen(nitrogen)
    ensures fs[2].impact == AdjustmentNeeded <==> !IdealNitrogen(nitrogen)
    ensures fs[2].advice == SufficientNitrogen <==> IdealNitrogen(nitrogen)
    ensures fs[2].advice == AdjustNitrogen <==> !IdealNitrogen(nitrogen)
    ensures fs[3].impact == Positive <==> FavouredRegion(region)
    ensures fs[3].impact == Neutral <==> !FavouredRegion(region)
    ensures fs[3].advice.RegionSuits? && fs[3].advice.regionName == region
    ensures fs[3].advice.regionGrade == ExcellentRegion <==> region == "Punjab"
    ensures fs[3].advice.regionGrade == VeryGoodRegion <==> region == "Uttar Pradesh"
    ensures fs[3].advice.regionGrade == SuitableRegion <==> !FavouredRegion(region)
  {
    var idealPh := IdealPh(ph);
    var idealN := IdealNitrogen(nitrogen);
    [ Factor(SoilTypeFactorName,
             if impact > 1.0 then Positive else Neutral,
             SoilSuits(soilType, region,
                       if impact > 1.1 then ExcellentSoil else if impact > 1.0 then GoodSoil else AdequateSoil)),
      Factor(PhFactorName,
             if idealPh then Positive else Negative,
             if idealPh then OptimalPh else AdjustPh),
      Factor(NitrogenFactorName,
             if idealN then Positive else AdjustmentNeeded,
             if idealN then SufficientNitrogen else AdjustNitrogen),
      Factor(RegionFactorName,
             if FavouredRegion(region) then Positive else Neutral,
             RegionSuits(region,
                         if region == "Punjab" then ExcellentRegion
                         else if region == "Uttar Pradesh" then VeryGoodRegion
                         else SuitableRegion)) ]
  }

  /** The two regions whose factor row reads "Positive". */
  predicate FavouredRegion(region: string)
  {
    region == "Punjab" || region == "Uttar Pradesh"
  }

  /** The rows never contradict themselves: each of the four rows reads
      "Positive" exactly when its recommendation is the favourable one. */
  lemma FactorAdviceAgreesWithImpact(soilType: string, region: string, impact: real, ph: real, nitrogen: real)
    ensures var fs := FixedYieldFactors(soilType, region, impact, ph, nitrogen);
      && (fs[0].impact == Positive <==> fs[0].advice.soilGrade != AdequateSoil)
      && (fs[1].impact == Positive <==> fs[1].advice == OptimalPh)
      && (fs[2].impact == Positive <==> fs[2].advice == SufficientNitrogen)
      && (fs[3].impact == Positive <==> fs[3].advice.regionGrade != SuitableRegion)
  {
  }

  /** `calculateFixedYield` with the random factor `0.97 + Math.random() * 0.06`
      passed in as `randomFactor`. */
  function CalculateFixedYield(
    crop: string, variety: string, area: real, soilType: string, region: string,
    ph: real, nitrogen: real, phosphorus: real, potassium: real, randomFactor: real): (p: YieldPrediction)
    requires 0.97 <= randomFactor < 1.03
    ensures p.confidence == 94 <==> IdealPh(ph) && IdealNitrogen(nitrogen)
    ensures p.confidence == 81 <==> !(IdealPh(ph) && IdealNitrogen(nitrogen))
    ensures p.yieldRange.min == 0.92 * p.expectedYield && p.yieldRange.max == 1.08 * p.expectedYield
    ensures area > 0.0 ==> 0.0 < p.yieldRange.min < p.expectedYield < p.yieldRange.max
    ensures area > 0.0 ==> WithinYieldBounds(BaseYield(crop, variety), area, p.expectedYield)
    ensures p.expectedYield == ScaledYield(BaseYield(crop, variety), SoilImpact(soilType, region, ph, nitrogen, phosphorus, potassium), area, randomFactor)
    ensures p.factors == FixedYieldFactors(soilType, region, SoilImpact(soilType, region, ph, nitrogen, phosphorus, potassium), ph, nitrogen)
  {
    var base := BaseYield(crop, variety);
    var impact := SoilImpact(soilType, region, ph, nitrogen, phosphorus, potassium);
    var predicted := ScaledYield(base, impact, area, randomFactor);
    YieldPrediction(
      predicted,
      YieldRange(predicted * 0.92, predicted * 1.08),
      if IdealPh(ph) && IdealNitrogen(nitrogen) then 94 else 81,
      FixedYieldFactors(soilType, region, impact, ph, nitrogen))
  }

  /** `e` lies between the estimates for the least and the most favourable soil
      multiplier and random draw, for base yield `base` over `area` hectares. */
  predicate WithinYieldBounds(base: real, area: real, e: real)
  {
    base * MinSoilImpact * 0.97 * area <= e < base * MaxSoilImpact * 1.03 * area
  }

  /** `base * soilImpact * area * randomFactor`: the estimate lies between the
      extreme multipliers and random draws. */
  function ScaledYield(base: real, impact: real, area: real, randomFactor: real): (e: real)
    requires base > 0.0 && MinSoilImpact <= impact <= MaxSoilImpact
    requires 0.97 <= randomFactor < 1.03
    ensures area > 0.0 ==> WithinYieldBounds(base, area, e)
    ensures area > 0.0 ==> e > 0.0
  {
    var e := base * impact * area * randomFactor;
    if area > 0.0 then
      var ba := base * area;
      assert e == ba * (impact * randomFactor);
      assert base * MinSoilImpact * 0.97 * area == ba * (MinSoilImpact * 0.97);
      assert base * MaxSoilImpact * 1.03 * area == ba * (MaxSoilImpact * 1.03);
      ProductWithin(impact, randomFactor, MinSoilImpact, MaxSoilImpact, 0.97, 1.03);
      assert impact * randomFactor < MaxSoilImpact * 1.03 by {
        assert impact * randomFactor <= MaxSoilImpact * randomFactor;
        assert MaxSoilImpact * randomFactor < MaxSoilImpact * 1.03;
      }
      e
    else
      e
  }

  /** Scaling the area scales the estimate by the same factor. */
  lemma ScaledYieldLinear(base: real, impact: real, area: real, k: real, randomFactor: real)
    requires base > 0.0 && MinSoilImpact <= impact <= MaxSoilImpact
    requires 0.97 <= randomFactor < 1.03
    ensures ScaledYield(base, impact, k * area, randomFactor) == k * ScaledYield(base, impact, area, randomFactor)
  {
    var b := base * impact;
    assert b * (k * area) * randomFactor == k * (b * area * randomFactor);
  }

  /** Two draws give estimates in the ratio of the draws. */
  lemma ScaledYieldDraw(base: real, impact: real, area: real, r1: real, r2: real)
    requires base > 0.0 && MinSoilImpact <= impact <= MaxSoilImpact
    requires 0.97 <= r1 < 1.03 && 0.97 <= r2 < 1.03
    ensures ScaledYield(base, impact, area, r1) * r2 == ScaledYield(base, impact, area, r2) * r1
  {
    var b := base * impact * area;
    assert b * r1 * r2 == b * r2 * r1;
  }

  /** The confidence score and the pH and nitrogen labels never contradict. */
  lemma ConfidenceAgreesWithFactors(
    crop: string, variety: string, area: real, soilType: string, region: string,
    ph: real, nitrogen: real, phosphorus: real, potassium: real, randomFactor: real)
    requires 0.97 <= randomFactor < 1.03
    ensures var p := CalculateFixedYield(crop, variety, area, soilType, region, ph, nitrogen, phosphorus, potassium, randomFactor);
      p.confidence == 94 <==> p.factors[1].impact == Positive && p.factors[2].impact == Positive
  {
  }
}
