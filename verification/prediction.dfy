/** The result shape shared by the two yield calculators
    (src/pages/Forecasting.tsx:115-141 and src/data/cropData.ts:471-476), and the
    two-decimal rounding `Math.round(x * 100) / 100` that one of them applies. */
module Prediction {

  /** The impact labels the two calculators attach to their factors. */
  datatype Impact = Positive | Neutral | Negative | AdjustmentNeeded | HighImpact | MediumImpact {
    function Label(): string
    {
      match this
      case Positive => "Positive"
      case Neutral => "Neutral"
      case Negative => "Negative"
      case AdjustmentNeeded => "Adjustment Needed"
      case HighImpact => "High"
      case MediumImpact => "Medium"
    }
  }

  /** The names of the factor rows the two calculators produce. */
  datatype FactorName = SoilTypeFactorName | PhFactorName | NitrogenFactorName | RegionFactorName
                      | SoilQuality | SeasonalWeather | CropManagement
  {
    function Label(): string
    {
      match this
      case SoilTypeFactorName => "Soil Type"
      case PhFactorName => "pH"
      case NitrogenFactorName => "Nitrogen"
      case RegionFactorName => "Region"
      case SoilQuality => "Soil Quality"
      case SeasonalWeather => "Seasonal Weather"
      case CropManagement => "Crop Management"
    }
  }

  /** How well the soil suits the crop, by the size of the soil multiplier. */
  datatype SoilGrade = ExcellentSoil | GoodSoil | AdequateSoil

  /** How good a region's conditions are. */
  datatype RegionGrade = ExcellentRegion | VeryGoodRegion | SuitableRegion

  /** The recommendation of a factor row; `Text` is the sentence shown. */
  datatype Advice =
    | SoilSuits(soilType: string, region: string, soilGrade: SoilGrade)
    | OptimalPh | AdjustPh
    | SufficientNitrogen | AdjustNitrogen
    | RegionSuits(regionName: string, regionGrade: RegionGrade)
    | AddOrganicMatter
    | EnsureDrainage | ProvideIrrigation | ProtectFromFrost
    | FollowSpacing
  {
    function Text(): string
    {
      match this
      case SoilSuits(soilType, region, grade) =>
        "Soil \"" + soilType + "\" in " + region + " "
        + (match grade
           case ExcellentSoil => "is excellent"
           case GoodSoil => "is good"
           case AdequateSoil => "is adequate")
        + " for this crop"
      case OptimalPh => "Optimal pH for crop growth"
      case AdjustPh => "Soil pH adjustment advised for better nutrient availability"
      case SufficientNitrogen => "Sufficient nitrogen for healthy growth"
      case AdjustNitrogen => "Adjust nitrogen fertilizer application for best results"
      case RegionSuits(region, grade) =>
        region + " has "
        + (match grade
           case ExcellentRegion => "excellent"
           case VeryGoodRegion => "very good"
           case SuitableRegion => "suitable")
        + " conditions for this crop"
      case AddOrganicMatter => "Add organic matter to improve soil structure and nutrient availability"
      case EnsureDrainage => "Ensure proper drainage during heavy rains"
      case ProvideIrrigation => "Provide adequate irrigation to counter high temperatures"
      case ProtectFromFrost => "Protect crops from potential frost damage"
      case FollowSpacing => "Follow recommended spacing and timely application of fertilizers"
    }
  }

  /** One entry of `factors`: what influenced the estimate and what to do. */
  datatype Factor = Factor(name: FactorName, impact: Impact, advice: Advice)

  datatype YieldRange = YieldRange(min: real, max: real)

  /** A yield prediction in quintals, with its range and a confidence percentage. */
  datatype YieldPrediction = YieldPrediction(
    expectedYield: real,
    yieldRange: YieldRange,
    confidence: int,
    factors: seq<Factor>)

  /** `Math.round(x * 100) / 100`. `Math.round` rounds halves towards positive
      infinity, which is `Floor(v + 0.5)`. */
  function Round2(x: real): (r: real)
    ensures x - 0.005 < r <= x + 0.005
  {
    ((x * 100.0 + 0.5).Floor as real) / 100.0
  }

  /** Rounding keeps the order of its arguments. */
  lemma Round2Monotone(x: real, y: real)
    requires x <= y
    ensures Round2(x) <= Round2(y)
  {
    assert (x * 100.0 + 0.5).Floor <= (y * 100.0 + 0.5).Floor;
  }

  /** Values already on the hundredths grid are left unchanged. */
  lemma Round2OfHundredths(n: int)
    ensures Round2(n as real / 100.0) == n as real / 100.0
  {
    var v := n as real / 100.0;
    assert v * 100.0 == n as real;
    assert (n as real + 0.5).Floor == n;
  }
}
