/** The crop-data module (src/data/cropData.ts): the month-to-season mapping,
    the seasonal challenge lookup, the regional recommendation table with its
    three-step fallback, and the table-driven yield calculator. The current
    month is a parameter. */
module CropData {
  import opened Options
  import opened Text
  import opened Tables
  import opened YieldText
  import opened Prediction

  // ---------------------------------------------------------------------------
  // Seasons (lines 26-34)
  // ---------------------------------------------------------------------------

  datatype Season = Summer | Monsoon | PostMonsoon | Winter {
    /** The key under which the tables store the season. */
    function Name(): string
    {
      match this
      case Summer => "Summer"
      case Monsoon => "Monsoon"
      case PostMonsoon => "Post-Monsoon"
      case Winter => "Winter"
    }
  }

  /** `getCurrentSeason` for a month numbered from 0 (January) to 11. */
  function SeasonOfMonth(month: int): (s: Season)
    requires 0 <= month < 12
    ensures s == Summer <==> 3 <= month <= 5
    ensures s == Monsoon <==> 6 <= month <= 9
    ensures s == PostMonsoon <==> 10 <= month <= 11
    ensures s == Winter <==> month <= 2
  {
    if 3 <= month <= 5 then Summer
    else if 6 <= month <= 9 then Monsoon
    else if 10 <= month <= 11 then PostMonsoon
    else Winter
  }

  /** Each season covers the months the source assigns it, December included
      in "Post-Monsoon" (not "Winter"). */
  lemma SeasonMonths()
    ensures SeasonOfMonth(11) == PostMonsoon && SeasonOfMonth(0) == Winter
    ensures |set m | 0 <= m < 12 && SeasonOfMonth(m) == Winter| == 3
  {
    var w := set m | 0 <= m < 12 && SeasonOfMonth(m) == Winter;
    assert w == {0, 1, 2};
  }

  // ---------------------------------------------------------------------------
  // Season keys
  // ---------------------------------------------------------------------------

  /** The season a table key names, if any. */
  function SeasonNamed(name: string): (s: Option<Season>)
    ensures s.Some? ==> s.value.Name() == name
    ensures s.None? <==> forall t: Season :: t.Name() != name
    ensures forall t: Season | t.Name() == name :: s == Some(t)
  {
    if name == "Summer" then Some(Summer)
    else if name == "Monsoon" then Some(Monsoon)
    else if name == "Post-Monsoon" then Some(PostMonsoon)
    else if name == "Winter" then Some(Winter)
    else None
  }

  // ---------------------------------------------------------------------------
  // Challenges (lines 36-72)
  // ---------------------------------------------------------------------------

  /** The crops the challenge table lists, under their exact key. */
  datatype ListedCrop = Rice | Wheat | Maize {
    function Name(): string
    {
      match this
      case Rice => "Rice"
      case Wheat => "Wheat"
      case Maize => "Maize"
    }
  }

  /** The listed crop a name denotes; the comparison is case-sensitive. */
  function ListedCropNamed(name: string): (c: Option<ListedCrop>)
    ensures c.Some? ==> c.value.Name() == name
    ensures c.None? <==> forall k: ListedCrop :: k.Name() != name
    ensures forall k: ListedCrop | k.Name() == name :: c == Some(k)
  {
    if name == "Rice" then Some(Rice)
    else if name == "Wheat" then Some(Wheat)
    else if name == "Maize" then Some(Maize)
    else None
  }

  /** The entries of the challenge table. */
  datatype ListedChallenge =
    | HeatStressReducesYield
    | HigherWaterRequirement
    | IncreasedPestPressure
    | FloodingRisk
    | HumidFungalDiseases
    | LodgingInHeavyRains
    | LimitedWater
    | ColdStressAtGrainFilling
    | ColdDamageInNorth
    | LowTemperatureGrowth
    | UnsuitableInSummer
    | HumidityFungalDiseases
    | WaterloggedRoots
    | IdealSeason
    | AphidInfestations
    | FrostAtFlowering
    | TerminalHeatStress
    | HeatStressAtPollination
    | HigherIrrigationRequirement
    | WaterloggingInHeavyRain
    | HigherDiseasePressure
    | LodgingRisk
    | GoodSeason
    | ModeratePestPressure
    | ColdStressInNorth
    | SlowerGrowth
  {
    function Text(): string
    {
      match this
      case HeatStressReducesYield => "Heat stress may reduce yield"
      case HigherWaterRequirement => "Higher water requirement"
      case IncreasedPestPressure => "Increased pest pressure"
      case FloodingRisk => "Potential flooding risk"
      case HumidFungalDiseases => "Fungal diseases in humid conditions"
      case LodgingInHeavyRains => "Lodging during heavy rains"
      case LimitedWater => "Water availability may be limited"
      case ColdStressAtGrainFilling => "Cold stress during grain filling stage"
      case ColdDamageInNorth => "Cold damage risk in northern regions"
      case LowTemperatureGrowth => "Limited growth due to low temperatures"
      case UnsuitableInSummer => "Not suitable for summer cultivation in most regions"
      case HumidityFungalDiseases => "High humidity causes fungal diseases"
      case WaterloggedRoots => "Waterlogging damages roots"
      case IdealSeason => "Ideal growing season"
      case AphidInfestations => "Watch for aphid infestations"
      case FrostAtFlowering => "Potential frost damage in flowering stage"
      case TerminalHeatStress => "Terminal heat stress during grain filling"
      case HeatStressAtPollination => "Heat stress during pollination"
      case HigherIrrigationRequirement => "Higher irrigation requirements"
      case WaterloggingInHeavyRain => "Waterlogging in heavy rainfall areas"
      case HigherDiseasePressure => "Higher disease pressure"
      case LodgingRisk => "Lodging risk"
      case GoodSeason => "Good growing season"
      case ModeratePestPressure => "Moderate pest pressure"
      case ColdStressInNorth => "Cold stress in northern regions"
      case SlowerGrowth => "Slower growth and development"
    }
  }

  /** One challenge: an entry of the table, or one of the three generic
      ones, which name the season and the region. `Text` is the line shown. */
  datatype Challenge =
    | Listed(entry: ListedChallenge)
    | WeatherFluctuations(season: string)
    | MonitorPests(region: string, inSeason: string)
    | MaintainIrrigation
  {
    function Text(): string
    {
      match this
      case Listed(entry) => entry.Text()
      case WeatherFluctuations(season) => "Weather fluctuations common in " + season + " may affect growth"
      case MonitorPests(region, season) => "Monitor for pests and diseases prevalent in " + region + " during " + season
      case MaintainIrrigation => "Maintain optimal irrigation based on rainfall patterns"
    }
  }

  /** The table of challenges for a listed crop in a season. */
  function SeasonChallenges(c: ListedCrop, s: Season): (cs: seq<Challenge>)
    ensures forall i | 0 <= i < |cs| :: cs[i].Listed?
  {
    match (c, s)
    case (Rice, Summer) => [Listed(HeatStressReducesYield), Listed(HigherWaterRequirement), Listed(IncreasedPestPressure)]
    case (Rice, Monsoon) => [Listed(FloodingRisk), Listed(HumidFungalDiseases), Listed(LodgingInHeavyRains)]
    case (Rice, PostMonsoon) => [Listed(LimitedWater), Listed(ColdStressAtGrainFilling)]
    case (Rice, Winter) => [Listed(ColdDamageInNorth), Listed(LowTemperatureGrowth)]
    case (Wheat, Summer) => [Listed(UnsuitableInSummer)]
    case (Wheat, Monsoon) => [Listed(HumidityFungalDiseases), Listed(WaterloggedRoots)]
    case (Wheat, PostMonsoon) => [Listed(IdealSeason), Listed(AphidInfestations)]
    case (Wheat, Winter) => [Listed(FrostAtFlowering), Listed(TerminalHeatStress)]
    case (Maize, Summer) => [Listed(HeatStressAtPollination), Listed(HigherIrrigationRequirement), Listed(IncreasedPestPressure)]
    case (Maize, Monsoon) => [Listed(WaterloggingInHeavyRain), Listed(HigherDiseasePressure), Listed(LodgingRisk)]
    case (Maize, PostMonsoon) => [Listed(GoodSeason), Listed(ModeratePestPressure)]
    case (Maize, Winter) => [Listed(ColdStressInNorth), Listed(SlowerGrowth)]
  }

  /** The three generic challenges. */
  function GenericChallenges(season: string, region: string): seq<Challenge>
  {
    [WeatherFluctuations(season), MonitorPests(region, season), MaintainIrrigation]
  }

  /** `getCropChallenges`: the listed challenges of a crop in a season, both
      named exactly as the table keys them, and the generic list otherwise. */
  function GetCropChallenges(crop: string, region: string, season: string): (cs: seq<Challenge>)
    ensures forall c: ListedCrop, s: Season | c.Name() == crop && s.Name() == season :: cs == SeasonChallenges(c, s)
    ensures (forall c: ListedCrop :: c.Name() != crop) || (forall s: Season :: s.Name() != season) ==>
      cs == GenericChallenges(season, region)
  {
    match (ListedCropNamed(crop), SeasonNamed(season))
    case (Some(c), Some(s)) => SeasonChallenges(c, s)
    case _ => GenericChallenges(season, region)
  }

  /** The generic list comes back exactly when the crop or the season is not
      a table key. */
  lemma GenericChallengesIff(crop: string, region: string, season: string)
    ensures GetCropChallenges(crop, region, season) == GenericChallenges(season, region)
        <==> (forall c: ListedCrop :: c.Name() != crop) || (forall s: Season :: s.Name() != season)
  {
    match (ListedCropNamed(crop), SeasonNamed(season))
    case (Some(c), Some(s)) => assert !GenericChallenges(season, region)[0].Listed?;
    case _ =>
  }

  /** The lookup is case-sensitive: the lower-case "rice" passed by the
      forecasting page always gets the generic list. */
  lemma LowerCaseRiceIsGeneric(region: string, season: string)
    ensures GetCropChallenges("rice", region, season) == GenericChallenges(season, region)
  {
    assert forall c: ListedCrop :: c.Name() != "rice" by {
      assert "Rice"[0] != "rice"[0];
    }
  }

  // ---------------------------------------------------------------------------
  // Recommendation table (lines 3-24, 74-391)
  // ---------------------------------------------------------------------------

  /** One recommended crop. The yield estimate is kept as the range or text it
      denotes; `EstimateText` gives the string the table holds. The optional
      `challenges` field is never filled in by the table and is not modelled. */
  datatype CropRecommendation = CropRecommendation(
    crop: string,
    variety: string,
    suitability: int,
    yieldEstimate: YieldEstimate,
    waterRequirement: WaterNeed,
    fertilizers: Fertilizer,
    growingPeriod: Period)

  /** The water requirement labels of the table. */
  datatype WaterNeed = Low | LowToMedium | Medium | MediumToHigh | High {
    function Label(): string
    {
      match this
      case Low => "Low"
      case LowToMedium => "Low-Medium"
      case Medium => "Medium"
      case MediumToHigh => "Medium-High"
      case High => "High"
    }
  }

  /** What the table adds to a fertilizer dose. */
  datatype Supplement = NoSupplement | OrganicManure | FarmyardManure

  /** A fertilizer entry: an N:P:K dose in kg/ha with an optional supplement,
      or "Not required". */
  datatype Fertilizer = Npk(n: nat, p: nat, k: nat, supplement: Supplement) | NotRequired {
    function Text(): string
    {
      match this
      case NotRequired => "Not required"
      case Npk(n, p, k, supplement) =>
        "NPK " + Decimal(n) + ":" + Decimal(p) + ":" + Decimal(k) + " kg/ha"
        + (match supplement
           case NoSupplement => ""
           case OrganicManure => " + organic manure"
           case FarmyardManure => " + FYM")
    }
  }

  /** A growing period of `lo` to `hi` days. */
  datatype Period = Days(lo: nat, hi: nat) {
    function Text(): string
    {
      Decimal(lo) + "-" + Decimal(hi) + " days"
    }
  }

  /** The primary and alternative crops for one region, soil type and season. */
  datatype SeasonPlan = SeasonPlan(primary: seq<CropRecommendation>, alternatives: seq<CropRecommendation>)

  /** West Bengal, alluvial soil, Summer (lines 79-129). */
  const WestBengalSummer: SeasonPlan := SeasonPlan(
    [
      CropRecommendation("Jute", "JRO-524", 92, PerHectare(25, 30), High, Npk(60, 30, 30, NoSupplement), Days(100, 120)),
      CropRecommendation("Aus Rice", "MTU-7029", 90, PerHectare(35, 40), High, Npk(80, 40, 40, NoSupplement), Days(90, 100)),
      CropRecommendation("Vegetables", "Local varieties", 85, Descriptive("Varies by crop"), MediumToHigh, Npk(100, 50, 50, OrganicManure), Days(60, 90))
    ],
    [
      CropRecommendation("Sesame", "Rama", 80, PerHectare(6, 8), Low, Npk(30, 15, 15, NoSupplement), Days(80, 90)),
      CropRecommendation("Mung Bean", "PDM-84-139", 78, PerHectare(8, 10), Low, Npk(20, 40, 20, NoSupplement), Days(65, 70))
    ])

  /** West Bengal, alluvial soil, Monsoon (lines 130-180). */
  const WestBengalMonsoon: SeasonPlan := SeasonPlan(
    [
      CropRecommendation("Rice", "Swarna (MTU-7029)", 95, PerHectare(50, 55), High, Npk(100, 50, 50, NoSupplement), Days(135, 145)),
      CropRecommendation("Jute", "JRO-524", 90, PerHectare(28, 32), High, Npk(60, 30, 30, NoSupplement), Days(100, 120)),
      CropRecommendation("Turmeric", "Rajendra Sonia", 85, PerHectare(200, 250), Medium, Npk(60, 50, 120, FarmyardManure), Days(210, 240))
    ],
    [
      CropRecommendation("Black Gram", "T-9", 82, PerHectare(8, 10), LowToMedium, Npk(20, 40, 20, NoSupplement), Days(70, 80)),
      CropRecommendation("Pigeon Pea", "UPAS-120", 80, PerHectare(15, 18), LowToMedium, Npk(20, 50, 20, NoSupplement), Days(150, 180))
    ])

  /** West Bengal, alluvial soil, Winter (lines 181-233). */
  const WestBengalWinter: SeasonPlan := SeasonPlan(
    [
      CropRecommendation("Potato", "Kufri Jyoti", 94, PerHectare(250, 300), Medium, Npk(150, 80, 100, NoSupplement), Days(90, 110)),
      CropRecommendation("Wheat", "HD-2967", 92, PerHectare(45, 50), Medium, Npk(120, 60, 40, NoSupplement), Days(120, 135)),
      CropRecommendation("Mustard", "Pusa Bold", 88, PerHectare(12, 15), Low, Npk(60, 40, 40, NoSupplement), Days(110, 120))
    ],
    [
      CropRecommendation("Lentil", "PL-406", 85, PerHectare(10, 12), Low, Npk(20, 40, 20, NoSupplement), Days(120, 130)),
      CropRecommendation("Vegetables", "Seasonal varieties", 90, Descriptive("Varies by crop"), Medium, Npk(100, 60, 60, OrganicManure), Days(60, 120))
    ])

  /** Punjab, alluvial soil, Summer (lines 236-286). */
  const PunjabSummer: SeasonPlan := SeasonPlan(
    [
      CropRecommendation("Cotton", "Bt Cotton hybrids", 90, PerHectare(18, 22), MediumToHigh, Npk(150, 60, 60, NoSupplement), Days(150, 180)),
      CropRecommendation("Maize", "PMH-1", 85, PerHectare(35, 40), Medium, Npk(120, 60, 40, NoSupplement), Days(90, 100)),
      CropRecommendation("Moong Bean", "SML-668", 80, PerHectare(8, 10), Low, Npk(20, 40, 20, NoSupplement), Days(60, 70))
    ],
    [
      CropRecommendation("Groundnut", "TAG-24", 75, PerHectare(20, 25), Medium, Npk(25, 50, 75, NoSupplement), Days(110, 120)),
      CropRecommendation("Vegetables", "Summer varieties", 78, Descriptive("Varies by crop"), High, Npk(100, 50, 50, OrganicManure), Days(60, 90))
    ])

  /** Punjab, alluvial soil, Monsoon (lines 287-337). */
  const PunjabMonsoon: SeasonPlan := SeasonPlan(
    [
      CropRecommendation("Rice", "PR-126", 95, PerHectare(60, 65), High, Npk(120, 60, 30, NoSupplement), Days(125, 130)),
      CropRecommendation("Cotton", "Bt Cotton hybrids", 88, PerHectare(20, 25), Medium, Npk(150, 60, 60, NoSupplement), Days(150, 180)),
      CropRecommendation("Maize", "PMH-1", 85, PerHectare(40, 45), Medium, Npk(120, 60, 40, NoSupplement), Days(90, 100))
    ],
    [
      CropRecommendation("Arhar/Pigeon Pea", "PAU-881", 78, PerHectare(15, 18), Low, Npk(20, 50, 20, NoSupplement), Days(160, 180)),
      CropRecommendation("Sesbania", "Local", 75, Descriptive("Green manure crop"), Medium, NotRequired, Days(45, 60))
    ])

  /** Punjab, alluvial soil, Winter (lines 338-390). */
  const PunjabWinter: SeasonPlan := SeasonPlan(
    [
      CropRecommendation("Wheat", "HD-3086", 96, PerHectare(55, 60), Medium, Npk(150, 75, 50, NoSupplement), Days(140, 150)),
      CropRecommendation("Potato", "Kufri Pukhraj", 92, PerHectare(300, 350), Medium, Npk(180, 80, 120, NoSupplement), Days(90, 110)),
      CropRecommendation("Mustard", "RLC-1", 88, PerHectare(15, 18), Low, Npk(60, 30, 30, NoSupplement), Days(120, 130))
    ],
    [
      CropRecommendation("Chickpea", "PBG-7", 82, PerHectare(18, 20), Low, Npk(20, 40, 20, NoSupplement), Days(120, 130)),
      CropRecommendation("Barley", "DWRUB-52", 85, PerHectare(40, 45), Low, Npk(60, 30, 20, NoSupplement), Days(120, 130))
    ])

  /** `cropRecommendationsData`: region, then soil type, then season name, in
      the order the source lists them. */
  const CropRecommendationsData: Table<string, Table<string, Table<string, SeasonPlan>>> := [
    ("West Bengal", [("alluvial", [("Summer", WestBengalSummer), ("Monsoon", WestBengalMonsoon), ("Winter", WestBengalWinter)])]),
    ("Punjab", [("alluvial", [("Summer", PunjabSummer), ("Monsoon", PunjabMonsoon), ("Winter", PunjabWinter)])])]

  /** The plan returned when neither the exact entry nor the region's first
      soil type has one for the season (lines 404-436). */
  const FallbackPlan: SeasonPlan := SeasonPlan(
    [
      CropRecommendation("Rice", "Local variety", 85, PerHectare(40, 45), High, Npk(100, 50, 50, NoSupplement), Days(120, 140)),
      CropRecommendation("Maize", "Hybrid variety", 80, PerHectare(35, 40), Medium, Npk(120, 60, 40, NoSupplement), Days(90, 110))
    ],
    [
      CropRecommendation("Pulses", "Local variety", 75, PerHectare(10, 15), Low, Npk(20, 40, 20, NoSupplement), Days(90, 120))
    ])

  /** The table's promises about a recommendation: a suitability on the 0-100
      scale, and an estimate that is an ordered range or text without digits. */
  predicate ValidRecommendation(c: CropRecommendation)
  {
    && 0 <= c.suitability <= 100
    && (c.yieldEstimate.PerHectare? ==> c.yieldEstimate.lo <= c.yieldEstimate.hi)
    && (c.yieldEstimate.Descriptive? ==> NoDigits(c.yieldEstimate.text))
  }

  predicate ValidPlan(p: SeasonPlan)
  {
    && (forall i | 0 <= i < |p.primary| :: ValidRecommendation(p.primary[i]))
    && (forall i | 0 <= i < |p.alternatives| :: ValidRecommendation(p.alternatives[i]))
  }

  /** Every plan of the table, and the fallback plan, keeps those promises. */
  lemma WestBengalSummerValid()
    ensures ValidPlan(WestBengalSummer)
  {
  }

  lemma WestBengalMonsoonValid()
    ensures ValidPlan(WestBengalMonsoon)
  {
  }

  lemma WestBengalWinterValid()
    ensures ValidPlan(WestBengalWinter)
  {
  }

  lemma PunjabSummerValid()
    ensures ValidPlan(PunjabSummer)
  {
  }

  lemma PunjabMonsoonValid()
    ensures ValidPlan(PunjabMonsoon)
  {
  }

  lemma PunjabWinterValid()
    ensures ValidPlan(PunjabWinter)
  {
  }

  lemma FallbackPlanValid()
    ensures ValidPlan(FallbackPlan)
  {
  }

  /** A plan stored somewhere in the table. */
  ghost predicate InTable(p: SeasonPlan)
  {
    exists i, j, k |
      && 0 <= i < |CropRecommendationsData|
      && 0 <= j < |CropRecommendationsData[i].1|
      && 0 <= k < |CropRecommendationsData[i].1[j].1|
      :: CropRecommendationsData[i].1[j].1[k].1 == p
  }

  lemma {:induction false} TablePlansValid(p: SeasonPlan)
    requires InTable(p)
    ensures ValidPlan(p)
  {
    WestBengalSummerValid();
    WestBengalMonsoonValid();
    WestBengalWinterValid();
    PunjabSummerValid();
    PunjabMonsoonValid();
    PunjabWinterValid();
    var i, j, k :|
      && 0 <= i < |CropRecommendationsData|
      && 0 <= j < |CropRecommendationsData[i].1|
      && 0 <= k < |CropRecommendationsData[i].1[j].1|
      && CropRecommendationsData[i].1[j].1[k].1 == p;
  }

  // ---------------------------------------------------------------------------
  // Recommendation lookup (lines 395-462)
  // ---------------------------------------------------------------------------

  /** `season || getCurrentSeason()`: an omitted or empty season name means
      the season of the current month. */
  function ResolveSeason(season: Option<string>, month: int): (name: string)
    requires 0 <= month < 12
    ensures season.Some? && season.value != "" ==> name == season.value
    ensures season.None? || season.value == "" ==> name == SeasonOfMonth(month).Name()
  {
    if season.Some? && season.value != "" then season.value else SeasonOfMonth(month).Name()
  }

  /** `getCropRecommendations`: the exact (region, soil type, season) entry;
      failing that, the region's first-listed soil type in that season;
      failing that, the fixed fallback plan. It never fails. */
  function GetCropRecommendations(region: string, soilType: string, season: Option<string>, month: int): (p: SeasonPlan)
    requires 0 <= month < 12
    ensures ValidPlan(p)
    ensures InTable(p) || p == FallbackPlan
    ensures region !in Keys(CropRecommendationsData) ==> p == FallbackPlan
  {
    var name := ResolveSeason(season, month);
    match Lookup(CropRecommendationsData, region)
    case None => FallbackPlanValid(); FallbackPlan
    case Some(soils) =>
      var exact := if Lookup(soils, soilType).Some? then Lookup(Lookup(soils, soilType).value, name) else None;
      if exact.Some? then
        TablePlansValid(exact.value);
        exact.value
      else if |soils| > 0 && Lookup(soils[0].1, name).Some? then
        TablePlansValid(Lookup(soils[0].1, name).value);
        Lookup(soils[0].1, name).value
      else
        FallbackPlanValid();
        FallbackPlan
  }

  /** No region is listed twice. */
  lemma RegionKeysDistinct()
    ensures forall a, b | 0 <= a < b < |CropRecommendationsData| ::
      CropRecommendationsData[a].0 != CropRecommendationsData[b].0
  {
    assert "West Bengal"[0] != "Punjab"[0];
  }

  /** No region lists a soil type twice. */
  lemma SoilKeysDistinct(i: nat)
    requires i < |CropRecommendationsData|
    ensures var soils := CropRecommendationsData[i].1;
      forall a, b | 0 <= a < b < |soils| :: soils[a].0 != soils[b].0
  {
  }

  /** No soil type lists a season twice, and no season name is empty. */
  lemma SeasonKeysDistinct(i: nat, j: nat)
    requires i < |CropRecommendationsData| && j < |CropRecommendationsData[i].1|
    ensures var seasons := CropRecommendationsData[i].1[j].1;
      && (forall a, b | 0 <= a < b < |seasons| :: seasons[a].0 != seasons[b].0)
      && (forall k | 0 <= k < |seasons| :: seasons[k].0 != "")
  {
    assert "Summer"[0] != "Monsoon"[0] && "Summer"[0] != "Winter"[0] && "Monsoon"[0] != "Winter"[0];
  }

  /** When region, soil type and a non-empty season name all look up, the
      entry found is the plan returned. */
  lemma ExactLookup(region: string, soilType: string, name: string, month: int,
                    soils: Table<string, Table<string, SeasonPlan>>, seasons: Table<string, SeasonPlan>, p: SeasonPlan)
    requires 0 <= month < 12 && name != ""
    requires Lookup(CropRecommendationsData, region) == Some(soils)
    requires Lookup(soils, soilType) == Some(seasons)
    requires Lookup(seasons, name) == Some(p)
    ensures GetCropRecommendations(region, soilType, Some(name), month) == p
  {
  }

  /** Every entry of the table is what its region, soil type and season name
      look up. */
  lemma ExactEntryReturned(i: nat, j: nat, k: nat, month: int)
    requires 0 <= month < 12
    requires i < |CropRecommendationsData| && j < |CropRecommendationsData[i].1|
    requires k < |CropRecommendationsData[i].1[j].1|
    ensures var soils := CropRecommendationsData[i].1;
      GetCropRecommendations(CropRecommendationsData[i].0, soils[j].0, Some(soils[j].1[k].0), month)
        == soils[j].1[k].1
  {
    var soils := CropRecommendationsData[i].1;
    var seasons := soils[j].1;
    RegionKeysDistinct();
    LookupEntry(CropRecommendationsData, i);
    SoilKeysDistinct(i);
    LookupEntry(soils, j);
    SeasonKeysDistinct(i, j);
    LookupEntry(seasons, k);
    ExactLookup(CropRecommendationsData[i].0, soils[j].0, seasons[k].0, month, soils, seasons, seasons[k].1);
  }

  /** West Bengal's alluvial Monsoon entry leads with Swarna rice at 95. */
  lemma WestBengalMonsoonLeadsWithSwarna(month: int)
    requires 0 <= month < 12
    ensures var p := GetCropRecommendations("West Bengal", "alluvial", Some("Monsoon"), month);
      && p == WestBengalMonsoon
      && p.primary[0].crop == "Rice" && p.primary[0].variety == "Swarna (MTU-7029)"
      && p.primary[0].suitability == 95
  {
    ExactEntryReturned(0, 0, 1, month);
  }

  /** The exact step misses: no soil type the region lists under `soilType`
      has an entry named `name`. */
  predicate ExactMiss(soils: Table<string, Table<string, SeasonPlan>>, soilType: string, name: string)
  {
    forall j | 0 <= j < |soils| && soils[j].0 == soilType :: name !in Keys(soils[j].1)
  }

  /** A plan a season lookup finds under a listed region and soil type is
      stored in the table. */
  lemma LookupInTable(i: nat, j: nat, name: string)
    requires i < |CropRecommendationsData| && j < |CropRecommendationsData[i].1|
    requires Lookup(CropRecommendationsData[i].1[j].1, name).Some?
    ensures InTable(Lookup(CropRecommendationsData[i].1[j].1, name).value)
  {
    var seasons := CropRecommendationsData[i].1[j].1;
    var k :| 0 <= k < |seasons| && seasons[k].0 == name && seasons[k].1 == Lookup(seasons, name).value;
  }

  /** Every stored plan has two alternatives and the fallback plan one, so no
      stored plan is the fallback. */
  lemma {:induction false} StoredPlanIsNotFallback(p: SeasonPlan)
    requires InTable(p)
    ensures p != FallbackPlan
  {
    var i, j, k :|
      && 0 <= i < |CropRecommendationsData|
      && 0 <= j < |CropRecommendationsData[i].1|
      && 0 <= k < |CropRecommendationsData[i].1[j].1|
      && CropRecommendationsData[i].1[j].1[k].1 == p;
    assert |p.alternatives| == 2;
  }

  /** The second step, for every listed region: when the exact entry is
      missing, the season's entry under the region's first-listed soil type
      is returned. */
  lemma FirstSoilTypeEntryReturned(i: nat, k: nat, soilType: string, season: Option<string>, month: int)
    requires 0 <= month < 12
    requires i < |CropRecommendationsData| && 0 < |CropRecommendationsData[i].1|
    requires k < |CropRecommendationsData[i].1[0].1|
    requires ResolveSeason(season, month) == CropRecommendationsData[i].1[0].1[k].0
    requires ExactMiss(CropRecommendationsData[i].1, soilType, ResolveSeason(season, month))
    ensures GetCropRecommendations(CropRecommendationsData[i].0, soilType, season, month)
      == CropRecommendationsData[i].1[0].1[k].1
  {
    var soils := CropRecommendationsData[i].1;
    var name := ResolveSeason(season, month);
    RegionKeysDistinct();
    LookupEntry(CropRecommendationsData, i);
    ExactStepMisses(soils, soilType, name);
    SeasonKeysDistinct(i, 0);
    LookupEntry(soils[0].1, k);
  }

  /** When the exact step misses by the table, the lookup it makes misses. */
  lemma ExactStepMisses(soils: Table<string, Table<string, SeasonPlan>>, soilType: string, name: string)
    requires ExactMiss(soils, soilType, name)
    ensures Lookup(soils, soilType).None? || Lookup(Lookup(soils, soilType).value, name).None?
  {
    if Lookup(soils, soilType).Some? {
      var j :| 0 <= j < |soils| && soils[j].0 == soilType && soils[j].1 == Lookup(soils, soilType).value
               && soilType !in Keys(soils[..j]);
      assert name !in Keys(soils[j].1);
    }
  }

  /** The third step, for every listed region: the fallback plan comes back
      exactly when neither the exact soil type nor the first-listed one has
      an entry for the season. */
  lemma ListedRegionFallsBack(i: nat, soilType: string, season: Option<string>, month: int)
    requires 0 <= month < 12
    requires i < |CropRecommendationsData| && 0 < |CropRecommendationsData[i].1|
    ensures var soils := CropRecommendationsData[i].1;
      var name := ResolveSeason(season, month);
      (GetCropRecommendations(CropRecommendationsData[i].0, soilType, season, month) == FallbackPlan
       <==> ExactMiss(soils, soilType, name) && name !in Keys(soils[0].1))
  {
    var soils := CropRecommendationsData[i].1;
    var name := ResolveSeason(season, month);
    RegionKeysDistinct();
    LookupEntry(CropRecommendationsData, i);
    SoilKeysDistinct(i);
    var p := GetCropRecommendations(CropRecommendationsData[i].0, soilType, season, month);
    if !ExactMiss(soils, soilType, name) {
      var j :| 0 <= j < |soils| && soils[j].0 == soilType && name in Keys(soils[j].1);
      LookupEntry(soils, j);
      LookupInTable(i, j, name);
      assert p == Lookup(soils[j].1, name).value;
      StoredPlanIsNotFallback(p);
    } else if name in Keys(soils[0].1) {
      ExactStepMisses(soils, soilType, name);
      LookupInTable(i, 0, name);
      assert p == Lookup(soils[0].1, name).value;
      StoredPlanIsNotFallback(p);
    } else {
      ExactStepMisses(soils, soilType, name);
    }
  }

  /** For example, a soil type West Bengal does not list gets its alluvial
      Winter entry. */
  lemma UnlistedSoilUsesFirstSoilType(month: int)
    requires 0 <= month < 12
    ensures GetCropRecommendations("West Bengal", "black", Some("Winter"), month) == WestBengalWinter
  {
    var soils := CropRecommendationsData[0].1;
    assert "black"[0] != "alluvial"[0];
    assert ExactMiss(soils, "black", "Winter");
    FirstSoilTypeEntryReturned(0, 2, "black", Some("Winter"), month);
  }

  /** No entry of the table is for "Post-Monsoon", so that season always gets
      the fallback plan, whatever the region and soil type. */
  lemma PostMonsoonFallsBack(region: string, soilType: string, month: int)
    requires 0 <= month < 12
    ensures GetCropRecommendations(region, soilType, Some("Post-Monsoon"), month) == FallbackPlan
  {
    var name := "Post-Monsoon";
    assert name[0] != "Summer"[0] && name[0] != "Monsoon"[0] && name[0] != "Winter"[0];
  }

  /** Hence in November and December, with no season given, every region gets
      the fallback plan. */
  lemma LateYearFallsBack(region: string, soilType: string, month: int)
    requires 10 <= month < 12
    ensures GetCropRecommendations(region, soilType, None, month) == FallbackPlan
  {
    PostMonsoonFallsBack(region, soilType, month);
  }

  // ---------------------------------------------------------------------------
  // Table-driven yield calculator (lines 464-544)
  // ---------------------------------------------------------------------------

  /** The `find` test: crop and variety equal after lower-casing both sides. */
  predicate Matches(c: CropRecommendation, crop: string, variety: string)
  {
    ToLower(c.crop) == ToLower(crop) && ToLower(c.variety) == ToLower(variety)
  }

  /** `Array.prototype.find` from position `i`: the first matching entry. */
  function FindMatchFrom(cs: seq<CropRecommendation>, crop: string, variety: string, i: nat): (r: Option<CropRecommendation>)
    requires i <= |cs|
    ensures r.None? <==> forall j | i <= j < |cs| :: !Matches(cs[j], crop, variety)
    ensures r.Some? ==> exists j | i <= j < |cs| ::
      && cs[j] == r.value && Matches(cs[j], crop, variety)
      && forall m | i <= m < j :: !Matches(cs[m], crop, variety)
    decreases |cs| - i
  {
    if i == |cs| then None
    else if Matches(cs[i], crop, variety) then Some(cs[i])
    else FindMatchFrom(cs, crop, variety, i + 1)
  }

  /** The recommendation `calculateYield` settles on: the first entry of the
      current season's primary then alternative crops that matches. */
  function MatchedCrop(crop: string, variety: string, soilType: string, region: string, month: int): (r: Option<CropRecommendation>)
    requires 0 <= month < 12
    ensures r.Some? ==> ValidRecommendation(r.value) && Matches(r.value, crop, variety)
  {
    var plan := GetCropRecommendations(region, soilType, Some(SeasonOfMonth(month).Name()), month);
    var cs := plan.primary + plan.alternatives;
    var r := FindMatchFrom(cs, crop, variety, 0);
    assert r.Some? ==> ValidRecommendation(r.value) by {
      if r.Some? {
        var j :| 0 <= j < |cs| && cs[j] == r.value;
        if j >= |plan.primary| {
          assert cs[j] == plan.alternatives[j - |plan.primary|];
        }
      }
    }
    r
  }

  /** Expected yield and range before rounding. */
  datatype Estimate = Estimate(expected: real, min: real, max: real)

  /** A matched crop: its table range read back from the text, as the middle
      of the range and the range widened by 10% on each side, times the area;
      zeros when the text holds no range. */
  function MatchedEstimate(e: YieldEstimate, area: real): Estimate
  {
    var parsed := ParseRange(EstimateText(e));
    if parsed.Some? then RangeEstimateOf(parsed.value.0, parsed.value.1, area) else Estimate(0.0, 0.0, 0.0)
  }

  /** The estimate for the range `a`-`b` quintals per hectare over `area`. */
  function RangeEstimateOf(a: nat, b: nat, area: real): Estimate
  {
    Estimate((a as real + b as real) / 2.0 * area, a as real * area * 0.9, b as real * area * 1.1)
  }

  /** No crop matched: 40 quintals per hectare, between 35 and 45. */
  function UnmatchedEstimate(area: real): Estimate
  {
    Estimate(40.0 * area, 35.0 * area, 45.0 * area)
  }

  /** The three fixed factor rows; the weather advice follows the season. */
  function SeasonalFactors(season: Season): (fs: seq<Factor>)
    ensures |fs| == 3
    ensures fs[0] == Factor(SoilQuality, HighImpact, AddOrganicMatter)
    ensures fs[1].name == SeasonalWeather && fs[1].impact == MediumImpact
    ensures fs[1].advice == EnsureDrainage <==> season == Monsoon
    ensures fs[1].advice == ProvideIrrigation <==> season == Summer
    ensures fs[1].advice == ProtectFromFrost <==> season == PostMonsoon || season == Winter
    ensures fs[2] == Factor(CropManagement, MediumImpact, FollowSpacing)
  {
    [ Factor(SoilQuality, HighImpact, AddOrganicMatter),
      Factor(SeasonalWeather, MediumImpact,
             if season == Monsoon then EnsureDrainage
             else if season == Summer then ProvideIrrigation
             else ProtectFromFrost),
      Factor(CropManagement, MediumImpact, FollowSpacing) ]
  }

  /** The expected yield and range of `calculateYield` before rounding. */
  function UnroundedYield(crop: string, variety: string, area: real, soilType: string, region: string, month: int): (e: Estimate)
    requires 0 <= month < 12
    ensures MatchedCrop(crop, variety, soilType, region, month).None? ==> e == UnmatchedEstimate(area)
    ensures MatchedCrop(crop, variety, soilType, region, month).Some? ==>
      e == MatchedEstimate(MatchedCrop(crop, variety, soilType, region, month).value.yieldEstimate, area)
    ensures area >= 0.0 ==> e.min <= e.expected <= e.max
  {
    var found := MatchedCrop(crop, variety, soilType, region, month);
    if found.Some? then
      assert area >= 0.0 ==> MatchedEstimate(found.value.yieldEstimate, area).min <= MatchedEstimate(found.value.yieldEstimate, area).expected <= MatchedEstimate(found.value.yieldEstimate, area).max by {
        if area >= 0.0 {
          EstimateOrdered(found.value, area);
        }
      }
      MatchedEstimate(found.value.yieldEstimate, area)
    else
      UnmatchedEstimate(area)
  }

  /** `calculateYield` for the month `month`: the unrounded estimate rounded to
      hundredths, confidence 85 and the three seasonal factor rows. */
  function CalculateYield(crop: string, variety: string, area: real, soilType: string, region: string, month: int): (p: YieldPrediction)
    requires 0 <= month < 12
    ensures p.confidence == 85
    ensures p.factors == SeasonalFactors(SeasonOfMonth(month))
    ensures area >= 0.0 ==> p.yieldRange.min <= p.expectedYield <= p.yieldRange.max
    ensures var e := UnroundedYield(crop, variety, area, soilType, region, month);
      p.expectedYield == Round2(e.expected) && p.yieldRange == YieldRange(Round2(e.min), Round2(e.max))
  {
    var e := UnroundedYield(crop, variety, area, soilType, region, month);
    assert area >= 0.0 ==> Round2(e.min) <= Round2(e.expected) <= Round2(e.max) by {
      if area >= 0.0 {
        Round2Monotone(e.min, e.expected);
        Round2Monotone(e.expected, e.max);
      }
    }
    YieldPrediction(Round2(e.expected), YieldRange(Round2(e.min), Round2(e.max)), 85, SeasonalFactors(SeasonOfMonth(month)))
  }

  /** With no matching crop the estimate is 40 quintals per hectare, between
      35 and 45, each rounded to hundredths. */
  lemma CalculateYieldUnmatched(crop: string, variety: string, area: real, soilType: string, region: string, month: int)
    requires 0 <= month < 12
    requires MatchedCrop(crop, variety, soilType, region, month).None?
    ensures var p := CalculateYield(crop, variety, area, soilType, region, month);
      && p.expectedYield == Round2(40.0 * area)
      && p.yieldRange == YieldRange(Round2(35.0 * area), Round2(45.0 * area))
  {
    var e := UnroundedYield(crop, variety, area, soilType, region, month);
    var p := CalculateYield(crop, variety, area, soilType, region, month);
    assert p.expectedYield == Round2(e.expected) && p.yieldRange == YieldRange(Round2(e.min), Round2(e.max));
    assert e == UnmatchedEstimate(area);
    RoundedUnmatched(e, area);
  }

  /** Rounding the fixed unmatched estimate. */
  lemma RoundedUnmatched(e: Estimate, area: real)
    requires e == UnmatchedEstimate(area)
    ensures Round2(e.expected) == Round2(40.0 * area)
    ensures YieldRange(Round2(e.min), Round2(e.max)) == YieldRange(Round2(35.0 * area), Round2(45.0 * area))
  {
  }

  /** Reading back a numeric estimate recovers the table's range, so the
      estimate is computed from the numbers the table holds. */
  lemma RangeEstimate(lo: nat, hi: nat, area: real)
    ensures MatchedEstimate(PerHectare(lo, hi), area) == RangeEstimateOf(lo, hi, area)
  {
    EstimateRoundTrip(lo, hi);
  }

  /** A descriptive estimate without digits gives zeros. */
  lemma DescriptiveEstimate(text: string, area: real)
    requires NoDigits(text)
    ensures MatchedEstimate(Descriptive(text), area) == Estimate(0.0, 0.0, 0.0)
  {
    NoDigitsNoRange(text);
  }

  /** For a valid recommendation the estimate is ordered. */
  lemma EstimateOrdered(c: CropRecommendation, area: real)
    requires ValidRecommendation(c) && area >= 0.0
    ensures var e := MatchedEstimate(c.yieldEstimate, area); e.min <= e.expected <= e.max
  {
    match c.yieldEstimate
    case PerHectare(lo, hi) =>
      RangeEstimate(lo, hi, area);
      WidenedRangeOrdered(lo, hi, area);
    case Descriptive(text) =>
      DescriptiveEstimate(text, area);
  }

  /** The middle of an ordered range lies between its widened ends. */
  lemma WidenedRangeOrdered(lo: nat, hi: nat, area: real)
    requires lo <= hi && area >= 0.0
    ensures var e := RangeEstimateOf(lo, hi, area); e.min <= e.expected <= e.max
  {
    var a, b := lo as real, hi as real;
    assert a * 0.9 <= (a + b) / 2.0 <= b * 1.1;
    assert a * area * 0.9 == (a * 0.9) * area;
    assert b * area * 1.1 == (b * 1.1) * area;
  }

  /** A matched crop with a numeric estimate gets the middle of the table's
      range, and the range widened by 10%, times the area (before rounding). */
  lemma CalculateYieldOfRange(crop: string, variety: string, area: real, soilType: string, region: string, month: int, lo: nat, hi: nat)
    requires 0 <= month < 12
    requires MatchedCrop(crop, variety, soilType, region, month).Some?
    requires MatchedCrop(crop, variety, soilType, region, month).value.yieldEstimate == PerHectare(lo, hi)
    ensures UnroundedYield(crop, variety, area, soilType, region, month) == RangeEstimateOf(lo, hi, area)
  {
    RangeEstimate(lo, hi, area);
  }

  /** A matched crop whose estimate is descriptive text gets zeros. */
  lemma CalculateYieldOfText(crop: string, variety: string, area: real, soilType: string, region: string, month: int, text: string)
    requires 0 <= month < 12
    requires MatchedCrop(crop, variety, soilType, region, month).Some?
    requires MatchedCrop(crop, variety, soilType, region, month).value.yieldEstimate == Descriptive(text)
    ensures var p := CalculateYield(crop, variety, area, soilType, region, month);
      p.expectedYield == 0.0 && p.yieldRange == YieldRange(0.0, 0.0)
  {
    DescriptiveEstimate(text, area);
    Round2OfHundredths(0);
  }

  /** In July, "rice" / "SWARNA (MTU-7029)" finds West Bengal's first alluvial
      Monsoon entry: the match ignores case. */
  lemma SwarnaMatchedInJuly()
    ensures MatchedCrop("rice", "SWARNA (MTU-7029)", "alluvial", "West Bengal", 6) == Some(WestBengalMonsoon.primary[0])
  {
    WestBengalMonsoonLeadsWithSwarna(6);
    SwarnaMatchesIgnoringCase();
    assert SeasonOfMonth(6).Name() == "Monsoon";
    var plan := GetCropRecommendations("West Bengal", "alluvial", Some("Monsoon"), 6);
    assert (plan.primary + plan.alternatives)[0] == WestBengalMonsoon.primary[0];
  }

  lemma SwarnaMatchesIgnoringCase()
    ensures Matches(WestBengalMonsoon.primary[0], "rice", "SWARNA (MTU-7029)")
  {
    var c := WestBengalMonsoon.primary[0];
    assert ToLower("rice") == ToLower(c.crop);
    assert ToLower("SWARNA (MTU-7029)") == ToLower(c.variety);
  }

  /** Its table range of 50-55 quintals per hectare gives 105 quintals on two
      hectares, within 90 to 121. */
  lemma SwarnaYieldInJuly()
    ensures var p := CalculateYield("rice", "SWARNA (MTU-7029)", 2.0, "alluvial", "West Bengal", 6);
      p.expectedYield == 105.0 && p.yieldRange == YieldRange(90.0, 121.0)
  {
    SwarnaMatchedInJuly();
    CalculateYieldOfRange("rice", "SWARNA (MTU-7029)", 2.0, "alluvial", "West Bengal", 6, 50, 55);
    Round2OfHundredths(10500);
    Round2OfHundredths(9000);
    Round2OfHundredths(12100);
  }

}
