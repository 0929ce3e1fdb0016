/** The crop price lookup of the home page and the trend and advisory texts
    chosen from it (src/pages/Index.tsx:14-100 and 215-246). */
module MarketPrices {
  import opened Options
  import opened Tables
  import Prediction

  datatype Trend = Up | Down
  {
    function Label(): string
    {
      match this
      case Up => "up"
      case Down => "down"
    }
  }

  /** The ten markets every price entry quotes. */
  datatype City = Delhi | Mumbai | Chennai | Kolkata | Bengaluru | Hyderabad | Lucknow | Jaipur | Ahmedabad | Bhopal
  {
    function Name(): string
    {
      match this
      case Delhi => "Delhi"
      case Mumbai => "Mumbai"
      case Chennai => "Chennai"
      case Kolkata => "Kolkata"
      case Bengaluru => "Bengaluru"
      case Hyderabad => "Hyderabad"
      case Lucknow => "Lucknow"
      case Jaipur => "Jaipur"
      case Ahmedabad => "Ahmedabad"
      case Bhopal => "Bhopal"
    }
  }

  const Cities: seq<City> := [Delhi, Mumbai, Chennai, Kolkata, Bengaluru, Hyderabad, Lucknow, Jaipur, Ahmedabad, Bhopal]

  /** Prices in rupees per quintal; `priceChange` is the change in percent. */
  datatype PriceData = PriceData(
    currentPrice: int,
    previousPrice: int,
    trend: Trend,
    priceChange: real,
    regions: Table<City, int>)

  /** The percentage change from the previous to the current price, rounded
      to two decimals. */
  function PercentChange(previous: int, current: int): real
    requires previous > 0
  {
    Prediction.Round2((current - previous) as real / previous as real * 100.0)
  }

  /** An entry is consistent when its trend says whether the price rose, its
      percentage is the rounded relative change (so its sign agrees with the
      trend), and it quotes the ten markets in the same order. */
  predicate Consistent(d: PriceData)
  {
    && d.previousPrice > 0
    && (d.trend == Up <==> d.currentPrice > d.previousPrice)
    && (d.trend == Up <==> d.priceChange > 0.0)
    && d.priceChange == PercentChange(d.previousPrice, d.currentPrice)
    && Keys(d.regions) == Cities
  }

  function Quotes(p: seq<int>): (t: Table<City, int>)
    requires |p| == |Cities|
    ensures Keys(t) == Cities
  {
    seq(|Cities|, i requires 0 <= i < |Cities| => (Cities[i], p[i]))
  }

  const RicePrices := PriceData(2205, 2150, Up, 2.56,
    Quotes([2250, 2280, 2190, 2210, 2230, 2200, 2170, 2160, 2190, 2180]))

  const WheatPrices := PriceData(1812, 1780, Up, 1.8,
    Quotes([1850, 1840, 1790, 1810, 1820, 1800, 1830, 1810, 1820, 1800]))

  const PotatoPrices := PriceData(1490, 1540, Down, -3.25,
    Quotes([1520, 1540, 1470, 1500, 1510, 1480, 1460, 1450, 1490, 1480]))

  const OnionPrices := PriceData(2542, 2380, Up, 6.81,
    Quotes([2580, 2600, 2510, 2550, 2570, 2530, 2520, 2500, 2560, 2530]))

  /** The price table, keyed by crop name. */
  const PriceTable: Table<string, PriceData> := [
    ("rice", RicePrices),
    ("wheat", WheatPrices),
    ("potato", PotatoPrices),
    ("onion", OnionPrices)]

  /** The rounding of a percentage to two decimals gives the value `v` when
      the exact percentage lies within half a hundredth below it. */
  lemma RoundsTo(x: real, v: real, n: int)
    requires v == n as real / 100.0
    requires v - 0.005 <= x < v + 0.005
    ensures Prediction.Round2(x) == v
  {
    assert n as real - 0.5 <= x * 100.0 < n as real + 0.5;
    assert (x * 100.0 + 0.5).Floor == n;
  }

  lemma RicePricesConsistent() ensures Consistent(RicePrices)
  {
    RoundsTo((2205 - 2150) as real / 2150 as real * 100.0, 2.56, 256);
  }

  lemma WheatPricesConsistent() ensures Consistent(WheatPrices)
  {
    RoundsTo((1812 - 1780) as real / 1780 as real * 100.0, 1.8, 180);
  }

  lemma PotatoPricesConsistent() ensures Consistent(PotatoPrices)
  {
    RoundsTo((1490 - 1540) as real / 1540 as real * 100.0, -3.25, -325);
  }

  lemma OnionPricesConsistent() ensures Consistent(OnionPrices)
  {
    RoundsTo((2542 - 2380) as real / 2380 as real * 100.0, 6.81, 681);
  }

  /** Every entry of the table is consistent. */
  lemma {:induction false} PriceTableConsistent(i: nat)
    requires i < |PriceTable|
    ensures Consistent(PriceTable[i].1)
  {
    if i == 0 { RicePricesConsistent(); }
    else if i == 1 { WheatPricesConsistent(); }
    else if i == 2 { PotatoPricesConsistent(); }
    else { OnionPricesConsistent(); }
  }

  const CropDataNotAvailable := "Crop data not available"

  /** `fetchCropPriceData`: the entry for a listed crop, which is always
      consistent, or the error "Crop data not available". */
  function FetchCropPriceData(crop: string): (r: Result<PriceData, string>)
    ensures r.Err? <==> crop !in Keys(PriceTable)
    ensures r.Err? ==> r.error == CropDataNotAvailable
    ensures r.Ok? ==> Consistent(r.value)
    ensures r.Ok? ==> forall i | 0 <= i < |PriceTable| && PriceTable[i].0 == crop :: r.value == PriceTable[i].1
  {
    match Lookup(PriceTable, crop)
    case None => Err(CropDataNotAvailable)
    case Some(d) =>
      var i :| 0 <= i < |PriceTable| && PriceTable[i].0 == crop && PriceTable[i].1 == d;
      PriceTableConsistent(i);
      assert forall a, b | 0 <= a < b < |PriceTable| :: PriceTable[a].0 != PriceTable[b].0;
      Ok(d)
  }

  /** Exactly rice, wheat, potato and onion are priced. */
  lemma PricedCrops(crop: string)
    ensures FetchCropPriceData(crop).Ok? <==> crop in ["rice", "wheat", "potato", "onion"]
  {
    assert Keys(PriceTable) == ["rice", "wheat", "potato", "onion"];
  }

  /** The price-trend card: the direction shown and the advice under it. */
  datatype TrendAdvice = RisingHold | DecliningSell
  {
    function Heading(): string
    {
      match this
      case RisingHold => "Increasing trend"
      case DecliningSell => "Decreasing trend"
    }

    function Text(): string
    {
      match this
      case RisingHold => "Prices have been rising over the past week. Consider holding if storage is available."
      case DecliningSell => "Prices have been declining. Consider selling if you have market-ready produce."
    }
  }

  /** The market-advisory card text. */
  datatype Advisory = SignificantIncrease | ModerateUpward | SharpDecline | MildDownward
  {
    predicate Rising() { this == SignificantIncrease || this == ModerateUpward }

    function Text(): string
    {
      match this
      case SignificantIncrease => "Significant price increase detected. Markets are showing strong demand."
      case ModerateUpward => "Moderate upward trend. Demand is stable across major markets."
      case SharpDecline => "Sharp price decline. Consider alternative markets or storage if possible."
      case MildDownward => "Mild downward trend. Normal seasonal fluctuation."
    }
  }

  /** The trend card: hold while prices rise, sell otherwise. */
  function TrendAdviceOf(d: PriceData): (a: TrendAdvice)
    ensures a == RisingHold <==> d.trend == Up
  {
    if d.trend == Up then RisingHold else DecliningSell
  }

  /** The advisory card: a rising advisory exactly for an upward trend, a
      significant rise only above five percent, a sharp decline only below
      minus five percent. */
  function MarketAdvisory(d: PriceData): (a: Advisory)
    ensures a.Rising() <==> d.trend == Up
    ensures a == SignificantIncrease <==> d.trend == Up && d.priceChange > 5.0
    ensures a == SharpDecline <==> d.trend != Up && d.priceChange < -5.0
  {
    if d.trend == Up && d.priceChange > 5.0 then SignificantIncrease
    else if d.trend == Up then ModerateUpward
    else if d.priceChange < -5.0 then SharpDecline
    else MildDownward
  }

  /** The two cards never contradict each other: the advisory rises exactly
      when the trend card advises holding. */
  lemma CardsAgree(d: PriceData)
    ensures MarketAdvisory(d).Rising() <==> TrendAdviceOf(d) == RisingHold
  {
  }

  /** On a consistent entry the advisory follows the prices themselves. */
  lemma AdvisoryFollowsPrices(d: PriceData)
    requires Consistent(d)
    ensures MarketAdvisory(d).Rising() <==> d.currentPrice > d.previousPrice
    ensures MarketAdvisory(d) == SharpDecline ==> d.priceChange < -5.0 && d.currentPrice <= d.previousPrice
  {
  }

  /** The advisories of the shipped prices: onion rises significantly, rice
      and wheat moderately, potato falls mildly. */
  lemma ShippedAdvisories()
    ensures MarketAdvisory(OnionPrices) == SignificantIncrease
    ensures MarketAdvisory(RicePrices) == ModerateUpward
    ensures MarketAdvisory(WheatPrices) == ModerateUpward
    ensures MarketAdvisory(PotatoPrices) == MildDownward
  {
  }
}
