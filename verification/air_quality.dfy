/** The air-quality classifiers of the air-quality card
    (src/components/weather/AirQualityCard.tsx:18-34): the category name and
    the badge colour of an Air Quality Index value. The bands are those of the
    US EPA AQI (40 CFR Part 58, Appendix G, Table 2). */
module AirQuality {

  /** The six AQI categories, from least to most severe. */
  datatype Category = Good | Moderate | UnhealthyForSensitiveGroups | Unhealthy | VeryUnhealthy | Hazardous
  {
    function Label(): string
    {
      match this
      case Good => "Good"
      case Moderate => "Moderate"
      case UnhealthyForSensitiveGroups => "Unhealthy for Sensitive Groups"
      case Unhealthy => "Unhealthy"
      case VeryUnhealthy => "Very Unhealthy"
      case Hazardous => "Hazardous"
    }

    /** 0 for Good up to 5 for Hazardous. */
    function Severity(): (n: nat)
      ensures n < 6
    {
      match this
      case Good => 0
      case Moderate => 1
      case UnhealthyForSensitiveGroups => 2
      case Unhealthy => 3
      case VeryUnhealthy => 4
      case Hazardous => 5
    }

    /** The colour the EPA assigns to the category. */
    function Colour(): BadgeColour
    {
      match this
      case Good => Green
      case Moderate => Yellow
      case UnhealthyForSensitiveGroups => Orange
      case Unhealthy => Red
      case VeryUnhealthy => Purple
      case Hazardous => Maroon
    }
  }

  /** The badge colours, from least to most severe. */
  datatype BadgeColour = Green | Yellow | Orange | Red | Purple | Maroon
  {
    /** The style class of the badge. */
    function ClassName(): string
    {
      match this
      case Green => "bg-green-500"
      case Yellow => "bg-yellow-500"
      case Orange => "bg-orange-500"
      case Red => "bg-red-500"
      case Purple => "bg-purple-500"
      case Maroon => "bg-maroon-500"
    }

    /** 0 for green up to 5 for maroon. */
    function Severity(): (n: nat)
      ensures n < 6
    {
      match this
      case Green => 0
      case Yellow => 1
      case Orange => 2
      case Red => 3
      case Purple => 4
      case Maroon => 5
    }
  }

  /** The inclusive upper ends of the first five bands. */
  const Breakpoints: seq<real> := [50.0, 100.0, 150.0, 200.0, 300.0]

  /** The value lies in band `n`: above the previous breakpoint (if any) and
      at most the next one (if any). */
  predicate InBand(aqi: real, n: nat)
    requires n < 6
  {
    (n == 0 || aqi > Breakpoints[n - 1]) && (n == 5 || aqi <= Breakpoints[n])
  }

  /** Every value lies in exactly one band. */
  lemma BandUnique(aqi: real, m: nat, n: nat)
    requires m < 6 && n < 6
    requires InBand(aqi, m) && InBand(aqi, n)
    ensures m == n
  {
  }

  /** `getAqiDescription`: the category whose band holds the value. */
  function GetAqiDescription(aqi: real): (c: Category)
    ensures InBand(aqi, c.Severity())
  {
    if aqi <= 50.0 then Good
    else if aqi <= 100.0 then Moderate
    else if aqi <= 150.0 then UnhealthyForSensitiveGroups
    else if aqi <= 200.0 then Unhealthy
    else if aqi <= 300.0 then VeryUnhealthy
    else Hazardous
  }

  /** `getAqiColor`: the colour whose band holds the value. */
  function GetAqiColor(aqi: real): (c: BadgeColour)
    ensures InBand(aqi, c.Severity())
  {
    if aqi <= 50.0 then Green
    else if aqi <= 100.0 then Yellow
    else if aqi <= 150.0 then Orange
    else if aqi <= 200.0 then Red
    else if aqi <= 300.0 then Purple
    else Maroon
  }

  /** The two classifiers share their breakpoints, so the colour is the
      colour of the category. */
  lemma ColourFollowsCategory(aqi: real)
    ensures GetAqiColor(aqi) == GetAqiDescription(aqi).Colour()
  {
    var c := GetAqiDescription(aqi);
    BandUnique(aqi, GetAqiColor(aqi).Severity(), c.Severity());
    assert c.Colour().Severity() == c.Severity();
  }

  /** A larger value is never in a less severe category. */
  lemma CategoryMonotone(a: real, b: real)
    requires a <= b
    ensures GetAqiDescription(a).Severity() <= GetAqiDescription(b).Severity()
    ensures GetAqiColor(a).Severity() <= GetAqiColor(b).Severity()
  {
  }

  /** The edges of the bands: the breakpoints themselves belong to the lower
      band. */
  lemma BandEdges()
    ensures GetAqiDescription(50.0) == Good && GetAqiDescription(51.0) == Moderate
    ensures GetAqiDescription(100.0) == Moderate && GetAqiDescription(101.0) == UnhealthyForSensitiveGroups
    ensures GetAqiDescription(150.0) == UnhealthyForSensitiveGroups && GetAqiDescription(151.0) == Unhealthy
    ensures GetAqiDescription(200.0) == Unhealthy && GetAqiDescription(201.0) == VeryUnhealthy
    ensures GetAqiDescription(300.0) == VeryUnhealthy && GetAqiDescription(301.0) == Hazardous
  {
  }

  /** There is no lower bound check: zero and negative values are Good. */
  lemma NonPositiveIsGood(aqi: real)
    requires aqi <= 0.0
    ensures GetAqiDescription(aqi) == Good && GetAqiColor(aqi) == Green
  {
  }

  /** The EPA's table of index ranges, with integer ends. */
  const EpaRanges: seq<(int, int, Category)> := [
    (0, 50, Good),
    (51, 100, Moderate),
    (101, 150, UnhealthyForSensitiveGroups),
    (151, 200, Unhealthy),
    (201, 300, VeryUnhealthy),
    (301, 500, Hazardous)]

  /** The EPA ranges cover 0 to 500 without gaps or overlaps, in order of
      severity. */
  lemma EpaRangesPartition()
    ensures EpaRanges[0].0 == 0 && EpaRanges[5].1 == 500
    ensures forall i | 0 <= i < 5 :: EpaRanges[i + 1].0 == EpaRanges[i].1 + 1
    ensures forall i | 0 <= i < 6 :: EpaRanges[i].0 <= EpaRanges[i].1 && EpaRanges[i].2.Severity() == i
  {
  }

  /** On every integer value the EPA table ranges over, both classifiers give
      the EPA's category and colour. */
  lemma AgreesWithEpa(aqi: int, i: nat)
    requires i < |EpaRanges|
    requires EpaRanges[i].0 <= aqi <= EpaRanges[i].1
    ensures GetAqiDescription(aqi as real) == EpaRanges[i].2
    ensures GetAqiColor(aqi as real) == EpaRanges[i].2.Colour()
  {
    ColourFollowsCategory(aqi as real);
  }
}
