/** Regional seven-day forecasts, the twelve-month climate outlook and the
    rainfall classifier built on them (src/data/weatherData.ts). */
module WeatherData {
  import opened Options
  import opened Tables

  /** The `day` label of a forecast row. */
  datatype DayName = Today | Tomorrow | Sun | Mon | Tue | Wed | Thu | Fri | Sat
  {
    function Label(): string
    {
      match this
      case Today => "Today"
      case Tomorrow => "Tomorrow"
      case Sun => "Sun"
      case Mon => "Mon"
      case Tue => "Tue"
      case Wed => "Wed"
      case Thu => "Thu"
      case Fri => "Fri"
      case Sat => "Sat"
    }
  }

  /** The `description` of a forecast row. */
  datatype Conditions = Sunny | PartlyCloudy | MostlySunny | Hot | LightRain | Rain | HeavyRain | Thunderstorms
  {
    function Label(): string
    {
      match this
      case Sunny => "Sunny"
      case PartlyCloudy => "Partly Cloudy"
      case MostlySunny => "Mostly Sunny"
      case Hot => "Hot"
      case LightRain => "Light Rain"
      case Rain => "Rain"
      case HeavyRain => "Heavy Rain"
      case Thunderstorms => "Thunderstorms"
    }
  }

  /** The `icon` name of a forecast row. */
  datatype Icon = SunIcon | CloudSunIcon | CloudRainIcon
  {
    function Name(): string
    {
      match this
      case SunIcon => "sun"
      case CloudSunIcon => "cloud-sun"
      case CloudRainIcon => "cloud-rain"
    }
  }

  /** One day of a forecast: temperature in degrees Celsius, humidity in
      percent and rainfall in millimetres. */
  datatype WeatherDay = WeatherDay(
    day: DayName,
    temperature: int,
    humidity: int,
    rainfall: int,
    description: Conditions,
    icon: Icon)

  /** Measurements a day can physically carry. */
  predicate ValidDay(w: WeatherDay)
  {
    0 <= w.humidity <= 100 && w.rainfall >= 0
  }

  /** A seven-day forecast starting today, every day of it plausible. */
  predicate ValidForecast(d: seq<WeatherDay>)
  {
    && |d| == 7
    && d[0].day == Today
    && d[1].day == Tomorrow
    && (forall i | 0 <= i < |d| :: ValidDay(d[i]))
  }

  const WestBengalWeather := [
    WeatherDay(Today, 36, 52, 0, Sunny, SunIcon),
    WeatherDay(Tomorrow, 35, 50, 0, PartlyCloudy, CloudSunIcon),
    WeatherDay(Sun, 33, 78, 8, LightRain, CloudRainIcon),
    WeatherDay(Mon, 32, 82, 12, Thunderstorms, CloudRainIcon),
    WeatherDay(Tue, 31, 76, 4, LightRain, CloudRainIcon),
    WeatherDay(Wed, 32, 70, 0, MostlySunny, CloudSunIcon),
    WeatherDay(Thu, 33, 67, 0, Sunny, SunIcon)]

  const PunjabWeather := [
    WeatherDay(Today, 38, 45, 0, Hot, SunIcon),
    WeatherDay(Tomorrow, 37, 50, 0, Hot, SunIcon),
    WeatherDay(Sun, 36, 48, 0, Hot, SunIcon),
    WeatherDay(Mon, 38, 42, 0, Hot, SunIcon),
    WeatherDay(Tue, 39, 40, 0, Hot, SunIcon),
    WeatherDay(Wed, 37, 45, 0, Hot, SunIcon),
    WeatherDay(Thu, 36, 50, 3, LightRain, CloudRainIcon)]

  const UttarPradeshWeather := [
    WeatherDay(Today, 39, 48, 0, Hot, SunIcon),
    WeatherDay(Tomorrow, 38, 52, 0, Hot, SunIcon),
    WeatherDay(Sun, 37, 55, 4, LightRain, CloudRainIcon),
    WeatherDay(Mon, 36, 60, 8, Rain, CloudRainIcon),
    WeatherDay(Tue, 35, 62, 5, LightRain, CloudRainIcon),
    WeatherDay(Wed, 36, 57, 0, PartlyCloudy, CloudSunIcon),
    WeatherDay(Thu, 37, 50, 0, Sunny, SunIcon)]

  const MaharashtraWeather := [
    WeatherDay(Today, 33, 68, 6, LightRain, CloudRainIcon),
    WeatherDay(Tomorrow, 32, 72, 12, Rain, CloudRainIcon),
    WeatherDay(Sun, 30, 78, 20, HeavyRain, CloudRainIcon),
    WeatherDay(Mon, 29, 82, 18, HeavyRain, CloudRainIcon),
    WeatherDay(Tue, 30, 76, 10, Rain, CloudRainIcon),
    WeatherDay(Wed, 31, 70, 5, LightRain, CloudRainIcon),
    WeatherDay(Thu, 32, 65, 0, PartlyCloudy, CloudSunIcon)]

  const KarnatakaWeather := [
    WeatherDay(Today, 30, 62, 0, PartlyCloudy, CloudSunIcon),
    WeatherDay(Tomorrow, 31, 60, 0, Sunny, SunIcon),
    WeatherDay(Sun, 32, 58, 0, Sunny, SunIcon),
    WeatherDay(Mon, 31, 62, 4, LightRain, CloudRainIcon),
    WeatherDay(Tue, 30, 65, 8, Rain, CloudRainIcon),
    WeatherDay(Wed, 29, 68, 6, LightRain, CloudRainIcon),
    WeatherDay(Thu, 30, 64, 0, PartlyCloudy, CloudSunIcon)]

  /** `regionalWeatherData`, in source order. */
  const RegionalWeatherData: Table<string, seq<WeatherDay>> := [
    ("West Bengal", WestBengalWeather),
    ("Punjab", PunjabWeather),
    ("Uttar Pradesh", UttarPradeshWeather),
    ("Maharashtra", MaharashtraWeather),
    ("Karnataka", KarnatakaWeather)]

  lemma WestBengalWeatherValid() ensures ValidForecast(WestBengalWeather) {}
  lemma PunjabWeatherValid() ensures ValidForecast(PunjabWeather) {}
  lemma UttarPradeshWeatherValid() ensures ValidForecast(UttarPradeshWeather) {}
  lemma MaharashtraWeatherValid() ensures ValidForecast(MaharashtraWeather) {}
  lemma KarnatakaWeatherValid() ensures ValidForecast(KarnatakaWeather) {}

  /** Every forecast of the table is a valid seven-day forecast. */
  lemma {:induction false} WeatherTableValid(i: nat)
    requires i < |RegionalWeatherData|
    ensures ValidForecast(RegionalWeatherData[i].1)
  {
    if i == 0 { WestBengalWeatherValid(); }
    else if i == 1 { PunjabWeatherValid(); }
    else if i == 2 { UttarPradeshWeatherValid(); }
    else if i == 3 { MaharashtraWeatherValid(); }
    else { KarnatakaWeatherValid(); }
  }

  /** `getWeatherForecast`: the location's forecast, or West Bengal's for a
      location the table does not list. */
  function GetWeatherForecast(location: string): (d: seq<WeatherDay>)
    ensures ValidForecast(d)
    ensures forall i | 0 <= i < |RegionalWeatherData| && RegionalWeatherData[i].0 == location
              :: d == RegionalWeatherData[i].1
    ensures location !in Keys(RegionalWeatherData) ==> d == WestBengalWeather
  {
    match Lookup(RegionalWeatherData, location)
    case Some(d) =>
      var i :| 0 <= i < |RegionalWeatherData| && RegionalWeatherData[i].0 == location
                && RegionalWeatherData[i].1 == d;
      WeatherTableValid(i);
      assert forall a, b | 0 <= a < b < |RegionalWeatherData| :: RegionalWeatherData[a].0 != RegionalWeatherData[b].0;
      d
    case None =>
      WestBengalWeatherValid();
      WestBengalWeather
  }

  /** The total rainfall of a forecast, added up from the first day as
      `reduce` does. */
  function RainfallSum(d: seq<WeatherDay>): int
  {
    if |d| == 0 then 0 else RainfallSum(d[..|d| - 1]) + d[|d| - 1].rainfall
  }

  /** With no negative day, the total is not negative either, and it is zero
      exactly when every day is dry. */
  lemma {:induction false} RainfallSumNonNegative(d: seq<WeatherDay>)
    requires forall i | 0 <= i < |d| :: d[i].rainfall >= 0
    ensures RainfallSum(d) >= 0
    ensures RainfallSum(d) == 0 <==> forall i | 0 <= i < |d| :: d[i].rainfall == 0
  {
    if |d| > 0 {
      var p := d[..|d| - 1];
      assert forall i | 0 <= i < |p| :: p[i] == d[i];
      RainfallSumNonNegative(p);
    }
  }

  /** The four outlooks `getSeasonalDescription` chooses between. */
  datatype Outlook = HeavyMonsoon | ModerateRainfall | LightRainfall | DryConditions
  {
    function Text(): string
    {
      match this
      case HeavyMonsoon =>
        "Heavy monsoon conditions expected, ensure proper drainage and consider water-resistant crop varieties."
      case ModerateRainfall =>
        "Moderate rainfall expected, good conditions for most crops with adequate irrigation planning."
      case LightRainfall =>
        "Light rainfall expected, supplemental irrigation may be necessary for optimal crop growth."
      case DryConditions =>
        "Dry conditions expected, irrigation will be essential for crop survival and growth."
    }
  }

  /** The mean daily rainfall of a non-empty forecast. */
  function MeanRainfall(d: seq<WeatherDay>): real
    requires |d| > 0
  {
    RainfallSum(d) as real / |d| as real
  }

  /** The classification by mean rainfall, with strict thresholds 10, 5 and 0. */
  function OutlookOf(mean: real): Outlook
  {
    if mean > 10.0 then HeavyMonsoon
    else if mean > 5.0 then ModerateRainfall
    else if mean > 0.0 then LightRainfall
    else DryConditions
  }

  /** `getSeasonalDescription`. The mean is always defined because every
      forecast returned has seven days; comparing it with the thresholds is
      comparing the total with seven times each threshold. */
  function GetSeasonalDescription(location: string): (o: Outlook)
    ensures var d := GetWeatherForecast(location);
            && (o == HeavyMonsoon <==> RainfallSum(d) > 10 * |d|)
            && (o == ModerateRainfall <==> 5 * |d| < RainfallSum(d) <= 10 * |d|)
            && (o == LightRainfall <==> 0 < RainfallSum(d) <= 5 * |d|)
            && (o == DryConditions <==> RainfallSum(d) <= 0)
  {
    var d := GetWeatherForecast(location);
    var o := OutlookOf(MeanRainfall(d));
    MeanAgainstThreshold(RainfallSum(d), |d|, 10);
    MeanAgainstThreshold(RainfallSum(d), |d|, 5);
    MeanAgainstThreshold(RainfallSum(d), |d|, 0);
    o
  }

  /** A mean exceeds a threshold exactly when the total exceeds the threshold
      times the number of days. */
  lemma MeanAgainstThreshold(sum: int, n: nat, t: int)
    requires n > 0
    ensures sum as real / n as real > t as real <==> sum > t * n
  {
    var m := sum as real / n as real;
    assert m * n as real == sum as real;
    if m > t as real {
      assert m * n as real > (t as real) * (n as real);
    } else {
      assert m * n as real <= (t as real) * (n as real);
    }
  }

  /** The outlook is dry exactly when no day of the forecast has rain. */
  lemma DryIffNoRain(location: string)
    ensures var d := GetWeatherForecast(location);
            GetSeasonalDescription(location) == DryConditions <==> forall i | 0 <= i < |d| :: d[i].rainfall == 0
  {
    RainfallSumNonNegative(GetWeatherForecast(location));
  }

  /** A location the table does not list gets West Bengal's forecast and
      therefore West Bengal's description. */
  lemma UnknownLocationIsWestBengal(location: string)
    requires location !in Keys(RegionalWeatherData)
    ensures GetWeatherForecast(location) == GetWeatherForecast("West Bengal")
    ensures GetSeasonalDescription(location) == GetSeasonalDescription("West Bengal")
  {
    assert RegionalWeatherData[0].0 == "West Bengal";
    assert "West Bengal" !in Keys(RegionalWeatherData[..0]);
  }

  /** Adding up a prefix one day longer adds that day's rainfall. */
  lemma RainfallSumStep(d: seq<WeatherDay>, k: nat)
    requires 0 < k <= |d|
    ensures RainfallSum(d[..k]) == RainfallSum(d[..k - 1]) + d[k - 1].rainfall
  {
    assert d[..k][..k - 1] == d[..k - 1];
  }

  /** The total of a seven-day forecast, written out. */
  lemma SumOfSeven(d: seq<WeatherDay>)
    requires |d| == 7
    ensures RainfallSum(d) == d[0].rainfall + d[1].rainfall + d[2].rainfall + d[3].rainfall
                              + d[4].rainfall + d[5].rainfall + d[6].rainfall
  {
    RainfallSumStep(d, 1);
    RainfallSumStep(d, 2);
    RainfallSumStep(d, 3);
    RainfallSumStep(d, 4);
    RainfallSumStep(d, 5);
    RainfallSumStep(d, 6);
    RainfallSumStep(d, 7);
    assert d[..7] == d;
  }

  /** Maharashtra (71 mm over seven days) is classified as heavy monsoon. */
  lemma MaharashtraIsHeavy()
    ensures GetSeasonalDescription("Maharashtra") == HeavyMonsoon
  {
    SumOfSeven(MaharashtraWeather);
    assert GetWeatherForecast("Maharashtra") == RegionalWeatherData[3].1;
  }

  /** West Bengal (24 mm over seven days) gets light rainfall. */
  lemma WestBengalIsLight()
    ensures GetSeasonalDescription("West Bengal") == LightRainfall
  {
    SumOfSeven(WestBengalWeather);
    assert GetWeatherForecast("West Bengal") == RegionalWeatherData[0].1;
  }

  /** Punjab (3 mm over seven days) gets light rainfall. */
  lemma PunjabIsLight()
    ensures GetSeasonalDescription("Punjab") == LightRainfall
  {
    SumOfSeven(PunjabWeather);
    assert GetWeatherForecast("Punjab") == RegionalWeatherData[1].1;
  }

  /** Uttar Pradesh (17 mm over seven days) gets light rainfall. */
  lemma UttarPradeshIsLight()
    ensures GetSeasonalDescription("Uttar Pradesh") == LightRainfall
  {
    SumOfSeven(UttarPradeshWeather);
    assert GetWeatherForecast("Uttar Pradesh") == RegionalWeatherData[2].1;
  }

  /** Karnataka (18 mm over seven days) gets light rainfall. */
  lemma KarnatakaIsLight()
    ensures GetSeasonalDescription("Karnataka") == LightRainfall
  {
    SumOfSeven(KarnatakaWeather);
    assert GetWeatherForecast("Karnataka") == RegionalWeatherData[4].1;
  }

  /** The calendar months, numbered from 0 as `Date.getMonth` does. */
  datatype Month = Jan | Feb | Mar | Apr | May | Jun | Jul | Aug | Sep | Oct | Nov | Dec
  {
    function Index(): (n: nat)
      ensures n < 12
    {
      match this
      case Jan => 0 case Feb => 1 case Mar => 2 case Apr => 3
      case May => 4 case Jun => 5 case Jul => 6 case Aug => 7
      case Sep => 8 case Oct => 9 case Nov => 10 case Dec => 11
    }
  }

  /** One month of the long-term outlook: mean temperature, rainfall in
      millimetres and humidity in percent. */
  datatype MonthlyClimate = MonthlyClimate(month: Month, avgTemp: int, rainfall: int, humidity: int)

  /** `longTermForecast`: twelve months starting in May. */
  const LongTermForecast := [
    MonthlyClimate(May, 35, 35, 60),
    MonthlyClimate(Jun, 33, 130, 75),
    MonthlyClimate(Jul, 31, 180, 85),
    MonthlyClimate(Aug, 30, 200, 88),
    MonthlyClimate(Sep, 29, 150, 82),
    MonthlyClimate(Oct, 28, 70, 75),
    MonthlyClimate(Nov, 25, 20, 65),
    MonthlyClimate(Dec, 22, 10, 60),
    MonthlyClimate(Jan, 20, 5, 55),
    MonthlyClimate(Feb, 22, 10, 50),
    MonthlyClimate(Mar, 26, 15, 55),
    MonthlyClimate(Apr, 30, 25, 58)]

  /** The outlook runs through the calendar in order, starting in May. */
  lemma LongTermForecastOrder()
    ensures |LongTermForecast| == 12
    ensures forall i | 0 <= i < 12 :: LongTermForecast[i].month.Index() == (i + 4) % 12
  {
  }

  /** Every month of the year has an entry. */
  lemma LongTermForecastCoversYear(m: Month)
    ensures exists i | 0 <= i < 12 :: LongTermForecast[i].month == m
  {
    match m
    case May => assert LongTermForecast[0].month == m;
    case Jun => assert LongTermForecast[1].month == m;
    case Jul => assert LongTermForecast[2].month == m;
    case Aug => assert LongTermForecast[3].month == m;
    case Sep => assert LongTermForecast[4].month == m;
    case Oct => assert LongTermForecast[5].month == m;
    case Nov => assert LongTermForecast[6].month == m;
    case Dec => assert LongTermForecast[7].month == m;
    case Jan => assert LongTermForecast[8].month == m;
    case Feb => assert LongTermForecast[9].month == m;
    case Mar => assert LongTermForecast[10].month == m;
    case Apr => assert LongTermForecast[11].month == m;
  }

  /** Every month carries plausible rainfall and humidity. */
  lemma LongTermForecastPlausible()
    ensures forall i | 0 <= i < |LongTermForecast| ::
              LongTermForecast[i].rainfall >= 0 && 0 <= LongTermForecast[i].humidity <= 100
  {
  }

  /** A rainy icon is shown exactly on the days with rain. */
  lemma IconAgreesWithRainfall(location: string, i: nat)
    requires i < 7
    ensures var w := GetWeatherForecast(location)[i];
            w.icon == CloudRainIcon <==> w.rainfall > 0
  {
    var d := GetWeatherForecast(location);
    if location !in Keys(RegionalWeatherData) {
    } else {
      var j :| 0 <= j < |RegionalWeatherData| && RegionalWeatherData[j].0 == location
                && location !in Keys(RegionalWeatherData[..j]);
      assert d == RegionalWeatherData[j].1;
    }
  }
}
