# Bhumiputra farm advisor: a Dafny model of its decision core

Bhumiputra is a web application for farmers in India. It gives crop
recommendations, yield forecasts, soil-health readings, regional weather
outlooks, an air-quality badge and market prices, in English, Hindi or Bengali.
This project models the pure decision logic behind those screens as Dafny
functions over immutable data, and proves what that logic promises.

- `Forecasting` covers the forecasting page (`src/pages/Forecasting.tsx`).
  It holds the soil-health classifier, the multiplicative soil-impact score
  and the fixed-formula yield prediction with its confidence and factor rows.
- `CropData` covers `src/data/cropData.ts`. It holds:
  - the month-to-season mapping;
  - the seasonal challenge lookup;
  - the recommendation table, with its three-step fallback;
  - the table-driven yield calculator, which reads the range back out of the
    table's text.
- `SoilData` covers `src/data/soilData.ts`: the regional soil profiles and the
  lookups of a profile, its predominant soil type and its typical parameters.
- `WeatherData` covers `src/data/weatherData.ts`: the seven-day regional
  forecasts, the rainfall outlook and the twelve-month outlook table.
- `AirQuality` covers the two classifiers of
  `src/components/weather/AirQualityCard.tsx`.
- `MarketPrices` covers the price table of `src/pages/Index.tsx`, its
  "Crop data not available" error, and the trend and advisory cards.
- `Language` covers `src/contexts/LanguageContext.tsx`:
  - the `t` lookup with its fall-back to the key;
  - the merge of fetched translations;
  - the English short-circuit of `translate`.
- The supporting modules are:
  - `Options` (`Option`, `Result`);
  - `Text` (ASCII lower-casing, substring search, decimal digits);
  - `Tables` (ordered association lists with first-match lookup);
  - `YieldText` (the `(\d+)-(\d+)` match on yield texts);
  - `Prediction` (the shared prediction record and `Math.round(x * 100) / 100`).

Modelling conventions:

- JavaScript objects whose key order matters are modelled as ordered tables
  `seq<(K, V)>`. `Object.keys(o)[0]` is the first entry, and `o[k]` is the
  first entry with key `k`.
- Display texts are produced by enumerations with a `Label()` or `Text()`
  function that gives the source's string. The contracts speak about the
  enumeration values.
- Numbers are `real` and counts are `int`.
- The random draw of the forecasting page is a parameter with
  `0.97 <= randomFactor < 1.03`.
- The current month is a parameter from 0 (January) to 11.
- The text the translation service returns is a parameter (`remote`).

## Model

| member | source | states |
|---|---|---|
| Forecasting.PhReading | src/pages/Forecasting.tsx:22-30 | pH is Acidic exactly below 5.5, Alkaline exactly above 7.5, otherwise Optimal; the value is kept and the advice follows the status |
| Forecasting.LevelReading | src/pages/Forecasting.tsx:31-57 | a nutrient is Low exactly below its lower threshold, High exactly above its upper one, otherwise Medium, with the matching advice |
| Forecasting.AnalyzeSoilHealth | src/pages/Forecasting.tsx:20-59 | the four readings keep their values; the thresholds are 5.5/7.5 (pH), 250/450 (N), 12/25 (P) and 150/280 (K), each status given by an if-and-only-if |
| Forecasting.AdviceFollowsStatus | src/pages/Forecasting.tsx:25-56 | every reading's recommendation is the advice for its own status, so the text never contradicts the status |
| Forecasting.SoilHealthBoundaries | src/pages/Forecasting.tsx:24-51 | the thresholds themselves are in the middle band (strict comparisons); 7.51 is Alkaline and 5.0 Acidic |
| Forecasting.SoilImpact | src/pages/Forecasting.tsx:61-91 | the soil-impact score always lies between the product of the smallest factors and the product of the largest, so it is positive |
| Forecasting.SoilImpactIsProduct | src/pages/Forecasting.tsx:62-90 | the score is the product of the soil-type, pH, nitrogen, phosphorus, potassium and region factors |
| Forecasting.ProductWithin | src/pages/Forecasting.tsx:62-90 | multiplying two positive factors keeps the product within the products of their bounds, which gives the score's range |
| Forecasting.FirstKeywordFrom | src/pages/Forecasting.tsx:63-73 | the soil class is that of the first keyword in the order black, red, alluvial, usar, calcareous, laterite contained in the text; unclassified exactly when none is |
| Forecasting.SoilCategoryIsFirstKeyword | src/pages/Forecasting.tsx:63-73 | the else-if chain on the lower-cased soil type picks the first contained keyword |
| Forecasting.BlackCottonFactor | src/pages/Forecasting.tsx:63-64 | "black cotton" soil gets the factor 1.18 |
| Forecasting.RedSoilFactor | src/pages/Forecasting.tsx:63-66 | a soil type containing "red" and not "black" gets 0.95 |
| Forecasting.RedAndYellowFactor | src/pages/Forecasting.tsx:65-66 | "red and yellow" soil gets 0.95 |
| Forecasting.RedAndYellowIsNotBlack | src/pages/Forecasting.tsx:63 | "red and yellow" does not contain "black", so the first branch is skipped |
| Forecasting.LoamFactor | src/pages/Forecasting.tsx:63-73 | a soil type containing no keyword ("loam") keeps the factor 1 |
| Forecasting.BaseYield | src/pages/Forecasting.tsx:94-103 | the base yield is a table value or the default 25, hence at least 15 quintals per hectare |
| Forecasting.CropYieldsAtLeast15 | src/pages/Forecasting.tsx:94-101 | every entry of the yield table is at least 15 |
| Forecasting.BaseYieldPrecedence | src/pages/Forecasting.tsx:103 | the variety's entry wins over the lower-cased crop's entry, which wins over 25 |
| Forecasting.BaseYieldIndependence | src/pages/Forecasting.tsx:103 | with a listed variety the crop is irrelevant, and the crop's case never matters |
| Forecasting.FixedYieldFactors | src/pages/Forecasting.tsx:119-140 | the four factor rows in order. Soil type: Positive exactly when the score exceeds 1, else Neutral; excellent above 1.1, good in (1, 1.1], adequate otherwise. pH: Positive and "Optimal pH" exactly in the ideal range, else Negative and "adjustment advised". Nitrogen: Positive and "Sufficient" exactly in the ideal range, else "Adjustment Needed" and "Adjust". Region: Positive exactly for Punjab or Uttar Pradesh, else Neutral; excellent for Punjab, very good for Uttar Pradesh, suitable otherwise |
| Forecasting.FactorAdviceAgreesWithImpact | src/pages/Forecasting.tsx:119-140 | in every row the impact is Positive exactly when the recommendation is the favourable one |
| Forecasting.CalculateFixedYield | src/pages/Forecasting.tsx:93-142 | confidence 94 exactly when pH and nitrogen are both ideal, otherwise 81; the range is 0.92 and 1.08 times the expected yield and strictly brackets it for a positive area; the yield stays within the bounds the factors allow |
| Forecasting.ScaledYield | src/pages/Forecasting.tsx:107-109 | base times score times area times draw is positive and within the extreme-factor bounds for a positive area |
| Forecasting.ScaledYieldLinear | src/pages/Forecasting.tsx:109 | the predicted yield scales linearly with the area |
| Forecasting.ScaledYieldDraw | src/pages/Forecasting.tsx:107-109 | two draws give yields in the ratio of the draws |
| Forecasting.ConfidenceAgreesWithFactors | src/pages/Forecasting.tsx:111-133 | confidence 94 exactly when both the pH and the nitrogen rows are Positive |
| CropData.SeasonOfMonth | src/data/cropData.ts:27-34 | each season is an if-and-only-if on the month: Summer 3-5, Monsoon 6-9, Post-Monsoon 10-11, Winter 0-2 |
| CropData.SeasonMonths | src/data/cropData.ts:29-33 | December is Post-Monsoon, not Winter as the code comment says; Winter has exactly three months |
| CropData.SeasonNamed | src/data/cropData.ts:39-55 | a season key denotes exactly the season whose name it is |
| CropData.ListedCropNamed | src/data/cropData.ts:38-56 | a crop key denotes exactly the listed crop of that case-sensitive name |
| CropData.SeasonChallenges | src/data/cropData.ts:38-56 | the challenge table's entries are all crop-specific |
| CropData.GetCropChallenges | src/data/cropData.ts:37-73 | listed crop and season give the table entry; otherwise the three generic challenges |
| CropData.GenericChallengesIff | src/data/cropData.ts:60-72 | the generic list comes back exactly when crop or season is not a table key |
| CropData.LowerCaseRiceIsGeneric | src/data/cropData.ts:60-66 | the lookup is case-sensitive, so "rice" gets the generic list |
| CropData.WestBengalSummerValid | src/data/cropData.ts:79-129 | every recommendation has suitability 0-100 and an ordered range or a digit-free text |
| CropData.WestBengalMonsoonValid | src/data/cropData.ts:130-180 | the same for West Bengal's Monsoon plan |
| CropData.WestBengalWinterValid | src/data/cropData.ts:181-231 | the same for West Bengal's Winter plan |
| CropData.PunjabSummerValid | src/data/cropData.ts:236-286 | the same for Punjab's Summer plan |
| CropData.PunjabMonsoonValid | src/data/cropData.ts:287-337 | the same for Punjab's Monsoon plan |
| CropData.PunjabWinterValid | src/data/cropData.ts:338-388 | the same for Punjab's Winter plan |
| CropData.FallbackPlanValid | src/data/cropData.ts:405-437 | the same for the fallback plan |
| CropData.TablePlansValid | src/data/cropData.ts:76-391 | every plan stored in the table is valid |
| CropData.ResolveSeason | src/data/cropData.ts:402 | a given non-empty season is used; an omitted or empty one means the current month's season |
| CropData.GetCropRecommendations | src/data/cropData.ts:397-462 | the result is a stored plan or the fallback, always valid; an unknown region gets the fallback (the three steps for a listed region are the next lemmas) |
| CropData.ExactLookup | src/data/cropData.ts:440-443 | when region, soil type and season all look up, that entry is returned |
| CropData.ExactEntryReturned | src/data/cropData.ts:440-443 | every entry of the table is what its own keys return |
| CropData.RegionKeysDistinct | src/data/cropData.ts:77-234 | no region is listed twice |
| CropData.SoilKeysDistinct | src/data/cropData.ts:78-235 | no region lists a soil type twice |
| CropData.SeasonKeysDistinct | src/data/cropData.ts:79-338 | no soil type lists a season twice, and season keys are non-empty |
| CropData.WestBengalMonsoonLeadsWithSwarna | src/data/cropData.ts:130-140 | West Bengal alluvial Monsoon leads with Swarna rice at suitability 95 |
| CropData.FirstSoilTypeEntryReturned | src/data/cropData.ts:445-453 | for every listed region, soil type and season: when the exact entry is missing, the season's entry under the region's first-listed soil type is returned |
| CropData.ExactStepMisses | src/data/cropData.ts:441 | when no listed soil type of that name has the season, the exact lookup misses |
| CropData.ListedRegionFallsBack | src/data/cropData.ts:439-457 | for every listed region, soil type and season: the fallback plan comes back exactly when neither the exact soil type nor the first-listed one has an entry for the season |
| CropData.LookupInTable | src/data/cropData.ts:441-451 | a plan the season lookup finds is one stored in the table |
| CropData.StoredPlanIsNotFallback | src/data/cropData.ts:76-437 | no stored plan equals the fallback plan (every stored plan has two alternatives, the fallback one) |
| CropData.UnlistedSoilUsesFirstSoilType | src/data/cropData.ts:445-453 | example: West Bengal's unlisted "black" soil gets its alluvial Winter entry |
| CropData.PostMonsoonFallsBack | src/data/cropData.ts:441-457 | no entry is for Post-Monsoon, so that season always gets the fallback |
| CropData.LateYearFallsBack | src/data/cropData.ts:402-457 | in November and December, with no season given, every request gets the fallback |
| CropData.FindMatchFrom | src/data/cropData.ts:485-486 | `find` returns the first entry whose crop and variety match ignoring case, and nothing exactly when none does |
| CropData.MatchedCrop | src/data/cropData.ts:478-486 | a found crop matches the request and is a valid recommendation |
| CropData.SeasonalFactors | src/data/cropData.ts:513-533 | three fixed rows; the weather advice is drainage exactly in Monsoon, irrigation exactly in Summer, frost otherwise |
| CropData.UnroundedYield | src/data/cropData.ts:481-507 | unmatched gives 40/35/45 per hectare; matched gives the estimate read from the text; for a non-negative area the range is ordered |
| CropData.CalculateYield | src/data/cropData.ts:465-544 | confidence 85, the seasonal factor rows, every figure rounded to hundredths, an ordered range for a non-negative area |
| CropData.CalculateYieldUnmatched | src/data/cropData.ts:500-507 | without a match: 40 times the area, between 35 and 45 times the area, rounded |
| CropData.RangeEstimate | src/data/cropData.ts:490-499 | reading the range back out of the table text recovers the table's numbers |
| CropData.DescriptiveEstimate | src/data/cropData.ts:481-491 | a text without digits leaves the estimate at zero |
| CropData.EstimateOrdered | src/data/cropData.ts:494-498 | for a valid recommendation and a non-negative area, min <= expected <= max |
| CropData.WidenedRangeOrdered | src/data/cropData.ts:494-498 | the middle of an ordered range lies between its ends widened by 10% |
| CropData.CalculateYieldOfRange | src/data/cropData.ts:488-499 | a matched numeric range a-b gives (a+b)/2, 0.9a and 1.1b per hectare |
| CropData.CalculateYieldOfText | src/data/cropData.ts:488-499 | a matched descriptive estimate gives a zero yield and range |
| CropData.SwarnaMatchedInJuly | src/data/cropData.ts:485-486 | the match ignores case: "rice" / "SWARNA (MTU-7029)" finds the Swarna entry in July |
| CropData.SwarnaMatchesIgnoringCase | src/data/cropData.ts:486 | the Swarna entry matches the request after lower-casing both sides |
| CropData.SwarnaYieldInJuly | src/data/cropData.ts:490-540 | 50-55 quintals per hectare on 2 hectares gives 105, between 90 and 121 |
| YieldText.DigitRun | src/data/cropData.ts:490 | `\d+` is the longest digit run at a position |
| YieldText.MatchFrom | src/data/cropData.ts:490 | the regex match is the leftmost position where the pattern matches |
| YieldText.EstimateRoundTrip | src/data/cropData.ts:490-493 | matching the text "lo-hi quintals/hectare" gives back (lo, hi) |
| YieldText.NoDigitsNoRange | src/data/cropData.ts:490-491 | a text without digits has no match |
| Text.ContainsIffOccurs | src/pages/Forecasting.tsx:63-72 | `includes` holds exactly when the keyword occurs at some position |
| Prediction.Round2 | src/data/cropData.ts:536-539 | `Math.round(x * 100) / 100` is within half a hundredth of x, rounding halves up |
| Prediction.Round2Monotone | src/data/cropData.ts:536-539 | the rounding preserves order |
| Prediction.Round2OfHundredths | src/data/cropData.ts:536-539 | a value already in hundredths is unchanged |
| SoilData.TypicalWithinBounds | src/data/soilData.ts:7-17 | a soil type's typical values lie within its bounds |
| SoilData.SoilTableValid | src/data/soilData.ts:21-146 | every profile is keyed by its region, lists distinct soil types, at least one, and each has typical values within min and max |
| SoilData.GetSoilProfile | src/data/soilData.ts:149-151 | a listed region gets its own profile, any other West Bengal's |
| SoilData.GetPredominantSoilType | src/data/soilData.ts:154-159 | the predominant soil type is the profile's first soil-type key, which is listed and looks up its first entry |
| SoilData.SoilTypeUsed | src/data/soilData.ts:162-168 | a given, non-empty, listed soil type is used; otherwise the first listed |
| SoilData.GetTypicalSoilParameters | src/data/soilData.ts:162-185 | the parameters lie within the bounds of the soil type used |
| SoilData.TypicalParametersOfUsedType | src/data/soilData.ts:176-184 | the parameters are the typical values of the soil type used |
| SoilData.OmittedSoilTypeIsPredominant | src/data/soilData.ts:164 | an omitted or empty soil type means the predominant one |
| SoilData.UnlistedSoilTypeUsesFirst | src/data/soilData.ts:166-175 | an unlisted soil type gets the first soil type's typical values |
| SoilData.UnknownRegionIsWestBengal | src/data/soilData.ts:149-151 | an unknown region behaves exactly as West Bengal |
| SoilData.ListedProfile | src/data/soilData.ts:149-151 | every listed region gets its own profile |
| SoilData.PredominantSoilTypes | src/data/soilData.ts:22-145 | alluvial for West Bengal, Punjab and Uttar Pradesh, black cotton for Maharashtra, red for Karnataka |
| WeatherData.WeatherTableValid | src/data/weatherData.ts:19-65 | every forecast has seven days from Today and Tomorrow, non-negative rainfall and humidity between 0 and 100 |
| WeatherData.GetWeatherForecast | src/data/weatherData.ts:84-87 | a listed location gets its forecast, any other West Bengal's |
| WeatherData.RainfallSumNonNegative | src/data/weatherData.ts:92 | the summed rainfall is non-negative and zero exactly when every day is dry |
| WeatherData.GetSeasonalDescription | src/data/weatherData.ts:90-103 | heavy exactly above 10 mm a day on average, moderate above 5, light above 0, dry otherwise |
| WeatherData.MeanAgainstThreshold | src/data/weatherData.ts:92-96 | comparing the mean with a threshold is comparing the sum with threshold times days |
| WeatherData.DryIffNoRain | src/data/weatherData.ts:90-103 | the outlook is dry exactly when no day has rain |
| WeatherData.UnknownLocationIsWestBengal | src/data/weatherData.ts:84-103 | an unknown location gets West Bengal's forecast and outlook |
| WeatherData.SumOfSeven | src/data/weatherData.ts:92 | the sum over seven days is the sum of the seven rainfalls |
| WeatherData.MaharashtraIsHeavy | src/data/weatherData.ts:47-55 | Maharashtra's 71 mm in a week gives the heavy-monsoon outlook |
| WeatherData.WestBengalIsLight | src/data/weatherData.ts:20-28 | West Bengal's 24 mm gives light rainfall |
| WeatherData.PunjabIsLight | src/data/weatherData.ts:29-37 | Punjab's 3 mm gives light rainfall |
| WeatherData.UttarPradeshIsLight | src/data/weatherData.ts:38-46 | Uttar Pradesh's 17 mm gives light rainfall |
| WeatherData.KarnatakaIsLight | src/data/weatherData.ts:56-64 | Karnataka's 18 mm gives light rainfall |
| WeatherData.IconAgreesWithRainfall | src/data/weatherData.ts:19-65 | every day shows the rain icon exactly when it has rain |
| WeatherData.LongTermForecastOrder | src/data/weatherData.ts:68-81 | twelve months in calendar order from May to April |
| WeatherData.LongTermForecastCoversYear | src/data/weatherData.ts:68-81 | every month of the year appears |
| WeatherData.LongTermForecastPlausible | src/data/weatherData.ts:68-81 | every month has non-negative rainfall and humidity between 0 and 100 |
| AirQuality.GetAqiDescription | src/components/weather/AirQualityCard.tsx:27-34 | the category is the one whose band holds the value, with inclusive upper ends 50, 100, 150, 200, 300 |
| AirQuality.GetAqiColor | src/components/weather/AirQualityCard.tsx:18-25 | the badge colour is the one whose band holds the value |
| AirQuality.BandUnique | src/components/weather/AirQualityCard.tsx:18-34 | every value lies in exactly one band |
| AirQuality.ColourFollowsCategory | src/components/weather/AirQualityCard.tsx:18-34 | the colour is always the colour of the category |
| AirQuality.CategoryMonotone | src/components/weather/AirQualityCard.tsx:18-34 | a larger value is never less severe |
| AirQuality.BandEdges | src/components/weather/AirQualityCard.tsx:27-34 | each breakpoint belongs to the lower band |
| AirQuality.NonPositiveIsGood | src/components/weather/AirQualityCard.tsx:18-34 | there is no lower bound check: zero and negative values are Good and green |
| AirQuality.EpaRangesPartition | src/components/weather/AirQualityCard.tsx:27-34 | the EPA ranges cover 0-500 in order without gaps or overlaps |
| AirQuality.AgreesWithEpa | src/components/weather/AirQualityCard.tsx:18-34 | on every integer value of an EPA range both classifiers give the EPA's category and colour |
| MarketPrices.RoundsTo | src/pages/Index.tsx:18-91 | a percentage within half a hundredth of v rounds to v |
| MarketPrices.RicePricesConsistent | src/pages/Index.tsx:19-36 | rice: trend up, +2.56% is the rounded change from 2150 to 2205, ten markets quoted |
| MarketPrices.WheatPricesConsistent | src/pages/Index.tsx:37-54 | wheat: trend up, +1.8% from 1780 to 1812 |
| MarketPrices.PotatoPricesConsistent | src/pages/Index.tsx:55-72 | potato: trend down, -3.25% from 1540 to 1490 |
| MarketPrices.OnionPricesConsistent | src/pages/Index.tsx:73-90 | onion: trend up, +6.81% from 2380 to 2542 |
| MarketPrices.PriceTableConsistent | src/pages/Index.tsx:18-91 | every entry's trend and percentage agree with its prices |
| MarketPrices.FetchCropPriceData | src/pages/Index.tsx:14-100 | an error "Crop data not available" exactly for an unpriced crop; otherwise the table's entry, which is consistent |
| MarketPrices.PricedCrops | src/pages/Index.tsx:18-95 | exactly rice, wheat, potato and onion are priced |
| MarketPrices.TrendAdviceOf | src/pages/Index.tsx:215-231 | the trend card advises holding exactly when the trend is up |
| MarketPrices.MarketAdvisory | src/pages/Index.tsx:240-246 | a rising advisory exactly for an upward trend; significant exactly above +5%; sharp decline exactly for a downward trend below -5% |
| MarketPrices.CardsAgree | src/pages/Index.tsx:215-246 | the advisory rises exactly when the trend card advises holding |
| MarketPrices.AdvisoryFollowsPrices | src/pages/Index.tsx:215-246 | on a consistent entry the advisory rises exactly when the price rose |
| MarketPrices.ShippedAdvisories | src/pages/Index.tsx:18-91 | onion shows a significant increase, rice and wheat a moderate trend, potato a mild decline |
| Language.T | src/contexts/LanguageContext.tsx:73-75 | the active language's text when present and non-empty, otherwise the key |
| Language.DefaultCatalogueComplete | src/contexts/LanguageContext.tsx:14-42 | every language defines the same six keys, each with a non-empty text |
| Language.DefaultKeysTranslated | src/contexts/LanguageContext.tsx:14-75 | `t` never falls back to the key for the default keys |
| Language.LoadTranslations | src/contexts/LanguageContext.tsx:56-62 | the active dictionary gains the fetched keys, fetched texts win, others stay, other languages are untouched |
| Language.TAfterLoad | src/contexts/LanguageContext.tsx:56-75 | after a load `t` reads fetched keys from the fetch and other keys as before |
| Language.EmptyLoadIsIdentity | src/contexts/LanguageContext.tsx:55-62 | merging an empty fetch (what a failed fetch returns) changes nothing |
| Language.LoadIdempotent | src/contexts/LanguageContext.tsx:56-62 | loading the same fetch twice is loading it once |
| Language.LoadKeepsOtherLanguages | src/contexts/LanguageContext.tsx:56-75 | a load in one language leaves `t` in every other language unchanged |
| Language.EmptyFetchedTextShowsKey | src/contexts/LanguageContext.tsx:60-74 | a fetched empty text hides the default one, so `t` shows the key |
| Language.Translate | src/contexts/LanguageContext.tsx:77-80 | English text is returned as it is; other languages get the service's answer |

## Left out

- Rendering, React state, hooks, routing, toasts and the layout components are not modelled. Only the pure decision logic is.
- `Math.random()` in `calculateFixedYield` is not modelled. It is the parameter `randomFactor`, constrained to `[0.97, 1.03)`.
- `new Date().getMonth()` in `getCurrentSeason` is not modelled. It is the parameter `month`.
- The simulated one-second delay of `fetchCropPriceData` is left out, because only the result matters.
- Its thrown error is modelled as an `Err` result.
- The network half of `translate` is not modelled (`translateText` in `src/services/translationService.ts`). The answer is the parameter `remote`.
- `getTranslations` is not modelled either. A failed fetch yields `{}`, which is `Language.EmptyLoadIsIdentity`.
- IEEE-754 double arithmetic is modelled as exact `real` arithmetic, so floating-point rounding in the products is not modelled.
- `toLowerCase` is modelled on ASCII letters only, because every key and table text it meets is ASCII.
- Lookups through the JavaScript prototype chain are not modelled: a key such as "constructor" would find an inherited member. This applies to:
  - `dummyData[crop]`;
  - `translations[language][key]`;
  - the `challenges[crop]` test;
  - the `cropRecommendationsData` and `regionalSoilProfiles` lookups;
  - `cropYields[variety]` and `cropYields[crop.toLowerCase()]` in `calculateFixedYield`;
  - `regionalWeatherData[location]` in `getWeatherForecast`.
- The soil profiles' descriptions and suitable-crop lists are not modelled, because no modelled function reads them.
- The optional `challenges` field of a crop recommendation is never filled in by the table, so it is not modelled.
- `calculateYield` computes `getCropChallenges(crop, region, season)` and never uses the result. Its outcome is therefore independent of that call, and the model omits it.
- Appending challenges to the fixed prediction happens in the forecasting page's submit handler, outside the modelled lines, so it is not modelled.
- The key order of the translation dictionaries is not modelled, because only lookups read them.
- Fetched translations are assumed to map strings to strings.
- The market prices' `regions` quotes are modelled as a table over ten named cities. The charts built from them are not modelled.
- Forecasting.CalculateFixedYield: linearity in the area and the effect of the random draw are stated on `ScaledYield`, which computes its expected yield, not on the whole prediction record.
- Forecasting.BlackCottonFactor, Forecasting.RedAndYellowFactor and Forecasting.LoamFactor state the factor for one soil-type string each. `Forecasting.FirstKeywordFrom` and `Forecasting.SoilCategoryIsFirstKeyword` state the general rule.
- The comment on line 33 of `src/data/cropData.ts` lists December among the winter months, but the code sends month 11 to "Post-Monsoon". The model follows the code (`CropData.SeasonMonths`).
