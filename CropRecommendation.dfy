/** The crop-suitability recommendation engine: a static suitability matrix, a weighted
    four-factor score clamped to [0, 1], and a ranker that keeps the crops scoring above 0.5,
    orders them by score with Python's stable sort and returns the top five, each with an
    expected yield, a price band and a reason. */
module CropRecommendation {
  import opened Wrappers
  import opened Strings

  // ---------------------------------------------------------------------------------------
  // Data model

  /** One row of the suitability matrix. The rainfall range is part of the table but no
      rule reads it. */
  datatype SuitabilityProfile = SuitabilityProfile(
    soilTypes: seq<string>,
    minTemperature: real,
    maxTemperature: real,
    minRainfall: real,
    maxRainfall: real,
    season: string,
    waterRequirement: string)

  /** The weather dictionary as far as the score reads it: each key may be missing.
      An empty (falsy) dictionary is the value with both fields absent. */
  datatype Weather = Weather(temperature: Option<real>, humidity: Option<real>)

  const NoWeather := Weather(None, None)

  /** A row of the crops table (the fields the recommendation copies). */
  datatype Crop = Crop(id: int, name: string, scientificName: Option<string>, localNameHindi: Option<string>)

  datatype PriceBand = PriceBand(min: real, max: real)

  datatype Recommendation = Recommendation(
    cropId: int,
    cropName: string,
    scientificName: Option<string>,
    localNameHindi: Option<string>,
    score: real,
    season: string,
    expectedYield: real,
    marketPrice: PriceBand,
    reason: string)

  // Policy constants of the score.
  const SeasonWeight: real := 0.4
  const SoilWeight: real := 0.3
  const TemperatureWeight: real := 0.2
  const HumidityWeight: real := 0.1
  const TemperatureMargin: real := 10.0
  const HumidityThreshold: real := 60.0
  const InclusionThreshold: real := 0.5
  const MaxRecommendations: nat := 5

  /** The crop suitability matrix, keyed by lower-case crop name. */
  const CropSuitability: map<string, SuitabilityProfile> := map[
    "rice" := SuitabilityProfile(["clay", "clay_loam"], 20.0, 35.0, 1000.0, 2000.0, "kharif", "high"),
    "wheat" := SuitabilityProfile(["loam", "clay_loam"], 15.0, 25.0, 400.0, 800.0, "rabi", "medium"),
    "maize" := SuitabilityProfile(["loam", "sandy_loam"], 18.0, 30.0, 600.0, 1000.0, "kharif", "medium"),
    "cotton" := SuitabilityProfile(["black_soil", "clay_loam"], 20.0, 35.0, 500.0, 1000.0, "kharif", "medium"),
    "sugarcane" := SuitabilityProfile(["clay", "clay_loam"], 25.0, 35.0, 1000.0, 1500.0, "kharif", "high"),
    "potato" := SuitabilityProfile(["loam", "sandy_loam"], 15.0, 25.0, 300.0, 600.0, "rabi", "medium"),
    "tomato" := SuitabilityProfile(["loam", "sandy_loam"], 18.0, 28.0, 400.0, 800.0, "zaid", "medium"),
    "onion" := SuitabilityProfile(["loam", "sandy_loam"], 15.0, 25.0, 300.0, 600.0, "rabi", "low")
  ]

  /** Every profile of the matrix has a well-formed temperature and rainfall range. */
  lemma MatrixRangesOrdered()
    ensures forall k :: k in CropSuitability ==>
      CropSuitability[k].minTemperature <= CropSuitability[k].maxTemperature &&
      CropSuitability[k].minRainfall <= CropSuitability[k].maxRainfall
  {
  }

  // ---------------------------------------------------------------------------------------
  // Suitability score

  function SeasonFactor(p: SuitabilityProfile, season: string): real {
    if p.season == season then SeasonWeight else 0.0
  }

  function SoilFactor(p: SuitabilityProfile, soilType: string): real {
    if soilType in p.soilTypes then SoilWeight else 0.0
  }

  /** Full weight inside the closed range; outside it the weight decays linearly over
      10 degrees past the nearer bound, and goes negative beyond that. */
  function TemperatureFactor(p: SuitabilityProfile, weather: Weather): real {
    match weather.temperature
    case None => 0.0
    case Some(t) =>
      if p.minTemperature <= t <= p.maxTemperature then TemperatureWeight
      else if t < p.minTemperature then TemperatureWeight * (1.0 - (p.minTemperature - t) / TemperatureMargin)
      else TemperatureWeight * (1.0 - (t - p.maxTemperature) / TemperatureMargin)
  }

  function HumidityFactor(weather: Weather): real {
    match weather.humidity
    case None => 0.0
    case Some(h) => if h >= HumidityThreshold then HumidityWeight else 0.0
  }

  function Clamp(x: real): real {
    if x < 0.0 then 0.0 else if x > 1.0 then 1.0 else x
  }

  /** The score of one profile: the clamped sum of the four factors. */
  function SuitabilityScore(p: SuitabilityProfile, season: string, soilType: string, weather: Weather): (s: real)
    ensures 0.0 <= s <= 1.0
  {
    Clamp(SeasonFactor(p, season) + SoilFactor(p, soilType) + TemperatureFactor(p, weather) + HumidityFactor(weather))
  }

  /** `_calculate_suitability_score`: accumulates the score factor by factor and clamps it. */
  method CalculateSuitabilityScore(p: SuitabilityProfile, season: string, soilType: string, weather: Weather)
    returns (score: real)
    ensures 0.0 <= score <= 1.0
    ensures score == SuitabilityScore(p, season, soilType, weather)
  {
    score := 0.0;
    var factors := 0;

    if p.season == season {
      score := score + SeasonWeight;
    }
    factors := factors + 1;

    if soilType in p.soilTypes {
      score := score + SoilWeight;
    }
    factors := factors + 1;

    if weather.temperature.Some? {
      var temp := weather.temperature.value;
      if p.minTemperature <= temp <= p.maxTemperature {
        score := score + TemperatureWeight;
      } else if temp < p.minTemperature {
        score := score + TemperatureWeight * (1.0 - (p.minTemperature - temp) / TemperatureMargin);
      } else {
        score := score + TemperatureWeight * (1.0 - (temp - p.maxTemperature) / TemperatureMargin);
      }
    }
    factors := factors + 1;

    if weather.humidity.Some? {
      if weather.humidity.value >= HumidityThreshold {
        score := score + HumidityWeight;
      }
    }
    factors := factors + 1;

    score := if score > 1.0 then 1.0 else score;
    score := if score < 0.0 then 0.0 else score;
  }

  /** Season and soil are all-or-nothing: the score gains exactly 0.4 for the matching season
      and exactly 0.3 for a listed soil, whatever the weather does (before clamping). */
  lemma SeasonAndSoilAllOrNothing(p: SuitabilityProfile, season: string, soilType: string, weather: Weather)
    ensures SeasonFactor(p, season) == 0.4 <==> p.season == season
    ensures SeasonFactor(p, season) == 0.0 <==> p.season != season
    ensures SoilFactor(p, soilType) == 0.3 <==> soilType in p.soilTypes
    ensures SoilFactor(p, soilType) == 0.0 <==> soilType !in p.soilTypes
  {
  }

  /** A temperature inside the closed range adds exactly 0.2; outside it adds
      0.2 * (1 - d / 10) for the distance d past the nearer bound, which is below 0.2 and
      negative once d exceeds 10. */
  lemma TemperatureFit(p: SuitabilityProfile, t: real, humidity: Option<real>)
    ensures var f := TemperatureFactor(p, Weather(Some(t), humidity));
      && (p.minTemperature <= t <= p.maxTemperature ==> f == 0.2)
      && (t < p.minTemperature ==>
            var d := p.minTemperature - t; f == 0.2 * (1.0 - d / 10.0) && f < 0.2 && (d > 10.0 ==> f < 0.0))
      && (p.minTemperature <= t && t > p.maxTemperature ==>
            var d := t - p.maxTemperature; f == 0.2 * (1.0 - d / 10.0) && f < 0.2 && (d > 10.0 ==> f < 0.0))
  {
  }

  /** Humidity of at least 60 adds exactly 0.1; lower or missing humidity adds nothing. */
  lemma HumidityProxy(weather: Weather)
    ensures HumidityFactor(weather) == 0.1 <==> (weather.humidity.Some? && weather.humidity.value >= 60.0)
    ensures HumidityFactor(weather) == 0.0 <==> !(weather.humidity.Some? && weather.humidity.value >= 60.0)
  {
  }

  /** Without weather data the score is 0.4 for the season plus 0.3 for the soil, at most 0.7. */
  lemma ScoreWithoutWeather(p: SuitabilityProfile, season: string, soilType: string)
    ensures SuitabilityScore(p, season, soilType, NoWeather) ==
      (if p.season == season then 0.4 else 0.0) + (if soilType in p.soilTypes then 0.3 else 0.0)
    ensures SuitabilityScore(p, season, soilType, NoWeather) <= 0.7
  {
  }

  /** A profile matching season, soil, temperature range and humidity scores exactly 1. */
  lemma IdealConditionsScoreOne(p: SuitabilityProfile, season: string, soilType: string, t: real, h: real)
    requires p.season == season && soilType in p.soilTypes
    requires p.minTemperature <= t <= p.maxTemperature && h >= 60.0
    ensures SuitabilityScore(p, season, soilType, Weather(Some(t), Some(h))) == 1.0
  {
  }

  /** A season mismatch caps the score at 0.6, and with a soil mismatch as well at 0.3, so
      such a crop is never recommended. */
  lemma SeasonMismatchCaps(p: SuitabilityProfile, season: string, soilType: string, weather: Weather)
    requires p.season != season
    ensures SuitabilityScore(p, season, soilType, weather) <= 0.6
    ensures soilType !in p.soilTypes ==> SuitabilityScore(p, season, soilType, weather) <= 0.3
  {
  }

  /** The rabi/loam example: wheat at 20 degrees and 65% humidity scores 1; without weather 0.7;
      at 3 degrees (12 below the minimum of 15) the temperature factor is -0.04. */
  lemma WheatExamples()
    ensures SuitabilityScore(CropSuitability["wheat"], "rabi", "loam", Weather(Some(20.0), Some(65.0))) == 1.0
    ensures SuitabilityScore(CropSuitability["wheat"], "rabi", "loam", NoWeather) == 0.7
    ensures TemperatureFactor(CropSuitability["wheat"], Weather(Some(3.0), None)) == -0.04
    ensures SuitabilityScore(CropSuitability["wheat"], "kharif", "clay", Weather(Some(3.0), Some(30.0))) == 0.0
  {
  }

  // ---------------------------------------------------------------------------------------
  // Yield, price and reason

  const YieldPerAcre: map<string, real> := map[
    "rice" := 25.0, "wheat" := 30.0, "maize" := 20.0, "cotton" := 15.0,
    "sugarcane" := 300.0, "potato" := 200.0, "tomato" := 150.0, "onion" := 100.0
  ]

  const DefaultYieldPerAcre: real := 20.0

  /** `_estimate_yield`: the per-acre value of the table (20 for an unknown crop) times the farm size. */
  function EstimateYield(cropName: string, farmSize: real): (y: real)
    ensures cropName in YieldPerAcre ==> y == YieldPerAcre[cropName] * farmSize
    ensures cropName !in YieldPerAcre ==> y == 20.0 * farmSize
    ensures farmSize < 0.0 ==> y < 0.0
    ensures farmSize == 0.0 ==> y == 0.0
  {
    (if cropName in YieldPerAcre then YieldPerAcre[cropName] else DefaultYieldPerAcre) * farmSize
  }

  /** The expected yield is linear in the farm size. */
  lemma YieldIsLinear(cropName: string, a: real, b: real, k: real)
    ensures EstimateYield(cropName, a + b) == EstimateYield(cropName, a) + EstimateYield(cropName, b)
    ensures EstimateYield(cropName, k * a) == k * EstimateYield(cropName, a)
  {
    var y := if cropName in YieldPerAcre then YieldPerAcre[cropName] else DefaultYieldPerAcre;
    assert y * (k * a) == k * (y * a);
  }

  const MarketPrices: map<string, PriceBand> := map[
    "rice" := PriceBand(2000.0, 3000.0), "wheat" := PriceBand(1800.0, 2500.0),
    "maize" := PriceBand(1500.0, 2000.0), "cotton" := PriceBand(5000.0, 7000.0),
    "sugarcane" := PriceBand(300.0, 400.0), "potato" := PriceBand(800.0, 1200.0),
    "tomato" := PriceBand(2000.0, 4000.0), "onion" := PriceBand(1500.0, 3000.0)
  ]

  /** `_get_market_price`: the band of the table, verbatim, or {min 1000, max 2000}. */
  function GetMarketPrice(cropName: string): (band: PriceBand)
    ensures cropName in MarketPrices ==> band == MarketPrices[cropName]
    ensures cropName !in MarketPrices ==> band == PriceBand(1000.0, 2000.0)
    ensures band.min <= band.max
  {
    if cropName in MarketPrices then MarketPrices[cropName] else PriceBand(1000.0, 2000.0)
  }

  const GeneralAdvice: string := "सामान्य सुझाव"

  function WaterPhrase(waterRequirement: string): string {
    if waterRequirement == "low" then "कम पानी की आवश्यकता"
    else if waterRequirement == "medium" then "मध्यम पानी की आवश्यकता"
    else "अधिक पानी की आवश्यकता"
  }

  /** The parts of the reason, in order: season, soil, water requirement. */
  function ReasonParts(p: SuitabilityProfile, season: string, soilType: string): seq<string> {
    (if p.season == season then ["सही मौसम (" + season + ")"] else [])
    + (if soilType in p.soilTypes then ["उपयुक्त मिट्टी (" + soilType + ")"] else [])
    + [WaterPhrase(p.waterRequirement)]
  }

  /** The reason has one to three parts and always ends with exactly one water phrase,
      so the generic fallback text is never produced. */
  lemma ReasonShape(p: SuitabilityProfile, season: string, soilType: string)
    ensures var parts := ReasonParts(p, season, soilType);
      && 1 <= |parts| <= 3
      && parts[|parts| - 1] == WaterPhrase(p.waterRequirement)
      && (p.season == season <==> parts[0] == "सही मौसम (" + season + ")")
      && |parts| == 1 + (if p.season == season then 1 else 0) + (if soilType in p.soilTypes then 1 else 0)
  {
    var parts := ReasonParts(p, season, soilType);
    var seasonPart := "सही मौसम (" + season + ")";
    assert seasonPart[0] == 'स';
    if p.season != season {
      assert ("उपयुक्त मिट्टी (" + soilType + ")")[0] == 'उ';
      assert parts[0][0] in {'उ', 'क', 'म', 'अ'};
    }
  }

  /** `_get_recommendation_reason`: collects the matched factors and joins them with ", ". */
  method RecommendationReason(p: SuitabilityProfile, season: string, soilType: string) returns (reason: string)
    ensures reason == Join(ReasonParts(p, season, soilType), ", ")
    ensures reason != GeneralAdvice
  {
    var reasons: seq<string> := [];
    if p.season == season {
      reasons := reasons + ["सही मौसम (" + season + ")"];
    }
    if soilType in p.soilTypes {
      reasons := reasons + ["उपयुक्त मिट्टी (" + soilType + ")"];
    }
    if p.waterRequirement == "low" {
      reasons := reasons + ["कम पानी की आवश्यकता"];
    } else if p.waterRequirement == "medium" {
      reasons := reasons + ["मध्यम पानी की आवश्यकता"];
    } else {
      reasons := reasons + ["अधिक पानी की आवश्यकता"];
    }
    assert reasons == ReasonParts(p, season, soilType);
    if |reasons| > 0 {
      reason := Join(reasons, ", ");
      ReasonNotGeneral(reasons);
    } else {
      reason := GeneralAdvice;
    }
  }

  /** A join whose last element is a water phrase cannot be the fallback text. */
  lemma ReasonNotGeneral(parts: seq<string>)
    requires |parts| > 0
    requires parts[|parts| - 1] in {WaterPhrase("low"), WaterPhrase("medium"), WaterPhrase("high")}
    ensures Join(parts, ", ") != GeneralAdvice
  {
    JoinEndsWithLast(parts, ", ");
  }

  // ---------------------------------------------------------------------------------------
  // Ranking

  function MakeRecommendation(c: Crop, p: SuitabilityProfile, score: real, season: string, soilType: string, farmSize: real)
    : Recommendation
  {
    var key := Lower(c.name);
    Recommendation(c.id, c.name, c.scientificName, c.localNameHindi, score, season,
                   EstimateYield(key, farmSize), GetMarketPrice(key), Join(ReasonParts(p, season, soilType), ", "))
  }

  /** A crop is recommended when its lower-cased name is a matrix key and it scores above 0.5. */
  predicate Qualifies(c: Crop, season: string, soilType: string, weather: Weather) {
    Lower(c.name) in CropSuitability
    && SuitabilityScore(CropSuitability[Lower(c.name)], season, soilType, weather) > InclusionThreshold
  }

  /** The recommendation the loop appends for a qualifying crop. */
  function CandidateOf(c: Crop, season: string, soilType: string, farmSize: real, weather: Weather): Recommendation
    requires Lower(c.name) in CropSuitability
  {
    var p := CropSuitability[Lower(c.name)];
    MakeRecommendation(c, p, SuitabilityScore(p, season, soilType, weather), season, soilType, farmSize)
  }

  /** The crops of the table, in table order, whose lower-cased name is a matrix key and whose
      score is above 0.5, as recommendations. */
  function Candidates(crops: seq<Crop>, season: string, soilType: string, farmSize: real, weather: Weather)
    : (r: seq<Recommendation>)
    ensures |r| <= |crops|
    ensures forall i :: 0 <= i < |r| ==> r[i].score > 0.5 && r[i].season == season && Lower(r[i].cropName) in CropSuitability
    decreases |crops|
  {
    if crops == [] then []
    else
      var rest := Candidates(crops[..|crops| - 1], season, soilType, farmSize, weather);
      var c := crops[|crops| - 1];
      if Qualifies(c, season, soilType, weather) then rest + [CandidateOf(c, season, soilType, farmSize, weather)]
      else rest
  }

  /** The converse of the filter: every qualifying crop of the table is collected, with its
      score, yield, price and reason. */
  lemma {:induction false} CandidatesComplete(crops: seq<Crop>, season: string, soilType: string, farmSize: real,
                                              weather: Weather, i: int)
    requires 0 <= i < |crops| && Qualifies(crops[i], season, soilType, weather)
    ensures CandidateOf(crops[i], season, soilType, farmSize, weather) in Candidates(crops, season, soilType, farmSize, weather)
    decreases |crops|
  {
    var n := |crops| - 1;
    var x := CandidateOf(crops[i], season, soilType, farmSize, weather);
    var c := Candidates(crops, season, soilType, farmSize, weather);
    var rest := Candidates(crops[..n], season, soilType, farmSize, weather);
    CandidatesExtend(crops, season, soilType, farmSize, weather);
    if i < n {
      assert crops[..n][i] == crops[i];
      CandidatesComplete(crops[..n], season, soilType, farmSize, weather, i);
      var j :| 0 <= j < |rest| && rest[j] == x;
      assert c[j] == rest[j];
    } else {
      assert i == n;
    }
  }

  /** The candidates of a table start with those of the table without its last row, and end
      with the last row's candidate when it qualifies. */
  lemma CandidatesExtend(crops: seq<Crop>, season: string, soilType: string, farmSize: real, weather: Weather)
    requires |crops| > 0
    ensures var rest := Candidates(crops[..|crops| - 1], season, soilType, farmSize, weather);
      var c := Candidates(crops, season, soilType, farmSize, weather);
      |rest| <= |c| && c[..|rest|] == rest
    ensures var last := crops[|crops| - 1];
      var c := Candidates(crops, season, soilType, farmSize, weather);
      Qualifies(last, season, soilType, weather) ==> |c| > 0 && c[|c| - 1] == CandidateOf(last, season, soilType, farmSize, weather)
  {
  }

  /** Inserts r before the first element whose score is not above r's. */
  function InsertByScore(r: Recommendation, sorted: seq<Recommendation>): seq<Recommendation>
    decreases |sorted|
  {
    if sorted == [] || r.score >= sorted[0].score then [r] + sorted
    else [sorted[0]] + InsertByScore(r, sorted[1..])
  }

  /** `list.sort(key=score, reverse=True)`: Python's sort is stable, also in reverse, so
      recommendations of equal score keep their relative order. */
  function SortByScore(s: seq<Recommendation>): seq<Recommendation>
    decreases |s|
  {
    if s == [] then [] else InsertByScore(s[0], SortByScore(s[1..]))
  }

  predicate NonIncreasing(s: seq<Recommendation>) {
    forall i, j :: 0 <= i < j < |s| ==> s[i].score >= s[j].score
  }

  /** The recommendations of s that have score k, in the order of s. */
  function WithScore(s: seq<Recommendation>, k: real): seq<Recommendation>
    decreases |s|
  {
    if s == [] then [] else (if s[0].score == k then [s[0]] else []) + WithScore(s[1..], k)
  }

  lemma {:induction false} InsertByScorePermutes(r: Recommendation, sorted: seq<Recommendation>)
    ensures multiset(InsertByScore(r, sorted)) == multiset(sorted) + multiset{r}
    decreases |sorted|
  {
    if !(sorted == [] || r.score >= sorted[0].score) {
      InsertByScorePermutes(r, sorted[1..]);
      assert sorted == [sorted[0]] + sorted[1..];
    }
  }

  lemma {:induction false} InsertByScoreOrders(r: Recommendation, sorted: seq<Recommendation>)
    requires NonIncreasing(sorted)
    ensures NonIncreasing(InsertByScore(r, sorted))
    decreases |sorted|
  {
    if !(sorted == [] || r.score >= sorted[0].score) {
      var out := InsertByScore(r, sorted);
      var tail := InsertByScore(r, sorted[1..]);
      InsertByScoreOrders(r, sorted[1..]);
      InsertByScorePermutes(r, sorted[1..]);
      assert out == [sorted[0]] + tail;
      forall j | 0 < j < |out| ensures out[0].score >= out[j].score {
        assert out[j] == tail[j - 1];
        assert tail[j - 1] in multiset(sorted[1..]) + multiset{r};
        if tail[j - 1] != r {
          var m :| 0 <= m < |sorted[1..]| && sorted[1..][m] == tail[j - 1];
          assert sorted[m + 1] == tail[j - 1];
        }
      }
    }
  }

  lemma {:induction false} InsertByScoreStable(r: Recommendation, sorted: seq<Recommendation>, k: real)
    ensures WithScore(InsertByScore(r, sorted), k) ==
      (if r.score == k then [r] + WithScore(sorted, k) else WithScore(sorted, k))
    decreases |sorted|
  {
    var out := InsertByScore(r, sorted);
    if sorted == [] || r.score >= sorted[0].score {
      assert out[1..] == sorted;
    } else {
      var tail := InsertByScore(r, sorted[1..]);
      InsertByScoreStable(r, sorted[1..], k);
      assert out[1..] == tail;
      assert WithScore(out, k) == (if sorted[0].score == k then [sorted[0]] else []) + WithScore(tail, k);
    }
  }

  /** The sort is a permutation, is non-increasing in score, and is stable: for every score
      value, the recommendations with that score appear in their input order. */
  lemma {:induction false} SortByScoreCorrect(s: seq<Recommendation>)
    ensures multiset(SortByScore(s)) == multiset(s)
    ensures NonIncreasing(SortByScore(s))
    ensures forall k :: WithScore(SortByScore(s), k) == WithScore(s, k)
  {
    SortByScorePermutes(s);
    SortByScoreOrders(s);
    forall k ensures WithScore(SortByScore(s), k) == WithScore(s, k) {
      SortByScoreStable(s, k);
    }
  }

  /** The sort is a permutation of its input. */
  lemma {:induction false} SortByScorePermutes(s: seq<Recommendation>)
    ensures multiset(SortByScore(s)) == multiset(s)
    decreases |s|
  {
    if s != [] {
      SortByScorePermutes(s[1..]);
      InsertByScorePermutes(s[0], SortByScore(s[1..]));
      assert s == [s[0]] + s[1..];
      assert multiset(s) == multiset{s[0]} + multiset(s[1..]);
    }
  }

  /** The sort is non-increasing in score. */
  lemma {:induction false} SortByScoreOrders(s: seq<Recommendation>)
    ensures NonIncreasing(SortByScore(s))
    decreases |s|
  {
    if s != [] {
      SortByScoreOrders(s[1..]);
      InsertByScoreOrders(s[0], SortByScore(s[1..]));
    }
  }

  /** The recommendations of score k appear in the sort in their input order. */
  lemma {:induction false} SortByScoreStable(s: seq<Recommendation>, k: real)
    ensures WithScore(SortByScore(s), k) == WithScore(s, k)
    decreases |s|
  {
    if s != [] {
      SortByScoreStable(s[1..], k);
      InsertByScoreStable(s[0], SortByScore(s[1..]), k);
    }
  }

  /** The first n elements of s, or all of s when it is shorter. */
  function Take(s: seq<Recommendation>, n: nat): (t: seq<Recommendation>)
    ensures |t| == if |s| <= n then |s| else n
    ensures t == s[..|t|]
  {
    if |s| <= n then s else s[..n]
  }

  /** A prefix of a non-increasing sequence is non-increasing. */
  lemma PrefixNonIncreasing(s: seq<Recommendation>, n: nat)
    requires NonIncreasing(s) && n <= |s|
    ensures NonIncreasing(s[..n])
  {
    forall i, j | 0 <= i < j < n ensures s[..n][i].score >= s[..n][j].score {
      assert s[..n][i] == s[i] && s[..n][j] == s[j];
    }
  }

  /** What `get_crop_recommendations` returns. `crops` is the crops table, or None when the
      query raised; `weather` is the weather service's answer for the location. */
  function Recommendations(crops: Option<seq<Crop>>, season: string, soilType: string, farmSize: real, weather: Weather)
    : seq<Recommendation>
  {
    match crops
    case None => []
    case Some(cs) => Take(SortByScore(Candidates(cs, season, soilType, farmSize, weather)), MaxRecommendations)
  }

  /** The result has at most five entries and is non-increasing in score; a failed query gives
      the empty list. */
  lemma RecommendationsRanked(crops: Option<seq<Crop>>, season: string, soilType: string, farmSize: real, weather: Weather)
    ensures var r := Recommendations(crops, season, soilType, farmSize, weather);
      && |r| <= 5
      && NonIncreasing(r)
      && (crops.None? ==> r == [])
  {
    if crops.Some? {
      var sorted := SortByScore(Candidates(crops.value, season, soilType, farmSize, weather));
      SortByScoreCorrect(Candidates(crops.value, season, soilType, farmSize, weather));
      PrefixNonIncreasing(sorted, |Take(sorted, MaxRecommendations)|);
    }
  }

  /** Equal scores keep table order: the result is the first five of the stable sort of the
      candidates. */
  lemma RecommendationsStable(crops: seq<Crop>, season: string, soilType: string, farmSize: real, weather: Weather)
    ensures var r := Recommendations(Some(crops), season, soilType, farmSize, weather);
      var sorted := SortByScore(Candidates(crops, season, soilType, farmSize, weather));
      && r == sorted[..|r|]
      && (forall k :: WithScore(sorted, k) == WithScore(Candidates(crops, season, soilType, farmSize, weather), k))
  {
    SortByScoreCorrect(Candidates(crops, season, soilType, farmSize, weather));
  }

  /** Every recommendation is above 0.5, echoes the season and is for a crop of the matrix;
      conversely, every qualifying crop of a successful query is recommended, unless five
      recommendations already score at least as high. */
  lemma RecommendationsFiltered(crops: Option<seq<Crop>>, season: string, soilType: string, farmSize: real, weather: Weather)
    ensures var r := Recommendations(crops, season, soilType, farmSize, weather);
      forall i :: 0 <= i < |r| ==> r[i].score > 0.5 && r[i].season == season && Lower(r[i].cropName) in CropSuitability
    ensures crops.Some? ==> var r := Recommendations(crops, season, soilType, farmSize, weather);
      var n := |Candidates(crops.value, season, soilType, farmSize, weather)|;
      |r| == (if n <= 5 then n else 5)
    ensures crops.Some? ==> var r := Recommendations(crops, season, soilType, farmSize, weather);
      forall i :: 0 <= i < |crops.value| && Qualifies(crops.value[i], season, soilType, weather) ==>
        var x := CandidateOf(crops.value[i], season, soilType, farmSize, weather);
        x in r || (|r| == 5 && x.score <= r[4].score)
  {
    if crops.Some? {
      var c := Candidates(crops.value, season, soilType, farmSize, weather);
      SortByScoreCorrect(c);
      var sorted := SortByScore(c);
      forall i | 0 <= i < |sorted| ensures sorted[i].score > 0.5 && sorted[i].season == season && Lower(sorted[i].cropName) in CropSuitability {
        assert sorted[i] in multiset(c);
      }
      assert |sorted| == |multiset(sorted)| == |multiset(c)| == |c|;
      forall i | 0 <= i < |crops.value| && Qualifies(crops.value[i], season, soilType, weather)
        ensures RecommendationKept(crops.value, season, soilType, farmSize, weather, i)
      {
        RecommendationsComplete(crops.value, season, soilType, farmSize, weather, i);
      }
    }
  }

  /** The candidate of crop i is among the recommendations, or five recommendations score at
      least as high. */
  predicate RecommendationKept(crops: seq<Crop>, season: string, soilType: string, farmSize: real, weather: Weather, i: int)
    requires 0 <= i < |crops| && Qualifies(crops[i], season, soilType, weather)
  {
    var r := Recommendations(Some(crops), season, soilType, farmSize, weather);
    var x := CandidateOf(crops[i], season, soilType, farmSize, weather);
    x in r || (|r| == 5 && x.score <= r[4].score)
  }

  /** A qualifying crop is left out only when the top five all score at least as high. */
  lemma RecommendationsComplete(crops: seq<Crop>, season: string, soilType: string, farmSize: real, weather: Weather, i: int)
    requires 0 <= i < |crops| && Qualifies(crops[i], season, soilType, weather)
    ensures RecommendationKept(crops, season, soilType, farmSize, weather, i)
  {
    var c := Candidates(crops, season, soilType, farmSize, weather);
    var x := CandidateOf(crops[i], season, soilType, farmSize, weather);
    CandidatesComplete(crops, season, soilType, farmSize, weather, i);
    SortByScoreCorrect(c);
    var sorted := SortByScore(c);
    var r := Recommendations(Some(crops), season, soilType, farmSize, weather);
    assert x in multiset(sorted);
    var m :| 0 <= m < |sorted| && sorted[m] == x;
    if m < |r| {
      assert r[m] == x;
    } else {
      assert |r| == 5 && r[4] == sorted[4];
    }
  }

  /** `get_crop_recommendations`: scores each crop of the table, keeps those above 0.5,
      sorts them by score and returns the top five. */
  method GetCropRecommendations(crops: Option<seq<Crop>>, season: string, soilType: string, farmSize: real, weather: Weather)
    returns (recommendations: seq<Recommendation>)
    ensures recommendations == Recommendations(crops, season, soilType, farmSize, weather)
    ensures |recommendations| <= 5 && NonIncreasing(recommendations)
    ensures forall i :: 0 <= i < |recommendations| ==> recommendations[i].score > 0.5 && recommendations[i].season == season
  {
    if crops.None? {
      // the query raised: the exception handler returns an empty list
      recommendations := [];
    } else {
      var cs := crops.value;
      var found: seq<Recommendation> := [];
      for i := 0 to |cs|
        invariant found == Candidates(cs[..i], season, soilType, farmSize, weather)
      {
        var crop := cs[i];
        var key := Lower(crop.name);
        assert cs[..i + 1][..i] == cs[..i];
        if key in CropSuitability {
          var profile := CropSuitability[key];
          var score := CalculateSuitabilityScore(profile, season, soilType, weather);
          if score > InclusionThreshold {
            var reason := RecommendationReason(profile, season, soilType);
            found := found + [Recommendation(crop.id, crop.name, crop.scientificName, crop.localNameHindi, score, season,
                                             EstimateYield(key, farmSize), GetMarketPrice(key), reason)];
          }
        }
      }
      assert cs[..|cs|] == cs;
      var sorted := SortByScore(found);
      recommendations := if |sorted| <= MaxRecommendations then sorted else sorted[..MaxRecommendations];
    }
    RecommendationsRanked(crops, season, soilType, farmSize, weather);
    RecommendationsFiltered(crops, season, soilType, farmSize, weather);
  }

  /** Equal scores are not broken by name: two crops of equal score come out in table order. */
  lemma NoTieBreakByName()
    ensures var crops := [Crop(1, "Wheat", None, None), Crop(2, "Potato", None, None)];
      var r := Recommendations(Some(crops), "rabi", "loam", 1.0, NoWeather);
      |r| == 2 && r[0].cropName == "Wheat" && r[1].cropName == "Potato"
  {
    var crops := [Crop(1, "Wheat", None, None), Crop(2, "Potato", None, None)];
    assert Lower("Wheat") == "wheat";
    assert Lower("Potato") == "potato";
    assert crops[..1] == [crops[0]];
    var c := Candidates(crops, "rabi", "loam", 1.0, NoWeather);
    assert |c| == 2;
  }

  /** A negative farm size is not rejected: it gives a negative expected yield. */
  lemma NegativeFarmSizeGivesNegativeYield(crops: seq<Crop>, season: string, soilType: string, farmSize: real, weather: Weather)
    requires farmSize < 0.0
    ensures forall r :: r in Recommendations(Some(crops), season, soilType, farmSize, weather) ==> r.expectedYield < 0.0
  {
    var c := Candidates(crops, season, soilType, farmSize, weather);
    CandidatesYield(crops, season, soilType, farmSize, weather);
    SortByScoreCorrect(c);
    var sorted := SortByScore(c);
    forall r | r in Take(sorted, MaxRecommendations) ensures r.expectedYield < 0.0 {
      assert r in sorted;
      assert r in multiset(c);
    }
  }

  /** Every candidate's yield is its crop's per-acre yield times the farm size. */
  lemma {:induction false} CandidatesYield(crops: seq<Crop>, season: string, soilType: string, farmSize: real, weather: Weather)
    ensures forall r :: r in Candidates(crops, season, soilType, farmSize, weather) ==>
      r.expectedYield == EstimateYield(Lower(r.cropName), farmSize)
    decreases |crops|
  {
    if crops != [] {
      CandidatesYield(crops[..|crops| - 1], season, soilType, farmSize, weather);
    }
  }
}
