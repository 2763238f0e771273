/** The rule-based part of the chatbot service: intent detection by ordered keyword groups,
    month-to-season mapping, and the replies chosen for each intent. The weather service's
    answer, the crops table and the month of the clock are parameters. */
module Chatbot {
  import opened Wrappers
  import opened Strings
  import CropRecommendation

  datatype Intent = CropSelection | PestControl | Fertilizer | WeatherQuery | Market | General

  function IntentName(i: Intent): string {
    match i
    case CropSelection => "crop_selection"
    case PestControl => "pest_control"
    case Fertilizer => "fertilizer"
    case WeatherQuery => "weather"
    case Market => "market"
    case General => "general"
  }

  // The keyword groups `_analyze_intent` tests, in its order.
  const CropKeywords: seq<string> := ["crop", "grow", "plant", "season"]
  const PestKeywords: seq<string> := ["pest", "insect", "disease", "spray"]
  const FertilizerKeywords: seq<string> := ["fertilizer", "manure", "nutrient"]
  const WeatherKeywords: seq<string> := ["weather", "rain", "temperature"]
  const MarketKeywords: seq<string> := ["price", "market", "sell"]

  /** The crop-selection keywords of the knowledge base, which also list "soil". */
  const KnowledgeBaseCropKeywords: seq<string> := ["crop", "grow", "plant", "season", "soil"]

  /** Some keyword of the group occurs in the lower-cased message. */
  predicate Mentions(message: string, words: seq<string>) {
    exists k :: 0 <= k < |words| && Contains(Lower(message), words[k])
  }

  /** `_analyze_intent`: the first group with a keyword in the lower-cased message decides. */
  function AnalyzeIntent(message: string): (i: Intent)
    ensures i == CropSelection <==> Mentions(message, CropKeywords)
    ensures i == PestControl <==> !Mentions(message, CropKeywords) && Mentions(message, PestKeywords)
    ensures i == Fertilizer <==>
      !Mentions(message, CropKeywords) && !Mentions(message, PestKeywords) && Mentions(message, FertilizerKeywords)
    ensures i == WeatherQuery <==>
      !Mentions(message, CropKeywords) && !Mentions(message, PestKeywords) && !Mentions(message, FertilizerKeywords)
      && Mentions(message, WeatherKeywords)
    ensures i == General <==>
      !Mentions(message, CropKeywords) && !Mentions(message, PestKeywords) && !Mentions(message, FertilizerKeywords)
      && !Mentions(message, WeatherKeywords) && !Mentions(message, MarketKeywords)
  {
    var m := Lower(message);
    ContainsAnyExists(m, CropKeywords);
    ContainsAnyExists(m, PestKeywords);
    ContainsAnyExists(m, FertilizerKeywords);
    ContainsAnyExists(m, WeatherKeywords);
    ContainsAnyExists(m, MarketKeywords);
    if ContainsAny(m, CropKeywords) then CropSelection
    else if ContainsAny(m, PestKeywords) then PestControl
    else if ContainsAny(m, FertilizerKeywords) then Fertilizer
    else if ContainsAny(m, WeatherKeywords) then WeatherQuery
    else if ContainsAny(m, MarketKeywords) then Market
    else General
  }

  /** Lower-casing twice is lower-casing once. */
  lemma LowerIdempotent(s: string)
    ensures Lower(Lower(s)) == Lower(s)
  {
  }

  /** Matching ignores case: a message and its lower-cased form have the same intent. */
  lemma IntentIgnoresCase(message: string)
    ensures AnalyzeIntent(Lower(message)) == AnalyzeIntent(message)
  {
    LowerIdempotent(message);
  }

  /** Matching is by substring, so "Planting" is a crop question. */
  lemma PlantingIsCropSelection()
    ensures AnalyzeIntent("Planting") == CropSelection
  {
    var p := Lower("Planting");
    assert p == "planting";
    assert Contains(p, "plant");
    assert Mentions("Planting", CropKeywords) by { assert Contains(p, CropKeywords[2]); }
  }

  /** "pest price" has no crop keyword: each has a letter that it lacks. */
  lemma PestPriceMissesCrop()
    ensures !Mentions("pest price", CropKeywords)
  {
    var q := Lower("pest price");
    assert q == "pest price";
    forall k | 0 <= k < |CropKeywords| ensures !Contains(q, CropKeywords[k]) {
      NotContained(q, CropKeywords[k], if k == 1 then 0 else if k == 2 then 1 else 2);
    }
  }

  /** A message naming both a pest and a price is a pest question: the pest group is checked
      first. */
  lemma PestBeforePrice()
    ensures AnalyzeIntent("pest price") == PestControl
  {
    PestPriceMissesCrop();
    assert Lower("pest price") == "pest price";
    assert Contains("pest price", PestKeywords[0]);
  }

  /** "soil" has no crop or pest keyword: each has a letter that "soil" lacks. */
  lemma SoilMissesCropAndPest()
    ensures !Mentions("soil", CropKeywords) && !Mentions("soil", PestKeywords)
  {
    var m := Lower("soil");
    assert m == "soil";
    forall k | 0 <= k < |CropKeywords| ensures !Contains(m, CropKeywords[k]) {
      NotContained(m, CropKeywords[k], if k == 3 then 1 else 0);
    }
    forall k | 0 <= k < |PestKeywords| ensures !Contains(m, PestKeywords[k]) {
      NotContained(m, PestKeywords[k], if k == 1 then 1 else if k == 3 then 1 else 0);
    }
  }

  /** "soil" has no fertilizer, weather or market keyword either. */
  lemma SoilMissesOtherGroups()
    ensures !Mentions("soil", FertilizerKeywords) && !Mentions("soil", WeatherKeywords) && !Mentions("soil", MarketKeywords)
  {
    var m := Lower("soil");
    assert m == "soil";
    forall k | 0 <= k < |FertilizerKeywords| ensures !Contains(m, FertilizerKeywords[k]) {
      NotContained(m, FertilizerKeywords[k], 0);
    }
    forall k | 0 <= k < |WeatherKeywords| ensures !Contains(m, WeatherKeywords[k]) {
      NotContained(m, WeatherKeywords[k], 0);
    }
    forall k | 0 <= k < |MarketKeywords| ensures !Contains(m, MarketKeywords[k]) {
      NotContained(m, MarketKeywords[k], if k == 2 then 1 else 0);
    }
  }

  /** "soil" is a crop keyword of the knowledge base but is not checked by the classifier, so it alone is general. */
  lemma SoilAloneIsGeneral()
    ensures "soil" in KnowledgeBaseCropKeywords && "soil" !in CropKeywords
    ensures AnalyzeIntent("soil") == General
  {
    SoilMissesCropAndPest();
    SoilMissesOtherGroups();
  }

  /** `_get_current_season` for the month of the clock: June to October is kharif, November to
      March rabi, April and May zaid. */
  function GetCurrentSeason(month: int): (season: string)
    requires 1 <= month <= 12
    ensures season == "kharif" <==> 6 <= month <= 10
    ensures season == "rabi" <==> month >= 11 || month <= 3
    ensures season == "zaid" <==> month == 4 || month == 5
  {
    if month in [6, 7, 8, 9, 10] then "kharif"
    else if month in [11, 12, 1, 2, 3] then "rabi"
    else "zaid"
  }

  /** The content of a reply: text, or the weather sentence with the two values it shows
      (None is shown as "N/A"). */
  datatype Content = Text(text: string) | WeatherReport(temperature: Option<real>, humidity: Option<real>)

  datatype ChatResponse = ChatResponse(content: Content, kind: string, confidence: real, suggestions: seq<string>)

  const ErrorReply := ChatResponse(
    Text("मुझे क्षमा करें, मैं आपकी सहायता नहीं " + "कर सकता। कृपया बाद में पुनः प्रयास करें।"), "error", 0.0,
    ["सहायता के लिए हमारे विशेषज्ञ से संपर्क करें"])

  const CropReplyPrefix: string := "आपकी जमीन और मौसम के अनुसार, आप इन फसलों को उगा सकते हैं: "
  const CropReplyNoResults: string :=
    "कृपया अपनी मिट्टी की जांच करवाएं और " +
    "मौसम की जानकारी दें ताकि मैं बेहतर " +
    "सुझाव दे सकूं।"
  const MoreAboutSuffix: string := " के बारे में अधिक जानकारी"
  const WeatherUnavailable: string := "मौसम की जानकारी उपलब्ध नहीं है। कृपया अपना स्थान अपडेट करें।"

  /** The names of the first three recommendations, in ranking order. */
  function TopNames(recommendations: seq<CropRecommendation.Recommendation>): (names: seq<string>)
    ensures |names| == if |recommendations| < 3 then |recommendations| else 3
    ensures forall i :: 0 <= i < |names| ==> names[i] == recommendations[i].cropName
  {
    var top := if |recommendations| <= 3 then recommendations else recommendations[..3];
    seq(|top|, i requires 0 <= i < |top| => top[i].cropName)
  }

  /** `_handle_crop_selection` given the engine's recommendations. */
  function HandleCropSelection(recommendations: seq<CropRecommendation.Recommendation>): (r: ChatResponse)
    ensures r.kind == "crop_selection" && r.confidence == 0.8
    ensures |recommendations| > 0 ==>
      var names := TopNames(recommendations);
      r.content == Text(CropReplyPrefix + Join(names, ", ") + "।") &&
      |r.suggestions| == |names| <= 3 &&
      forall i :: 0 <= i < |names| ==> r.suggestions[i] == recommendations[i].cropName + MoreAboutSuffix
    ensures |recommendations| == 0 ==> r.content == Text(CropReplyNoResults) && |r.suggestions| == 2
  {
    if |recommendations| > 0 then
      var names := TopNames(recommendations);
      ChatResponse(Text(CropReplyPrefix + Join(names, ", ") + "।"), "crop_selection", 0.8,
                   seq(|names|, i requires 0 <= i < |names| => names[i] + MoreAboutSuffix))
    else
      ChatResponse(Text(CropReplyNoResults), "crop_selection", 0.8, ["मिट्टी की जांच करवाएं", "मौसम की जानकारी देखें"])
  }

  /** The context's weather is truthy when it was fetched and is not the empty dictionary. */
  predicate HasWeather(weather: Option<CropRecommendation.Weather>) {
    weather.Some? && weather.value != CropRecommendation.NoWeather
  }

  /** `_handle_weather_query`: the weather of the context, if truthy, is reported with confidence
      0.9; otherwise the unavailable text with 0.3. */
  function HandleWeatherQuery(weather: Option<CropRecommendation.Weather>): (r: ChatResponse)
    ensures r.kind == "weather" && |r.suggestions| == 2
    ensures r.confidence == (if HasWeather(weather) then 0.9 else 0.3)
    ensures HasWeather(weather) ==> r.content == WeatherReport(weather.value.temperature, weather.value.humidity)
    ensures !HasWeather(weather) ==> r.content == Text(WeatherUnavailable)
  {
    var suggestions := ["स्थान अपडेट करें", "मौसम पूर्वानुमान देखें"];
    if HasWeather(weather) then
      ChatResponse(WeatherReport(weather.value.temperature, weather.value.humidity), "weather", 0.9, suggestions)
    else ChatResponse(Text(WeatherUnavailable), "weather", 0.3, suggestions)
  }

  // The texts of the pest, fertilizer, market and general handlers.
  const PestText: string :=
    "कीट नियंत्रण के लिए पहले कीट की पहचान " +
    "करें। फिर उपयुक्त जैविक या रासायनिक " +
    "उपचार का उपयोग करें।"
  const FertilizerText: string :=
    "उर्वरक की मात्रा मिट्टी की जांच के " +
    "परिणामों पर निर्भर करती है। जैविक खाद " +
    "मिट्टी की सेहत के लिए अच्छी होती है।"
  const MarketText: string :=
    "बाजार की कीमतों के लिए कृपया मार्केट " +
    "सेक्शन देखें। वहां आपको नवीनतम कीमतें " +
    "मिलेंगी।"
  const GeneralText: string :=
    "मैं आपकी कृषि संबंधी सहायता कर सकता " +
    "हूं। आप फसल चयन, कीट नियंत्रण, उर्वरक " +
    "या मौसम के बारे में पूछ सकते हैं।"

  /** The fixed replies of the pest, fertilizer, market and general handlers. */
  function FixedReply(i: Intent): (r: ChatResponse)
    requires i in {PestControl, Fertilizer, Market, General}
    ensures r.kind == IntentName(i) && r.confidence == IntentConfidence(i, false)
  {
    match i
    case PestControl => ChatResponse(Text(PestText), "pest_control", 0.7, ["कीट की तस्वीर भेजें", "रोग की पहचान करें"])
    case Fertilizer => ChatResponse(Text(FertilizerText), "fertilizer", 0.8, ["मिट्टी की जांच करवाएं", "जैविक खाद के बारे में जानें"])
    case Market => ChatResponse(Text(MarketText), "market", 0.6, ["मार्केट सेक्शन देखें", "कीमत अलर्ट सेट करें"])
    case General => ChatResponse(Text(GeneralText), "general", 0.7, ["फसल चयन", "कीट नियंत्रण", "उर्वरक सलाह"])
  }

  /** `_handle_crop_selection` as called by `get_response`: recommendations for the current
      season and "loam" soil. `farmSize` is the user's farm size, None when it is not set; the
      engine then multiplies by None for the first qualifying crop, which raises inside its
      handler, so the engine returns no recommendations. `crops` is the engine's own query of
      the crops table, None when it raises. */
  function CropSelectionReply(month: int, farmSize: Option<real>, crops: Option<seq<CropRecommendation.Crop>>,
                              weather: CropRecommendation.Weather): (r: ChatResponse)
    requires 1 <= month <= 12
    ensures r.kind == "crop_selection" && r.confidence == 0.8
    ensures farmSize.None? || crops.None? ==> r.content == Text(CropReplyNoResults)
    ensures farmSize.Some? ==>
      r == HandleCropSelection(CropRecommendation.Recommendations(crops, GetCurrentSeason(month), "loam", farmSize.value, weather))
  {
    match farmSize
    case None => HandleCropSelection([])
    case Some(size) =>
      HandleCropSelection(CropRecommendation.Recommendations(crops, GetCurrentSeason(month), "loam", size, weather))
  }

  /** The confidence each handler reports; the weather one depends on whether the context has
      truthy weather. */
  function IntentConfidence(i: Intent, hasWeather: bool): real {
    match i
    case CropSelection => 0.8
    case PestControl => 0.7
    case Fertilizer => 0.8
    case WeatherQuery => if hasWeather then 0.9 else 0.3
    case Market => 0.6
    case General => 0.7
  }

  /** The weather in the contextual data: fetched only when the location is non-empty. */
  function ContextWeather(location: string, weather: CropRecommendation.Weather): Option<CropRecommendation.Weather> {
    if location != "" then Some(weather) else None
  }

  /** `get_response`. `contextCrops` is the contextual data's query of the crops table (limited
      to ten rows), None when it raises; `crops` is the engine's own query of the same table,
      None when it raises; `farmSize` is the user's farm size, None when unset; `weather` is what
      the weather service answers; `month` is the month of the clock. */
  function GetResponse(message: string, month: int, location: string, farmSize: Option<real>,
                       contextCrops: Option<seq<CropRecommendation.Crop>>,
                       crops: Option<seq<CropRecommendation.Crop>>, weather: CropRecommendation.Weather): (r: ChatResponse)
    requires 1 <= month <= 12
    ensures contextCrops.None? ==> r == ErrorReply
    ensures contextCrops.Some? ==> r.kind == IntentName(AnalyzeIntent(message))
    ensures contextCrops.Some? ==>
      r.confidence == IntentConfidence(AnalyzeIntent(message), HasWeather(ContextWeather(location, weather)))
    ensures contextCrops.Some? && AnalyzeIntent(message) == CropSelection ==>
      r == CropSelectionReply(month, farmSize, crops, weather)
    ensures contextCrops.Some? && AnalyzeIntent(message) == WeatherQuery ==>
      r == HandleWeatherQuery(ContextWeather(location, weather))
    ensures contextCrops.Some? && AnalyzeIntent(message) in {PestControl, Fertilizer, Market, General} ==>
      r == FixedReply(AnalyzeIntent(message))
  {
    if contextCrops.None? then ErrorReply
    else
      var intent := AnalyzeIntent(message);
      match intent
      case CropSelection => CropSelectionReply(month, farmSize, crops, weather)
      case WeatherQuery => HandleWeatherQuery(ContextWeather(location, weather))
      case _ => FixedReply(intent)
  }

  /** A user without a farm size, or an engine query that raises, always gets the no-results
      crop reply, not the error reply: the engine's failure is caught inside the engine. */
  lemma CropQuestionWithoutResults(message: string, month: int, location: string, farmSize: Option<real>,
                                   contextCrops: seq<CropRecommendation.Crop>,
                                   crops: Option<seq<CropRecommendation.Crop>>, weather: CropRecommendation.Weather)
    requires 1 <= month <= 12 && AnalyzeIntent(message) == CropSelection
    requires farmSize.None? || crops.None?
    ensures var r := GetResponse(message, month, location, farmSize, Some(contextCrops), crops, weather);
      r.content == Text(CropReplyNoResults) && r.kind == "crop_selection" && r.confidence == 0.8
  {
  }

  /** The crop reply names at most three crops, each a recommendation for the current season and
      "loam" soil with a score above 0.5. */
  lemma CropReplyNamesRecommendedCrops(month: int, farmSize: real, crops: seq<CropRecommendation.Crop>,
                                        weather: CropRecommendation.Weather)
    requires 1 <= month <= 12
    ensures var recs := CropRecommendation.Recommendations(Some(crops), GetCurrentSeason(month), "loam", farmSize, weather);
      var names := TopNames(recs);
      |names| <= 3 &&
      forall i :: 0 <= i < |names| ==>
        recs[i].cropName == names[i] && recs[i].score > 0.5 && recs[i].season == GetCurrentSeason(month)
  {
    CropRecommendation.RecommendationsFiltered(Some(crops), GetCurrentSeason(month), "loam", farmSize, weather);
  }
}
