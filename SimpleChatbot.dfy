/** The keyword responder of the demo chat endpoint: for Hindi, English and Punjabi an ordered
    list of topics, each with its keywords, is checked against the lower-cased message and the
    first topic with a keyword decides the reply; every other language gets a fixed English
    text. Also the quick-question lists, with Hindi as the fallback. */
module SimpleChatbot {
  import opened Strings

  datatype Topic = Irrigation | Pest | Fertilizer | WeatherTopic | CropTopic | Greeting | NoTopic

  datatype TopicRule = TopicRule(topic: Topic, keywords: seq<string>)

  // The topics of each language, in the order they are checked.
  const HindiRules: seq<TopicRule> := [
    TopicRule(Irrigation, ["सिंचाई", "irrigation", "पानी"]),
    TopicRule(Pest, ["कीट", "pest", "बीमारी"]),
    TopicRule(Fertilizer, ["खाद", "fertilizer", "उर्वरक"]),
    TopicRule(WeatherTopic, ["मौसम", "weather", "बारिश"]),
    TopicRule(CropTopic, ["फसल", "crop", "बीज"]),
    TopicRule(Greeting, ["नमस्ते", "hello", "hi"])]
  const EnglishRules: seq<TopicRule> := [
    TopicRule(Irrigation, ["irrigation", "water", "watering"]),
    TopicRule(Pest, ["pest", "disease", "insect"]),
    TopicRule(Fertilizer, ["fertilizer", "manure", "nutrient"]),
    TopicRule(WeatherTopic, ["weather", "rain", "temperature"]),
    TopicRule(CropTopic, ["crop", "seed", "planting"]),
    TopicRule(Greeting, ["hello", "hi", "namaste"])]
  const PunjabiRules: seq<TopicRule> := [
    TopicRule(Irrigation, ["ਸਿੰਚਾਈ", "ਪਾਣੀ"]),
    TopicRule(Pest, ["ਕੀਟ", "ਰੋਗ"]),
    TopicRule(Greeting, ["ਸਤ ਸ੍ਰੀ ਅਕਾਲ", "hello", "hi"])]

  function Rules(language: string): seq<TopicRule> {
    if language == "hi" then HindiRules
    else if language == "en" then EnglishRules
    else if language == "pa" then PunjabiRules
    else []
  }

  function TopicsOf(rules: seq<TopicRule>): seq<Topic> {
    seq(|rules|, i requires 0 <= i < |rules| => rules[i].topic)
  }

  /** The first rule, in order, with a keyword in the message; NoTopic when none has one. */
  function FirstTopic(message: string, rules: seq<TopicRule>): (t: Topic)
    decreases |rules|
  {
    if |rules| == 0 then NoTopic
    else if ContainsAny(message, rules[0].keywords) then rules[0].topic
    else FirstTopic(message, rules[1..])
  }

  /** First match wins: the chosen topic is that of a rule with a keyword in the message and no
      earlier rule has one; NoTopic exactly when no rule has one (for rules that never name
      NoTopic themselves). */
  lemma {:induction false} FirstTopicSpec(message: string, rules: seq<TopicRule>)
    requires forall i :: 0 <= i < |rules| ==> rules[i].topic != NoTopic
    ensures var t := FirstTopic(message, rules);
      && (t == NoTopic <==> forall i :: 0 <= i < |rules| ==> !ContainsAny(message, rules[i].keywords))
      && (t != NoTopic ==>
            exists k :: (0 <= k < |rules| && rules[k].topic == t && ContainsAny(message, rules[k].keywords) &&
                         forall j :: 0 <= j < k ==> !ContainsAny(message, rules[j].keywords)))
    decreases |rules|
  {
    if |rules| > 0 {
      FirstTopicSpec(message, rules[1..]);
      var t := FirstTopic(message, rules);
      if ContainsAny(message, rules[0].keywords) {
        assert rules[0].topic == t;
      } else {
        assert forall i :: 1 <= i < |rules| ==> rules[1..][i - 1] == rules[i];
        if t != NoTopic {
          var k :| 0 <= k < |rules[1..]| && rules[1..][k].topic == t && ContainsAny(message, rules[1..][k].keywords) &&
            forall j :: 0 <= j < k ==> !ContainsAny(message, rules[1..][j].keywords);
          assert rules[k + 1].topic == t;
          forall j | 0 <= j < k + 1 ensures !ContainsAny(message, rules[j].keywords) {
            if j > 0 { assert rules[1..][j - 1] == rules[j]; }
          }
        }
      }
    }
  }

  // The replies, by language and topic.
  const HiIrrigation: string :=
    "सिंचाई के लिए सुबह या शाम का समय सबसे " +
    "अच्छा है। अपनी फसल के अनुसार पानी दें - " +
    "गेहूं को सप्ताह में 2-3 बार, चावल को " +
    "रोजाना पानी चाहिए।"
  const HiPest: string :=
    "कीट नियंत्रण के लिए नीम का तेल या जैविक " +
    "कीटनाशक का उपयोग करें। नियमित रूप से " +
    "पत्तियों की जांच करें और संक्रमित पौधों " +
    "को तुरंत हटा दें।"
  const HiFertilizer: string :=
    "खाद डालने का सही समय बुवाई के 15-20 दिन " +
    "बाद है। NPK अनुपात 20:20:20 का उपयोग " +
    "करें। मिट्टी की जांच के बाद ही खाद " +
    "डालें।"
  const HiWeather: string :=
    "आज का मौसम अच्छा है। तापमान 28°C है। " +
    "अगले 2 दिनों में बारिश की संभावना है, " +
    "इसलिए अपनी फसल की सुरक्षा करें।"
  const HiCrop: string :=
    "सही फसल चुनने के लिए मिट्टी की जांच " +
    "कराएं। रबी सीजन में गेहूं, सरसों, चना " +
    "उगा सकते हैं। खरीफ सीजन में चावल, " +
    "मक्का, कपास अच्छे विकल्प हैं।"
  const HiGreeting: string :=
    "नमस्ते! मैं आपका AI कृषि सलाहकार हूं। " +
    "मैं आपकी फसल, कीट नियंत्रण, सिंचाई, खाद " +
    "और मौसम के बारे में सलाह दे सकता हूं। " +
    "आप क्या जानना चाहते हैं?"
  const HiDefault: string :=
    "मैं आपकी मदद करने के लिए यहां हूं। " +
    "कृपया अपनी समस्या या सवाल विस्तार से " +
    "बताएं। मैं आपको सबसे अच्छी सलाह दूंगा।"
  const EnIrrigation: string :=
    "For irrigation, early morning or " +
    "evening is the best time. Water " +
    "according to your crop - wheat needs " +
    "water 2-3 times a week, rice needs " +
    "daily watering."
  const EnPest: string :=
    "For pest control, use neem oil or " +
    "organic pesticides. Regularly check " +
    "leaves and remove infected plants " +
    "immediately."
  const EnFertilizer: string :=
    "The right time to apply fertilizer is " +
    "15-20 days after sowing. Use NPK ratio " +
    "20:20:20. Apply fertilizer only after " +
    "soil testing."
  const EnWeather: string :=
    "Today's weather is good. Temperature is " +
    "28°C. There is a chance of rain in the " +
    "next 2 days, so protect your crops."
  const EnCrop: string :=
    "For choosing the right crop, get your " +
    "soil tested. In Rabi season, you can " +
    "grow wheat, mustard, gram. In Kharif " +
    "season, rice, maize, cotton are good " +
    "options."
  const EnGreeting: string :=
    "Hello! I am your AI agriculture " +
    "advisor. I can help you with crop " +
    "advice, pest control, irrigation, " +
    "fertilizer, and weather information. " +
    "What would you like to know?"
  const EnDefault: string :=
    "I am here to help you. Please describe " +
    "your problem or question in detail. I " +
    "will give you the best advice."
  const PaIrrigation: string :=
    "ਸਿੰਚਾਈ ਲਈ ਸਵੇਰ ਜਾਂ ਸ਼ਾਮ ਦਾ ਸਮਾਂ ਸਭ ਤੋਂ " +
    "ਵਧੀਆ ਹੈ। ਆਪਣੀ ਫਸਲ ਦੇ ਅਨੁਸਾਰ ਪਾਣੀ ਦਿਓ - " +
    "ਕਣਕ ਨੂੰ ਹਫ਼ਤੇ ਵਿੱਚ 2-3 ਵਾਰ, ਚੌਲਾਂ ਨੂੰ " +
    "ਰੋਜ਼ਾਨਾ ਪਾਣੀ ਚਾਹੀਦਾ ਹੈ।"
  const PaPest: string :=
    "ਕੀਟ ਨਿਯੰਤਰਣ ਲਈ ਨੀਮ ਦਾ ਤੇਲ ਜਾਂ ਜੈਵਿਕ " +
    "ਕੀਟਨਾਸ਼ਕ ਦਾ ਉਪਯੋਗ ਕਰੋ। ਨਿਯਮਿਤ ਤੌਰ 'ਤੇ " +
    "ਪੱਤਿਆਂ ਦੀ ਜਾਂਚ ਕਰੋ ਅਤੇ ਸੰਕਰਮਿਤ ਪੌਦਿਆਂ " +
    "ਨੂੰ ਤੁਰੰਤ ਹਟਾ ਦਿਓ।"
  const PaGreeting: string :=
    "ਸਤ ਸ੍ਰੀ ਅਕਾਲ! ਮੈਂ ਤੁਹਾਡਾ AI ਖੇਤੀ " +
    "ਸਲਾਹਕਾਰ ਹਾਂ। ਮੈਂ ਤੁਹਾਡੀ ਫਸਲ, ਕੀਟ " +
    "ਨਿਯੰਤਰਣ, ਸਿੰਚਾਈ, ਖਾਦ ਅਤੇ ਮੌਸਮ ਬਾਰੇ ਸਲਾਹ " +
    "ਦੇ ਸਕਦਾ ਹਾਂ। ਤੁਸੀਂ ਕੀ ਜਾਣਨਾ ਚਾਹੁੰਦੇ ਹੋ?"
  const PaDefault: string :=
    "ਮੈਂ ਤੁਹਾਡੀ ਮਦਦ ਕਰਨ ਲਈ ਇੱਥੇ ਹਾਂ। ਕਿਰਪਾ " +
    "ਕਰਕੇ ਆਪਣੀ ਸਮਸਿਆ ਜਾਂ ਸਵਾਲ ਵਿਸਤਾਰ ਨਾਲ " +
    "ਦੱਸੋ। ਮੈਂ ਤੁਹਾਨੂੰ ਸਭ ਤੋਂ ਵਧੀਆ ਸਲਾਹ " +
    "ਦਵਾਂਗਾ।"
  /** The reply for a language without rules. */
  const OtherLanguageReply: string :=
    "I am here to help you. Please describe " +
    "your problem or question in detail."

  predicate KnownLanguage(language: string) {
    language == "hi" || language == "en" || language == "pa"
  }

  /** The reply text of a topic in a known language; NoTopic is the language's default reply. */
  function ReplyText(language: string, t: Topic): (r: string)
    requires KnownLanguage(language)
    ensures |r| > 0
  {
    if language == "hi" then
      match t
      case Irrigation => HiIrrigation
      case Pest => HiPest
      case Fertilizer => HiFertilizer
      case WeatherTopic => HiWeather
      case CropTopic => HiCrop
      case Greeting => HiGreeting
      case NoTopic => HiDefault
    else if language == "en" then
      match t
      case Irrigation => EnIrrigation
      case Pest => EnPest
      case Fertilizer => EnFertilizer
      case WeatherTopic => EnWeather
      case CropTopic => EnCrop
      case Greeting => EnGreeting
      case NoTopic => EnDefault
    else
      match t
      case Irrigation => PaIrrigation
      case Pest => PaPest
      case Greeting => PaGreeting
      case _ => PaDefault
  }

  /** `generate_ai_response`: never empty; an unknown language always gets the fixed English
      text; a known one the reply of the first topic with a keyword in the lower-cased message,
      or its default reply when none has one. */
  function GenerateAiResponse(userMessage: string, language: string): (r: string)
    ensures |r| > 0
    ensures !KnownLanguage(language) ==> r == OtherLanguageReply
    ensures KnownLanguage(language) ==> r == ReplyText(language, ChosenTopic(userMessage, language))
  {
    var message := Lower(userMessage);
    if KnownLanguage(language) then ReplyText(language, FirstTopic(message, Rules(language)))
    else OtherLanguageReply
  }

  /** The topic whose reply a message gets in a known language. */
  function ChosenTopic(userMessage: string, language: string): Topic {
    FirstTopic(Lower(userMessage), Rules(language))
  }

  /** The topic orders: Hindi and English test irrigation, pest, fertilizer, weather, crop and
      greeting in that order; Punjabi has only irrigation, pest and greeting. */
  lemma TopicOrders()
    ensures TopicsOf(Rules("hi")) == [Irrigation, Pest, Fertilizer, WeatherTopic, CropTopic, Greeting]
    ensures TopicsOf(Rules("en")) == [Irrigation, Pest, Fertilizer, WeatherTopic, CropTopic, Greeting]
    ensures TopicsOf(Rules("pa")) == [Irrigation, Pest, Greeting]
    ensures forall language :: !KnownLanguage(language) ==> Rules(language) == []
  {
  }

  /** A Punjabi message about fertilizer gets the Punjabi default reply: there is no such topic. */
  lemma PunjabiHasNoFertilizerTopic(userMessage: string)
    ensures ChosenTopic(userMessage, "pa") in {Irrigation, Pest, Greeting, NoTopic}
  {
  }

  /** The rule at index k decides when it is the first with a keyword in the message. */
  lemma {:induction false} FirstTopicAt(message: string, rules: seq<TopicRule>, k: nat)
    requires k < |rules| && ContainsAny(message, rules[k].keywords)
    requires forall j :: 0 <= j < k ==> !ContainsAny(message, rules[j].keywords)
    ensures FirstTopic(message, rules) == rules[k].topic
    decreases k
  {
    if k > 0 {
      assert !ContainsAny(message, rules[0].keywords);
      forall j | 0 <= j < k - 1 ensures !ContainsAny(message, rules[1..][j].keywords) {
        assert rules[1..][j] == rules[j + 1];
      }
      FirstTopicAt(message, rules[1..], k - 1);
    }
  }

  /** No keyword of the list occurs in s: `missing[k]` indexes a letter of keyword k absent from s. */
  lemma NoKeyword(s: string, words: seq<string>, missing: seq<nat>)
    requires |missing| == |words|
    requires forall k :: 0 <= k < |words| ==> missing[k] < |words[k]| && words[k][missing[k]] !in s
    ensures !ContainsAny(s, words)
  {
    forall k | 0 <= k < |words| ensures !Contains(s, words[k]) {
      NotContained(s, words[k], missing[k]);
    }
    ContainsAnyExists(s, words);
  }

  /** The Hindi rules also accept English keywords: "pest" gets the Hindi pest reply. */
  lemma HindiAcceptsEnglishKeywords()
    ensures ChosenTopic("pest", "hi") == Pest
  {
    var m := Lower("pest");
    assert m == "pest";
    var rules := HindiRules;
    NoKeyword(m, rules[0].keywords, [0, 0, 0]);
    assert Contains(m, rules[1].keywords[1]);
    ContainsAnyWitness(m, rules[1].keywords, 1);
    FirstTopicAt(m, rules, 1);
  }

  /** None of the first five English topics has a keyword in "this". */
  lemma ThisMissesEnglishRule(r: nat)
    requires r < 5
    ensures !ContainsAny("this", EnglishRules[r].keywords)
  {
    // for each keyword, the index of a letter that "this" lacks
    var missing := if r == 0 then [1, 0, 0] else if r == 1 then [0, 0, 1] else if r == 2 then [0, 0, 0]
                   else if r == 3 then [0, 0, 1] else [0, 1, 0];
    NoKeyword("this", EnglishRules[r].keywords, missing);
  }

  /** Greeting words match inside other words: "this" contains "hi", so in English it is
      answered with the greeting. */
  lemma GreetingInsideWord()
    ensures ChosenTopic("this", "en") == Greeting
  {
    assert Lower("this") == "this";
    ThisMissesEarlierEnglishRules();
    ThisHasGreetingKeyword();
    FirstTopicAt("this", EnglishRules, 5);
  }

  lemma ThisMissesEarlierEnglishRules()
    ensures forall r :: 0 <= r < 5 ==> !ContainsAny("this", EnglishRules[r].keywords)
  {
    forall r | 0 <= r < 5 ensures !ContainsAny("this", EnglishRules[r].keywords) {
      ThisMissesEnglishRule(r);
    }
  }

  /** "hi", a greeting keyword, occurs in "this" at index 1. */
  lemma ThisHasGreetingKeyword()
    ensures 5 < |EnglishRules| && ContainsAny("this", EnglishRules[5].keywords)
  {
    assert StartsWith("this"[1..], "hi");
    ContainsAnyWitness("this", EnglishRules[5].keywords, 1);
  }

  /** The quick-question lists. */
  const QuickQuestionTable: map<string, seq<string>> := map[
    "hi" := ["सिंचाई कब करें?", "कीट नियंत्रण कैसे करें?", "खाद कब डालें?", "मौसम कैसा है?", "फसल कैसे चुनें?", "नमस्ते"],
    "en" := ["When to irrigate?", "How to control pests?", "When to apply fertilizer?", "What is the weather?",
             "How to choose crops?", "Hello"],
    "pa" := ["ਸਿੰਚਾਈ ਕਦੋਂ ਕਰੀਏ?", "ਕੀਟ ਨਿਯੰਤਰਣ ਕਿਵੇਂ ਕਰੀਏ?", "ਖਾਦ ਕਦੋਂ ਪਾਈਏ?", "ਮੌਸਮ ਕਿਵੇਂ ਹੈ?", "ਫਸਲ ਕਿਵੇਂ ਚੁਣੀਏ?", "ਸਤ ਸ੍ਰੀ ਅਕਾਲ"]
  ]

  datatype QuickQuestions = QuickQuestions(questions: seq<string>, language: string)

  /** `get_quick_questions`: six questions; the list of the language, or the Hindi list for any
      other language, whose code is still echoed. */
  function GetQuickQuestions(language: string): (r: QuickQuestions)
    ensures |r.questions| == 6 && r.language == language
    ensures KnownLanguage(language) ==> r.questions == QuickQuestionTable[language]
    ensures !KnownLanguage(language) ==> r.questions == QuickQuestionTable["hi"]
  {
    var questions := if language in QuickQuestionTable then QuickQuestionTable[language] else QuickQuestionTable["hi"];
    QuickQuestions(questions, language)
  }
}
