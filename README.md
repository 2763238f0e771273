# Crop advisory backend: a Dafny model of its decision logic

The system is the backend of a farmer advisory application (FastAPI, Python). This project
models the parts of it that decide things:

- the crop recommendation engine: the suitability matrix and score, the yield and price
  tables, the reason text, and the filter-sort-truncate ranking (`CropRecommendation.dfy`);
- OTP login: the OTP store as a class over a map, code generation from a random draw, and
  the expiry and attempt checks (`OtpAuth.dfy`); the send, verify-and-login and register
  endpoints over that store and a users table (`AuthApi.dfy`);
- the request validators for phone numbers, OTPs, e-mail addresses and languages
  (`AuthSchemas.dfy`, `UserSchemas.dfy`);
- the two chatbots: the intent classifier and reply rules of the agricultural chatbot
  service (`Chatbot.dfy`) and the keyword responder and quick questions of the simple chatbot
  endpoint (`SimpleChatbot.dfy`);
- the notification service: phone formatting, the SMS and WhatsApp senders with their mock
  fallbacks, the alert texts, delivery-method dispatch and the bulk-send counter
  (`Notifications.dfy`);
- the weather service: city lookup, the mock data, forecast trimming and farming advice
  (`Weather.dfy`);
- the translation service: the same-language shortcut, the error fallback, glossary
  post-processing, batch translation and the glossary lookup (`Translation.dfy`);
- the market endpoints' aggregation: the price history grouped by day and averaged, and the
  trends grouped by crop (`Market.dfy`).

`Wrappers.dfy` holds `Option` and `Result`; `Strings.dfy` holds the string helpers the source
gets from Python (ASCII lower-casing, substring and prefix tests, digit tests, join,
replace-all and decimal rendering).

Where state changes step by step in the source, the model is imperative: the OTP store and
the users table are classes whose methods say their whole new state; loops that build lists,
dictionaries or counters are methods with loop invariants, each proved equal to a function
that specifies it, and the properties are lemmas about those functions. Database queries are
replaced by the list of records they return, and network calls by parameters that give the
call's outcome (`None` when it raises).

The ranking sorts on score alone; equal scores keep table order and are not broken by crop
name. A negative farm size is not rejected and gives a negative expected yield. The price
history keeps the source's behaviour for a day without a truthy modal price: the average
divides by zero and the request fails with HTTP 500.

## Model

| member | source | states |
|---|---|---|
| CropRecommendation.MatrixRangesOrdered | backend/app/services/crop_recommendation_service.py:14-71 | every profile of the suitability matrix has its minimum temperature and rainfall at most its maximum |
| CropRecommendation.SuitabilityScore | backend/app/services/crop_recommendation_service.py:141-176 | the score of a profile is always within [0, 1], whatever the temperature |
| CropRecommendation.CalculateSuitabilityScore | backend/app/services/crop_recommendation_service.py:130-176 | the factor-by-factor accumulation and clamp returns a score in [0, 1] equal to the clamped four-factor sum |
| CropRecommendation.SeasonAndSoilAllOrNothing | backend/app/services/crop_recommendation_service.py:145-152 | the season factor is 0.4 exactly when the seasons are equal and 0 otherwise; the soil factor is 0.3 exactly when the soil is listed and 0 otherwise |
| CropRecommendation.TemperatureFit | backend/app/services/crop_recommendation_service.py:155-165 | inside the closed range the temperature adds exactly 0.2; below or above it adds 0.2·(1 − d/10) for the distance d past the nearer bound, which is below 0.2 and negative once d > 10 |
| CropRecommendation.HumidityProxy | backend/app/services/crop_recommendation_service.py:169-174 | humidity adds 0.1 exactly when it is present and at least 60, and 0 otherwise |
| CropRecommendation.ScoreWithoutWeather | backend/app/services/crop_recommendation_service.py:155-176 | without weather data the score is 0.4·[season] + 0.3·[soil], at most 0.7 |
| CropRecommendation.IdealConditionsScoreOne | backend/app/services/crop_recommendation_service.py:141-176 | matching season and soil, a temperature in range and humidity at least 60 score exactly 1 |
| CropRecommendation.SeasonMismatchCaps | backend/app/services/crop_recommendation_service.py:141-176 | a season mismatch caps the score at 0.6, and with a soil mismatch too at 0.3 |
| CropRecommendation.WheatExamples | backend/app/services/crop_recommendation_service.py:22-28 | wheat in rabi on loam scores 1 at 20 °C and 65 % humidity, 0.7 without weather; 3 °C gives a temperature factor of −0.04; a fully mismatched request clamps to 0 |
| CropRecommendation.EstimateYield | backend/app/services/crop_recommendation_service.py:178-195 | a listed crop yields its table value per acre times the farm size, an unknown crop 20 per acre; a negative farm size yields a negative amount and zero yields zero |
| CropRecommendation.YieldIsLinear | backend/app/services/crop_recommendation_service.py:194-195 | the expected yield is additive and homogeneous in the farm size |
| CropRecommendation.GetMarketPrice | backend/app/services/crop_recommendation_service.py:197-213 | the table's band for a listed crop, {min 1000, max 2000} otherwise; min never exceeds max |
| CropRecommendation.ReasonShape | backend/app/services/crop_recommendation_service.py:225-238 | the reason has one to three parts: the season part exactly when the seasons match, the soil part when the soil is listed, and always one water phrase last |
| CropRecommendation.RecommendationReason | backend/app/services/crop_recommendation_service.py:215-240 | the loop returns the parts joined by ", ", which is never the generic fallback text |
| CropRecommendation.ReasonNotGeneral | backend/app/services/crop_recommendation_service.py:240 | a join whose last part is a water phrase differs from "सामान्य सुझाव" |
| CropRecommendation.Candidates | backend/app/services/crop_recommendation_service.py:93-119 | the collected candidates are no more than the crops, each above 0.5, echoing the season and for a crop whose lower-cased name is in the matrix |
| CropRecommendation.CandidatesComplete | backend/app/services/crop_recommendation_service.py:93-119 | conversely, every crop whose lower-cased name is in the matrix and whose score is above 0.5 is collected, with its score, yield, price and reason |
| CropRecommendation.InsertByScorePermutes | backend/app/services/crop_recommendation_service.py:122 | inserting into the sorted list adds exactly the one element |
| CropRecommendation.InsertByScoreOrders | backend/app/services/crop_recommendation_service.py:122 | inserting into a non-increasing list keeps it non-increasing |
| CropRecommendation.InsertByScoreStable | backend/app/services/crop_recommendation_service.py:122 | inserting puts the new element before the equal-score elements already there |
| CropRecommendation.SortByScoreCorrect | backend/app/services/crop_recommendation_service.py:122 | the descending sort by score is a permutation, is non-increasing and is stable (for each score, the elements with that score keep their order) |
| CropRecommendation.SortByScorePermutes | backend/app/services/crop_recommendation_service.py:122 | the sort by score holds exactly the recommendations it was given, each as often |
| CropRecommendation.SortByScoreOrders | backend/app/services/crop_recommendation_service.py:122 | the sort by score is non-increasing in score |
| CropRecommendation.SortByScoreStable | backend/app/services/crop_recommendation_service.py:122 | for every score, the recommendations with that score keep their input order |
| CropRecommendation.Take | backend/app/services/crop_recommendation_service.py:124 | `[:5]` returns the prefix of length min(n, size) |
| CropRecommendation.PrefixNonIncreasing | backend/app/services/crop_recommendation_service.py:122-124 | a prefix of a non-increasing list is non-increasing |
| CropRecommendation.RecommendationsRanked | backend/app/services/crop_recommendation_service.py:84-128 | at most five results, non-increasing in score; a failed query gives the empty list |
| CropRecommendation.RecommendationsStable | backend/app/services/crop_recommendation_service.py:122-124 | the result is the prefix of the stable sort of the candidates, so equal scores keep table order |
| CropRecommendation.CandidatesExtend | backend/app/services/crop_recommendation_service.py:93-119 | one more crop keeps the earlier candidates as a prefix and, when it qualifies, appends its own candidate last |
| CropRecommendation.RecommendationsFiltered | backend/app/services/crop_recommendation_service.py:93-124 | every result scores above 0.5, echoes the requested season and is for a matrix crop; there are min(5, number of qualifying crops) results, and a qualifying crop is left out only when five results all score at least as high |
| CropRecommendation.RecommendationsComplete | backend/app/services/crop_recommendation_service.py:93-124 | a qualifying crop's recommendation is in the result, or the result has five entries whose last scores at least as high |
| CropRecommendation.GetCropRecommendations | backend/app/services/crop_recommendation_service.py:73-128 | the loop returns the specified ranking: at most five, non-increasing, each above 0.5 with the requested season |
| CropRecommendation.NoTieBreakByName | backend/app/services/crop_recommendation_service.py:122 | Wheat and Potato with equal scores come out in table order, not by name |
| CropRecommendation.NegativeFarmSizeGivesNegativeYield | backend/app/services/crop_recommendation_service.py:178-195 | a negative farm size is not rejected and gives every recommendation a negative expected yield |
| CropRecommendation.CandidatesYield | backend/app/services/crop_recommendation_service.py:114 | every candidate's expected yield is the estimate for its lower-cased name and the farm size |
| OtpAuth.GenerateOtp | backend/app/core/auth.py:91-94 | the decimal form of a draw in [100000, 999999] has six digits, a non-zero first digit and denotes the draw |
| OtpAuth.VerifyOtp | backend/app/core/auth.py:97-99 | the codes match exactly when they have the same length and the same character at every position: no trimming, no numeric comparison |
| OtpAuth.IsOtpExpired | backend/app/core/auth.py:126-132 | absent data is expired; an entry is expired exactly when more than 300 seconds have passed since its creation |
| OtpAuth.IsOtpMaxAttemptsReached | backend/app/core/auth.py:135-140 | absent data is at the limit; an entry is at the limit exactly when it has at least three attempts |
| OtpAuth.ExpiryAndLimitPersist | backend/app/core/auth.py:126-140 | an expired entry stays expired at every later time, and an entry at the limit stays there after another attempt |
| OtpAuth.ExpiryBoundary | backend/app/core/auth.py:126-140 | an entry is expired exactly when now > timestamp + 300 (the boundary second is valid); absent data is expired and at the limit; the limit is attempts ≥ 3 |
| OtpAuth.GeneratedOtpHasSixDigits | backend/app/core/auth.py:91-94 | every generated code passes the six-digit check, and different draws give different codes |
| OtpAuth.OtpStore.constructor | backend/app/core/auth.py:103 | the store starts empty |
| OtpAuth.OtpStore.StoreOtp | backend/app/core/auth.py:106-112 | the phone's entry is replaced by the new code with the current time and zero attempts; other entries are unchanged |
| OtpAuth.OtpStore.GetStoredOtp | backend/app/core/auth.py:115-117 | returns the phone's entry exactly when there is one, and reads only the store |
| OtpAuth.OtpStore.IncrementOtpAttempts | backend/app/core/auth.py:120-123 | a stored phone gets exactly one more attempt with the same code and time; an unknown phone changes nothing; no entry is created |
| OtpAuth.Incremented | backend/app/core/auth.py:120-123 | same keys, other phones unchanged, the stored phone's attempts up by one |
| AuthSchemas.PrefixFacts | backend/app/schemas/auth.py:12-19 | no value starts with both "+91" and "91", and a value starting with "+91" is not all digits |
| AuthSchemas.ValidatePhoneNumber | backend/app/schemas/auth.py:10-25 | accepts exactly the numbers the rule accepts and returns their last ten characters, all digits; the format error exactly for a value with neither prefix that is not all digits, otherwise the length error |
| AuthSchemas.ValidateRegistrationPhoneNumber | backend/app/schemas/auth.py:59-74 | every accepted registration number is ten digits |
| AuthSchemas.RegistrationPhoneAgrees | backend/app/schemas/auth.py:59-74 | the registration validator behaves identically to the OTP-request one |
| AuthSchemas.CountryCodeStripped | backend/app/schemas/auth.py:15-19 | "+91" or "91" followed by ten digits returns those ten digits |
| AuthSchemas.TenDigitsStartingWith91Rejected | backend/app/schemas/auth.py:18-23 | a plain ten-digit number starting with "91" is cut to eight digits and rejected with the length error |
| AuthSchemas.PlainTenDigitsAccepted | backend/app/schemas/auth.py:12-25 | ten digits not starting with "91" are returned unchanged |
| AuthSchemas.PlainNumberStartingWith91Example | backend/app/schemas/auth.py:18-23 | "9198765432" is rejected with the length error |
| AuthSchemas.CountryCodeExample | backend/app/schemas/auth.py:16-17 | "+919876543210" gives "9876543210" |
| AuthSchemas.MalformedPhoneExamples | backend/app/schemas/auth.py:12-23 | "98765-43210" fails with the format error, "+91abc" with the length error |
| AuthSchemas.ValidateOtp | backend/app/schemas/auth.py:36-40 | accepted exactly when six characters, all digits, and returned unchanged; otherwise the six-digit error |
| AuthSchemas.ValidateEmail | backend/app/schemas/auth.py:76-80 | none, empty or containing '@' is accepted unchanged; anything else fails with the email error |
| UserSchemas.ValidateEmail | backend/app/schemas/user.py:43-47 | none, empty or containing '@' is accepted unchanged; anything else fails with the email error |
| UserSchemas.EmailChecksAgree | backend/app/schemas/user.py:43-47 | the profile-update email check is the registration one |
| UserSchemas.ValidateLanguage | backend/app/schemas/user.py:49-53 | none, empty, or one of hi, en, pa is accepted unchanged; anything else fails with the language error |
| UserSchemas.LanguageExamples | backend/app/schemas/user.py:49-53 | "pa" and none pass; "HI" and "en-IN" fail (the comparison is case-sensitive and exact) |
| AuthApi.VerifyCheck | backend/app/api/api_v1/endpoints/auth.py:83-111 | OtpNotFound exactly when there is no entry; no error exactly when the entry exists, is not expired, is under the limit and its code equals the submitted one |
| AuthApi.VerifyCheckOrder | backend/app/api/api_v1/endpoints/auth.py:83-111 | missing entry beats expiry, expiry beats the attempt limit, the limit beats a wrong code, and a present, fresh entry under the limit with an unequal code gives InvalidOtp; a request passes exactly when the entry exists, is fresh, has fewer than three attempts and the code is equal |
| AuthApi.OnlyMismatchChangesStore | backend/app/api/api_v1/endpoints/auth.py:99-111 | only the mismatch path changes the store, adding exactly one attempt to that phone; every other outcome leaves it unchanged |
| AuthApi.LockoutAfterThreeWrongCodes | backend/app/api/api_v1/endpoints/auth.py:99-111 | three wrong codes within five minutes make a fourth request with the right code fail with the attempt-limit error |
| AuthApi.NewOtpLiftsLockout | backend/app/api/api_v1/endpoints/auth.py:44-50 | a freshly stored code verifies at once, whatever the old entry held |
| AuthApi.CodeReusableUntilExpiry | backend/app/api/api_v1/endpoints/auth.py:105-151 | a successful login leaves the store unchanged, so the same code passes again until it expires |
| AuthApi.UnnormalisedVerifyMisses | backend/app/api/api_v1/endpoints/auth.py:50-89 | a code requested for "+919876543210" is stored under "9876543210", so verifying with the number as typed finds no entry |
| AuthApi.SendOtp | backend/app/api/api_v1/endpoints/auth.py:34-64 | stores a fresh code with zero attempts for the phone, whether or not the user exists, and reports whether the user exists |
| AuthApi.VerifyOtpAndLogin | backend/app/api/api_v1/endpoints/auth.py:74-151 | fails with the first failing check and changes the store only on a mismatch; on success the user, existing or new with the defaults, is recorded with its login time |
| AuthApi.RegisterUser | backend/app/api/api_v1/endpoints/auth.py:163-199 | a phone that already has a user is rejected and nothing changes; otherwise the registered user is added under the phone |
| Chatbot.AnalyzeIntent | backend/app/services/chatbot_service.py:82-108 | the intent is that of the first group, in the order crop, pest, fertilizer, weather, market, with a keyword in the lower-cased message; general exactly when no group has one (each case as an if-and-only-if) |
| Chatbot.LowerIdempotent | backend/app/services/chatbot_service.py:86 | lower-casing twice is lower-casing once |
| Chatbot.IntentIgnoresCase | backend/app/services/chatbot_service.py:86-108 | a message and its lower-cased form have the same intent |
| Chatbot.PlantingIsCropSelection | backend/app/services/chatbot_service.py:86-90 | "Planting" is a crop question: matching is case-insensitive and by substring ("plant") |
| Chatbot.PestBeforePrice | backend/app/services/chatbot_service.py:89-106 | "pest price" is a pest question, because the pest group is checked before the market group |
| Chatbot.SoilAloneIsGeneral | backend/app/services/chatbot_service.py:86-108 | "soil" is a crop keyword of the knowledge base but not of the list the classifier checks, so "soil" alone is general |
| Chatbot.GetCurrentSeason | backend/app/services/chatbot_service.py:241-253 | each month 1-12 maps to exactly one season: June-October kharif, November-March rabi, April-May zaid |
| Chatbot.TopNames | backend/app/services/chatbot_service.py:150 | the names of the first three recommendations (fewer when there are fewer), in ranking order |
| Chatbot.HandleCropSelection | backend/app/services/chatbot_service.py:149-162 | confidence 0.8; with recommendations the reply lists the top names joined by ", " and one suggestion per name; without, the no-results text and two suggestions |
| Chatbot.HandleWeatherQuery | backend/app/services/chatbot_service.py:198-213 | confidence 0.9 with truthy weather data and 0.3 without it or with the empty dictionary; the report carries the weather's temperature and humidity, otherwise the unavailable text |
| Chatbot.FixedReply | backend/app/services/chatbot_service.py:172-239 | the pest, fertilizer, market and general replies carry their intent's name and confidence 0.7, 0.8, 0.6, 0.7 |
| Chatbot.CropSelectionReply | backend/app/services/chatbot_service.py:135-162 | the crop reply is requested with the current season and "loam" soil and has confidence 0.8; a user without a farm size, or an engine query that raises, gets the no-results text |
| Chatbot.GetResponse | backend/app/services/chatbot_service.py:47-80 | a failing contextual crops query gives the error reply with confidence 0.0; otherwise the reply's type is the detected intent and its confidence that intent's, the weather one depending on truthy context weather; the reply is the crop-selection handler's for CropSelection, the weather handler's on the context weather for WeatherQuery, and the fixed reply for the other intents |
| Chatbot.CropQuestionWithoutResults | backend/app/services/chatbot_service.py:135-155 | a crop question from a user without a farm size, or whose engine query raises, gets the no-results crop reply rather than the error reply |
| Chatbot.CropReplyNamesRecommendedCrops | backend/app/services/chatbot_service.py:141-152 | the crop reply names at most three crops, each a recommendation for the current season and "loam" scoring above 0.5 |
| SimpleChatbot.FirstTopicSpec | backend/app/api/api_v1/endpoints/simple_chatbot.py:26-65 | first match wins: the chosen topic is that of a rule with a keyword in the message and no earlier rule has one; no topic exactly when no rule has one |
| SimpleChatbot.FirstTopicAt | backend/app/api/api_v1/endpoints/simple_chatbot.py:26-65 | the rule at index k decides when it is the first with a keyword in the message |
| SimpleChatbot.ReplyText | backend/app/api/api_v1/endpoints/simple_chatbot.py:28-65 | every reply of a known language, default included, is non-empty |
| SimpleChatbot.GenerateAiResponse | backend/app/api/api_v1/endpoints/simple_chatbot.py:21-67 | never empty; a language other than hi, en or pa always gets the fixed English text; a known one the reply of the first topic with a keyword in the lower-cased message, or its default |
| SimpleChatbot.TopicOrders | backend/app/api/api_v1/endpoints/simple_chatbot.py:26-65 | hi and en test irrigation, pest, fertilizer, weather, crop, greeting in that order; pa only irrigation, pest, greeting; other languages have no rules |
| SimpleChatbot.PunjabiHasNoFertilizerTopic | backend/app/api/api_v1/endpoints/simple_chatbot.py:58-65 | a Punjabi message is only ever answered on irrigation, pest, greeting or by default |
| SimpleChatbot.NoKeyword | backend/app/api/api_v1/endpoints/simple_chatbot.py:27 | no keyword occurs in a message when each keyword has a letter the message lacks |
| SimpleChatbot.HindiAcceptsEnglishKeywords | backend/app/api/api_v1/endpoints/simple_chatbot.py:27-30 | the Hindi rules accept English keywords: "pest" in Hindi is answered on the pest topic |
| SimpleChatbot.ThisMissesEnglishRule | backend/app/api/api_v1/endpoints/simple_chatbot.py:43-52 | none of the first five English topics has a keyword in "this" |
| SimpleChatbot.GreetingInsideWord | backend/app/api/api_v1/endpoints/simple_chatbot.py:53 | "this" contains "hi", so in English it is answered with the greeting |
| SimpleChatbot.ThisMissesEarlierEnglishRules | backend/app/api/api_v1/endpoints/simple_chatbot.py:53 | none of the five English topics tested before the greeting has a keyword in "this" |
| SimpleChatbot.ThisHasGreetingKeyword | backend/app/api/api_v1/endpoints/simple_chatbot.py:53 | the greeting keyword "hi" occurs in "this" |
| SimpleChatbot.GetQuickQuestions | backend/app/api/api_v1/endpoints/simple_chatbot.py:93-123 | six questions; the language's own list, or the Hindi list for an unknown language, whose code is still echoed |
| Notifications.FormatSmsPhone | backend/app/services/notification_service.py:30 | the SMS number always starts with "+": unchanged when it already does, otherwise "+91" in front |
| Notifications.FormatWhatsAppPhone | backend/app/services/notification_service.py:69 | the WhatsApp number always starts with "91": unchanged when it already does, otherwise "91" in front |
| Notifications.FormattingIdempotent | backend/app/services/notification_service.py:28-70 | formatting a formatted number changes nothing, and the original number is always the suffix |
| Notifications.WhatsAppKeepsNumberStartingWith91 | backend/app/services/notification_service.py:69 | a number that already starts with "91" gets no country code, whatever its length, so a ten-digit local number starting with 91 is sent as it is |
| Notifications.SendSmsOtp | backend/app/services/notification_service.py:20-57 | without Twilio credentials or when the request raises, the mock sender is used and reports success; otherwise the formatted number gets the OTP template and success means status 201 |
| Notifications.SendWhatsAppMessage | backend/app/services/notification_service.py:59-96 | without WhatsApp credentials or when the request raises, the mock sender reports success; otherwise the formatted number gets the message and success means status 200 |
| Notifications.GetUserPreferredDeliveryMethod | backend/app/services/notification_service.py:194-206 | the stored "delivery_method" when the preferences parse and have one, otherwise "sms" |
| Notifications.SendFarmingReminder | backend/app/services/notification_service.py:98-124 | WhatsApp exactly when the preferred method is "whatsapp", SMS for "sms" and any other value; the message reaches the sender, wrapped in the OTP template on the Twilio path; `success` holds exactly when the chosen channel is unconfigured (the mock), its call raises, or it answers 200 (WhatsApp) / 201 (Twilio) |
| Notifications.DefaultDeliveryIsSms | backend/app/services/notification_service.py:194-206 | missing or unparsable preferences send by SMS, and a configured Twilio account puts the reminder inside the OTP text |
| Notifications.WeatherAlertKindOf | backend/app/services/notification_service.py:131-143 | the first rule that holds decides: rainfall > 10, then temperature > 35, then humidity > 80, otherwise a normal update; missing values count as 0 |
| Notifications.WeatherAlertMessage | backend/app/services/notification_service.py:136-143 | each alert kind's text starts with its symbol (🌧️, 🌡️, 💧, 🌤️) |
| Notifications.WeatherAlertPrecedence | backend/app/services/notification_service.py:136-143 | heavy rain wins over heat and humidity; a reading with no values is an update; 40 °C and 90 % without rain is a heat alert |
| Notifications.SendWeatherAlert | backend/app/services/notification_service.py:126-145 | the reminder of the alert text: it goes out through the user's preferred channel, and it succeeds exactly when that channel is unconfigured, its call raises, or it answers WhatsApp 200 / Twilio 201 |
| Notifications.SeverityEmoji | backend/app/services/notification_service.py:184 | "high" gives 🔴, "medium" 🟡, anything else 🟢 |
| Notifications.PestDiseaseMessage | backend/app/services/notification_service.py:186 | the text starts with the severity symbol and the crop name |
| Notifications.SendPestDiseaseAlert | backend/app/services/notification_service.py:173-188 | the reminder of the pest text: it goes out through the user's preferred channel, and it succeeds exactly when that channel is unconfigured, its call raises, or it answers WhatsApp 200 / Twilio 201 |
| Notifications.MarketPriceMessage | backend/app/services/notification_service.py:161-165 | the text starts with the crop and the market name, "Local Market" when it is missing |
| Notifications.SendMarketPriceAlert | backend/app/services/notification_service.py:151-167 | the reminder of the price text: it goes out through the user's preferred channel, and it succeeds exactly when that channel is unconfigured, its call raises, or it answers WhatsApp 200 / Twilio 201 |
| Notifications.Delivered | backend/app/services/notification_service.py:269-275 | no more users succeed than there are users |
| Notifications.SendBulkNotifications | backend/app/services/notification_service.py:257-280 | the loop counts each user exactly once: success + failed equals the number of users, and success is the number of successful reminders |
| Notifications.DeliveredStep | backend/app/services/notification_service.py:269-278 | one more user adds one to the success count exactly when that user's reminder succeeds |
| Notifications.UnconfiguredNeverFails | backend/app/services/notification_service.py:257-280 | without any credentials every user's reminder succeeds through a mock sender |
| Weather.GetCoordinatesFromLocation | backend/app/services/weather_service.py:108-135 | the coordinates of the first city, in table order, whose name occurs in the lower-cased location; Delhi when none does |
| Weather.GetCurrentWeather | backend/app/services/weather_service.py:12-50 | without an API key or when the request raises, the mock; otherwise the whole record from the response: temperature, humidity, pressure, wind speed, wind direction, the visibility in kilometres (0 when absent), the description and the requested location |
| Weather.FallbackWeather | backend/app/services/weather_service.py:12-50 | a fallback always gives temperature 25.0 and humidity 65.0 |
| Weather.MockForecastEntry | backend/app/services/weather_service.py:159-167 | entry i is dated i days from now, has temperature 25+2i, humidity 65−2i, and rain 2.5 exactly on odd days (0 on even days) |
| Weather.MockForecast | backend/app/services/weather_service.py:158-167 | exactly seven entries, entry i as above |
| Weather.GetMockForecastData | backend/app/services/weather_service.py:152-172 | the loop builds the seven-entry mock forecast for "mock_location" |
| Weather.SliceTo | backend/app/services/weather_service.py:77 | Python's `[:n]`: the first n items, all when fewer; a negative n drops −n items from the end |
| Weather.GetWeatherForecast | backend/app/services/weather_service.py:52-93 | without an API key or when the request raises, the mock forecast; otherwise the items kept by `[:days*8]` converted in order, at most days×8 of them |
| Weather.NegativeDaysDropFromEnd | backend/app/services/weather_service.py:77 | a negative day count drops eight items per day from the end instead of keeping none; nothing is left only when that is at least every item |
| Weather.GetWeatherAlerts | backend/app/services/weather_service.py:95-106 | always the empty list |
| Weather.AdviceFor | backend/app/services/weather_service.py:188-202 | at most four items, each present exactly when its condition holds: humidity > 80, temperature > 35, wind > 10, rain in one of the first three forecast entries |
| Weather.GetAgriculturalWeatherAdvice | backend/app/services/weather_service.py:174-204 | echoes the current conditions and appends the advice items in the fixed order |
| Weather.CheckUpcomingRain | backend/app/services/weather_service.py:198-200 | the flag is set exactly when one of the first three forecast entries has rain |
| Weather.MockAdviceIsRainOnly | backend/app/services/weather_service.py:174-204 | with the mock data the only advice is "Rain expected" |
| Translation.PostProcessStep | backend/app/services/translation_service.py:87-90 | an entry changes nothing when the target language is missing, the lower-cased text lacks the term, or the translation is already there; when the language is present and the term occurs as written, the result contains the translation |
| Translation.PostProcessAgriculturalTerms | backend/app/services/translation_service.py:81-95 | the loop applies the glossary entries in order; in hi or pa, each term present as written when its turn comes leaves its translation in the result |
| Strings.ReplaceIntroduces | backend/app/services/translation_service.py:90 | `str.replace` of a non-empty target that occurs leaves the replacement in the result |
| Strings.ReplaceKeeps | backend/app/services/translation_service.py:90 | `str.replace` keeps every occurrence of a string that shares no character with the target |
| Translation.TranslationSurvives | backend/app/services/translation_service.py:86-92 | a string sharing no character with the later entries' terms stays in the text through their steps |
| Translation.GlossaryTermScript | backend/app/services/translation_service.py:17-53 | every glossary term is a lower-case Latin word, unchanged by lower-casing |
| Translation.GlossaryTranslationScript | backend/app/services/translation_service.py:17-53 | no Hindi or Punjabi translation in the glossary contains a lower-case Latin letter |
| Translation.ScriptsDisjoint | backend/app/services/translation_service.py:17-53 | a string without lower-case Latin letters shares no character with a lower-case Latin word |
| Translation.GlossaryTermTranslated | backend/app/services/translation_service.py:81-95 | in hi or pa, a glossary term present as written when its turn comes leaves its translation in the post-processed text |
| Translation.GlossaryTermsTranslated | backend/app/services/translation_service.py:81-95 | the same for every glossary entry at once |
| Translation.SelfTranslationIsIdentity | backend/app/services/translation_service.py:86-92 | entries whose translation is the term itself leave every text unchanged |
| Translation.UnknownTargetIsIdentity | backend/app/services/translation_service.py:86-92 | entries without the target language leave every text unchanged |
| Translation.PostProcessingIdentities | backend/app/services/translation_service.py:81-95 | post-processing into English changes nothing, nor does post-processing into a language the glossary lacks |
| Translation.CapitalisedTermNotReplaced | backend/app/services/translation_service.py:89-90 | the term is detected in "Crop" because detection lower-cases, but the replacement is case-sensitive, so "Crop" stays |
| Translation.Translated | backend/app/services/translation_service.py:55-79 | the input itself for equal languages and when the translator raises; otherwise the translation after post-processing |
| Translation.TranslateText | backend/app/services/translation_service.py:55-79 | returns the specified translation |
| Translation.TranslateBatch | backend/app/services/translation_service.py:97-114 | the same length and order as the input, each text translated, and the input itself for equal languages |
| Translation.GetAgriculturalTerms | backend/app/services/translation_service.py:133-141 | every term that has the language maps to its translation: all seven terms for hi, pa and en, none otherwise |
| Translation.CollectTerms | backend/app/services/translation_service.py:137-141 | the loop builds the dictionary from each term having the language to its translation |
| Translation.TermsOfStep | backend/app/services/translation_service.py:138-140 | one more entry adds its term exactly when it has the language |
| Translation.TermsOfEntries | backend/app/services/translation_service.py:137-141 | for distinct terms, each term with the language maps to its translation and every key is such a term |
| Translation.TermsOfAll | backend/app/services/translation_service.py:137-141 | when every entry has the language, the keys are exactly the terms |
| Translation.TermsOfNone | backend/app/services/translation_service.py:137-141 | when no entry has the language, the dictionary is empty |
| Translation.GlossaryLanguages | backend/app/services/translation_service.py:17-53 | every glossary entry has translations into hi, pa and en, and into no other language |
| Translation.GlossaryEnglishIsTerm | backend/app/services/translation_service.py:17-53 | every glossary term translates into English as itself |
| Translation.GlossaryTerms | backend/app/services/translation_service.py:17-53 | the glossary's seven terms are distinct and are exactly the term names |
| Translation.AgriculturalTermsOf | backend/app/services/translation_service.py:133-141 | for the glossary: all seven terms map to their translations for hi, pa and en; nothing for any other language |
| Market.KeysDistinct | backend/app/api/api_v1/endpoints/market.py:93-97 | the keys of a dictionary filled on first occurrence are distinct |
| Market.KeysCover | backend/app/api/api_v1/endpoints/market.py:93-97 | every record's key becomes a dictionary key, and the first record's key is the first key |
| Market.MembersHaveKey | backend/app/api/api_v1/endpoints/market.py:104 | a group holds only records of the input that carry its key |
| Market.MembersCover | backend/app/api/api_v1/endpoints/market.py:94-104 | every record is appended to its own key's group, and a key has a non-empty group exactly when it is a dictionary key |
| Market.GroupStep | backend/app/api/api_v1/endpoints/market.py:94-104 | one loop iteration: a new key is added at the end, and the record joins the end of its own group only |
| Market.MembersFirst | backend/app/api/api_v1/endpoints/market.py:215-218 | a group's first member is the earliest record with that key |
| Market.GroupSizesStep | backend/app/api/api_v1/endpoints/market.py:104 | one more record adds exactly one to the total size of a set of distinct keys' groups when its key is among them, and nothing otherwise |
| Market.GroupsPartition | backend/app/api/api_v1/endpoints/market.py:93-104 | the groups together hold every record exactly once: their sizes add up to the number of records |
| Market.CountModal | backend/app/api/api_v1/endpoints/market.py:111 | the number of truthy modal prices of a group is at most the group's size |
| Market.MeanBounds | backend/app/api/api_v1/endpoints/market.py:109-111 | a sum between n·lo and n·hi divided by n lies between lo and hi |
| Market.HistoryOf | backend/app/api/api_v1/endpoints/market.py:107-112 | a successful averaging has one entry per listed day; a failure carries the division-by-zero detail |
| Market.HistoryOfFails | backend/app/api/api_v1/endpoints/market.py:111 | averaging fails exactly when some listed day has no truthy modal price |
| Market.GroupByDay | backend/app/api/api_v1/endpoints/market.py:93-104 | the loop's dictionary has exactly the days in order of first occurrence as keys, each mapped to that day's records in order |
| Market.GroupedStep | backend/app/api/api_v1/endpoints/market.py:94-104 | one iteration of the grouping loop keeps the keys in order of first occurrence, each mapped to its records |
| Market.GetPriceHistory | backend/app/api/api_v1/endpoints/market.py:69-121 | the endpoint's loops compute the history of the grouping specification, including the failure with the 500 detail |
| Market.PriceHistoryGrouping | backend/app/api/api_v1/endpoints/market.py:93-104 | each day occurs once, the first record's day first, each record is in its day's group, and the groups partition the records |
| Market.HistoryOfEntries | backend/app/api/api_v1/endpoints/market.py:107-112 | a successful averaging holds, for each listed day, the averages of that day's group, which has a truthy modal price |
| Market.PriceHistoryEntries | backend/app/api/api_v1/endpoints/market.py:107-118 | a successful history has one entry per day in first-occurrence order, dated with its day, holding that day's averages, with no date twice |
| Market.PriceHistoryFailure | backend/app/api/api_v1/endpoints/market.py:107-121 | the request fails exactly when some day has no record with a truthy modal price, and then with the division-by-zero detail |
| Market.SumMinBounds | backend/app/api/api_v1/endpoints/market.py:109 | a sum of minimum prices that all lie in [lo, hi] lies between n·lo and n·hi |
| Market.AverageMinWithinRange | backend/app/api/api_v1/endpoints/market.py:109 | the average minimum price of a day lies within the range of that day's minimum prices |
| Market.OneZeroModalFailsHistory | backend/app/api/api_v1/endpoints/market.py:107-121 | a single record whose modal price is 0 makes the history request fail with the division-by-zero detail |
| Market.PriceOf | backend/app/api/api_v1/endpoints/market.py:218-226 | the price is the modal price when it is truthy, and the midpoint of minimum and maximum otherwise |
| Market.Quotes | backend/app/api/api_v1/endpoints/market.py:224-228 | one market quote per record, in order, each with the record's market, price and date |
| Market.TrendStep | backend/app/api/api_v1/endpoints/market.py:215-228 | a new crop's entry starts with the record's crop, price, no change, "stable" and its one quote; a further record only appends its quote |
| Market.GroupByCrop | backend/app/api/api_v1/endpoints/market.py:213-228 | the loop's dictionary has exactly the crops in order of first occurrence as keys, each mapped to the trend of that crop's records |
| Market.TrendedStep | backend/app/api/api_v1/endpoints/market.py:213-228 | one iteration of the trends loop keeps each crop mapped to the trend of its records, keys in order of first occurrence |
| Market.TrendedEntry | backend/app/api/api_v1/endpoints/market.py:213-228 | after one iteration, each entry is the trend of its crop's non-empty record list |
| Market.GetMarketTrends | backend/app/api/api_v1/endpoints/market.py:191-233 | the endpoint returns the dictionary's values in insertion order, equal to the trends specification |
| Market.TrendsOfEntries | backend/app/api/api_v1/endpoints/market.py:231 | for crops that all have records there is one trend per crop, built from that crop's group |
| Market.TrendsOfQuotes | backend/app/api/api_v1/endpoints/market.py:224-231 | the quotes of the trends of some crops number the records of those crops |
| Market.QuoteCountAppend | backend/app/api/api_v1/endpoints/market.py:231 | the quote count of two trend lists joined is the sum of their counts |
| Market.MarketTrendsAreGroups | backend/app/api/api_v1/endpoints/market.py:213-231 | the trends are the crops' groups in order of first occurrence, each named after its crop |
| Market.MarketTrendsOnePerCrop | backend/app/api/api_v1/endpoints/market.py:213-231 | no crop has two trends and every record's crop has one |
| Market.MarketTrendsCurrentPrice | backend/app/api/api_v1/endpoints/market.py:216-221 | every trend has no change, a "stable" trend and the price of its crop's first (most recent) record |
| Market.MarketTrendsQuoteEveryRecord | backend/app/api/api_v1/endpoints/market.py:224-231 | the quotes over all trends number exactly the records: each record is listed once |

## Left out

- Database access: every SQLAlchemy query is replaced by the records it returns. The filters on crop name, market name and start date and the `order_by` of the market endpoints are done by the query, so the model takes the filtered, ordered list as given. Commits, rollbacks and `save_crop_recommendation` are not modelled.
- JWT creation and checking, bcrypt, token refresh, logout and `get_current_user` are foreign libraries and are not part of this model. A successful login returns the user record, not a token.
- Network clients (Twilio, the WhatsApp Graph API, OpenWeather, Google Translate) are replaced by the outcome they give: the status code, the parsed response, or `None` when the call raises.
- Randomness and the clock are parameters: the draw of `generate_otp`, the current time in seconds for OTP expiry and mock forecast dates, and the month for the season.
- async/await and background tasks are modelled as ordinary sequential calls.
- Floating point: prices, scores and temperatures are `real`, so IEEE-double rounding is not modelled.
- Python's Unicode `lower()` and `isdigit()` are modelled on ASCII: A-Z are lower-cased, only 0-9 are digits, and other characters are left unchanged.
- Number formatting inside alert texts (the f-strings of the weather and market price alerts) is a parameter `show` that renders a number; the chatbot's weather sentence carries its two values instead of rendering them.
- The isoformat date key of the price history is modelled as the day number of a `DateTime`; the trends' quote date is the record's `DateTime`.
- Exception handlers that no modelled input can reach (for example the fallback at the end of `_handle_crop_selection`, backend/app/services/chatbot_service.py:164-170) are not modelled. The handlers that are modelled are: the failing crops query of the recommendation engine and of the chatbot's contextual data, the raising network calls of the weather and notification services and of the translator, and the division by zero of the price history.
- Market: the 500 handler of `get_price_history` (backend/app/api/api_v1/endpoints/market.py:120-121) is modelled only for the division by zero; a failing price query is not modelled. The 500 handler of `get_market_trends` (market.py:234-235) is not modelled, because the model's queries do not fail.
- AuthApi: the 500 handlers of `send_otp`, `verify_otp_and_login` and `register_user` (backend/app/api/api_v1/endpoints/auth.py:67-71, 153-158 and 223-228) are not modelled. They catch failures of the database session and of the SMS call, and the model's user lookups and sends do not raise.
- Chatbot.GetResponse: the weather service is called with the user's location both by the contextual data (only for a non-empty location) and by the recommendation engine; the model takes its one answer as the parameter `weather` for both calls, so the two calls cannot answer differently. The two crops-table queries are separate parameters: the contextual one's failure gives the error reply, the engine's failure the no-results crop reply.
- Chatbot: the knowledge-base texts that no reply uses, and the primary crops and language of the contextual data, are not modelled; of the user's fields only the location and the optional farm size are.
- The market endpoints `get_market_prices`, `get_market_insights`, `set_price_alert` and `get_available_markets` are database filters and are not modelled; only the aggregation of `get_price_history` and `get_market_trends` is.
- Notifications: `schedule_notification` is a database insert and is not modelled. Credentials that are unset in the configuration are the empty string.
- Translation: `detect_language` is a call into the translator and is not modelled; `get_supported_languages` is the constant `Translation.LanguageCodes`.
- The 422 responses that FastAPI produces when a validator raises are not modelled; the validators return the failure with its message instead.
- Image classification, nearby-shop search, the community, advisory, soil and crop CRUD endpoints, and the frontend are not part of this model.
- Long reply texts are written as concatenations of shorter literals; the resulting strings equal the source's texts.
- SimpleChatbot.GreetingInsideWord, SimpleChatbot.HindiAcceptsEnglishKeywords and SimpleChatbot.PunjabiHasNoFertilizerTopic are stated on the chosen topic rather than on the reply text; `SimpleChatbot.GenerateAiResponse` connects the topic to its reply.
