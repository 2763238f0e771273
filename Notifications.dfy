/** The decision rules of the notification service. The HTTP calls to Twilio and to the
    WhatsApp Business API are replaced by their outcome: None when the call raises, otherwise
    the status code. Number formatting inside alert texts is a function parameter. */
module Notifications {
  import opened Wrappers
  import opened Strings

  /** The configured credentials; an unset setting is the empty string. */
  datatype Credentials = Credentials(
    twilioAccountSid: string, twilioAuthToken: string, whatsAppAccessToken: string, whatsAppPhoneNumberId: string)

  predicate TwilioConfigured(c: Credentials) {
    c.twilioAccountSid != "" && c.twilioAuthToken != ""
  }

  predicate WhatsAppConfigured(c: Credentials) {
    c.whatsAppAccessToken != "" && c.whatsAppPhoneNumberId != ""
  }

  /** How a message left the service: through a mock sender or an API request. */
  datatype Route = MockSms | TwilioSms | MockWhatsApp | WhatsAppApi

  /** The boolean the sender returns, the route taken, and the recipient and body it used. */
  datatype SendResult = SendResult(success: bool, route: Route, to: string, body: string)

  /** The SMS "To" number: "+91" is put in front unless the number already starts with "+". */
  function FormatSmsPhone(phoneNumber: string): (r: string)
    ensures StartsWith(r, "+")
    ensures StartsWith(phoneNumber, "+") ==> r == phoneNumber
    ensures !StartsWith(phoneNumber, "+") ==> r == "+91" + phoneNumber
  {
    if StartsWith(phoneNumber, "+") then phoneNumber
    else
      assert ("+91" + phoneNumber)[..1] == "+";
      "+91" + phoneNumber
  }

  /** The WhatsApp "to" number: "91" is put in front unless the number already starts with "91". */
  function FormatWhatsAppPhone(phoneNumber: string): (r: string)
    ensures StartsWith(r, "91")
    ensures StartsWith(phoneNumber, "91") ==> r == phoneNumber
    ensures !StartsWith(phoneNumber, "91") ==> r == "91" + phoneNumber
  {
    if StartsWith(phoneNumber, "91") then phoneNumber
    else
      assert ("91" + phoneNumber)[..2] == "91";
      "91" + phoneNumber
  }

  /** Formatting an already formatted number changes nothing, and the original number is the
      tail of the formatted one. */
  lemma FormattingIdempotent(phoneNumber: string)
    ensures FormatSmsPhone(FormatSmsPhone(phoneNumber)) == FormatSmsPhone(phoneNumber)
    ensures FormatWhatsAppPhone(FormatWhatsAppPhone(phoneNumber)) == FormatWhatsAppPhone(phoneNumber)
    ensures var s := FormatSmsPhone(phoneNumber); s[|s| - |phoneNumber|..] == phoneNumber
    ensures var w := FormatWhatsAppPhone(phoneNumber); w[|w| - |phoneNumber|..] == phoneNumber
  {
  }

  /** A number starting with "91", whatever its length (a ten-digit local number among them),
      already passes as a WhatsApp number and is sent without a country code. */
  lemma WhatsAppKeepsNumberStartingWith91(digits: string)
    ensures FormatWhatsAppPhone("91" + digits) == "91" + digits
  {
    assert ("91" + digits)[..2] == "91";
  }

  function OtpSmsBody(otp: string): string {
    "Your Smart Crop Advisory OTP is: " + otp + ". Valid for 5 minutes. Do not share with anyone."
  }

  /** `send_sms_otp`. Without Twilio credentials, or when the request raises, the mock sender
      reports success; otherwise success is status 201. */
  function SendSmsOtp(c: Credentials, phoneNumber: string, otp: string, outcome: Option<int>): (r: SendResult)
    ensures r.success <==> !TwilioConfigured(c) || outcome.None? || outcome == Some(201)
    ensures r.route == MockSms <==> !TwilioConfigured(c) || outcome.None?
    ensures r.route == MockSms ==> r.to == phoneNumber && r.body == otp
    ensures r.route != MockSms ==> r.route == TwilioSms && r.to == FormatSmsPhone(phoneNumber) && r.body == OtpSmsBody(otp)
  {
    if !TwilioConfigured(c) then SendResult(true, MockSms, phoneNumber, otp)
    else match outcome
      case None => SendResult(true, MockSms, phoneNumber, otp)
      case Some(status) => SendResult(status == 201, TwilioSms, FormatSmsPhone(phoneNumber), OtpSmsBody(otp))
  }

  /** `send_whatsapp_message`. Without WhatsApp credentials, or when the request raises, the
      mock sender reports success; otherwise success is status 200. */
  function SendWhatsAppMessage(c: Credentials, phoneNumber: string, message: string, outcome: Option<int>): (r: SendResult)
    ensures r.success <==> !WhatsAppConfigured(c) || outcome.None? || outcome == Some(200)
    ensures r.route == MockWhatsApp <==> !WhatsAppConfigured(c) || outcome.None?
    ensures r.route == MockWhatsApp ==> r.to == phoneNumber && r.body == message
    ensures r.route != MockWhatsApp ==> r.route == WhatsAppApi && r.to == FormatWhatsAppPhone(phoneNumber) && r.body == message
  {
    if !WhatsAppConfigured(c) then SendResult(true, MockWhatsApp, phoneNumber, message)
    else match outcome
      case None => SendResult(true, MockWhatsApp, phoneNumber, message)
      case Some(status) => SendResult(status == 200, WhatsAppApi, FormatWhatsAppPhone(phoneNumber), message)
  }

  /** The stored `notification_preferences`: missing or empty, not a JSON object, or an object
      with or without a "delivery_method" value. */
  datatype Preferences = NoPreferences | Unparsable | Parsed(deliveryMethod: Option<string>)

  /** `_get_user_preferred_delivery_method` */
  function GetUserPreferredDeliveryMethod(p: Preferences): (choice: string)
    ensures p.Parsed? && p.deliveryMethod.Some? ==> choice == p.deliveryMethod.value
    ensures !(p.Parsed? && p.deliveryMethod.Some?) ==> choice == "sms"
  {
    match p
    case Parsed(Some(m)) => m
    case _ => "sms"
  }

  datatype NotifiedUser = NotifiedUser(id: int, phoneNumber: string, preferences: Preferences)

  predicate ByWhatsApp(r: SendResult) {
    r.route == MockWhatsApp || r.route == WhatsAppApi
  }

  /** The text reached the sender: as the body itself, or inside the OTP template when it went
      out through Twilio. */
  predicate Carries(r: SendResult, text: string) {
    r.body == if r.route == TwilioSms then OtpSmsBody(text) else text
  }

  /** The reminder reports success: the chosen sender has no credentials and mocks, the request
      raised and the mock took over, or the API answered 200 (WhatsApp) or 201 (Twilio). */
  predicate ReminderSucceeds(c: Credentials, p: Preferences, outcome: Option<int>) {
    if GetUserPreferredDeliveryMethod(p) == "whatsapp"
    then !WhatsAppConfigured(c) || outcome.None? || outcome == Some(200)
    else !TwilioConfigured(c) || outcome.None? || outcome == Some(201)
  }

  /** `send_farming_reminder`: WhatsApp when the preferred method is "whatsapp", SMS for "sms"
      and for every other value. The SMS path goes through `send_sms_otp`, so the reminder is
      sent as the "OTP" of the OTP template. */
  function SendFarmingReminder(c: Credentials, user: NotifiedUser, message: string, outcome: Option<int>): (r: SendResult)
    ensures GetUserPreferredDeliveryMethod(user.preferences) == "whatsapp" ==>
      r == SendWhatsAppMessage(c, user.phoneNumber, message, outcome)
    ensures GetUserPreferredDeliveryMethod(user.preferences) != "whatsapp" ==>
      r == SendSmsOtp(c, user.phoneNumber, message, outcome)
    ensures ByWhatsApp(r) <==> GetUserPreferredDeliveryMethod(user.preferences) == "whatsapp"
    ensures Carries(r, message)
    ensures r.success <==> ReminderSucceeds(c, user.preferences, outcome)
  {
    var deliveryMethod := GetUserPreferredDeliveryMethod(user.preferences);
    if deliveryMethod == "sms" then SendSmsOtp(c, user.phoneNumber, message, outcome)
    else if deliveryMethod == "whatsapp" then SendWhatsAppMessage(c, user.phoneNumber, message, outcome)
    else SendSmsOtp(c, user.phoneNumber, message, outcome)
  }

  /** Missing or unparsable preferences send by SMS, and a configured Twilio account then wraps
      the reminder in the OTP text. */
  lemma DefaultDeliveryIsSms(c: Credentials, user: NotifiedUser, message: string, status: int)
    requires user.preferences in {NoPreferences, Unparsable, Parsed(None)}
    requires TwilioConfigured(c)
    ensures var r := SendFarmingReminder(c, user, message, Some(status));
      r.route == TwilioSms && r.body == OtpSmsBody(message) && (r.success <==> status == 201)
  {
  }

  /** Weather values as the alert reads them; a missing value counts as 0. */
  datatype WeatherReading = WeatherReading(temperature: Option<real>, humidity: Option<real>, rainfall: Option<real>)

  datatype WeatherAlertKind = HeavyRain | HighTemperature | HighHumidity | WeatherUpdate

  /** The alert rule of `send_weather_alert`: heavy rain first, then heat, then humidity. */
  function WeatherAlertKindOf(w: WeatherReading): (k: WeatherAlertKind)
    ensures var t, h, rain := w.temperature.GetOr(0.0), w.humidity.GetOr(0.0), w.rainfall.GetOr(0.0);
      && (k == HeavyRain <==> rain > 10.0)
      && (k == HighTemperature <==> rain <= 10.0 && t > 35.0)
      && (k == HighHumidity <==> rain <= 10.0 && t <= 35.0 && h > 80.0)
      && (k == WeatherUpdate <==> rain <= 10.0 && t <= 35.0 && h <= 80.0)
  {
    var temperature := w.temperature.GetOr(0.0);
    var humidity := w.humidity.GetOr(0.0);
    var rainfall := w.rainfall.GetOr(0.0);
    if rainfall > 10.0 then HeavyRain
    else if temperature > 35.0 then HighTemperature
    else if humidity > 80.0 then HighHumidity
    else WeatherUpdate
  }

  /** The text of the weather alert; `show` renders a number as Python's f-string does. */
  function WeatherAlertMessage(w: WeatherReading, show: real -> string): (m: string)
    ensures var k := WeatherAlertKindOf(w);
      && (k == HeavyRain ==> StartsWith(m, "🌧️"))
      && (k == HighTemperature ==> StartsWith(m, "🌡️"))
      && (k == HighHumidity ==> StartsWith(m, "💧"))
      && (k == WeatherUpdate ==> StartsWith(m, "🌤️"))
  {
    var temperature := show(w.temperature.GetOr(0.0));
    var humidity := show(w.humidity.GetOr(0.0));
    match WeatherAlertKindOf(w)
    case HeavyRain =>
      var m := "🌧️" + " भारी बारिश की चेतावनी! तापमान: " + temperature + "°C, आर्द्रता: " + humidity + "%। खेत की सुरक्षा के लिए उचित कदम उठाएं।";
      assert m[..|"🌧️"|] == "🌧️";
      m
    case HighTemperature =>
      var m := "🌡️" + " उच्च तापमान चेतावनी! तापमान: " + temperature + "°C। पौधों को अधिक पानी दें और छाया का प्रबंध करें।";
      assert m[..|"🌡️"|] == "🌡️";
      m
    case HighHumidity =>
      var m := "💧" + " उच्च आर्द्रता! आर्द्रता: " + humidity + "%। फंगल रोगों से सावधान रहें।";
      assert m[..|"💧"|] == "💧";
      m
    case WeatherUpdate =>
      var m := "🌤️" + " मौसम अपडेट: तापमान " + temperature + "°C, आर्द्रता " + humidity + "%। खेती के लिए अनुकूल मौसम।";
      assert m[..|"🌤️"|] == "🌤️";
      m
  }

  /** Rain wins over heat and humidity; a reading with no values is a normal update. */
  lemma WeatherAlertPrecedence(t: real, h: real, rain: real)
    ensures rain > 10.0 ==> WeatherAlertKindOf(WeatherReading(Some(t), Some(h), Some(rain))) == HeavyRain
    ensures WeatherAlertKindOf(WeatherReading(None, None, None)) == WeatherUpdate
    ensures WeatherAlertKindOf(WeatherReading(Some(40.0), Some(90.0), None)) == HighTemperature
  {
  }

  /** `send_weather_alert` */
  function SendWeatherAlert(c: Credentials, user: NotifiedUser, w: WeatherReading, show: real -> string, outcome: Option<int>)
    : (r: SendResult)
    ensures ByWhatsApp(r) <==> GetUserPreferredDeliveryMethod(user.preferences) == "whatsapp"
    ensures Carries(r, WeatherAlertMessage(w, show))
    ensures r.success <==> ReminderSucceeds(c, user.preferences, outcome)
    ensures r == SendFarmingReminder(c, user, WeatherAlertMessage(w, show), outcome)
  {
    SendFarmingReminder(c, user, WeatherAlertMessage(w, show), outcome)
  }

  /** The severity symbol of the pest alert: red for "high", yellow for "medium", green otherwise. */
  function SeverityEmoji(severity: string): (e: string)
    ensures severity == "high" ==> e == "🔴"
    ensures severity == "medium" ==> e == "🟡"
    ensures severity != "high" && severity != "medium" ==> e == "🟢"
  {
    if severity == "high" then "🔴" else if severity == "medium" then "🟡" else "🟢"
  }

  function PestDiseaseMessage(cropName: string, diseaseName: string, severity: string): (m: string)
    ensures StartsWith(m, SeverityEmoji(severity) + " " + cropName)
  {
    var prefix := SeverityEmoji(severity) + " " + cropName;
    var m := prefix + " में " + diseaseName + " की पहचान हुई है। तुरंत उपचार की आवश्यकता है। विशेषज्ञ सलाह लें।";
    assert m[..|prefix|] == prefix;
    m
  }

  /** `send_pest_disease_alert` */
  function SendPestDiseaseAlert(c: Credentials, user: NotifiedUser, cropName: string, diseaseName: string,
                                severity: string, outcome: Option<int>): (r: SendResult)
    ensures ByWhatsApp(r) <==> GetUserPreferredDeliveryMethod(user.preferences) == "whatsapp"
    ensures Carries(r, PestDiseaseMessage(cropName, diseaseName, severity))
    ensures r.success <==> ReminderSucceeds(c, user.preferences, outcome)
    ensures r == SendFarmingReminder(c, user, PestDiseaseMessage(cropName, diseaseName, severity), outcome)
  {
    SendFarmingReminder(c, user, PestDiseaseMessage(cropName, diseaseName, severity), outcome)
  }

  /** The price values as the market alert reads them, each possibly missing. */
  datatype PriceData = PriceData(minPrice: Option<real>, maxPrice: Option<real>, marketName: Option<string>)

  /** The text of the market price alert; missing prices show as 0 and a missing market as
      "Local Market". */
  function MarketPriceMessage(cropName: string, p: PriceData, show: real -> string): (m: string)
    ensures StartsWith(m, "💰 " + cropName + " की कीमत अपडेट: " + p.marketName.GetOr("Local Market") + " में ₹")
  {
    var prefix := "💰 " + cropName + " की कीमत अपडेट: " + p.marketName.GetOr("Local Market") + " में ₹";
    var m := prefix + show(p.minPrice.GetOr(0.0)) + "-" + show(p.maxPrice.GetOr(0.0)) +
             " प्रति क्विंटल। बेहतर मूल्य के लिए बाजार की जांच करें।";
    assert m[..|prefix|] == prefix;
    m
  }

  /** `send_market_price_alert` */
  function SendMarketPriceAlert(c: Credentials, user: NotifiedUser, cropName: string, p: PriceData,
                                show: real -> string, outcome: Option<int>): (r: SendResult)
    ensures ByWhatsApp(r) <==> GetUserPreferredDeliveryMethod(user.preferences) == "whatsapp"
    ensures Carries(r, MarketPriceMessage(cropName, p, show))
    ensures r.success <==> ReminderSucceeds(c, user.preferences, outcome)
    ensures r == SendFarmingReminder(c, user, MarketPriceMessage(cropName, p, show), outcome)
  {
    SendFarmingReminder(c, user, MarketPriceMessage(cropName, p, show), outcome)
  }

  datatype BulkResult = BulkResult(success: nat, failed: nat)

  /** The number of users whose reminder reports success; `outcome` gives each user's request outcome. */
  function Delivered(c: Credentials, users: seq<NotifiedUser>, message: string, outcome: NotifiedUser -> Option<int>): (n: nat)
    ensures n <= |users|
  {
    if |users| == 0 then 0
    else
      var last := users[|users| - 1];
      Delivered(c, users[..|users| - 1], message, outcome) +
        (if SendFarmingReminder(c, last, message, outcome(last)).success then 1 else 0)
  }

  /** One more user adds one to the count exactly when that user's reminder succeeds. */
  lemma DeliveredStep(c: Credentials, users: seq<NotifiedUser>, i: nat, message: string, outcome: NotifiedUser -> Option<int>)
    requires i < |users|
    ensures Delivered(c, users[..i + 1], message, outcome) ==
      Delivered(c, users[..i], message, outcome) +
        (if SendFarmingReminder(c, users[i], message, outcome(users[i])).success then 1 else 0)
  {
    assert users[..i + 1][..i] == users[..i];
  }

  /** `send_bulk_notifications`: tries every user once, counting successes and failures. */
  method SendBulkNotifications(c: Credentials, users: seq<NotifiedUser>, message: string,
                               outcome: NotifiedUser -> Option<int>) returns (results: BulkResult)
    ensures results.success + results.failed == |users|
    ensures results.success == Delivered(c, users, message, outcome)
  {
    results := BulkResult(0, 0);
    for i := 0 to |users|
      invariant results.success + results.failed == i
      invariant results.success == Delivered(c, users[..i], message, outcome)
    {
      var user := users[i];
      var sent := SendFarmingReminder(c, user, message, outcome(user));
      DeliveredStep(c, users, i, message, outcome);
      if sent.success {
        results := results.(success := results.success + 1);
      } else {
        results := results.(failed := results.failed + 1);
      }
    }
    assert users[..|users|] == users;
  }

  /** Without any credentials every send goes through a mock and succeeds, so nothing fails. */
  lemma {:induction false} UnconfiguredNeverFails(c: Credentials, users: seq<NotifiedUser>, message: string,
                                                  outcome: NotifiedUser -> Option<int>)
    requires !TwilioConfigured(c) && !WhatsAppConfigured(c)
    ensures Delivered(c, users, message, outcome) == |users|
  {
    if |users| > 0 {
      UnconfiguredNeverFails(c, users[..|users| - 1], message, outcome);
    }
  }
}
