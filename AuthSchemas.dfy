/** The request validators of the authentication schemas: Indian phone-number normalisation
    (written twice in the source, for the OTP request and for registration), the six-digit OTP
    check and the e-mail check. A validator either returns the (possibly rewritten) value or
    fails with the message of the `ValueError` it raises. */
module AuthSchemas {
  import opened Wrappers
  import opened Strings

  const InvalidPhoneFormat: string := "Invalid phone number format"
  const PhoneNotTenDigits: string := "Phone number must be 10 digits"
  const OtpNotSixDigits: string := "OTP must be 6 digits"
  const InvalidEmailFormat: string := "Invalid email format"

  /** The phone inputs the validator accepts: "+91" and ten digits, "91" and ten digits, or
      ten digits that do not start with "91". */
  predicate AcceptedPhone(v: string) {
    || (StartsWith(v, "+91") && |v| == 13 && IsDigits(v[3..]))
    || (StartsWith(v, "91") && |v| == 12 && IsDigits(v[2..]))
    || (!StartsWith(v, "+91") && !StartsWith(v, "91") && |v| == 10 && IsDigits(v))
  }

  /** The test that raises the format error: no country code and not all digits. */
  predicate BadPhoneFormat(v: string) {
    !StartsWith(v, "+91") && !StartsWith(v, "91") && !IsDigits(v)
  }

  /** A value cannot start with both country-code forms, and one starting with "+" is not all digits. */
  lemma PrefixFacts(v: string)
    ensures !(StartsWith(v, "+91") && StartsWith(v, "91"))
    ensures StartsWith(v, "+91") ==> !IsDigits(v)
  {
    if StartsWith(v, "+91") {
      assert v[0] == "+91"[0] == '+';
    }
  }

  /** `PhoneNumberRequest.validate_phone_number` */
  function ValidatePhoneNumber(v: string): (r: Result<string, string>)
    ensures r.Success? <==> AcceptedPhone(v)
    ensures r.Success? ==> |r.value| == 10 && IsDigits(r.value) && r.value == v[|v| - 10..]
    ensures r.Failure? ==> (r.error == InvalidPhoneFormat <==> BadPhoneFormat(v))
    ensures r.Failure? ==> r.error in {InvalidPhoneFormat, PhoneNotTenDigits}
  {
    PrefixFacts(v);
    if !StartsWith(v, "+91") && !StartsWith(v, "91") && !IsDigits(v) then Failure(InvalidPhoneFormat)
    else
      var stripped := if StartsWith(v, "+91") then v[3..] else if StartsWith(v, "91") then v[2..] else v;
      if |stripped| != 10 || !IsDigits(stripped) then Failure(PhoneNotTenDigits)
      else Success(stripped)
  }

  /** `UserRegistration.validate_phone_number`, a second copy of the same code. */
  function ValidateRegistrationPhoneNumber(v: string): (r: Result<string, string>)
    ensures r.Success? ==> |r.value| == 10 && IsDigits(r.value)
  {
    if !StartsWith(v, "+91") && !StartsWith(v, "91") && !IsDigits(v) then Failure(InvalidPhoneFormat)
    else
      var stripped := if StartsWith(v, "+91") then v[3..] else if StartsWith(v, "91") then v[2..] else v;
      if |stripped| != 10 || !IsDigits(stripped) then Failure(PhoneNotTenDigits)
      else Success(stripped)
  }

  /** The two copies behave identically. */
  lemma RegistrationPhoneAgrees(v: string)
    ensures ValidateRegistrationPhoneNumber(v) == ValidatePhoneNumber(v)
  {
  }

  /** A country code, with or without "+", is stripped from ten following digits. */
  lemma CountryCodeStripped(digits: string)
    requires |digits| == 10 && IsDigits(digits)
    ensures ValidatePhoneNumber("+91" + digits) == Success(digits)
    ensures ValidatePhoneNumber("91" + digits) == Success(digits)
  {
    assert ("+91" + digits)[3..] == digits;
    assert ("91" + digits)[2..] == digits;
    assert StartsWith("+91" + digits, "+91");
    assert StartsWith("91" + digits, "91");
  }

  /** A plain ten-digit number that happens to start with "91" loses those two digits and is
      rejected as not ten digits long. */
  lemma TenDigitsStartingWith91Rejected(v: string)
    requires |v| == 10 && IsDigits(v) && StartsWith(v, "91")
    ensures ValidatePhoneNumber(v) == Failure(PhoneNotTenDigits)
  {
  }

  /** Other ten-digit numbers are accepted unchanged. */
  lemma PlainTenDigitsAccepted(v: string)
    requires |v| == 10 && IsDigits(v) && !StartsWith(v, "91")
    ensures ValidatePhoneNumber(v) == Success(v)
  {
    PrefixFacts(v);
  }

  /** "9198765432" is a ten-digit number starting with "91", and is rejected. */
  lemma PlainNumberStartingWith91Example()
    ensures ValidatePhoneNumber("9198765432") == Failure(PhoneNotTenDigits)
  {
    TenDigitsStartingWith91Rejected("9198765432");
  }

  /** "+919876543210" normalises to its last ten digits. */
  lemma CountryCodeExample()
    ensures ValidatePhoneNumber("+919876543210") == Success("9876543210")
  {
    CountryCodeStripped("9876543210");
    assert "+91" + "9876543210" == "+919876543210";
  }

  /** A dash without a country code is a format error; letters after "+91" are a length error. */
  lemma MalformedPhoneExamples()
    ensures ValidatePhoneNumber("98765-43210") == Failure(InvalidPhoneFormat)
    ensures ValidatePhoneNumber("+91abc") == Failure(PhoneNotTenDigits)
  {
    var bad := "98765-43210";
    assert !IsDigits(bad) by { assert !IsDigit(bad[5]); }
    assert !StartsWith(bad, "+91") by { assert bad[0] != '+'; }
    assert !StartsWith(bad, "91") by { assert bad[1] != '1'; }
  }

  /** `OTPVerification.validate_otp` */
  function ValidateOtp(v: string): (r: Result<string, string>)
    ensures r.Success? <==> |v| == 6 && IsDigits(v)
    ensures r.Success? ==> r.value == v
    ensures r.Failure? ==> r.error == OtpNotSixDigits
  {
    if |v| != 6 || !IsDigits(v) then Failure(OtpNotSixDigits) else Success(v)
  }

  /** `UserRegistration.validate_email`: None or the empty string passes; a non-empty value
      must contain '@'; an accepted value is returned unchanged. */
  function ValidateEmail(v: Option<string>): (r: Result<Option<string>, string>)
    ensures r.Success? <==> (v.None? || v.value == "" || '@' in v.value)
    ensures r.Success? ==> r.value == v
    ensures r.Failure? ==> r.error == InvalidEmailFormat
  {
    if v.Some? && v.value != "" && '@' !in v.value then Failure(InvalidEmailFormat) else Success(v)
  }
}
