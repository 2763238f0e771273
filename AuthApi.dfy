/** The authentication endpoints: `send_otp` stores a fresh code, `verify_otp_and_login` runs
    its checks in a fixed order (missing entry, expired, too many attempts, mismatch) and on
    success logs the user in, creating the account when needed, and `register` refuses a phone
    number that already has an account. The users table is a map from phone number to record. */
module AuthApi {
  import opened Wrappers
  import opened Strings
  import opened OtpAuth
  import AuthSchemas

  /** The HTTP 400 rejections of the endpoints. */
  datatype LoginError = OtpNotFound | OtpExpired | MaxAttemptsReached | InvalidOtp | UserAlreadyExists

  function ErrorDetail(e: LoginError): string {
    match e
    case OtpNotFound => "OTP not found. Please request a new OTP."
    case OtpExpired => "OTP expired. Please request a new OTP."
    case MaxAttemptsReached => "Maximum OTP attempts reached. Please request a new OTP."
    case InvalidOtp => "Invalid OTP"
    case UserAlreadyExists => "User already exists with this phone number"
  }

  datatype UserRecord = UserRecord(
    phoneNumber: string,
    name: string,
    email: Option<string>,
    state: string,
    district: string,
    preferredLanguage: string,
    isVerified: bool,
    lastLogin: Option<int>)

  /** The verification request; its phone number has no validator and is used as sent. */
  datatype OtpVerification = OtpVerification(
    phoneNumber: string,
    otp: string,
    name: Option<string>,
    state: Option<string>,
    district: Option<string>,
    language: Option<string>)

  /** The registration request, after its validators have run. */
  datatype UserRegistration = UserRegistration(
    phoneNumber: string,
    name: string,
    email: Option<string>,
    state: string,
    district: string,
    preferredLanguage: string)

  /** Python's `value or default` for an optional string: None and "" are falsy. */
  function OrDefault(value: Option<string>, default: string): string {
    if value.Some? && value.value != "" then value.value else default
  }

  /** The checks of `verify_otp_and_login`, in their order; None when every check passes. */
  function VerifyCheck(data: Option<OtpEntry>, otp: string, now: int): (r: Option<LoginError>)
    ensures r == Some(OtpNotFound) <==> data.None?
    ensures r.None? <==> data.Some? && !IsOtpExpired(data, now) && !IsOtpMaxAttemptsReached(data) && otp == data.value.otp
  {
    if data.None? then Some(OtpNotFound)
    else if IsOtpExpired(data, now) then Some(OtpExpired)
    else if IsOtpMaxAttemptsReached(data) then Some(MaxAttemptsReached)
    else if !VerifyOtp(otp, data.value.otp) then Some(InvalidOtp)
    else None
  }

  function Lookup(entries: map<string, OtpEntry>, phoneNumber: string): Option<OtpEntry> {
    if phoneNumber in entries then Some(entries[phoneNumber]) else None
  }

  /** The OTP store after one verification request. */
  function StoreAfterVerify(entries: map<string, OtpEntry>, phoneNumber: string, otp: string, now: int)
    : map<string, OtpEntry>
  {
    if VerifyCheck(Lookup(entries, phoneNumber), otp, now) == Some(InvalidOtp)
    then Incremented(entries, phoneNumber)
    else entries
  }

  /** The first failing check decides the error: a missing entry wins over everything, expiry
      over the attempt limit, and the attempt limit over a wrong code, which fails with the
      invalid-code error only when the entry is present, fresh and under the limit; a request passes exactly
      when the entry exists, is fresh, has fewer than three attempts and the code is equal. */
  lemma VerifyCheckOrder(data: Option<OtpEntry>, otp: string, now: int)
    ensures data.None? ==> VerifyCheck(data, otp, now) == Some(OtpNotFound)
    ensures data.Some? && now > data.value.timestamp + 300 ==> VerifyCheck(data, otp, now) == Some(OtpExpired)
    ensures data.Some? && now <= data.value.timestamp + 300 && data.value.attempts >= 3 ==>
      VerifyCheck(data, otp, now) == Some(MaxAttemptsReached)
    ensures data.Some? && now <= data.value.timestamp + 300 && data.value.attempts < 3 && otp != data.value.otp ==>
      VerifyCheck(data, otp, now) == Some(InvalidOtp)
    ensures VerifyCheck(data, otp, now).None? <==>
      data.Some? && now <= data.value.timestamp + 300 && data.value.attempts < 3 && otp == data.value.otp
  {
  }

  /** Only the mismatch path changes the store, and then only by one attempt on that phone;
      every other outcome, success included, leaves the store as it was. */
  lemma OnlyMismatchChangesStore(entries: map<string, OtpEntry>, phoneNumber: string, otp: string, now: int)
    ensures var after := StoreAfterVerify(entries, phoneNumber, otp, now);
      && (VerifyCheck(Lookup(entries, phoneNumber), otp, now) != Some(InvalidOtp) ==> after == entries)
      && (VerifyCheck(Lookup(entries, phoneNumber), otp, now) == Some(InvalidOtp) ==>
            after.Keys == entries.Keys &&
            after[phoneNumber] == entries[phoneNumber].(attempts := entries[phoneNumber].attempts + 1) &&
            forall p :: p in entries && p != phoneNumber ==> after[p] == entries[p])
  {
  }

  /** Three wrong codes within the five minutes lock the phone out: a fourth request is refused
      with "maximum attempts" even when it carries the right code. */
  lemma LockoutAfterThreeWrongCodes(
    entries: map<string, OtpEntry>, phoneNumber: string, code: string, t0: int,
    w1: string, w2: string, w3: string, t1: int, t2: int, t3: int, t4: int)
    requires w1 != code && w2 != code && w3 != code
    requires t0 <= t1 && t1 <= t0 + 300 && t0 <= t2 <= t0 + 300 && t0 <= t3 <= t0 + 300 && t0 <= t4 <= t0 + 300
    ensures var e0 := entries[phoneNumber := OtpEntry(code, t0, 0)];
      var e1 := StoreAfterVerify(e0, phoneNumber, w1, t1);
      var e2 := StoreAfterVerify(e1, phoneNumber, w2, t2);
      var e3 := StoreAfterVerify(e2, phoneNumber, w3, t3);
      && VerifyCheck(Lookup(e0, phoneNumber), w1, t1) == Some(InvalidOtp)
      && VerifyCheck(Lookup(e1, phoneNumber), w2, t2) == Some(InvalidOtp)
      && VerifyCheck(Lookup(e2, phoneNumber), w3, t3) == Some(InvalidOtp)
      && VerifyCheck(Lookup(e3, phoneNumber), code, t4) == Some(MaxAttemptsReached)
  {
    var e0 := entries[phoneNumber := OtpEntry(code, t0, 0)];
    var e1 := StoreAfterVerify(e0, phoneNumber, w1, t1);
    assert e1[phoneNumber] == OtpEntry(code, t0, 1);
    var e2 := StoreAfterVerify(e1, phoneNumber, w2, t2);
    assert e2[phoneNumber] == OtpEntry(code, t0, 2);
    var e3 := StoreAfterVerify(e2, phoneNumber, w3, t3);
    assert e3[phoneNumber] == OtpEntry(code, t0, 3);
  }

  /** Sending a new code lifts the lockout: the fresh entry has no attempts. */
  lemma NewOtpLiftsLockout(entries: map<string, OtpEntry>, phoneNumber: string, code: string, now: int)
    ensures VerifyCheck(Lookup(entries[phoneNumber := OtpEntry(code, now, 0)], phoneNumber), code, now).None?
  {
  }

  /** The success path never consumes the code: the same code logs in again until it expires. */
  lemma CodeReusableUntilExpiry(entries: map<string, OtpEntry>, phoneNumber: string, otp: string, now: int, later: int)
    requires VerifyCheck(Lookup(entries, phoneNumber), otp, now).None?
    requires now <= later <= entries[phoneNumber].timestamp + 300
    ensures StoreAfterVerify(entries, phoneNumber, otp, now) == entries
    ensures VerifyCheck(Lookup(StoreAfterVerify(entries, phoneNumber, otp, now), phoneNumber), otp, later).None?
  {
  }

  /** The verification phone number is not normalised: a code requested as "+919876543210" is
      stored under "9876543210", and verifying with the number as first typed finds nothing. */
  lemma UnnormalisedVerifyMisses(entries: map<string, OtpEntry>, code: string, now: int, otp: string)
    requires "+919876543210" !in entries
    ensures AuthSchemas.ValidatePhoneNumber("+919876543210") == Success("9876543210")
    ensures var stored := entries["9876543210" := OtpEntry(code, now, 0)];
      VerifyCheck(Lookup(stored, "+919876543210"), otp, now) == Some(OtpNotFound)
  {
    AuthSchemas.CountryCodeExample();
  }

  /** The record of a user who logs in for the first time. */
  function NewUser(request: OtpVerification): UserRecord {
    UserRecord(request.phoneNumber, OrDefault(request.name, "User"), None, OrDefault(request.state, ""),
               OrDefault(request.district, ""), OrDefault(request.language, "hi"), false, None)
  }

  /** The record after a successful login: the existing or new user with `last_login` set. */
  function LoggedInUser(users: map<string, UserRecord>, request: OtpVerification, now: int): UserRecord {
    var user := if request.phoneNumber in users then users[request.phoneNumber] else NewUser(request);
    user.(lastLogin := Some(now))
  }

  function Registered(request: UserRegistration): UserRecord {
    UserRecord(request.phoneNumber, request.name, request.email, request.state, request.district,
               request.preferredLanguage, true, None)
  }

  /** The users table. */
  class UserTable {
    var users: map<string, UserRecord>

    constructor ()
      ensures users == map[]
    {
      users := map[];
    }
  }

  /** `send_otp`: stores a freshly generated code with no attempts, whether or not the user exists,
      and reports whether an account exists. Delivery by SMS is a background task. */
  method SendOtp(store: OtpStore, table: UserTable, phoneNumber: string, draw: int, now: int)
    returns (userExists: bool)
    requires 100000 <= draw <= 999999
    modifies store
    ensures store.entries == old(store.entries)[phoneNumber := OtpEntry(GenerateOtp(draw), now, 0)]
    ensures userExists == (phoneNumber in table.users)
  {
    userExists := phoneNumber in table.users;
    var otp := GenerateOtp(draw);
    store.StoreOtp(phoneNumber, otp, now);
  }

  /** `verify_otp_and_login` */
  method VerifyOtpAndLogin(store: OtpStore, table: UserTable, request: OtpVerification, now: int)
    returns (result: Result<UserRecord, LoginError>)
    modifies store, table
    ensures var check := VerifyCheck(Lookup(old(store.entries), request.phoneNumber), request.otp, now);
      && (check.Some? ==> result == Failure(check.value))
      && (check.None? ==> result == Success(LoggedInUser(old(table.users), request, now)))
    ensures store.entries == StoreAfterVerify(old(store.entries), request.phoneNumber, request.otp, now)
    ensures result.Failure? ==> table.users == old(table.users)
    ensures result.Success? ==> table.users == old(table.users)[request.phoneNumber := result.value]
  {
    var stored := store.GetStoredOtp(request.phoneNumber);
    if stored.None? {
      return Failure(OtpNotFound);
    }
    if IsOtpExpired(stored, now) {
      return Failure(OtpExpired);
    }
    if IsOtpMaxAttemptsReached(stored) {
      return Failure(MaxAttemptsReached);
    }
    if !VerifyOtp(request.otp, stored.value.otp) {
      store.IncrementOtpAttempts(request.phoneNumber);
      return Failure(InvalidOtp);
    }
    var user: UserRecord;
    if request.phoneNumber in table.users {
      user := table.users[request.phoneNumber];
    } else {
      user := NewUser(request);
    }
    user := user.(lastLogin := Some(now));
    table.users := table.users[request.phoneNumber := user];
    result := Success(user);
  }

  /** `register`: refuses a phone number that already has an account, otherwise adds a
      verified user. */
  method RegisterUser(table: UserTable, request: UserRegistration) returns (result: Result<UserRecord, LoginError>)
    modifies table
    ensures request.phoneNumber in old(table.users) ==>
      result == Failure(UserAlreadyExists) && table.users == old(table.users)
    ensures request.phoneNumber !in old(table.users) ==>
      result == Success(Registered(request)) && table.users == old(table.users)[request.phoneNumber := Registered(request)]
  {
    if request.phoneNumber in table.users {
      return Failure(UserAlreadyExists);
    }
    var user := Registered(request);
    table.users := table.users[request.phoneNumber := user];
    result := Success(user);
  }
}
