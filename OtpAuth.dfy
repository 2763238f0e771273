/** The OTP half of the authentication core: six-digit code generation, code comparison, and
    the in-memory store of one entry per phone number with its creation time and the number of
    failed attempts, a five-minute expiry and a three-attempt limit. Time is a count of
    seconds passed in by the caller. */
module OtpAuth {
  import opened Wrappers
  import opened Strings

  const OtpValiditySeconds: int := 5 * 60
  const MaxOtpAttempts: nat := 3

  datatype OtpEntry = OtpEntry(otp: string, timestamp: int, attempts: nat)

  /** `generate_otp`: `str(random.randint(100000, 999999))`, with the draw passed in. */
  function GenerateOtp(draw: int): (otp: string)
    requires 100000 <= draw <= 999999
    ensures |otp| == 6 && IsDigits(otp) && otp[0] != '0'
    ensures DecimalValue(otp) == draw
  {
    NatToDecimalRoundTrip(draw);
    assert Pow10(1) == 10 && Pow10(2) == 100 && Pow10(3) == 1000;
    assert Pow10(4) == 10000 && Pow10(5) == 100000 && Pow10(6) == 1000000;
    NatToDecimalLength(draw, 6);
    NatToDecimal(draw)
  }

  /** `verify_otp`: plain string equality, so the codes match character by character, with no
      trimming and no numeric comparison. */
  predicate VerifyOtp(provided: string, stored: string)
    ensures VerifyOtp(provided, stored) <==>
      |provided| == |stored| && forall i :: 0 <= i < |provided| ==> provided[i] == stored[i]
  {
    provided == stored
  }

  /** `is_otp_expired`: absent data counts as expired; otherwise expired strictly after the
      creation time plus five minutes. */
  predicate IsOtpExpired(data: Option<OtpEntry>, now: int)
    ensures data.None? ==> IsOtpExpired(data, now)
    ensures data.Some? ==> (IsOtpExpired(data, now) <==> now - data.value.timestamp > 300)
  {
    data.None? || now > data.value.timestamp + OtpValiditySeconds
  }

  /** `is_otp_max_attempts_reached`: absent data counts as reached. */
  predicate IsOtpMaxAttemptsReached(data: Option<OtpEntry>)
    ensures data.None? ==> IsOtpMaxAttemptsReached(data)
    ensures data.Some? ==> (IsOtpMaxAttemptsReached(data) <==> data.value.attempts >= 3)
  {
    data.None? || data.value.attempts >= MaxOtpAttempts
  }

  /** Once expired, an entry stays expired; once at the limit, further attempts keep it there. */
  lemma ExpiryAndLimitPersist(e: OtpEntry, now: int, later: int)
    requires now <= later
    ensures IsOtpExpired(Some(e), now) ==> IsOtpExpired(Some(e), later)
    ensures IsOtpMaxAttemptsReached(Some(e)) ==> IsOtpMaxAttemptsReached(Some(e.(attempts := e.attempts + 1)))
  {
  }

  /** Expiry is exact: the instant five minutes after creation is still valid, the next second is not. */
  lemma ExpiryBoundary(e: OtpEntry, now: int)
    ensures !IsOtpExpired(Some(e), e.timestamp + 300)
    ensures IsOtpExpired(Some(e), e.timestamp + 301)
    ensures IsOtpExpired(Some(e), now) <==> now > e.timestamp + 300
    ensures IsOtpExpired(None, now) && IsOtpMaxAttemptsReached(None)
    ensures IsOtpMaxAttemptsReached(Some(e)) <==> e.attempts >= 3
  {
  }

  /** `generate_otp` never produces a code below 100000, so every code passes the six-digit
      format check of the verification request. */
  lemma GeneratedOtpHasSixDigits(draw: int)
    requires 100000 <= draw <= 999999
    ensures var otp := GenerateOtp(draw); |otp| == 6 && IsDigits(otp)
    ensures forall other :: 100000 <= other <= 999999 && other != draw ==> GenerateOtp(other) != GenerateOtp(draw)
  {
    forall other | 100000 <= other <= 999999 && other != draw
      ensures GenerateOtp(other) != GenerateOtp(draw)
    {
      assert DecimalValue(GenerateOtp(other)) == other;
    }
  }

  /** The module-level `otp_storage` dictionary. */
  class OtpStore {
    var entries: map<string, OtpEntry>

    constructor ()
      ensures entries == map[]
    {
      entries := map[];
    }

    /** `store_otp`: replaces any earlier entry for the phone, with the attempts at 0. */
    method StoreOtp(phoneNumber: string, otp: string, now: int)
      modifies this
      ensures entries == old(entries)[phoneNumber := OtpEntry(otp, now, 0)]
      ensures forall p :: p in old(entries) && p != phoneNumber ==> p in entries && entries[p] == old(entries)[p]
    {
      entries := entries[phoneNumber := OtpEntry(otp, now, 0)];
    }

    /** `get_stored_otp`: the entry for the phone, or None; it reads the store and changes nothing. */
    function GetStoredOtp(phoneNumber: string): (r: Option<OtpEntry>)
      reads this
      ensures r.Some? <==> phoneNumber in entries
      ensures r.Some? ==> r.value == entries[phoneNumber]
    {
      if phoneNumber in entries then Some(entries[phoneNumber]) else None
    }

    /** `increment_otp_attempts`: one more attempt for a stored phone; nothing for an unknown one. */
    method IncrementOtpAttempts(phoneNumber: string)
      modifies this
      ensures entries == Incremented(old(entries), phoneNumber)
      ensures phoneNumber in old(entries) ==>
        entries[phoneNumber].attempts == old(entries)[phoneNumber].attempts + 1 &&
        entries[phoneNumber].otp == old(entries)[phoneNumber].otp &&
        entries[phoneNumber].timestamp == old(entries)[phoneNumber].timestamp
      ensures phoneNumber !in old(entries) ==> entries == old(entries)
      ensures entries.Keys == old(entries).Keys
    {
      if phoneNumber in entries {
        var e := entries[phoneNumber];
        entries := entries[phoneNumber := e.(attempts := e.attempts + 1)];
      }
    }
  }

  /** The store after `increment_otp_attempts` on the given phone. */
  function Incremented(entries: map<string, OtpEntry>, phoneNumber: string): (r: map<string, OtpEntry>)
    ensures r.Keys == entries.Keys
    ensures forall p :: p in entries && p != phoneNumber ==> r[p] == entries[p]
    ensures phoneNumber in entries ==> r[phoneNumber].attempts == entries[phoneNumber].attempts + 1
  {
    if phoneNumber in entries then
      entries[phoneNumber := entries[phoneNumber].(attempts := entries[phoneNumber].attempts + 1)]
    else entries
  }
}
