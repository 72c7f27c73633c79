/**
 * The static helpers of includes/Core/Utils.php: phone normalisation and
 * display, OTP generation, field sanitising, the client address, the send
 * rate limit and the proof-token check.
 */
module Utils {
  import opened Wrappers
  import opened Strings
  import opened Transients
  import opened Meta

  const OtpMaxAttempts := 3
  const OtpRateLimitMinutes := 10
  const OtpExpirySeconds := 300
  const MinuteInSeconds := 60

  /** A local subscriber number: exactly nine digits. */
  predicate IsLocalNumber(s: string) { |s| == 9 && AllDigits(s) }

  // ---------------------------------------------------------------- phones

  /** `normalize_phone`: strip non-digits, drop a leading 995 from a longer number, keep the last nine. */
  function NormalizePhone(phone: string): (r: string)
    ensures PhpEmpty(phone) ==> r == ""
    ensures AllDigits(r) && |r| <= 9
    ensures !PhpEmpty(phone) ==> |r| <= |StripNonDigits(phone)| && r == StripNonDigits(phone)[|StripNonDigits(phone)| - |r|..]
  {
    if PhpEmpty(phone) then ""
    else
      var digits := StripNonDigits(phone);
      var local := if |digits| > 9 && StartsWith(digits, "995") then digits[3..] else digits;
      if |local| > 9 then local[|local| - 9..] else local
  }

  /** A digit string of at most nine digits comes back as it is, even when it is too short to be valid. */
  lemma NormalizeShortNumber(phone: string)
    requires !PhpEmpty(phone) && |StripNonDigits(phone)| <= 9
    ensures NormalizePhone(phone) == StripNonDigits(phone)
  {
  }

  /** Twelve or more digits always reduce to their last nine, whether or not they start with 995. */
  lemma NormalizeLongNumber(phone: string)
    requires |StripNonDigits(phone)| >= 12
    ensures var d := StripNonDigits(phone); NormalizePhone(phone) == d[|d| - 9..]
  {
    var d := StripNonDigits(phone);
    assert !PhpEmpty(phone);
    if StartsWith(d, "995") {
      var local := d[3..];
      if |local| > 9 {
        assert local[|local| - 9..] == d[|d| - 9..];
      } else {
        assert local == d[|d| - 9..];
      }
    }
  }

  /** Ten or eleven digits after 995 lose exactly the prefix (and so end up too short to be valid);
    * without the prefix the last nine digits are kept. */
  lemma NormalizeCountryCode(phone: string)
    requires 9 < |StripNonDigits(phone)|
    ensures var d := StripNonDigits(phone);
      StartsWith(d, "995") && |d| <= 12 ==> NormalizePhone(phone) == d[3..]
    ensures var d := StripNonDigits(phone);
      !StartsWith(d, "995") ==> NormalizePhone(phone) == d[|d| - 9..]
  {
    assert !PhpEmpty(phone);
  }

  /** A second pass changes nothing, except on the one result "0" that PHP's `empty()` maps to "". */
  lemma NormalizeIdempotent(phone: string)
    requires NormalizePhone(phone) != "0"
    ensures NormalizePhone(NormalizePhone(phone)) == NormalizePhone(phone)
  {
    var r := NormalizePhone(phone);
    if !PhpEmpty(r) {
      StripNonDigitsOfDigits(r);
    }
  }

  /** Every nine-digit local number is its own normal form. */
  lemma NormalizeLocalNumber(local: string)
    requires IsLocalNumber(local)
    ensures NormalizePhone(local) == local
  {
    StripNonDigitsOfDigits(local);
  }

  /** The `empty("0")` quirk: "a0" normalises to "0", whose second normalisation is "". */
  lemma NormalizeZeroQuirk()
    ensures NormalizePhone("0") == ""
    ensures NormalizePhone("a0") == "0" && NormalizePhone(NormalizePhone("a0")) == ""
  {
    assert StripNonDigits("a0") == "0" by {
      assert KeepWhere("a0", IsDigit) == [] + KeepWhere("0", IsDigit);
      assert KeepWhere("0", IsDigit) == "0" + KeepWhere("", IsDigit);
    }
  }

  /** The international and the local spelling of a number share one key. */
  lemma NormalizeExamples()
    ensures NormalizePhone("+995599620303") == "599620303"
    ensures NormalizePhone("599620303") == "599620303"
  {
    var local := "599620303";
    assert IsLocalNumber(local);
    CountryCodeDigits();
    PrefixedLocalNumber("+995", local);
    assert "+995599620303" == "+995" + local;
    NormalizeLocalNumber(local);
  }

  /** A prefix whose only digits are 995, followed by a local number, gives the twelve digits
    * 995 and the number, and normalises back to the number. */
  lemma PrefixedLocalNumber(prefix: string, local: string)
    requires StripNonDigits(prefix) == "995" && IsLocalNumber(local)
    ensures StripNonDigits(prefix + local) == "995" + local && NormalizePhone(prefix + local) == local
  {
    KeepWhereConcat(prefix, local, IsDigit);
    StripNonDigitsOfDigits(local);
    var digits := "995" + local;
    NormalizeLongNumber(prefix + local);
    assert digits[|digits| - 9..] == local;
  }

  /** The digits of the two spellings of the country code. */
  lemma CountryCodeDigits()
    ensures StripNonDigits("+995") == "995" && StripNonDigits("+995 ") == "995"
  {
    StripNonDigitsOfDigits("995");
    assert KeepWhere("+", IsDigit) == [] + KeepWhere("", IsDigit);
    assert KeepWhere(" ", IsDigit) == [] + KeepWhere("", IsDigit);
    assert "+995" == "+" + "995";
    KeepWhereConcat("+", "995", IsDigit);
    assert "+995 " == "+995" + " ";
    KeepWhereConcat("+995", " ", IsDigit);
  }

  /** A local number written with the country code, as "+995" or "+995 " in front, normalises back
    * to the number. */
  lemma InternationalNumber(local: string)
    requires IsLocalNumber(local)
    ensures StripNonDigits("+995" + local) == "995" + local && NormalizePhone("+995" + local) == local
    ensures StripNonDigits("+995 " + local) == "995" + local && NormalizePhone("+995 " + local) == local
  {
    CountryCodeDigits();
    PrefixedLocalNumber("+995", local);
    PrefixedLocalNumber("+995 ", local);
  }

  /** `format_phone`: "+995 " and the local number when the digits are 995 plus nine, or nine;
    * otherwise the trimmed raw input. */
  function FormatPhone(phone: string): (r: string)
    ensures r == Trim(phone) || (|r| == 14 && r[..5] == "+995 " && IsLocalNumber(r[5..]))
    ensures var d := StripNonDigits(phone); |d| != 9 && !(|d| == 12 && StartsWith(d, "995")) ==> r == Trim(phone)
  {
    var digits := StripNonDigits(phone);
    if |digits| == 12 && StartsWith(digits, "995") then DisplayShape(digits[3..]); "+995 " + digits[3..]
    else if |digits| == 9 then DisplayShape(digits); "+995 " + digits
    else Trim(phone)
  }

  /** "+995 " followed by the digits of a local number has the display shape of `format_phone`. */
  lemma DisplayShape(local: string)
    requires |local| == 9 && AllDigits(local)
    ensures var r := "+995 " + local; |r| == 14 && r[..5] == "+995 " && IsLocalNumber(r[5..])
  {
    assert ("+995 " + local)[5..] == local;
  }

  /** Whenever `format_phone` recognises a number, what it shows is "+995 " and the normalised number. */
  lemma FormatMatchesNormalize(phone: string)
    requires var d := StripNonDigits(phone); |d| == 9 || (|d| == 12 && StartsWith(d, "995"))
    ensures FormatPhone(phone) == "+995 " + NormalizePhone(phone)
    ensures IsLocalNumber(NormalizePhone(phone))
  {
    var d := StripNonDigits(phone);
    assert !PhpEmpty(phone);
    if |d| == 12 {
      NormalizeLongNumber(phone);
    }
  }

  /** Normalising the displayed form of a local number gives the number back. */
  lemma FormatRoundTrip(local: string)
    requires IsLocalNumber(local)
    ensures FormatPhone(local) == "+995 " + local
    ensures NormalizePhone(FormatPhone(local)) == local
  {
    StripNonDigitsOfDigits(local);
    var shown := "+995 " + local;
    assert StripNonDigits(shown) == "995" + local by {
      assert shown == "+" + ("995" + (" " + local));
      KeepWhereConcat("+", "995" + (" " + local), IsDigit);
      KeepWhereConcat("995", " " + local, IsDigit);
      KeepWhereConcat(" ", local, IsDigit);
      assert KeepWhere("+", IsDigit) == [] + KeepWhere("", IsDigit);
      assert KeepWhere(" ", IsDigit) == [] + KeepWhere("", IsDigit);
      StripNonDigitsOfDigits("995");
    }
    NormalizeLongNumber(shown);
    assert ("995" + local)[3..] == local;
  }

  // ------------------------------------------------------------------ codes

  /** `generate_otp` for the random draw `random` of `random_int(0, 999999)`. */
  function GenerateOtp(random: int): (code: string)
    requires 0 <= random <= 999999
    ensures |code| == 6 && AllDigits(code)
    ensures DecimalValue(code) == random
  {
    var s := DecimalString(random);
    DecimalLength(random, 6);
    DecimalRoundTrip(random);
    var code := PadLeft(s, 6, '0');
    assert code == code[..|code| - |s|] + s;
    LeadingZeros(code[..|code| - |s|], s);
    code
  }

  /** Distinct draws give distinct codes; in particular only the draw 0 gives "000000". */
  lemma GenerateOtpInjective(a: int, b: int)
    requires 0 <= a <= 999999 && 0 <= b <= 999999
    ensures GenerateOtp(a) == GenerateOtp(b) <==> a == b
  {
  }

  /** The proof token `wp_generate_password(32, false)`: 32 letters and digits. */
  predicate IsProofToken(t: string)
  {
    |t| == 32 && forall i :: 0 <= i < |t| ==> IsAsciiAlnum(t[i])
  }

  // ------------------------------------------------------------- sanitising

  datatype FieldType = TextField | EmailField | DateField | TelField

  /** PCRE's `\s` without the `u` modifier. */
  predicate IsRegexSpace(c: char)
  {
    c == ' ' || c == '\t' || c == '\n' || c == '\U{0B}' || c == '\U{0C}' || c == '\r'
  }

  /** `[0-9\-\.\s\/]` */
  predicate IsDateChar(c: char) { IsDigit(c) || c == '-' || c == '.' || c == '/' || IsRegexSpace(c) }

  /** `[0-9\+\-\s\(\)]` */
  predicate IsTelChar(c: char) { IsDigit(c) || c == '+' || c == '-' || c == '(' || c == ')' || IsRegexSpace(c) }

  /** `sanitize_by_type`: trim, then the date or tel character filter, or the WordPress
    * sanitizers (`sanitize_text_field`, `sanitize_email`) passed in as functions. */
  function SanitizeByType(value: string, t: FieldType, sanitizeText: string -> string, sanitizeEmail: string -> string): (r: string)
    ensures t == DateField ==> forall i :: 0 <= i < |r| ==> IsDateChar(r[i])
    ensures t == TelField ==> forall i :: 0 <= i < |r| ==> IsTelChar(r[i])
  {
    var v := Trim(value);
    match t
    case EmailField => sanitizeEmail(v)
    case DateField => KeepWhere(v, IsDateChar)
    case TelField => KeepWhere(v, IsTelChar)
    case TextField => sanitizeText(v)
  }

  /** The tel filter keeps every digit: the digits of the sanitised phone are those of the trimmed input. */
  lemma TelKeepsDigits(value: string, sanitizeText: string -> string, sanitizeEmail: string -> string)
    ensures StripNonDigits(SanitizeByType(value, TelField, sanitizeText, sanitizeEmail)) == StripNonDigits(Trim(value))
  {
    KeepWhereNarrow(Trim(value), IsTelChar, IsDigit);
  }

  /** A trimmed value made only of allowed characters passes the date and tel filters unchanged,
    * and a value holding any other character does not. */
  lemma FiltersKeepCleanInput(value: string, sanitizeText: string -> string, sanitizeEmail: string -> string)
    ensures SanitizeByType(value, DateField, sanitizeText, sanitizeEmail) == Trim(value)
            <==> forall i :: 0 <= i < |Trim(value)| ==> IsDateChar(Trim(value)[i])
    ensures SanitizeByType(value, TelField, sanitizeText, sanitizeEmail) == Trim(value)
            <==> forall i :: 0 <= i < |Trim(value)| ==> IsTelChar(Trim(value)[i])
  {
    KeepWhereIdentity(Trim(value), IsDateChar);
    KeepWhereIdentity(Trim(value), IsTelChar);
  }

  // ------------------------------------------------------------ client ip

  /** The request's server variables; an unset one is "". */
  datatype ServerVars = ServerVars(remoteAddr: string, forwardedFor: string, clientIp: string)

  /** `explode(',', $s)[0]` */
  function FirstListEntry(s: string): (r: string)
    ensures |r| <= |s| && r == s[..|r|]
    ensures forall i :: 0 <= i < |r| ==> r[i] != ','
    ensures |r| < |s| ==> s[|r|] == ','
  {
    if s == [] || s[0] == ',' then [] else [s[0]] + FirstListEntry(s[1..])
  }

  /** `trim(explode(',', $forwarded)[0])`: the client end of an X-Forwarded-For list. */
  function ForwardedClient(forwarded: string): string
  {
    Trim(FirstListEntry(forwarded))
  }

  /** One address `get_client_ip` may return: whether its server variable is set (not PHP-empty),
    * and the address taken from it after `sanitize_text_field`. */
  datatype Candidate = Candidate(isSet: bool, address: string)

  /** The candidates in the order they are tried: REMOTE_ADDR, the first entry of X-Forwarded-For
    * and CLIENT_IP, each through `sanitize_text_field` (the function `sanitize`). */
  function Candidates(server: ServerVars, sanitize: string -> string): (c: seq<Candidate>)
    ensures |c| == 3
  {
    [Candidate(!PhpEmpty(server.remoteAddr), sanitize(server.remoteAddr)),
     Candidate(!PhpEmpty(server.forwardedFor), ForwardedClient(sanitize(server.forwardedFor))),
     Candidate(!PhpEmpty(server.clientIp), sanitize(server.clientIp))]
  }

  /** A candidate is taken when its variable is set and `filter_var(..., FILTER_VALIDATE_IP)`
    * (the function `isIp`) accepts its address. */
  predicate Accepted(c: Candidate, isIp: string -> bool)
  {
    c.isSet && isIp(c.address)
  }

  /** The first accepted candidate's address, else "0.0.0.0": the reference reading of the
    * fallback chain. */
  function FirstAccepted(cs: seq<Candidate>, isIp: string -> bool): (ip: string)
    ensures (forall i :: 0 <= i < |cs| ==> !Accepted(cs[i], isIp)) ==> ip == "0.0.0.0"
  {
    if cs == [] then "0.0.0.0"
    else if Accepted(cs[0], isIp) then cs[0].address
    else FirstAccepted(cs[1..], isIp)
  }

  /** `get_client_ip`: REMOTE_ADDR, then the first X-Forwarded-For entry, then CLIENT_IP, each
    * sanitised and taken when set and valid, else "0.0.0.0". */
  function ClientIp(server: ServerVars, sanitize: string -> string, isIp: string -> bool): (ip: string)
    ensures ip == "0.0.0.0" || isIp(ip)
    ensures !PhpEmpty(server.remoteAddr) && isIp(sanitize(server.remoteAddr)) ==> ip == sanitize(server.remoteAddr)
  {
    var remote := sanitize(server.remoteAddr);
    var forwarded := ForwardedClient(sanitize(server.forwardedFor));
    var client := sanitize(server.clientIp);
    if !PhpEmpty(server.remoteAddr) && isIp(remote) then remote
    else if !PhpEmpty(server.forwardedFor) && isIp(forwarded) then forwarded
    else if !PhpEmpty(server.clientIp) && isIp(client) then client
    else "0.0.0.0"
  }

  /** The address is the first candidate, in the order REMOTE_ADDR, X-Forwarded-For, CLIENT_IP,
    * that is set and valid, and "0.0.0.0" when the validator refuses all three. */
  lemma ClientIpIsFirstAccepted(server: ServerVars, sanitize: string -> string, isIp: string -> bool)
    ensures ClientIp(server, sanitize, isIp) == FirstAccepted(Candidates(server, sanitize), isIp)
    ensures var c := Candidates(server, sanitize);
      forall i :: 0 <= i < |c| && Accepted(c[i], isIp) && (forall j :: 0 <= j < i ==> !Accepted(c[j], isIp))
        ==> ClientIp(server, sanitize, isIp) == c[i].address
    ensures var c := Candidates(server, sanitize);
      (forall i :: 0 <= i < |c| ==> !Accepted(c[i], isIp)) ==> ClientIp(server, sanitize, isIp) == "0.0.0.0"
  {
    var c := Candidates(server, sanitize);
    assert c[1..][1..][1..] == [];
    assert FirstAccepted(c[1..][1..][1..], isIp) == "0.0.0.0";
    assert FirstAccepted(c[1..][1..], isIp) == if Accepted(c[2], isIp) then c[2].address else "0.0.0.0";
    assert FirstAccepted(c[1..], isIp) == if Accepted(c[1], isIp) then c[1].address else FirstAccepted(c[1..][1..], isIp);
    forall i | 0 <= i < |c| && Accepted(c[i], isIp) && (forall j :: 0 <= j < i ==> !Accepted(c[j], isIp))
      ensures ClientIp(server, sanitize, isIp) == c[i].address
    {
      if i > 0 { assert !Accepted(c[0], isIp); }
      if i > 1 { assert !Accepted(c[1], isIp); }
    }
  }

  /** The address never comes back empty, since the validator rejects "". */
  lemma ClientIpNeverEmpty(server: ServerVars, sanitize: string -> string, isIp: string -> bool)
    requires !isIp("")
    ensures ClientIp(server, sanitize, isIp) != ""
  {
  }

  /** A header is consulted only when REMOTE_ADDR is missing or its sanitised value invalid. */
  lemma ClientIpPrefersRemoteAddr(server: ServerVars, sanitize: string -> string, isIp: string -> bool)
    requires ClientIp(server, sanitize, isIp) != sanitize(server.remoteAddr)
    ensures PhpEmpty(server.remoteAddr) || !isIp(sanitize(server.remoteAddr))
  {
  }

  // ------------------------------------------------------------ send limit

  /** `get_rate_limit_key`: the send counter of this phone from this client address. */
  function RateLimitKey(phone: string, server: ServerVars, sanitize: string -> string, isIp: string -> bool): Key
  {
    SendCounter(phone, ClientIp(server, sanitize, isIp))
  }

  /** `check_rate_limit`: a send is allowed when no counter is live or its count is below 3. */
  function CheckRateLimit(entries: Entries, phone: string, server: ServerVars, sanitize: string -> string, isIp: string -> bool, now: int): (ok: bool)
    ensures ok <==> CountOf(entries, RateLimitKey(phone, server, sanitize, isIp), now) < OtpMaxAttempts
  {
    var attempts := Lookup(entries, RateLimitKey(phone, server, sanitize, isIp), now);
    if attempts.None? then true else IntValue(attempts.value) < OtpMaxAttempts
  }

  /** `increment_rate_limit`: writes 1 when no counter is live and count + 1 otherwise,
    * each time with a fresh ten-minute lifetime. */
  method IncrementRateLimit(store: TransientStore, phone: string, server: ServerVars, sanitize: string -> string, isIp: string -> bool, now: int)
    modifies store
    ensures store.entries == Bumped(old(store.entries), RateLimitKey(phone, server, sanitize, isIp), OtpRateLimitMinutes * MinuteInSeconds, now)
  {
    var key := RateLimitKey(phone, server, sanitize, isIp);
    var attempts := Lookup(store.entries, key, now);
    BumpedWrite(store.entries, key, OtpRateLimitMinutes * MinuteInSeconds, now);
    if attempts.None? {
      store.Set(key, Count(1), OtpRateLimitMinutes * MinuteInSeconds, now);
    } else {
      store.Set(key, Count(IntValue(attempts.value) + 1), OtpRateLimitMinutes * MinuteInSeconds, now);
    }
  }

  // ------------------------------------------------------------ proof token

  /** `is_phone_verified` with the posted `otp_verification_token` passed in as `token`: true only
    * for a nine-digit number whose live stored token equals a non-empty presented one. A read only. */
  function IsPhoneVerified(entries: Entries, phone: string, token: string, now: int): bool
  {
    var local := NormalizePhone(phone);
    if |local| != 9 then false
    else if PhpEmpty(token) then false
    else
      var stored := Lookup(entries, VerifiedToken(local), now);
      stored.Some? && stored.value == Text(token)
  }

  /** The check succeeds exactly for the token stored under the number's key, and never for "" or "0". */
  lemma PhoneVerifiedExactly(entries: Entries, phone: string, token: string, now: int)
    ensures IsPhoneVerified(entries, phone, token, now)
            <==> IsLocalNumber(NormalizePhone(phone)) && !PhpEmpty(token)
                 && Lookup(entries, VerifiedToken(NormalizePhone(phone)), now) == Some(Text(token))
  {
  }

  // ------------------------------------------------------------- user meta

  /** `get_user_verified_phone`: the stored verified number, normalised, or "" when it is unset or PHP-falsy. */
  function UserVerifiedPhone(values: map<string, string>): (r: string)
    ensures r == "" || (AllDigits(r) && |r| <= 9 && r != "0")
  {
    var stored := MetaValue(values, VerifiedPhoneKey);
    var phone := if !PhpEmpty(stored) then NormalizePhone(stored) else stored;
    if PhpEmpty(phone) then "" else phone
  }

  /** A stored nine-digit number is returned as it is. */
  lemma UserVerifiedPhoneOfLocal(values: map<string, string>)
    requires IsLocalNumber(MetaValue(values, VerifiedPhoneKey))
    ensures UserVerifiedPhone(values) == MetaValue(values, VerifiedPhoneKey)
  {
    NormalizeLocalNumber(MetaValue(values, VerifiedPhoneKey));
  }

  /** `user_has_sms_consent`: false without a user, otherwise whether `_sms_consent` is "yes". */
  function UserHasSmsConsent(hasUser: bool, values: map<string, string>): bool
  {
    hasUser && MetaValue(values, SmsConsentKey) == "yes"
  }
}
