/**
 * includes/class-club-anketa.php: the legacy single-class copy of the OTP
 * lifecycle. Where its logic is the v3 logic the model reuses the v3
 * definitions and proves the two equal; where it differs (client address,
 * code handling of the gateway, no 995 removal on send, no verify lockout,
 * no length check on the proof token, the local part used for consent) it
 * has its own definitions, each with a lemma that shows the difference.
 */
module Legacy {
  import opened Wrappers
  import opened Strings
  import opened Transients
  import opened Meta
  import Utils
  import SmsProvider
  import OtpHandler
  import WooCommerce
  import Shortcode

  // ------------------------------------------------------------ client ip

  /** `get_client_ip`: the first non-empty of CLIENT_IP, the whole X-Forwarded-For value and
    * REMOTE_ADDR, through `sanitize_text_field` (the function `sanitize`); '' when all are empty. */
  function ClientIp(server: Utils.ServerVars, sanitize: string -> string): (ip: string)
    ensures !PhpEmpty(server.clientIp) ==> ip == sanitize(server.clientIp)
    ensures PhpEmpty(server.clientIp) && !PhpEmpty(server.forwardedFor) ==> ip == sanitize(server.forwardedFor)
    ensures PhpEmpty(server.clientIp) && PhpEmpty(server.forwardedFor) && !PhpEmpty(server.remoteAddr)
            ==> ip == sanitize(server.remoteAddr)
    ensures PhpEmpty(server.clientIp) && PhpEmpty(server.forwardedFor) && PhpEmpty(server.remoteAddr) ==> ip == ""
  {
    if !PhpEmpty(server.clientIp) then sanitize(server.clientIp)
    else if !PhpEmpty(server.forwardedFor) then sanitize(server.forwardedFor)
    else if !PhpEmpty(server.remoteAddr) then sanitize(server.remoteAddr)
    else ""
  }

  /** The client-supplied CLIENT_IP header wins over a valid REMOTE_ADDR, where the v3 helper
    * takes REMOTE_ADDR: a client can choose the address its sends are counted under. */
  lemma HeaderOverridesRemoteAddr(server: Utils.ServerVars, sanitize: string -> string, isIp: string -> bool)
    requires !PhpEmpty(server.clientIp) && !PhpEmpty(server.remoteAddr) && isIp(sanitize(server.remoteAddr))
    ensures ClientIp(server, sanitize) == sanitize(server.clientIp)
    ensures Utils.ClientIp(server, sanitize, isIp) == sanitize(server.remoteAddr)
  {
  }

  // ------------------------------------------------------------ send limit

  /** `get_rate_limit_key`: the send counter of this phone from the legacy client address. */
  function RateLimitKey(phone: string, server: Utils.ServerVars, sanitize: string -> string): Key
  {
    SendCounter(phone, ClientIp(server, sanitize))
  }

  /** `check_rate_limit`: allowed when no counter is live or its count is below 3. */
  function CheckRateLimit(entries: Entries, phone: string, server: Utils.ServerVars, sanitize: string -> string,
                          now: int): (ok: bool)
    ensures ok <==> CountOf(entries, RateLimitKey(phone, server, sanitize), now) < Utils.OtpMaxAttempts
  {
    var attempts := Lookup(entries, RateLimitKey(phone, server, sanitize), now);
    if attempts.None? then true else IntValue(attempts.value) < Utils.OtpMaxAttempts
  }

  /** `increment_rate_limit`: 1 when no counter is live, count + 1 otherwise, with a fresh ten-minute lifetime. */
  method IncrementRateLimit(store: TransientStore, phone: string, server: Utils.ServerVars, sanitize: string -> string,
                            now: int)
    modifies store
    ensures store.entries
            == Bumped(old(store.entries), RateLimitKey(phone, server, sanitize), OtpHandler.SendWindowSeconds, now)
  {
    var key := RateLimitKey(phone, server, sanitize);
    var attempts := Lookup(store.entries, key, now);
    if attempts.None? {
      store.Set(key, Count(1), Utils.OtpRateLimitMinutes * Utils.MinuteInSeconds, now);
    } else {
      store.Set(key, Count(IntValue(attempts.value) + 1), Utils.OtpRateLimitMinutes * Utils.MinuteInSeconds, now);
    }
  }

  // ------------------------------------------------------------- gateway

  /** The response chain of the legacy `send_sms`: any set `code` is used as it is, a 0000 prefix is
    * success, and only an exact string match picks one of the three named errors. A set code that is not
    * a string is never looked up; the raw body is read only when no code is set. */
  function Classify(response: SmsProvider.Response): (r: SmsProvider.SmsResult)
    ensures response.TransportError? ==> r == SmsProvider.Failed(SmsProvider.Transport(response.message))
    ensures r.Failed? ==> r.error != SmsProvider.NotConfigured
  {
    match response
    case TransportError(message) => SmsProvider.Failed(SmsProvider.Transport(message))
    case HttpBody(body, json) =>
      if json.JsonObject? && !json.code.Missing? then
        var code := SmsProvider.FieldText(json.code);
        if StartsWith(code, "0000") then SmsProvider.Delivered(SmsProvider.FieldText(json.messageId))
        else if json.code.JsonString? then SmsProvider.Failed(SmsProvider.ErrorForCode(code))
        else SmsProvider.Failed(SmsProvider.SendingFailed)
      else if StartsWith(body, "0000") then SmsProvider.Delivered(Trim(RemoveAll(body, "0000-")))
      else SmsProvider.Failed(SmsProvider.UnexpectedResponse)
  }

  /** The legacy `send_sms`: the same configuration check and request as v3, with the legacy chain. */
  function SendSms(creds: SmsProvider.Credentials, phone: string, message: string, response: SmsProvider.Response)
    : SmsProvider.Dispatch
  {
    if !SmsProvider.IsConfigured(creds) then SmsProvider.Dispatch(None, SmsProvider.Failed(SmsProvider.NotConfigured))
    else
      var request := SmsProvider.Request(SmsProvider.ApiUrl, creds.username, creds.password, creds.clientId,
                                         creds.serviceId, SmsProvider.Destination(phone), message,
                                         SmsProvider.TimeoutSeconds);
      SmsProvider.Dispatch(Some(request), Classify(response))
  }

  /** The OTP message of `ajax_send_otp` through the legacy `send_sms`. */
  function SendOtp(creds: SmsProvider.Credentials, phone: string, otp: string, response: SmsProvider.Response)
    : SmsProvider.Dispatch
  {
    SendSms(creds, phone, SmsProvider.OtpMessage(otp), response)
  }

  /** Both copies send the same request; only the reading of the response differs. */
  lemma SendSmsSameRequest(creds: SmsProvider.Credentials, phone: string, message: string, response: SmsProvider.Response)
    ensures SendSms(creds, phone, message, response).request == SmsProvider.SendSms(creds, phone, message, response).request
    ensures !SmsProvider.IsConfigured(creds) ==>
              SendSms(creds, phone, message, response) == SmsProvider.SendSms(creds, phone, message, response)
    ensures SmsProvider.IsConfigured(creds) ==> SendSms(creds, phone, message, response).result == Classify(response)
  {
  }

  /** The legacy OTP message goes to 995 and the nine digits, carries the code and is read by the
    * legacy chain. */
  lemma SendOtpCarriesCode(creds: SmsProvider.Credentials, digits: string, otp: string, response: SmsProvider.Response)
    requires SmsProvider.IsConfigured(creds) && Utils.IsLocalNumber(digits)
    ensures var d := SendOtp(creds, digits, otp, response);
      d.request.Some? && d.request.value.to == "995" + digits
      && d.request.value.text == SmsProvider.OtpMessage(otp)
      && d.result == Classify(response)
  {
    StripNonDigitsOfDigits(digits);
    SmsProvider.DestinationOfLocal(digits);
  }

  /** With a string code that has no characters outside [0-9A-Za-z] the two chains agree, and so they do
    * when no code is set at all. */
  lemma ClassifyAgreesOnCleanCodes(response: SmsProvider.Response)
    requires response.HttpBody? && response.json.JsonObject? && response.json.code.JsonString?
             ==> forall i :: 0 <= i < |response.json.code.s| ==> IsAsciiAlnum(response.json.code.s[i])
    requires response.HttpBody? && response.json.JsonObject? ==> !response.json.code.JsonScalar?
    ensures Classify(response) == SmsProvider.Classify(response)
  {
    if response.HttpBody? && response.json.JsonObject? && response.json.code.JsonString? {
      KeepWhereIdentity(response.json.code.s, IsAsciiAlnum);
    }
  }

  /** A padded code is not cleaned: " 0000 " is a generic failure here and a success in v3. */
  lemma PaddedCodeFails(body: string)
    ensures Classify(SmsProvider.HttpBody(body, SmsProvider.JsonObject(SmsProvider.JsonString(" 0000 "), SmsProvider.Missing)))
            == SmsProvider.Failed(SmsProvider.SendingFailed)
    ensures SmsProvider.Classify(SmsProvider.HttpBody(body, SmsProvider.JsonObject(SmsProvider.JsonString(" 0000 "), SmsProvider.Missing)))
            == SmsProvider.Delivered("")
  {
    PaddedCodeUncleaned(body);
    SmsProvider.PaddedCodeIsSuccess(body);
  }

  /** " 0000 " has no 0000 prefix and matches no error code, so it falls to the generic failure. */
  lemma PaddedCodeUncleaned(body: string)
    ensures Classify(SmsProvider.HttpBody(body, SmsProvider.JsonObject(SmsProvider.JsonString(" 0000 "), SmsProvider.Missing)))
            == SmsProvider.Failed(SmsProvider.SendingFailed)
  {
    assert !StartsWith(" 0000 ", "0000") by { assert " 0000 "[0] != "0000"[0]; }
    assert SmsProvider.ErrorForCode(" 0000 ") == SmsProvider.SendingFailed;
  }

  /** A string code without the 0000 prefix is looked up in the error table exactly as sent,
    * with no cleaning, so any padding leads to the generic failure. */
  lemma StringCodeUncleaned(body: string, code: string, messageId: SmsProvider.JsonField)
    requires !StartsWith(code, "0000")
    ensures Classify(SmsProvider.HttpBody(body, SmsProvider.JsonObject(SmsProvider.JsonString(code), messageId)))
            == SmsProvider.Failed(SmsProvider.ErrorForCode(code))
  {
  }

  /** A set code that is not a string and has no 0000 prefix fails without looking at the body;
    * v3 ignores such a code and reads the body instead. */
  lemma ScalarCodeIgnoresBody(body: string, text: string, messageId: SmsProvider.JsonField)
    requires !StartsWith(text, "0000")
    ensures Classify(SmsProvider.HttpBody(body, SmsProvider.JsonObject(SmsProvider.JsonScalar(text), messageId)))
            == SmsProvider.Failed(SmsProvider.SendingFailed)
    ensures SmsProvider.Classify(SmsProvider.HttpBody(body, SmsProvider.JsonObject(SmsProvider.JsonScalar(text), messageId)))
            == SmsProvider.Classify(SmsProvider.HttpBody(body, SmsProvider.NotAnArray))
  {
  }

  /** Success comes only from a 0000 prefix: of the set code when there is one, else of the body. */
  lemma SuccessOnlyOnZeroCode(response: SmsProvider.Response)
    ensures Classify(response).Delivered?
            <==> response.HttpBody?
                 && (if response.json.JsonObject? && !response.json.code.Missing?
                     then StartsWith(SmsProvider.FieldText(response.json.code), "0000")
                     else StartsWith(response.body, "0000"))
  {
  }

  // --------------------------------------------------------- send handler

  /** The legacy `ajax_send_otp` on the store `entries`: the posted phone is only stripped of
    * non-digits, so it must already be nine digits; then the same store-send-count order as v3. */
  function SendSpec(entries: Entries, nonceOk: bool, phone: string, server: Utils.ServerVars, sanitize: string -> string,
                    random: int, creds: SmsProvider.Credentials, response: SmsProvider.Response, now: int)
    : OtpHandler.SendOutcome
    requires 0 <= random <= 999999
  {
    if !nonceOk then OtpHandler.SendOutcome(OtpHandler.SendFailed(OtpHandler.BadNonce), entries, None)
    else
      var digits := StripNonDigits(phone);
      if |digits| != 9 then OtpHandler.SendOutcome(OtpHandler.SendFailed(OtpHandler.InvalidPhone), entries, None)
      else if !CheckRateLimit(entries, digits, server, sanitize, now) then
        OtpHandler.SendOutcome(OtpHandler.SendFailed(OtpHandler.TooManyAttempts), entries, None)
      else
        var otp := Utils.GenerateOtp(random);
        OtpHandler.SendPastGuards(entries, digits, RateLimitKey(digits, server, sanitize), otp,
                                  SendOtp(creds, digits, otp, response), now)
  }

  /** The legacy `ajax_send_otp`. */
  method AjaxSendOtp(store: TransientStore, nonceOk: bool, phone: string, server: Utils.ServerVars,
                     sanitize: string -> string, random: int, creds: SmsProvider.Credentials,
                     response: SmsProvider.Response, now: int)
    returns (result: OtpHandler.SendResult, sms: Option<SmsProvider.Request>)
    requires 0 <= random <= 999999
    modifies store
    ensures OtpHandler.SendOutcome(result, store.entries, sms)
            == SendSpec(old(store.entries), nonceOk, phone, server, sanitize, random, creds, response, now)
  {
    if !nonceOk {
      return OtpHandler.SendFailed(OtpHandler.BadNonce), None;
    }
    var digits := StripNonDigits(phone);
    if |digits| != 9 {
      return OtpHandler.SendFailed(OtpHandler.InvalidPhone), None;
    }
    if !CheckRateLimit(store.entries, digits, server, sanitize, now) {
      return OtpHandler.SendFailed(OtpHandler.TooManyAttempts), None;
    }
    var otp := Utils.GenerateOtp(random);
    store.Set(OtpCode(digits), Text(otp), Utils.OtpExpirySeconds, now);
    var d := SendOtp(creds, digits, otp, response);
    sms := d.request;
    if d.result.Delivered? {
      IncrementRateLimit(store, digits, server, sanitize, now);
      result := OtpHandler.Sent(Utils.OtpExpirySeconds);
    } else {
      result := OtpHandler.SendFailed(OtpHandler.SmsFailed(d.result.error));
    }
  }

  /** The international spelling of a valid number is refused as not nine digits and nothing is
    * written, where the v3 handler normalises it to the number. */
  lemma SendRejectsCountryCode(entries: Entries, local: string, server: Utils.ServerVars, sanitize: string -> string,
                               random: int, creds: SmsProvider.Credentials, response: SmsProvider.Response, now: int)
    requires Utils.IsLocalNumber(local) && 0 <= random <= 999999
    ensures SendSpec(entries, true, "+995" + local, server, sanitize, random, creds, response, now)
            == OtpHandler.SendOutcome(OtpHandler.SendFailed(OtpHandler.InvalidPhone), entries, None)
    ensures Utils.NormalizePhone("+995" + local) == local
  {
    Utils.InternationalNumber(local);
  }

  /** Past the guards the code is stored for 300 s before the SMS goes out, whatever the gateway says;
    * the send counter moves by one, for ten minutes, exactly when the gateway accepted the message;
    * nothing else changes. */
  lemma SendStoresCodeFirst(entries: Entries, phone: string, server: Utils.ServerVars, sanitize: string -> string,
                            random: int, creds: SmsProvider.Credentials, response: SmsProvider.Response,
                            now: int, later: int)
    requires 0 <= random <= 999999
    requires |StripNonDigits(phone)| == 9 && CheckRateLimit(entries, StripNonDigits(phone), server, sanitize, now)
    requires now <= later <= now + OtpHandler.SendWindowSeconds
    ensures var s := SendSpec(entries, true, phone, server, sanitize, random, creds, response, now);
      var digits := StripNonDigits(phone);
      var key := RateLimitKey(digits, server, sanitize);
      OtpCode(digits) in s.entries && s.entries[OtpCode(digits)] == Entry(Text(Utils.GenerateOtp(random)), now + 300)
      && (s.result.Sent? <==> SendOtp(creds, digits, Utils.GenerateOtp(random), response).result.Delivered?)
      && (s.result.Sent? ==> CountOf(s.entries, key, later) == CountOf(entries, key, now) + 1)
      && (!s.result.Sent? ==> (key in s.entries <==> key in entries) && (key in entries ==> s.entries[key] == entries[key]))
      && (forall k :: k != key && k != OtpCode(digits) ==>
            (k in s.entries <==> k in entries) && (k in entries ==> s.entries[k] == entries[k]))
  {
    var digits := StripNonDigits(phone);
    var otp := Utils.GenerateOtp(random);
    OtpHandler.PastGuardsEffect(entries, digits, RateLimitKey(digits, server, sanitize), otp,
                                SendOtp(creds, digits, otp, response), now, later);
  }

  /** The store invariant of the v3 endpoints holds for the legacy send as well. */
  lemma SendPreservesInvariant(entries: Entries, nonceOk: bool, phone: string, server: Utils.ServerVars,
                               sanitize: string -> string, random: int, creds: SmsProvider.Credentials,
                               response: SmsProvider.Response, now: int)
    requires 0 <= random <= 999999 && OtpHandler.StoreInvariant(entries)
    ensures OtpHandler.StoreInvariant(SendSpec(entries, nonceOk, phone, server, sanitize, random, creds, response, now).entries)
  {
    var digits := StripNonDigits(phone);
    if nonceOk && |digits| == 9 && CheckRateLimit(entries, digits, server, sanitize, now) {
      var otp := Utils.GenerateOtp(random);
      OtpHandler.PastGuardsPreservesInvariant(entries, digits, RateLimitKey(digits, server, sanitize), otp,
                                              SendOtp(creds, digits, otp, response), now);
    }
  }

  // ------------------------------------------------------- verify handler

  /** The store after a legacy success: the code gone and the token stored for 300 s. */
  function VerifiedEntries(entries: Entries, digits: string, token: string, now: int): Entries
  {
    (entries - {OtpCode(digits)})[VerifiedToken(digits) := Entry(Text(token), now + Utils.OtpExpirySeconds)]
  }

  /** The legacy `ajax_verify_otp` on the store `entries`: no attempt counter, so a failure of any kind
    * only answers. */
  function VerifySpec(entries: Entries, nonceOk: bool, phone: string, code: string, token: string, now: int)
    : OtpHandler.Step<OtpHandler.VerifyResult>
  {
    if !nonceOk then OtpHandler.Step(OtpHandler.VerifyFailed(OtpHandler.BadNonce), entries)
    else
      var digits := StripNonDigits(phone);
      if |digits| != 9 || ByteLength(code) != 6 then OtpHandler.Step(OtpHandler.VerifyFailed(OtpHandler.InvalidFormat), entries)
      else
        var stored := Lookup(entries, OtpCode(digits), now);
        if stored.None? then OtpHandler.Step(OtpHandler.VerifyFailed(OtpHandler.CodeExpired), entries)
        else if stored.value != Text(code) then OtpHandler.Step(OtpHandler.VerifyFailed(OtpHandler.WrongCode), entries)
        else OtpHandler.Step(OtpHandler.Verified(token, digits), VerifiedEntries(entries, digits, token, now))
  }

  /** The legacy `ajax_verify_otp`; a logged-in user's `_verified_phone_number` is set on success. */
  method AjaxVerifyOtp(store: TransientStore, meta: UserMeta, loggedIn: bool, nonceOk: bool,
                       phone: string, code: string, token: string, now: int)
    returns (result: OtpHandler.VerifyResult)
    requires Utils.IsProofToken(token)
    modifies store, meta
    ensures OtpHandler.Step(result, store.entries) == VerifySpec(old(store.entries), nonceOk, phone, code, token, now)
    ensures meta.values == if loggedIn && result.Verified? then old(meta.values)[VerifiedPhoneKey := result.verifiedPhone]
                           else old(meta.values)
  {
    if !nonceOk {
      return OtpHandler.VerifyFailed(OtpHandler.BadNonce);
    }
    var digits := StripNonDigits(phone);
    if |digits| != 9 || ByteLength(code) != 6 {
      return OtpHandler.VerifyFailed(OtpHandler.InvalidFormat);
    }
    var stored := Lookup(store.entries, OtpCode(digits), now);
    if stored.None? {
      return OtpHandler.VerifyFailed(OtpHandler.CodeExpired);
    }
    if stored.value != Text(code) {
      return OtpHandler.VerifyFailed(OtpHandler.WrongCode);
    }
    store.Delete(OtpCode(digits));
    store.Set(VerifiedToken(digits), Text(token), Utils.OtpExpirySeconds, now);
    if loggedIn {
      meta.Update(VerifiedPhoneKey, digits);
    }
    return OtpHandler.Verified(token, digits);
  }

  /** A request fails exactly when it lacks the nonce, is malformed, or does not present the live stored
    * code; a failure leaves the store as it was, and nothing is ever locked out. */
  lemma VerifyFailuresChangeNothing(entries: Entries, nonceOk: bool, phone: string, code: string, token: string, now: int)
    ensures var s := VerifySpec(entries, nonceOk, phone, code, token, now);
      var digits := StripNonDigits(phone);
      (s.result.VerifyFailed? <==>
         !(nonceOk && |digits| == 9 && ByteLength(code) == 6 && Lookup(entries, OtpCode(digits), now) == Some(Text(code))))
      && (s.result.VerifyFailed? ==> s.entries == entries && s.result.error != OtpHandler.LockedOut)
  {
  }

  /** The right code deletes the code, stores the token for 300 s and returns it with the digits; the
    * number then counts as verified for that token until it lapses, the same code again is "expired",
    * and no other key changes. */
  lemma VerifyMatchIssuesToken(entries: Entries, phone: string, code: string, token: string, now: int,
                               later: int, token2: string)
    requires Utils.IsProofToken(token)
    requires |StripNonDigits(phone)| == 9 && ByteLength(code) == 6
    requires Lookup(entries, OtpCode(StripNonDigits(phone)), now) == Some(Text(code))
    requires now <= later
    ensures var digits := StripNonDigits(phone);
      var s := VerifySpec(entries, true, phone, code, token, now);
      s.result == OtpHandler.Verified(token, digits)
      && OtpCode(digits) !in s.entries
      && (IsPhoneVerified(s.entries, phone, token, later) <==> later <= now + 300)
      && VerifySpec(s.entries, true, phone, code, token2, later).result == OtpHandler.VerifyFailed(OtpHandler.CodeExpired)
      && (forall k :: k != OtpCode(digits) && k != VerifiedToken(digits) ==>
            (k in s.entries <==> k in entries) && (k in entries ==> s.entries[k] == entries[k]))
  {
    var digits := StripNonDigits(phone);
    var s := VerifySpec(entries, true, phone, code, token, now);
    assert !PhpEmpty(token) by { assert |token| == 32; }
    assert Lookup(s.entries, VerifiedToken(digits), later) == if later <= now + 300 then Some(Text(token)) else None;
  }

  /** Where v3 answers "locked out" after five counted failures, the legacy handler still accepts the code. */
  lemma NoLockout(entries: Entries, phone: string, code: string, token: string, now: int)
    requires Utils.IsLocalNumber(StripNonDigits(phone)) && ByteLength(code) == 6
    requires Lookup(entries, OtpCode(StripNonDigits(phone)), now) == Some(Text(code))
    requires CountOf(entries, VerifyCounter(StripNonDigits(phone)), now) >= OtpHandler.VerifyMaxAttempts
    ensures VerifySpec(entries, true, phone, code, token, now).result == OtpHandler.Verified(token, StripNonDigits(phone))
    ensures OtpHandler.VerifySpec(entries, true, phone, code, token, now).result == OtpHandler.VerifyFailed(OtpHandler.LockedOut)
  {
    assert !PhpEmpty(phone);
    Utils.NormalizeShortNumber(phone);
  }

  /** The store after the attempts, in order, against one posted phone. */
  function GuessRun(entries: Entries, phone: string, attempts: seq<OtpHandler.Attempt>, token: string): Entries
    decreases |attempts|
  {
    if attempts == [] then entries
    else GuessRun(VerifySpec(entries, true, phone, attempts[0].code, token, attempts[0].at).entries, phone, attempts[1..], token)
  }

  /** Any number of attempts none of which presents the live stored code leave the store untouched. */
  lemma {:induction false} WrongGuessesChangeNothing(entries: Entries, phone: string, attempts: seq<OtpHandler.Attempt>,
                                                     token: string)
    requires forall i :: 0 <= i < |attempts| ==>
               Lookup(entries, OtpCode(StripNonDigits(phone)), attempts[i].at) != Some(Text(attempts[i].code))
    ensures GuessRun(entries, phone, attempts, token) == entries
    decreases |attempts|
  {
    if attempts != [] {
      VerifyFailuresChangeNothing(entries, true, phone, attempts[0].code, token, attempts[0].at);
      var rest := attempts[1..];
      assert forall i :: 0 <= i < |rest| ==> rest[i] == attempts[i + 1];
      WrongGuessesChangeNothing(entries, phone, rest, token);
    }
  }

  /** Guessing is unlimited: after any run of wrong codes, the stored code is still accepted while it lives. */
  lemma UnlimitedGuesses(entries: Entries, phone: string, attempts: seq<OtpHandler.Attempt>, token: string,
                         code: string, at: int)
    requires |StripNonDigits(phone)| == 9 && ByteLength(code) == 6
    requires forall i :: 0 <= i < |attempts| ==>
               Lookup(entries, OtpCode(StripNonDigits(phone)), attempts[i].at) != Some(Text(attempts[i].code))
    requires Lookup(entries, OtpCode(StripNonDigits(phone)), at) == Some(Text(code))
    ensures VerifySpec(GuessRun(entries, phone, attempts, token), true, phone, code, token, at).result
            == OtpHandler.Verified(token, StripNonDigits(phone))
  {
    WrongGuessesChangeNothing(entries, phone, attempts, token);
  }

  /** A code requested and submitted within 300 s verifies the number for the issued token. */
  lemma SendThenVerify(entries: Entries, phone: string, server: Utils.ServerVars, sanitize: string -> string,
                       random: int, creds: SmsProvider.Credentials, response: SmsProvider.Response,
                       token: string, t0: int, t1: int)
    requires 0 <= random <= 999999 && Utils.IsProofToken(token)
    requires |StripNonDigits(phone)| == 9 && CheckRateLimit(entries, StripNonDigits(phone), server, sanitize, t0)
    requires t0 <= t1 <= t0 + 300
    ensures var s := SendSpec(entries, true, phone, server, sanitize, random, creds, response, t0);
      var v := VerifySpec(s.entries, true, phone, Utils.GenerateOtp(random), token, t1);
      v.result == OtpHandler.Verified(token, StripNonDigits(phone)) && IsPhoneVerified(v.entries, phone, token, t1)
  {
    var s := SendSpec(entries, true, phone, server, sanitize, random, creds, response, t0);
    SendStoresCodeFirst(entries, phone, server, sanitize, random, creds, response, t0, t0);
    OtpHandler.OtpByteLength(random);
    VerifyMatchIssuesToken(s.entries, phone, Utils.GenerateOtp(random), token, t1, t1, token);
  }

  /** The legacy verify keeps the v3 store invariant: it writes only a text token. */
  lemma VerifyPreservesInvariant(entries: Entries, nonceOk: bool, phone: string, code: string, token: string, now: int)
    requires OtpHandler.StoreInvariant(entries)
    ensures OtpHandler.StoreInvariant(VerifySpec(entries, nonceOk, phone, code, token, now).entries)
  {
  }

  // ------------------------------------------------------------ proof token

  /** The legacy `is_phone_verified`, the posted token passed in as `token`: the digits of `phone` are
    * the key as they are, with no length check. */
  function IsPhoneVerified(entries: Entries, phone: string, token: string, now: int): bool
  {
    if PhpEmpty(token) then false
    else
      var stored := Lookup(entries, VerifiedToken(StripNonDigits(phone)), now);
      stored.Some? && stored.value == Text(token)
  }

  /** On a number whose digits are nine, the legacy check is the v3 check. */
  lemma IsPhoneVerifiedAgrees(entries: Entries, phone: string, token: string, now: int)
    requires Utils.IsLocalNumber(StripNonDigits(phone))
    ensures IsPhoneVerified(entries, phone, token, now) == Utils.IsPhoneVerified(entries, phone, token, now)
  {
    assert !PhpEmpty(phone);
    Utils.NormalizeShortNumber(phone);
  }

  /** For every digit string shorter than nine (other than "" and "0"), a live token stored under it
    * is accepted by the legacy check and refused by v3, which demands nine digits. Neither verify
    * handler stores a token under such a key, so the difference is not reached through them. */
  lemma NoLengthCheck(entries: Entries, d: string, token: string, now: int)
    requires AllDigits(d) && 0 < |d| < 9 && d != "0" && !PhpEmpty(token)
    requires Lookup(entries, VerifiedToken(d), now) == Some(Text(token))
    ensures IsPhoneVerified(entries, d, token, now)
    ensures !Utils.IsPhoneVerified(entries, d, token, now)
  {
    StripNonDigitsOfDigits(d);
    Utils.NormalizeShortNumber(d);
  }

  // ------------------------------------------------------------- user meta

  /** The legacy `get_user_verified_phone`: a set, PHP-truthy number stripped to digits, less a leading
    * 995 when longer than nine, cut to its last nine; '' otherwise. */
  function UserVerifiedPhone(values: map<string, string>): (r: string)
    ensures r == "" || (AllDigits(r) && |r| <= 9)
  {
    var stored := MetaValue(values, VerifiedPhoneKey);
    if PhpEmpty(stored) then ""
    else
      var digits := StripNonDigits(stored);
      var local := if |digits| > 9 && StartsWith(digits, "995") then digits[3..] else digits;
      var phone := if |local| > 9 then local[|local| - 9..] else local;
      if PhpEmpty(phone) then "" else phone
  }

  /** Both copies read the same verified number. */
  lemma UserVerifiedPhoneAgrees(values: map<string, string>)
    ensures UserVerifiedPhone(values) == Utils.UserVerifiedPhone(values)
  {
  }

  // ------------------------------------------------------- consent change

  /** The local part of the billing number in the legacy `save_account_sms_consent`: the nine digits
    * after a final 995 when the regex `995(\d{9})$` matches, else the last nine of a longer string. */
  function LocalPart(phone: string): string
  {
    var d := StripNonDigits(phone);
    if |d| >= 12 && d[|d| - 12..|d| - 9] == "995" then d[|d| - 9..]
    else if |d| > 9 then d[|d| - 9..]
    else d
  }

  /** Both branches of the regex come to the same thing: the last nine digits of a longer number,
    * the digits themselves otherwise. */
  lemma LocalPartIsLastNine(phone: string)
    ensures var d := StripNonDigits(phone);
      LocalPart(phone) == (if |d| > 9 then d[|d| - 9..] else d)
      && (|d| >= 9 ==> Utils.IsLocalNumber(LocalPart(phone)))
  {
  }

  /** For nine digits, and for twelve or more, the legacy local part is the v3 normalised number. */
  lemma LocalPartAgrees(phone: string)
    requires |StripNonDigits(phone)| == 9 || |StripNonDigits(phone)| >= 12
    ensures LocalPart(phone) == Utils.NormalizePhone(phone)
  {
    var d := StripNonDigits(phone);
    if |d| == 9 {
      assert !PhpEmpty(phone);
      Utils.NormalizeShortNumber(phone);
    } else {
      Utils.NormalizeLongNumber(phone);
    }
  }

  /** Ten or eleven digits starting 995: the legacy local part keeps the last nine, v3 drops the prefix and
    * is left with seven or eight digits, which no token can verify. */
  lemma LocalPartOfShortInternational(d: string)
    requires AllDigits(d) && 10 <= |d| <= 11 && StartsWith(d, "995")
    ensures LocalPart(d) == d[|d| - 9..] && Utils.IsLocalNumber(LocalPart(d))
    ensures Utils.NormalizePhone(d) == d[3..] && !Utils.IsLocalNumber(Utils.NormalizePhone(d))
  {
    StripNonDigitsOfDigits(d);
    LocalPartIsLastNine(d);
    Utils.NormalizeCountryCode(d);
  }

  /** The eleven-digit instance: "99512345678" has local part "512345678" and v3 number "12345678". */
  lemma LocalPartOfElevenDigits()
    ensures LocalPart("99512345678") == "512345678"
    ensures Utils.NormalizePhone("99512345678") == "12345678"
  {
    var d := "99512345678";
    assert AllDigits(d) by {
      forall i | 0 <= i < |d| ensures IsDigit(d[i]) { }
    }
    assert d[..3] == "995";
    LocalPartOfShortInternational(d);
    assert d[|d| - 9..] == "512345678" && d[3..] == "12345678";
  }

  /** The legacy `save_account_sms_consent` on the user's meta `values`: the v3 consent rule, over the
    * legacy local part and the legacy token check. */
  function SaveConsentSpec(values: map<string, string>, smsConsent: Option<string>, callConsent: Option<string>,
                           entries: Entries, token: string, now: int): WooCommerce.MetaStep
  {
    if smsConsent.None? then WooCommerce.MetaStep([], values)
    else
      var local := LocalPart(MetaValue(values, BillingPhoneKey));
      WooCommerce.ConsentChange(values, smsConsent.value, callConsent, local, IsPhoneVerified(entries, local, token, now))
  }

  /** The legacy `save_account_sms_consent`. */
  method SaveAccountSmsConsent(meta: UserMeta, smsConsent: Option<string>, callConsent: Option<string>,
                               store: TransientStore, token: string, now: int)
    returns (notices: seq<WooCommerce.Notice>)
    modifies meta
    ensures WooCommerce.MetaStep(notices, meta.values)
            == SaveConsentSpec(old(meta.values), smsConsent, callConsent, store.entries, token, now)
  {
    if smsConsent.None? {
      return [];
    }
    var local := LocalPart(MetaValue(meta.values, BillingPhoneKey));
    var verified := IsPhoneVerified(store.entries, local, token, now);
    notices := WooCommerce.ApplyConsent(meta, smsConsent.value, callConsent, local, verified);
  }

  /** When the billing number has nine digits, or twelve or more, the legacy save is the v3 save. */
  lemma SaveConsentAgrees(values: map<string, string>, smsConsent: Option<string>, callConsent: Option<string>,
                          entries: Entries, token: string, now: int)
    requires var d := StripNonDigits(MetaValue(values, BillingPhoneKey)); |d| == 9 || |d| >= 12
    ensures SaveConsentSpec(values, smsConsent, callConsent, entries, token, now)
            == WooCommerce.SaveConsentSpec(values, smsConsent, callConsent, entries, token, now)
  {
    var phone := MetaValue(values, BillingPhoneKey);
    var local := LocalPart(phone);
    LocalPartAgrees(phone);
    LocalPartIsLastNine(phone);
    StripNonDigitsOfDigits(local);
    IsPhoneVerifiedAgrees(entries, local, token, now);
  }

  // ------------------------------------------------------------ validators

  /** The legacy `validate_checkout_phone_verification`. */
  function CheckoutNotices(billingPhone: Option<string>, loggedIn: bool, values: map<string, string>,
                           entries: Entries, token: string, now: int): seq<WooCommerce.Notice>
  {
    if billingPhone.None? then []
    else
      var local := Utils.NormalizePhone(billingPhone.value);
      if |local| != 9 then []
      else if loggedIn && local == UserVerifiedPhone(values) then []
      else if !IsPhoneVerified(entries, local, token, now) then [WooCommerce.OrderVerificationRequired]
      else []
  }

  /** The legacy checkout validator raises exactly the notices of the v3 one. */
  lemma CheckoutAgrees(billingPhone: Option<string>, loggedIn: bool, values: map<string, string>,
                       entries: Entries, token: string, now: int)
    ensures CheckoutNotices(billingPhone, loggedIn, values, entries, token, now)
            == WooCommerce.CheckoutNotices(billingPhone, loggedIn, values, entries, token, now)
  {
    if billingPhone.Some? {
      var local := Utils.NormalizePhone(billingPhone.value);
      if |local| == 9 {
        StripNonDigitsOfDigits(local);
        IsPhoneVerifiedAgrees(entries, local, token, now);
      }
    }
  }

  /** The legacy `validate_account_phone_verification` on the user's meta `values`. */
  function AccountCheck(values: map<string, string>, billingPhone: Option<string>, entries: Entries,
                        token: string, now: int): WooCommerce.MetaStep
  {
    if billingPhone.None? then WooCommerce.MetaStep([], values)
    else
      var local := Utils.NormalizePhone(billingPhone.value);
      if |local| != 9 then WooCommerce.MetaStep([], values)
      else if local == UserVerifiedPhone(values) then WooCommerce.MetaStep([], values)
      else if !IsPhoneVerified(entries, local, token, now) then
        WooCommerce.MetaStep([WooCommerce.NewPhoneVerificationRequired], values)
      else WooCommerce.MetaStep([], values[VerifiedPhoneKey := local])
  }

  /** The legacy `validate_account_phone_verification`. */
  method ValidateAccountPhoneVerification(meta: UserMeta, billingPhone: Option<string>, store: TransientStore,
                                          token: string, now: int)
    returns (errors: seq<WooCommerce.Notice>)
    modifies meta
    ensures WooCommerce.MetaStep(errors, meta.values) == AccountCheck(old(meta.values), billingPhone, store.entries, token, now)
  {
    if billingPhone.None? {
      return [];
    }
    var local := Utils.NormalizePhone(billingPhone.value);
    if |local| != 9 {
      return [];
    }
    var verifiedPhone := UserVerifiedPhone(meta.values);
    if local != verifiedPhone {
      var verified := IsPhoneVerified(store.entries, local, token, now);
      if !verified {
        return [WooCommerce.NewPhoneVerificationRequired];
      }
      meta.Update(VerifiedPhoneKey, local);
    }
    return [];
  }

  /** The legacy account validator has the effect of the v3 one. */
  lemma AccountAgrees(values: map<string, string>, billingPhone: Option<string>, entries: Entries, token: string, now: int)
    ensures AccountCheck(values, billingPhone, entries, token, now)
            == WooCommerce.AccountCheck(values, billingPhone, entries, token, now)
  {
    if billingPhone.Some? {
      var local := Utils.NormalizePhone(billingPhone.value);
      if |local| == 9 {
        StripNonDigitsOfDigits(local);
        IsPhoneVerifiedAgrees(entries, local, token, now);
        UserVerifiedPhoneAgrees(values);
      }
    }
  }

  // ------------------------------------------------------------ registration

  /** The legacy `maybe_process_submission` is `Shortcode.SubmissionSpec` with this token check. */
  const Check: Shortcode.TokenCheck := (e, p, t, n) => IsPhoneVerified(e, p, t, n)

  /** Once the form has passed validation, the legacy and the v3 token checks agree on its number. */
  lemma ValidatedAgrees(errors: seq<Shortcode.FormError>, data: map<string, string>, meta: map<string, string>,
                        entries: Entries, token: string, o: Shortcode.Oracles, insert: Shortcode.InsertResult, now: int)
    ensures Shortcode.Validated(errors, data, meta, entries, token, o, Check, insert, now)
            == Shortcode.Validated(errors, data, meta, entries, token, o,
                                   (e, p, t, n) => Utils.IsPhoneVerified(e, p, t, n), insert, now)
  {
    if errors + Shortcode.ValidationErrors(data, o) == [] {
      var local := Shortcode.LocalDigits(data);
      Shortcode.PhoneRule(data, o);
      StripNonDigitsOfDigits(local);
      IsPhoneVerifiedAgrees(entries, local, token, now);
    }
  }

  /** The legacy registration handler behaves as the v3 one on every request, so every property proved
    * of `Shortcode.SubmissionSpec` holds for it. */
  lemma SubmissionAgrees(errors: seq<Shortcode.FormError>, oldValues: map<string, string>, meta: map<string, string>,
                         entries: Entries, isPost: bool, post: map<string, string>, token: string, o: Shortcode.Oracles,
                         insert: Shortcode.InsertResult, now: int)
    ensures Shortcode.SubmissionSpec(errors, oldValues, meta, entries, isPost, post, token, o, Check, insert, now)
            == Shortcode.SubmissionSpec(errors, oldValues, meta, entries, isPost, post, token, o,
                                        (e, p, t, n) => Utils.IsPhoneVerified(e, p, t, n), insert, now)
  {
    var data := Shortcode.CollectFields(post, Shortcode.Fields, o);
    ValidatedAgrees(errors, data, meta, entries, token, o, insert, now);
  }
}
