/**
 * includes/Frontend/OtpHandler.php: the two AJAX endpoints that drive the
 * per-phone state machine "no code -> code pending -> verified". Each
 * `wp_send_json_*` ends the request, so each is an early `return` of a tagged
 * result. `check_ajax_referer` is the boolean `nonceOk`; the random draw of
 * `generate_otp` and the token of `wp_generate_password(32, false)` are inputs.
 *
 * Each endpoint is a method on the transient store, proved equal to a spec
 * function on the store's map (`SendSpec`, `VerifySpec`); the lifecycle
 * properties are lemmas about those functions.
 */
module OtpHandler {
  import opened Wrappers
  import opened Strings
  import opened Transients
  import opened Meta
  import Utils
  import SmsProvider

  const VerifyMaxAttempts := 5
  const VerifyLockoutMinutes := 15
  const VerifyLockoutSeconds := VerifyLockoutMinutes * Utils.MinuteInSeconds
  const SendWindowSeconds := Utils.OtpRateLimitMinutes * Utils.MinuteInSeconds

  /** The error responses of the two endpoints. */
  datatype AjaxError =
    | BadNonce                               // check_ajax_referer dies
    | InvalidPhone                           // send: not 9 digits
    | TooManyAttempts                        // send: rate limit reached
    | SmsFailed(reason: SmsProvider.SmsError)
    | InvalidFormat                          // verify: phone or code of the wrong length
    | LockedOut                              // verify: 5 failed attempts
    | CodeExpired                            // verify: no live code
    | WrongCode                              // verify: code differs from the stored one

  datatype SendResult = Sent(expires: int) | SendFailed(error: AjaxError)

  datatype VerifyResult = Verified(token: string, verifiedPhone: string) | VerifyFailed(error: AjaxError)

  /** A handler's response together with the transient store it leaves behind. */
  datatype Step<R> = Step(result: R, entries: Entries)

  /** The send handler's response, the store after it, and the SMS request it issued, if any. */
  datatype SendOutcome = SendOutcome(result: SendResult, entries: Entries, sms: Option<SmsProvider.Request>)

  // --------------------------------------------------------- send handler

  /** `ajax_send_otp` on the store `entries`. */
  function SendSpec(entries: Entries, nonceOk: bool, phone: string, server: Utils.ServerVars, sanitize: string -> string, isIp: string -> bool,
                    random: int, creds: SmsProvider.Credentials, response: SmsProvider.Response, now: int): SendOutcome
    requires 0 <= random <= 999999
  {
    if !nonceOk then SendOutcome(SendFailed(BadNonce), entries, None)
    else
      var local := Utils.NormalizePhone(phone);
      if |local| != 9 then SendOutcome(SendFailed(InvalidPhone), entries, None)
      else if !Utils.CheckRateLimit(entries, local, server, sanitize, isIp, now) then SendOutcome(SendFailed(TooManyAttempts), entries, None)
      else
        var otp := Utils.GenerateOtp(random);
        SendPastGuards(entries, local, Utils.RateLimitKey(local, server, sanitize, isIp), otp, SmsProvider.SendOtp(creds, local, otp, response), now)
  }

  /** The part of `ajax_send_otp` after the guards: store `otp`, then count the send under `key`
    * only when the gateway call `d` succeeded. */
  function SendPastGuards(entries: Entries, local: string, key: Key, otp: string, d: SmsProvider.Dispatch, now: int): SendOutcome
  {
    var stored := entries[OtpCode(local) := Entry(Text(otp), now + Utils.OtpExpirySeconds)];
    if d.result.Delivered? then SendOutcome(Sent(Utils.OtpExpirySeconds), Bumped(stored, key, SendWindowSeconds, now), d.request)
    else SendOutcome(SendFailed(SmsFailed(d.result.error)), stored, d.request)
  }

  /** Past the guards, the handler is `SendPastGuards` of the generated code and the gateway call. */
  lemma ReachesDispatch(entries: Entries, phone: string, server: Utils.ServerVars, sanitize: string -> string, isIp: string -> bool,
                        random: int, creds: SmsProvider.Credentials, response: SmsProvider.Response, now: int)
    requires 0 <= random <= 999999
    requires |Utils.NormalizePhone(phone)| == 9
    requires Utils.CheckRateLimit(entries, Utils.NormalizePhone(phone), server, sanitize, isIp, now)
    ensures var local := Utils.NormalizePhone(phone); var otp := Utils.GenerateOtp(random);
      SendSpec(entries, true, phone, server, sanitize, isIp, random, creds, response, now) ==
      SendPastGuards(entries, local, Utils.RateLimitKey(local, server, sanitize, isIp), otp, SmsProvider.SendOtp(creds, local, otp, response), now)
  {
  }

  /** `ajax_send_otp`: validate, check the send limit, store the code, send it, count the send on success. */
  method AjaxSendOtp(store: TransientStore, nonceOk: bool, phone: string, server: Utils.ServerVars, sanitize: string -> string, isIp: string -> bool,
                     random: int, creds: SmsProvider.Credentials, response: SmsProvider.Response, now: int)
    returns (result: SendResult, sms: Option<SmsProvider.Request>)
    requires 0 <= random <= 999999
    modifies store
    ensures SendOutcome(result, store.entries, sms)
            == SendSpec(old(store.entries), nonceOk, phone, server, sanitize, isIp, random, creds, response, now)
  {
    if !nonceOk {
      return SendFailed(BadNonce), None;
    }
    var local := Utils.NormalizePhone(phone);
    if |local| != 9 {
      return SendFailed(InvalidPhone), None;
    }
    if !Utils.CheckRateLimit(store.entries, local, server, sanitize, isIp, now) {
      return SendFailed(TooManyAttempts), None;
    }
    var otp := Utils.GenerateOtp(random);
    store.Set(OtpCode(local), Text(otp), Utils.OtpExpirySeconds, now);
    var d := SmsProvider.SendOtp(creds, local, otp, response);
    sms := d.request;
    if d.result.Delivered? {
      Utils.IncrementRateLimit(store, local, server, sanitize, isIp, now);
      result := Sent(Utils.OtpExpirySeconds);
    } else {
      result := SendFailed(SmsFailed(d.result.error));
    }
  }

  // ------------------------------------------------------- verify counter

  /** `check_verify_rate_limit`: allowed while no counter is live or its count is below 5. */
  function VerifyAllowed(entries: Entries, phone: string, now: int): (ok: bool)
    ensures ok <==> CountOf(entries, VerifyCounter(phone), now) < VerifyMaxAttempts
  {
    var attempts := Lookup(entries, VerifyCounter(phone), now);
    if attempts.None? then true else IntValue(attempts.value) < VerifyMaxAttempts
  }

  /** `increment_verify_attempts`: 1 when no counter is live, count + 1 otherwise, with a fresh 15-minute lifetime. */
  method IncrementVerifyAttempts(store: TransientStore, phone: string, now: int)
    modifies store
    ensures store.entries == Bumped(old(store.entries), VerifyCounter(phone), VerifyLockoutSeconds, now)
  {
    var attempts := Lookup(store.entries, VerifyCounter(phone), now);
    if attempts.None? {
      store.Set(VerifyCounter(phone), Count(1), VerifyLockoutSeconds, now);
    } else {
      store.Set(VerifyCounter(phone), Count(IntValue(attempts.value) + 1), VerifyLockoutSeconds, now);
    }
  }

  /** `clear_verify_attempts` */
  method ClearVerifyAttempts(store: TransientStore, phone: string)
    modifies store
    ensures store.entries == old(store.entries) - {VerifyCounter(phone)}
  {
    store.Delete(VerifyCounter(phone));
  }

  // ------------------------------------------------------- verify handler

  /** The store after a successful verification: code and counter gone, token stored for 300 s. */
  function VerifiedEntries(entries: Entries, local: string, token: string, now: int): Entries
  {
    (entries - {OtpCode(local)} - {VerifyCounter(local)})[VerifiedToken(local) := Entry(Text(token), now + Utils.OtpExpirySeconds)]
  }

  /** `ajax_verify_otp` on the store `entries`, with `token` the draw of `wp_generate_password`. */
  function VerifySpec(entries: Entries, nonceOk: bool, phone: string, code: string, token: string, now: int): Step<VerifyResult>
  {
    if !nonceOk then Step(VerifyFailed(BadNonce), entries)
    else VerifyNumber(entries, Utils.NormalizePhone(phone), code, token, now)
  }

  /** `ajax_verify_otp` after the nonce check, for the normalised number `local`.
    * `strlen($code)` counts bytes and is the only check on the code. */
  function VerifyNumber(entries: Entries, local: string, code: string, token: string, now: int): Step<VerifyResult>
  {
    if |local| != 9 || ByteLength(code) != 6 then Step(VerifyFailed(InvalidFormat), entries)
    else if !VerifyAllowed(entries, local, now) then Step(VerifyFailed(LockedOut), entries)
    else
      var stored := Lookup(entries, OtpCode(local), now);
      if stored.None? then Step(VerifyFailed(CodeExpired), Bumped(entries, VerifyCounter(local), VerifyLockoutSeconds, now))
      else if stored.value != Text(code) then Step(VerifyFailed(WrongCode), Bumped(entries, VerifyCounter(local), VerifyLockoutSeconds, now))
      else Step(Verified(token, local), VerifiedEntries(entries, local, token, now))
  }

  /** `ajax_verify_otp`; a logged-in user's `_verified_phone_number` is set on success. */
  method AjaxVerifyOtp(store: TransientStore, meta: UserMeta, loggedIn: bool, nonceOk: bool,
                       phone: string, code: string, token: string, now: int)
    returns (result: VerifyResult)
    requires Utils.IsProofToken(token)
    modifies store, meta
    ensures Step(result, store.entries) == VerifySpec(old(store.entries), nonceOk, phone, code, token, now)
    ensures meta.values == if loggedIn && result.Verified? then old(meta.values)[VerifiedPhoneKey := result.verifiedPhone]
                           else old(meta.values)
  {
    if !nonceOk {
      return VerifyFailed(BadNonce);
    }
    var local := Utils.NormalizePhone(phone);
    if |local| != 9 || ByteLength(code) != 6 {
      return VerifyFailed(InvalidFormat);
    }
    if !VerifyAllowed(store.entries, local, now) {
      return VerifyFailed(LockedOut);
    }
    var stored := Lookup(store.entries, OtpCode(local), now);
    if stored.None? {
      IncrementVerifyAttempts(store, local, now);
      return VerifyFailed(CodeExpired);
    }
    if stored.value != Text(code) {
      IncrementVerifyAttempts(store, local, now);
      return VerifyFailed(WrongCode);
    }
    store.Delete(OtpCode(local));
    ClearVerifyAttempts(store, local);
    store.Set(VerifiedToken(local), Text(token), Utils.OtpExpirySeconds, now);
    if loggedIn {
      meta.Update(VerifiedPhoneKey, local);
    }
    return Verified(token, local);
  }

  // ------------------------------------------------------ send properties

  /** A phone that does not normalise to nine digits is refused before the limit is read or anything is written. */
  lemma SendRejectsBadPhone(entries: Entries, phone: string, server: Utils.ServerVars, sanitize: string -> string, isIp: string -> bool,
                            random: int, creds: SmsProvider.Credentials, response: SmsProvider.Response, now: int)
    requires 0 <= random <= 999999
    ensures var s := SendSpec(entries, true, phone, server, sanitize, isIp, random, creds, response, now);
      (s.result == SendFailed(InvalidPhone) <==> |Utils.NormalizePhone(phone)| != 9)
      && (s.result == SendFailed(InvalidPhone) ==> s.entries == entries && s.sms.None?)
  {
    var s := SendSpec(entries, true, phone, server, sanitize, isIp, random, creds, response, now);
    var local := Utils.NormalizePhone(phone);
    if |local| != 9 {
      assert s == SendOutcome(SendFailed(InvalidPhone), entries, None);
    } else if !Utils.CheckRateLimit(entries, local, server, sanitize, isIp, now) {
      assert s.result == SendFailed(TooManyAttempts);
    } else {
      var otp := Utils.GenerateOtp(random);
      var d := SmsProvider.SendOtp(creds, local, otp, response);
      assert s == SendPastGuards(entries, local, Utils.RateLimitKey(local, server, sanitize, isIp), otp, d, now);
      PastGuardsResult(entries, local, Utils.RateLimitKey(local, server, sanitize, isIp), otp, d, now);
    }
  }

  /** Past the guards the response is a success or a gateway failure. */
  lemma PastGuardsResult(entries: Entries, local: string, key: Key, otp: string, d: SmsProvider.Dispatch, now: int)
    ensures var r := SendPastGuards(entries, local, key, otp, d, now).result;
      r.Sent? || r.error.SmsFailed?
  {
  }

  /** At the send limit no code is generated or stored and no SMS goes out. */
  lemma SendRateLimited(entries: Entries, phone: string, server: Utils.ServerVars, sanitize: string -> string, isIp: string -> bool,
                        random: int, creds: SmsProvider.Credentials, response: SmsProvider.Response, now: int)
    requires 0 <= random <= 999999
    requires Utils.IsLocalNumber(Utils.NormalizePhone(phone))
    ensures var s := SendSpec(entries, true, phone, server, sanitize, isIp, random, creds, response, now);
      var local := Utils.NormalizePhone(phone);
      (s.result == SendFailed(TooManyAttempts) <==>
         CountOf(entries, Utils.RateLimitKey(local, server, sanitize, isIp), now) >= Utils.OtpMaxAttempts)
      && (s.result == SendFailed(TooManyAttempts) ==> s.entries == entries && s.sms.None?)
  {
  }

  /** Past the guards the new code replaces any earlier one for 300 s before the SMS is sent, and stays
    * stored whether or not the gateway accepts it; the SMS carries that code to 995 and the number. */
  lemma SendStoresCodeFirst(entries: Entries, phone: string, server: Utils.ServerVars, sanitize: string -> string, isIp: string -> bool,
                            random: int, creds: SmsProvider.Credentials, response: SmsProvider.Response, now: int)
    requires 0 <= random <= 999999
    requires Utils.IsLocalNumber(Utils.NormalizePhone(phone))
    requires Utils.CheckRateLimit(entries, Utils.NormalizePhone(phone), server, sanitize, isIp, now)
    ensures var s := SendSpec(entries, true, phone, server, sanitize, isIp, random, creds, response, now);
      var local := Utils.NormalizePhone(phone);
      OtpCode(local) in s.entries
      && s.entries[OtpCode(local)] == Entry(Text(Utils.GenerateOtp(random)), now + 300)
      && (s.sms.Some? <==> SmsProvider.IsConfigured(creds))
      && (s.sms.Some? ==> s.sms.value.to == "995" + local
                          && s.sms.value.text == SmsProvider.OtpMessage(Utils.GenerateOtp(random)))
  {
    var local := Utils.NormalizePhone(phone);
    var otp := Utils.GenerateOtp(random);
    ReachesDispatch(entries, phone, server, sanitize, isIp, random, creds, response, now);
    PastGuardsEffect(entries, local, Utils.RateLimitKey(local, server, sanitize, isIp), otp, SmsProvider.SendOtp(creds, local, otp, response), now, now);
    SmsProvider.SendSmsRequest(creds, local, SmsProvider.OtpMessage(otp), response);
    StripNonDigitsOfDigits(local);
    SmsProvider.DestinationOfLocal(local);
  }

  /** After the guards only the code and the counter under `key` change, the counter by exactly one
    * and for another ten minutes, and only when the gateway accepted the message. */
  lemma PastGuardsEffect(entries: Entries, local: string, key: Key, otp: string, d: SmsProvider.Dispatch, now: int, later: int)
    requires key != OtpCode(local)
    requires now <= later <= now + SendWindowSeconds
    ensures var s := SendPastGuards(entries, local, key, otp, d, now);
      (s.result.Sent? <==> d.result.Delivered?)
      && s.sms == d.request
      && OtpCode(local) in s.entries && s.entries[OtpCode(local)] == Entry(Text(otp), now + 300)
      && (s.result.Sent? ==> s.result.expires == 300 && CountOf(s.entries, key, later) == CountOf(entries, key, now) + 1)
      && (!s.result.Sent? ==> (key in s.entries <==> key in entries) && (key in entries ==> s.entries[key] == entries[key]))
      && (forall k :: k != key && k != OtpCode(local) ==>
            (k in s.entries <==> k in entries) && (k in entries ==> s.entries[k] == entries[k]))
  {
    var stored := entries[OtpCode(local) := Entry(Text(otp), now + Utils.OtpExpirySeconds)];
    assert Lookup(stored, key, now) == Lookup(entries, key, now);
  }

  /** The send counter moves only on a successful send, by exactly one, for another ten minutes;
    * success reports the 300 s lifetime and needs a nine-digit number below the limit.
    * Only the code and this counter can change. */
  lemma SendCountsOnlySuccess(entries: Entries, phone: string, server: Utils.ServerVars, sanitize: string -> string, isIp: string -> bool,
                              random: int, creds: SmsProvider.Credentials, response: SmsProvider.Response,
                              now: int, later: int)
    requires 0 <= random <= 999999
    requires now <= later <= now + SendWindowSeconds
    ensures var s := SendSpec(entries, true, phone, server, sanitize, isIp, random, creds, response, now);
      var key := Utils.RateLimitKey(Utils.NormalizePhone(phone), server, sanitize, isIp);
      (s.result.Sent? ==> Utils.IsLocalNumber(Utils.NormalizePhone(phone))
                          && CountOf(entries, key, now) < Utils.OtpMaxAttempts && s.result.expires == 300
                          && CountOf(s.entries, key, later) == CountOf(entries, key, now) + 1)
      && (!s.result.Sent? ==> (key in s.entries <==> key in entries) && (key in entries ==> s.entries[key] == entries[key]))
      && (forall k :: k != key && k != OtpCode(Utils.NormalizePhone(phone)) ==>
            (k in s.entries <==> k in entries) && (k in entries ==> s.entries[k] == entries[k]))
  {
    var local := Utils.NormalizePhone(phone);
    var key := Utils.RateLimitKey(local, server, sanitize, isIp);
    if |local| == 9 && Utils.CheckRateLimit(entries, local, server, sanitize, isIp, now) {
      var otp := Utils.GenerateOtp(random);
      ReachesDispatch(entries, phone, server, sanitize, isIp, random, creds, response, now);
      PastGuardsEffect(entries, local, key, otp, SmsProvider.SendOtp(creds, local, otp, response), now, later);
    }
  }

  /** Three successful sends with at most ten minutes between them block a fourth from the same
    * phone and address within ten minutes of the third, whatever the counter held before. */
  lemma {:induction false} ThirdSendBlocksFourth(
      e0: Entries, phone: string, server: Utils.ServerVars, sanitize: string -> string, isIp: string -> bool, creds: SmsProvider.Credentials,
      r1: int, r2: int, r3: int, r4: int,
      resp1: SmsProvider.Response, resp2: SmsProvider.Response, resp3: SmsProvider.Response, resp4: SmsProvider.Response,
      t1: int, t2: int, t3: int, t4: int)
    requires StoreInvariant(e0)
    requires 0 <= r1 <= 999999 && 0 <= r2 <= 999999 && 0 <= r3 <= 999999 && 0 <= r4 <= 999999
    requires t1 <= t2 <= t1 + SendWindowSeconds && t2 <= t3 <= t2 + SendWindowSeconds && t3 <= t4 <= t3 + SendWindowSeconds
    requires var s1 := SendSpec(e0, true, phone, server, sanitize, isIp, r1, creds, resp1, t1);
      var s2 := SendSpec(s1.entries, true, phone, server, sanitize, isIp, r2, creds, resp2, t2);
      var s3 := SendSpec(s2.entries, true, phone, server, sanitize, isIp, r3, creds, resp3, t3);
      s1.result.Sent? && s2.result.Sent? && s3.result.Sent?
    ensures var s1 := SendSpec(e0, true, phone, server, sanitize, isIp, r1, creds, resp1, t1);
      var s2 := SendSpec(s1.entries, true, phone, server, sanitize, isIp, r2, creds, resp2, t2);
      var s3 := SendSpec(s2.entries, true, phone, server, sanitize, isIp, r3, creds, resp3, t3);
      SendSpec(s3.entries, true, phone, server, sanitize, isIp, r4, creds, resp4, t4) == SendOutcome(SendFailed(TooManyAttempts), s3.entries, None)
  {
    var key := Utils.RateLimitKey(Utils.NormalizePhone(phone), server, sanitize, isIp);
    var s1 := SendSpec(e0, true, phone, server, sanitize, isIp, r1, creds, resp1, t1);
    var s2 := SendSpec(s1.entries, true, phone, server, sanitize, isIp, r2, creds, resp2, t2);
    var s3 := SendSpec(s2.entries, true, phone, server, sanitize, isIp, r3, creds, resp3, t3);
    CounterNonNegative(e0, key, t1);
    SendCountsOnlySuccess(e0, phone, server, sanitize, isIp, r1, creds, resp1, t1, t2);
    SendCountsOnlySuccess(s1.entries, phone, server, sanitize, isIp, r2, creds, resp2, t2, t3);
    SendCountsOnlySuccess(s2.entries, phone, server, sanitize, isIp, r3, creds, resp3, t3, t4);
    SendRateLimited(s3.entries, phone, server, sanitize, isIp, r4, creds, resp4, t4);
  }

  // ---------------------------------------------------- verify properties

  /** A phone that does not normalise to nine digits, or a code that is not six bytes, is refused before
    * the counter or the store is touched; a code of six non-digit characters passes this check. */
  lemma VerifyRejectsBadFormat(entries: Entries, phone: string, code: string, token: string, now: int)
    ensures var s := VerifySpec(entries, true, phone, code, token, now);
      (s.result == VerifyFailed(InvalidFormat) <==> |Utils.NormalizePhone(phone)| != 9 || ByteLength(code) != 6)
      && (s.result == VerifyFailed(InvalidFormat) ==> s.entries == entries)
  {
  }

  /** Six letters pass the format check although they can never equal a generated code. */
  lemma NonDigitCodePassesFormat(entries: Entries, phone: string, token: string, now: int)
    requires Utils.IsLocalNumber(Utils.NormalizePhone(phone))
    ensures VerifySpec(entries, true, phone, "abcdef", token, now).result != VerifyFailed(InvalidFormat)
  {
    assert ByteLength("abcdef") == 6 by {
      assert forall i :: 0 <= i < |"abcdef"| ==> "abcdef"[i] as int < 0x80;
    }
  }

  /** With five failures counted the handler answers "locked out" and changes nothing, even for the right code. */
  lemma LockoutChangesNothing(entries: Entries, phone: string, code: string, token: string, now: int)
    requires Utils.IsLocalNumber(Utils.NormalizePhone(phone)) && ByteLength(code) == 6
    requires CountOf(entries, VerifyCounter(Utils.NormalizePhone(phone)), now) >= VerifyMaxAttempts
    ensures VerifySpec(entries, true, phone, code, token, now) == Step(VerifyFailed(LockedOut), entries)
  {
  }

  /** Below the lockout, a missing code and a different code are each counted as one failure,
    * the counter living 15 minutes from now; they answer "expired" and "invalid" respectively. */
  lemma VerifyFailureCounts(entries: Entries, phone: string, code: string, token: string, now: int, later: int)
    requires Utils.IsLocalNumber(Utils.NormalizePhone(phone)) && ByteLength(code) == 6
    requires CountOf(entries, VerifyCounter(Utils.NormalizePhone(phone)), now) < VerifyMaxAttempts
    requires Lookup(entries, OtpCode(Utils.NormalizePhone(phone)), now) != Some(Text(code))
    requires now <= later <= now + VerifyLockoutSeconds
    ensures var local := Utils.NormalizePhone(phone);
      var s := VerifySpec(entries, true, phone, code, token, now);
      s.result == VerifyFailed(if Lookup(entries, OtpCode(local), now).None? then CodeExpired else WrongCode)
      && s.entries == Bumped(entries, VerifyCounter(local), VerifyLockoutSeconds, now)
      && CountOf(s.entries, VerifyCounter(local), later) == CountOf(entries, VerifyCounter(local), now) + 1
      && CountOf(s.entries, VerifyCounter(local), now + VerifyLockoutSeconds + 1) == 0
  {
  }

  /** The right code below the lockout deletes the code and the counter, stores the token for 300 s and
    * returns it with the normalised number; the number then counts as verified for that token until the
    * token lapses, and the same code submitted again is "expired". */
  lemma VerifyMatchIssuesToken(entries: Entries, phone: string, code: string, token: string, now: int,
                               later: int, token2: string)
    requires Utils.IsProofToken(token)
    requires Utils.IsLocalNumber(Utils.NormalizePhone(phone)) && ByteLength(code) == 6
    requires CountOf(entries, VerifyCounter(Utils.NormalizePhone(phone)), now) < VerifyMaxAttempts
    requires Lookup(entries, OtpCode(Utils.NormalizePhone(phone)), now) == Some(Text(code))
    requires now <= later
    ensures var local := Utils.NormalizePhone(phone);
      var s := VerifySpec(entries, true, phone, code, token, now);
      s.result == Verified(token, local)
      && OtpCode(local) !in s.entries && VerifyCounter(local) !in s.entries
      && (Utils.IsPhoneVerified(s.entries, phone, token, later) <==> later <= now + 300)
      && VerifySpec(s.entries, true, phone, code, token2, later).result == VerifyFailed(CodeExpired)
  {
    var local := Utils.NormalizePhone(phone);
    var s := VerifySpec(entries, true, phone, code, token, now);
    assert s.entries == VerifiedEntries(entries, local, token, now);
    assert Lookup(s.entries, VerifiedToken(local), later) == if later <= now + 300 then Some(Text(token)) else None;
    assert Lookup(s.entries, VerifyCounter(local), later).None?;
  }

  /** A success happens only for a well-formed request below the lockout whose code is the live stored one. */
  lemma VerifySuccessNeedsLiveCode(entries: Entries, nonceOk: bool, phone: string, code: string, token: string, now: int)
    requires VerifySpec(entries, nonceOk, phone, code, token, now).result.Verified?
    ensures var local := Utils.NormalizePhone(phone);
      nonceOk && Utils.IsLocalNumber(local)
      && CountOf(entries, VerifyCounter(local), now) < VerifyMaxAttempts
      && Lookup(entries, OtpCode(local), now) == Some(Text(code))
      && VerifySpec(entries, nonceOk, phone, code, token, now).result == Verified(token, local)
  {
  }

  /** Two stores that agree on a key read the same count from it. */
  lemma SameEntrySameCount(a: Entries, b: Entries, key: Key, now: int)
    requires (key in a <==> key in b) && (key in a ==> a[key] == b[key])
    ensures CountOf(a, key, now) == CountOf(b, key, now)
  {
  }

  /** The digits of a stored code are single bytes, so its byte length is six. */
  lemma OtpByteLength(random: int)
    requires 0 <= random <= 999999
    ensures ByteLength(Utils.GenerateOtp(random)) == 6
  {
    var code := Utils.GenerateOtp(random);
    assert forall i :: 0 <= i < |code| ==> code[i] as int < 0x80 by {
      forall i | 0 <= i < |code| ensures code[i] as int < 0x80 { assert IsDigit(code[i]); }
    }
  }

  /** Requesting a code and then submitting it within 300 s verifies the number, under any spelling that
    * normalises to it, as long as the number is not locked out; the SMS outcome does not matter. */
  lemma SendThenVerify(entries: Entries, phone: string, phone2: string, server: Utils.ServerVars, sanitize: string -> string, isIp: string -> bool,
                       random: int, creds: SmsProvider.Credentials, response: SmsProvider.Response,
                       token: string, t0: int, t1: int)
    requires 0 <= random <= 999999 && Utils.IsProofToken(token)
    requires Utils.IsLocalNumber(Utils.NormalizePhone(phone)) && Utils.NormalizePhone(phone2) == Utils.NormalizePhone(phone)
    requires Utils.CheckRateLimit(entries, Utils.NormalizePhone(phone), server, sanitize, isIp, t0)
    requires CountOf(entries, VerifyCounter(Utils.NormalizePhone(phone)), t1) < VerifyMaxAttempts
    requires t0 <= t1 <= t0 + 300
    ensures var s := SendSpec(entries, true, phone, server, sanitize, isIp, random, creds, response, t0);
      var v := VerifySpec(s.entries, true, phone2, Utils.GenerateOtp(random), token, t1);
      v.result == Verified(token, Utils.NormalizePhone(phone))
      && Utils.IsPhoneVerified(v.entries, phone, token, t1)
  {
    var local := Utils.NormalizePhone(phone);
    var s := SendSpec(entries, true, phone, server, sanitize, isIp, random, creds, response, t0);
    SendStoresCodeFirst(entries, phone, server, sanitize, isIp, random, creds, response, t0);
    SendCountsOnlySuccess(entries, phone, server, sanitize, isIp, random, creds, response, t0, t0);
    var vc := VerifyCounter(local);
    assert vc != Utils.RateLimitKey(local, server, sanitize, isIp) && vc != OtpCode(local);
    assert (vc in s.entries <==> vc in entries) && (vc in entries ==> s.entries[vc] == entries[vc]);
    SameEntrySameCount(s.entries, entries, vc, t1);
    OtpByteLength(random);
    VerifyMatchIssuesToken(s.entries, phone2, Utils.GenerateOtp(random), token, t1, t1, token);
  }

  /** The international and the local spelling of a number reach the same pending code. */
  lemma InternationalSendLocalVerify(entries: Entries, server: Utils.ServerVars, sanitize: string -> string, isIp: string -> bool,
                                     random: int, creds: SmsProvider.Credentials, response: SmsProvider.Response,
                                     token: string, t0: int, t1: int)
    requires 0 <= random <= 999999 && Utils.IsProofToken(token)
    requires Utils.CheckRateLimit(entries, "599620303", server, sanitize, isIp, t0)
    requires CountOf(entries, VerifyCounter("599620303"), t1) < VerifyMaxAttempts
    requires t0 <= t1 <= t0 + 300
    ensures var s := SendSpec(entries, true, "+995599620303", server, sanitize, isIp, random, creds, response, t0);
      VerifySpec(s.entries, true, "599620303", Utils.GenerateOtp(random), token, t1).result == Verified(token, "599620303")
  {
    Utils.NormalizeExamples();
    SendThenVerify(entries, "+995599620303", "599620303", server, sanitize, isIp, random, creds, response, token, t0, t1);
  }

  // ------------------------------------------------ brute-force lockout

  /** One verification attempt: the submitted code and the time it arrives. */
  datatype Attempt = Attempt(code: string, at: int)

  /** The store after the attempts, in order, against one normalised number. */
  function VerifyRun(entries: Entries, local: string, attempts: seq<Attempt>, token: string): Entries
    decreases |attempts|
  {
    if attempts == [] then entries
    else VerifyRun(VerifyNumber(entries, local, attempts[0].code, token, attempts[0].at).entries, local, attempts[1..], token)
  }

  /** Attempts that follow each other within the 15-minute window. */
  predicate Chained(attempts: seq<Attempt>)
  {
    forall i :: 0 < i < |attempts| ==> attempts[i - 1].at <= attempts[i].at <= attempts[i - 1].at + VerifyLockoutSeconds
  }

  /** Well-formed attempts none of which presents the live stored code. */
  predicate AllWrong(entries: Entries, local: string, attempts: seq<Attempt>)
  {
    forall i :: 0 <= i < |attempts| ==>
      ByteLength(attempts[i].code) == 6 && Lookup(entries, OtpCode(local), attempts[i].at) != Some(Text(attempts[i].code))
  }

  lemma ChainedTail(attempts: seq<Attempt>)
    requires |attempts| > 0 && Chained(attempts)
    ensures Chained(attempts[1..])
  {
    var rest := attempts[1..];
    forall i | 0 < i < |rest| ensures rest[i - 1].at <= rest[i].at <= rest[i - 1].at + VerifyLockoutSeconds {
      assert rest[i - 1] == attempts[i] && rest[i] == attempts[i + 1];
    }
  }

  /** Counting a failure does not touch the stored code, so the remaining attempts stay wrong. */
  lemma AllWrongAfterCount(entries: Entries, local: string, attempts: seq<Attempt>, now: int)
    requires |attempts| > 0 && AllWrong(entries, local, attempts)
    ensures AllWrong(Bumped(entries, VerifyCounter(local), VerifyLockoutSeconds, now), local, attempts[1..])
  {
    var e1 := Bumped(entries, VerifyCounter(local), VerifyLockoutSeconds, now);
    var rest := attempts[1..];
    forall i | 0 <= i < |rest|
      ensures ByteLength(rest[i].code) == 6 && Lookup(e1, OtpCode(local), rest[i].at) != Some(Text(rest[i].code))
    {
      assert rest[i] == attempts[i + 1];
      assert Lookup(e1, OtpCode(local), rest[i].at) == Lookup(entries, OtpCode(local), rest[i].at);
    }
  }

  /** Wrong attempts in a chain add one each to the counter found at the first, while below the limit;
    * the counter then lives 15 minutes from the last one, and no other key changes. */
  lemma {:induction false} WrongAttemptsAccumulate(entries: Entries, local: string, attempts: seq<Attempt>, token: string, c: int)
    requires Utils.IsLocalNumber(local)
    requires |attempts| > 0 && Chained(attempts) && AllWrong(entries, local, attempts)
    requires CountOf(entries, VerifyCounter(local), attempts[0].at) == c
    requires c + |attempts| <= VerifyMaxAttempts
    ensures var r := VerifyRun(entries, local, attempts, token);
      VerifyCounter(local) in r
      && r[VerifyCounter(local)] == Entry(Count(c + |attempts|), attempts[|attempts| - 1].at + VerifyLockoutSeconds)
      && forall k :: k != VerifyCounter(local) ==> (k in r <==> k in entries) && (k in r ==> r[k] == entries[k])
    decreases |attempts|
  {
    var a := attempts[0];
    assert ByteLength(a.code) == 6 && Lookup(entries, OtpCode(local), a.at) != Some(Text(a.code));
    WrongAttemptStep(entries, local, a, token);
    var e1 := Bumped(entries, VerifyCounter(local), VerifyLockoutSeconds, a.at);
    var rest := attempts[1..];
    assert VerifyRun(entries, local, attempts, token) == VerifyRun(e1, local, rest, token);
    if |attempts| > 1 {
      ChainedTail(attempts);
      AllWrongAfterCount(entries, local, attempts, a.at);
      assert rest[0] == attempts[1];
      assert a.at <= rest[0].at <= a.at + VerifyLockoutSeconds;
      BumpedCountWithin(entries, VerifyCounter(local), VerifyLockoutSeconds, a.at, rest[0].at);
      WrongAttemptsAccumulate(e1, local, rest, token, c + 1);
      assert rest[|rest| - 1] == attempts[|attempts| - 1];
    } else {
      assert VerifyRun(e1, local, rest, token) == e1;
    }
  }

  /** One well-formed wrong attempt below the limit counts one failure and changes nothing else. */
  lemma WrongAttemptStep(entries: Entries, local: string, a: Attempt, token: string)
    requires Utils.IsLocalNumber(local) && ByteLength(a.code) == 6
    requires Lookup(entries, OtpCode(local), a.at) != Some(Text(a.code))
    requires CountOf(entries, VerifyCounter(local), a.at) < VerifyMaxAttempts
    ensures VerifyNumber(entries, local, a.code, token, a.at).entries == Bumped(entries, VerifyCounter(local), VerifyLockoutSeconds, a.at)
  {
  }

  /** A bumped counter reads as one more than before until its lifetime is over. */
  lemma BumpedCountWithin(entries: Entries, key: Key, ttl: int, now: int, later: int)
    requires now <= later <= now + ttl
    ensures CountOf(Bumped(entries, key, ttl, now), key, later) == CountOf(entries, key, now) + 1
  {
  }

  /** Five wrong codes in a row, starting from no live counter and each within 15 minutes of the
    * previous, lock the number: a sixth request within 15 minutes of the fifth is refused and changes
    * nothing, even with the right code. */
  lemma FiveFailuresLockOut(entries: Entries, phone: string, attempts: seq<Attempt>, token: string,
                            code: string, at: int)
    requires Utils.IsLocalNumber(Utils.NormalizePhone(phone)) && ByteLength(code) == 6
    requires |attempts| == 5 && Chained(attempts) && AllWrong(entries, Utils.NormalizePhone(phone), attempts)
    requires Lookup(entries, VerifyCounter(Utils.NormalizePhone(phone)), attempts[0].at).None?
    requires attempts[4].at <= at <= attempts[4].at + VerifyLockoutSeconds
    ensures var r := VerifyRun(entries, Utils.NormalizePhone(phone), attempts, token);
      VerifySpec(r, true, phone, code, token, at) == Step(VerifyFailed(LockedOut), r)
  {
    var local := Utils.NormalizePhone(phone);
    WrongAttemptsAccumulate(entries, local, attempts, token, 0);
    var r := VerifyRun(entries, local, attempts, token);
    assert CountOf(r, VerifyCounter(local), at) == 5;
    LockoutChangesNothing(r, phone, code, token, at);
  }

  // ------------------------------------------------------ store invariant

  /** The shape of what the endpoints write: codes and tokens are text, the send counter
    * holds 1..3 and the verify counter 1..5. */
  predicate StoreInvariant(entries: Entries)
  {
    forall k :: k in entries ==>
      match k
      case OtpCode(_) => entries[k].value.Text?
      case VerifiedToken(_) => entries[k].value.Text?
      case SendCounter(_, _) => entries[k].value.Count? && 1 <= entries[k].value.n <= Utils.OtpMaxAttempts
      case VerifyCounter(_) => entries[k].value.Count? && 1 <= entries[k].value.n <= VerifyMaxAttempts
  }

  /** Under the invariant no counter reads below zero. */
  lemma CounterNonNegative(entries: Entries, key: Key, now: int)
    requires StoreInvariant(entries)
    ensures CountOf(entries, key, now) >= 0
  {
  }

  /** Storing a code keeps the invariant, and so does counting a send that was below the limit. */
  lemma PastGuardsPreservesInvariant(entries: Entries, local: string, key: Key, otp: string, d: SmsProvider.Dispatch, now: int)
    requires StoreInvariant(entries) && key.SendCounter?
    requires CountOf(entries, key, now) < Utils.OtpMaxAttempts
    ensures StoreInvariant(SendPastGuards(entries, local, key, otp, d, now).entries)
  {
    var stored := entries[OtpCode(local) := Entry(Text(otp), now + Utils.OtpExpirySeconds)];
    assert StoreInvariant(stored);
    CounterNonNegative(stored, key, now);
  }

  lemma SendPreservesInvariant(entries: Entries, nonceOk: bool, phone: string, server: Utils.ServerVars, sanitize: string -> string, isIp: string -> bool,
                               random: int, creds: SmsProvider.Credentials, response: SmsProvider.Response, now: int)
    requires 0 <= random <= 999999
    requires StoreInvariant(entries)
    ensures StoreInvariant(SendSpec(entries, nonceOk, phone, server, sanitize, isIp, random, creds, response, now).entries)
  {
    var local := Utils.NormalizePhone(phone);
    if nonceOk && |local| == 9 && Utils.CheckRateLimit(entries, local, server, sanitize, isIp, now) {
      var otp := Utils.GenerateOtp(random);
      ReachesDispatch(entries, phone, server, sanitize, isIp, random, creds, response, now);
      PastGuardsPreservesInvariant(entries, local, Utils.RateLimitKey(local, server, sanitize, isIp), otp,
                                   SmsProvider.SendOtp(creds, local, otp, response), now);
    }
  }

  lemma VerifyPreservesInvariant(entries: Entries, nonceOk: bool, phone: string, code: string, token: string, now: int)
    requires StoreInvariant(entries)
    ensures StoreInvariant(VerifySpec(entries, nonceOk, phone, code, token, now).entries)
  {
    var local := Utils.NormalizePhone(phone);
    if nonceOk && |local| == 9 && ByteLength(code) == 6 && VerifyAllowed(entries, local, now) {
      assert 0 <= CountOf(entries, VerifyCounter(local), now) < VerifyMaxAttempts;
    }
  }
}
