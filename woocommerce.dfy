/**
 * includes/Integrations/WooCommerce.php, decision logic only: the account
 * consent save, and the checkout and account-details phone validators.
 * POSTed fields arrive already sanitised, as `Option`s (None when not posted);
 * the proof token is the posted `otp_verification_token`. A `wc_add_notice`
 * error or a `WP_Error` entry is a `Notice` returned to the caller.
 */
module WooCommerce {
  import opened Wrappers
  import opened Transients
  import opened Meta
  import Utils
  import OtpHandler

  datatype Notice =
    | SmsVerificationRequired        // consent opt-in without a token
    | OrderVerificationRequired      // checkout with an unverified phone
    | NewPhoneVerificationRequired   // account details with a changed, unverified phone

  /** The notices raised and the user's meta afterwards. */
  datatype MetaStep = MetaStep(notices: seq<Notice>, values: map<string, string>)

  // ------------------------------------------------------- consent change

  /** The consent rule once the local number and whether its token checked out are known:
    * switching to "yes" from anything else needs `verified` and then records `local`; "no" clears the
    * verified number; the SMS consent is stored as posted and a posted call consent is coerced. */
  function ConsentChange(values: map<string, string>, newConsent: string, postedCall: Option<string>,
                         local: string, verified: bool): MetaStep
  {
    var optIn := newConsent == "yes" && MetaValue(values, SmsConsentKey) != "yes";
    if optIn && !verified then MetaStep([SmsVerificationRequired], values)
    else
      var v1 := if optIn then values[VerifiedPhoneKey := local] else values;
      var v2 := if newConsent == "no" then v1 - {VerifiedPhoneKey} else v1;
      var v3 := v2[SmsConsentKey := newConsent];
      var v4 := if postedCall.Some? then v3[CallConsentKey := CoerceConsent(postedCall.value)] else v3;
      MetaStep([], v4)
  }

  /** The meta writes of `save_account_sms_consent` from the opt-in check on; shared with the legacy copy. */
  method ApplyConsent(meta: UserMeta, newConsent: string, postedCall: Option<string>, local: string, verified: bool)
    returns (notices: seq<Notice>)
    modifies meta
    ensures MetaStep(notices, meta.values) == ConsentChange(old(meta.values), newConsent, postedCall, local, verified)
  {
    var oldConsent := MetaValue(meta.values, SmsConsentKey);
    if newConsent == "yes" && oldConsent != "yes" {
      if !verified {
        return [SmsVerificationRequired];
      }
      meta.Update(VerifiedPhoneKey, local);
    }
    if newConsent == "no" {
      meta.Delete(VerifiedPhoneKey);
    }
    meta.Update(SmsConsentKey, newConsent);
    if postedCall.Some? {
      var callConsent := postedCall.value;
      if callConsent != "yes" && callConsent != "no" {
        callConsent := "yes";
      }
      meta.Update(CallConsentKey, callConsent);
    }
    return [];
  }

  /** `save_account_sms_consent` on the user's meta `values`. */
  function SaveConsentSpec(values: map<string, string>, smsConsent: Option<string>, callConsent: Option<string>,
                           entries: Entries, token: string, now: int): MetaStep
  {
    if smsConsent.None? then MetaStep([], values)
    else
      var local := Utils.NormalizePhone(MetaValue(values, BillingPhoneKey));
      ConsentChange(values, smsConsent.value, callConsent, local, Utils.IsPhoneVerified(entries, local, token, now))
  }

  /** `save_account_sms_consent`: reads the billing phone and the proof token, then applies the consent rule. */
  method SaveAccountSmsConsent(meta: UserMeta, smsConsent: Option<string>, callConsent: Option<string>,
                               store: TransientStore, token: string, now: int)
    returns (notices: seq<Notice>)
    modifies meta
    ensures MetaStep(notices, meta.values) == SaveConsentSpec(old(meta.values), smsConsent, callConsent, store.entries, token, now)
  {
    if smsConsent.None? {
      return [];
    }
    var local := Utils.NormalizePhone(MetaValue(meta.values, BillingPhoneKey));
    var verified := Utils.IsPhoneVerified(store.entries, local, token, now);
    notices := ApplyConsent(meta, smsConsent.value, callConsent, local, verified);
  }

  /** Without a posted SMS consent nothing happens. */
  lemma NoConsentPostedNoChange(values: map<string, string>, callConsent: Option<string>, entries: Entries, token: string, now: int)
    ensures SaveConsentSpec(values, None, callConsent, entries, token, now) == MetaStep([], values)
  {
  }

  /** Opting in without a valid token raises one notice and leaves SMS consent, call consent and the
    * verified number as they were; with one it records the number and the consent. */
  lemma OptInNeedsToken(values: map<string, string>, postedCall: Option<string>, local: string, verified: bool)
    requires MetaValue(values, SmsConsentKey) != "yes"
    ensures var r := ConsentChange(values, "yes", postedCall, local, verified);
      (!verified ==> r == MetaStep([SmsVerificationRequired], values))
      && (verified ==> r.notices == [] && MetaValue(r.values, VerifiedPhoneKey) == local
                       && MetaValue(r.values, SmsConsentKey) == "yes")
  {
  }

  /** "no" removes the verified number and stores "no", token or not. */
  lemma OptOutClearsPhone(values: map<string, string>, postedCall: Option<string>, local: string, verified: bool)
    ensures var r := ConsentChange(values, "no", postedCall, local, verified);
      r.notices == [] && VerifiedPhoneKey !in r.values && MetaValue(r.values, SmsConsentKey) == "no"
  {
  }

  /** Whenever no notice is raised the SMS consent is stored as posted, a posted call consent is stored
    * as yes/no (kept when it already is one), an absent one is left alone, and no other key changes
    * except the verified number. */
  lemma ConsentStoredAsPosted(values: map<string, string>, newConsent: string, postedCall: Option<string>,
                              local: string, verified: bool)
    ensures var r := ConsentChange(values, newConsent, postedCall, local, verified);
      r.notices == [] ==>
        MetaValue(r.values, SmsConsentKey) == newConsent
        && (postedCall.Some? ==> MetaValue(r.values, CallConsentKey) == CoerceConsent(postedCall.value))
        && (postedCall.None? ==> MetaValue(r.values, CallConsentKey) == MetaValue(values, CallConsentKey))
        && forall k :: k != SmsConsentKey && k != CallConsentKey && k != VerifiedPhoneKey ==>
             (k in r.values <==> k in values) && (k in values ==> r.values[k] == values[k])
  {
  }

  /** `user_has_sms_consent` after a save: never without a user, and for the user, whenever no notice
    * was raised, exactly when "yes" was posted; a refused opt-in leaves it off. */
  lemma ConsentAfterSave(values: map<string, string>, smsConsent: Option<string>, callConsent: Option<string>,
                         entries: Entries, token: string, now: int)
    requires smsConsent.Some?
    ensures var r := SaveConsentSpec(values, smsConsent, callConsent, entries, token, now);
      !Utils.UserHasSmsConsent(false, r.values)
      && (r.notices == [] ==> (Utils.UserHasSmsConsent(true, r.values) <==> smsConsent.value == "yes"))
      && (r.notices != [] ==> !Utils.UserHasSmsConsent(true, r.values))
  {
  }

  /** SMS consent is only ever switched on by a verified number: a user without consent who has it
    * after the save presented a valid token, and the verified number is then the local number. */
  lemma ConsentOnlyWithToken(values: map<string, string>, newConsent: string, postedCall: Option<string>,
                             local: string, verified: bool)
    requires !Utils.UserHasSmsConsent(true, values)
    requires Utils.UserHasSmsConsent(true, ConsentChange(values, newConsent, postedCall, local, verified).values)
    ensures verified && newConsent == "yes"
    ensures MetaValue(ConsentChange(values, newConsent, postedCall, local, verified).values, VerifiedPhoneKey) == local
  {
  }

  /** A user who already consents can resubmit "yes" without a token. */
  lemma ConsentKeptWithoutToken(values: map<string, string>, postedCall: Option<string>, local: string)
    requires Utils.UserHasSmsConsent(true, values)
    ensures var r := ConsentChange(values, "yes", postedCall, local, false);
      r.notices == [] && Utils.UserHasSmsConsent(true, r.values)
      && MetaValue(r.values, VerifiedPhoneKey) == MetaValue(values, VerifiedPhoneKey)
  {
  }

  /** The token handed out by a successful verification of the billing phone lets the opt-in through
    * while it lives, and the billing number becomes the user's verified number. */
  lemma VerifiedTokenEnablesConsent(values: map<string, string>, entries: Entries, phone: string, code: string,
                                    token: string, t0: int, t1: int, callConsent: Option<string>)
    requires Utils.IsProofToken(token)
    requires OtpHandler.VerifySpec(entries, true, phone, code, token, t0).result.Verified?
    requires Utils.NormalizePhone(MetaValue(values, BillingPhoneKey)) == Utils.NormalizePhone(phone)
    requires MetaValue(values, SmsConsentKey) != "yes"
    requires t0 <= t1 <= t0 + 300
    ensures var after := OtpHandler.VerifySpec(entries, true, phone, code, token, t0).entries;
      var r := SaveConsentSpec(values, Some("yes"), callConsent, after, token, t1);
      r.notices == [] && Utils.UserHasSmsConsent(true, r.values)
      && MetaValue(r.values, VerifiedPhoneKey) == Utils.NormalizePhone(phone)
  {
    var local := Utils.NormalizePhone(phone);
    OtpHandler.VerifySuccessNeedsLiveCode(entries, true, phone, code, token, t0);
    OtpHandler.VerifyMatchIssuesToken(entries, phone, code, token, t0, t1, token);
    Utils.NormalizeLocalNumber(local);
    var after := OtpHandler.VerifySpec(entries, true, phone, code, token, t0).entries;
    assert Utils.IsPhoneVerified(after, local, token, t1);
  }

  // ---------------------------------------------------------- checkout

  /** `validate_checkout_phone_verification`: the notices it adds for the posted `billing_phone`. */
  function CheckoutNotices(billingPhone: Option<string>, loggedIn: bool, values: map<string, string>,
                           entries: Entries, token: string, now: int): (n: seq<Notice>)
    ensures n == [] || n == [OrderVerificationRequired]
  {
    if billingPhone.None? then []
    else
      var local := Utils.NormalizePhone(billingPhone.value);
      if |local| != 9 then []
      else if loggedIn && local == Utils.UserVerifiedPhone(values) then []
      else if !Utils.IsPhoneVerified(entries, local, token, now) then [OrderVerificationRequired]
      else []
  }

  /** The order is held back exactly when a nine-digit billing number is posted that neither matches the
    * logged-in user's verified number nor carries a valid token for it. */
  lemma CheckoutBlocksExactlyUnverified(billingPhone: Option<string>, loggedIn: bool, values: map<string, string>,
                                        entries: Entries, token: string, now: int)
    ensures CheckoutNotices(billingPhone, loggedIn, values, entries, token, now) != []
            <==> billingPhone.Some?
                 && Utils.IsLocalNumber(Utils.NormalizePhone(billingPhone.value))
                 && !(loggedIn && Utils.NormalizePhone(billingPhone.value) == Utils.UserVerifiedPhone(values))
                 && !Utils.IsPhoneVerified(entries, Utils.NormalizePhone(billingPhone.value), token, now)
  {
    if billingPhone.Some? {
      var local := Utils.NormalizePhone(billingPhone.value);
      if |local| == 9 {
        Utils.NormalizeLocalNumber(local);
      }
    }
  }

  /** A fresh token from the verify endpoint passes checkout for any spelling of the same number. */
  lemma VerifiedTokenPassesCheckout(entries: Entries, phone: string, code: string, token: string, t0: int, t1: int,
                                    billingPhone: string, loggedIn: bool, values: map<string, string>)
    requires Utils.IsProofToken(token)
    requires OtpHandler.VerifySpec(entries, true, phone, code, token, t0).result.Verified?
    requires Utils.NormalizePhone(billingPhone) == Utils.NormalizePhone(phone)
    requires t0 <= t1 <= t0 + 300
    ensures var after := OtpHandler.VerifySpec(entries, true, phone, code, token, t0).entries;
      CheckoutNotices(Some(billingPhone), loggedIn, values, after, token, t1) == []
  {
    var local := Utils.NormalizePhone(phone);
    OtpHandler.VerifySuccessNeedsLiveCode(entries, true, phone, code, token, t0);
    OtpHandler.VerifyMatchIssuesToken(entries, phone, code, token, t0, t1, token);
    Utils.NormalizeLocalNumber(local);
  }

  // ------------------------------------------------------ account details

  /** `validate_account_phone_verification` on the user's meta `values`. */
  function AccountCheck(values: map<string, string>, billingPhone: Option<string>, entries: Entries,
                        token: string, now: int): MetaStep
  {
    if billingPhone.None? then MetaStep([], values)
    else
      var local := Utils.NormalizePhone(billingPhone.value);
      if |local| != 9 then MetaStep([], values)
      else if local == Utils.UserVerifiedPhone(values) then MetaStep([], values)
      else if !Utils.IsPhoneVerified(entries, local, token, now) then MetaStep([NewPhoneVerificationRequired], values)
      else MetaStep([], values[VerifiedPhoneKey := local])
  }

  /** `validate_account_phone_verification`: a changed number needs a token, and is recorded once it has one. */
  method ValidateAccountPhoneVerification(meta: UserMeta, billingPhone: Option<string>, store: TransientStore,
                                          token: string, now: int)
    returns (errors: seq<Notice>)
    modifies meta
    ensures MetaStep(errors, meta.values) == AccountCheck(old(meta.values), billingPhone, store.entries, token, now)
  {
    if billingPhone.None? {
      return [];
    }
    var local := Utils.NormalizePhone(billingPhone.value);
    if |local| != 9 {
      return [];
    }
    var verifiedPhone := Utils.UserVerifiedPhone(meta.values);
    if local != verifiedPhone {
      if !Utils.IsPhoneVerified(store.entries, local, token, now) {
        return [NewPhoneVerificationRequired];
      }
      meta.Update(VerifiedPhoneKey, local);
    }
    return [];
  }

  /** Only a changed nine-digit number is examined: it raises an error exactly when no valid token is
    * presented, and otherwise becomes the verified number; nothing else in the meta changes. */
  lemma AccountChangedPhone(values: map<string, string>, billingPhone: string, entries: Entries, token: string, now: int)
    requires Utils.IsLocalNumber(Utils.NormalizePhone(billingPhone))
    requires Utils.NormalizePhone(billingPhone) != Utils.UserVerifiedPhone(values)
    ensures var local := Utils.NormalizePhone(billingPhone);
      var r := AccountCheck(values, Some(billingPhone), entries, token, now);
      (r.notices != [] <==> !Utils.IsPhoneVerified(entries, local, token, now))
      && (r.notices != [] ==> r.values == values)
      && (r.notices == [] ==> r.values == values[VerifiedPhoneKey := local] && Utils.UserVerifiedPhone(r.values) == local)
  {
    var local := Utils.NormalizePhone(billingPhone);
    var r := AccountCheck(values, Some(billingPhone), entries, token, now);
    if r.notices == [] {
      assert MetaValue(r.values, VerifiedPhoneKey) == local;
      Utils.UserVerifiedPhoneOfLocal(r.values);
    }
  }

  /** Saving the same details again changes nothing and needs no token, and checkout then passes for
    * the logged-in user without one. */
  lemma AccountCheckSettles(values: map<string, string>, billingPhone: string, entries: Entries, token: string, now: int,
                            entries2: Entries, token2: string, later: int)
    requires Utils.IsLocalNumber(Utils.NormalizePhone(billingPhone))
    requires AccountCheck(values, Some(billingPhone), entries, token, now).notices == []
    ensures var r := AccountCheck(values, Some(billingPhone), entries, token, now);
      AccountCheck(r.values, Some(billingPhone), entries2, token2, later) == MetaStep([], r.values)
      && CheckoutNotices(Some(billingPhone), true, r.values, entries2, token2, later) == []
  {
    var local := Utils.NormalizePhone(billingPhone);
    if local != Utils.UserVerifiedPhone(values) {
      AccountChangedPhone(values, billingPhone, entries, token, now);
    }
  }
}
