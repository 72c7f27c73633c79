/**
 * includes/Frontend/Shortcode.php, `process_submission`: the registration form.
 * The request is whether it is a POST and the POSTed fields (after
 * `wp_unslash`); the posted `otp_verification_token`, already sanitised, is
 * `token`. The WordPress functions it calls are the `Oracles`, and the answer
 * of `wp_insert_user` is an input. The static `$errors` and `$old` are the
 * fields of a `RegistrationForm`; the meta written is that of the user just
 * created, and the transients are the shared store.
 */
module Shortcode {
  import opened Wrappers
  import opened Strings
  import opened Transients
  import opened Meta
  import Utils
  import WooCommerce

  /** The token check of the copy being modelled: `Utils::is_phone_verified`, or the legacy one. */
  type TokenCheck = (Entries, string, string, int) -> bool

  /** `sanitize_text_field`, `sanitize_email`, `wp_verify_nonce` for this form's action, `is_email`,
    * `username_exists` and `email_exists`. */
  datatype Oracles = Oracles(sanitizeText: string -> string, sanitizeEmail: string -> string,
                             verifyNonce: string -> bool, isEmail: string -> bool,
                             usernameExists: string -> bool, emailExists: string -> bool)

  datatype FormError =
    | PersonalIdRequired | FirstNameRequired | LastNameRequired | DobRequired | PhoneRequired | EmailRequired
    | InvalidEmail
    | PhoneNotNineDigits
    | PhoneTaken
    | EmailTaken
    | InsertError(message: string)   // the `WP_Error` message of `wp_insert_user`

  /** The account `wp_insert_user` is asked for (the generated password is left out). */
  datatype NewUser = NewUser(login: string, email: string, firstName: string, lastName: string, displayName: string)

  /** What `wp_insert_user` returns. */
  datatype InsertResult = InsertFailure(message: string) | InsertedUser(id: nat)

  /** How the request ended: silently, with validation errors, with a failed insert, or with the
    * redirect to the print page of the new user. */
  datatype Outcome = Skipped | Rejected | InsertFailed(user: NewUser) | Registered(user: NewUser, userId: nat)

  /** The outcome with the form's errors and old values, the new user's meta and the transients afterwards. */
  datatype Submission = Submission(outcome: Outcome, errors: seq<FormError>, oldValues: map<string, string>,
                                   meta: map<string, string>, entries: Entries)

  const FlagKey := "club_anketa_form_submitted"
  const NonceKey := "club_anketa_form_nonce"
  const HoneypotKey := "anketa_security_field"
  const FirstNameKey := "anketa_first_name"
  const LastNameKey := "anketa_last_name"
  const PhoneKey := "anketa_phone_local"
  const EmailKey := "anketa_email"
  const SmsConsentField := "anketa_sms_consent"
  const CallConsentField := "anketa_call_consent"

  /** The form's fields and their sanitiser. */
  const Fields: seq<(string, Utils.FieldType)> := [
    ("anketa_personal_id", Utils.TextField), (FirstNameKey, Utils.TextField), (LastNameKey, Utils.TextField),
    ("anketa_dob", Utils.DateField), (PhoneKey, Utils.TelField), ("anketa_address", Utils.TextField),
    (EmailKey, Utils.EmailField), ("anketa_card_no", Utils.TextField), ("anketa_responsible_person", Utils.TextField),
    ("anketa_form_date", Utils.DateField), ("anketa_shop", Utils.TextField),
    (SmsConsentField, Utils.TextField), (CallConsentField, Utils.TextField)]

  /** The required fields and the error each one raises when empty. */
  const RequiredFields: seq<(string, FormError)> := [
    ("anketa_personal_id", PersonalIdRequired), (FirstNameKey, FirstNameRequired), (LastNameKey, LastNameRequired),
    ("anketa_dob", DobRequired), (PhoneKey, PhoneRequired), (EmailKey, EmailRequired)]

  /** `isset($_POST[$key]) ? $_POST[$key] : ''` */
  function PostValue(post: map<string, string>, key: string): string
  {
    if key in post then post[key] else ""
  }

  /** `$data[$key]` for a collected key. */
  function Field(data: map<string, string>, key: string): string
  {
    if key in data then data[key] else ""
  }

  // ------------------------------------------------------- the three loops

  /** The first loop: `$data[$key] = sanitize_by_type($raw, $type)` for each field in turn. */
  function CollectFields(post: map<string, string>, fields: seq<(string, Utils.FieldType)>, o: Oracles): map<string, string>
  {
    if fields == [] then map[]
    else
      var f := fields[|fields| - 1];
      CollectFields(post, fields[..|fields| - 1], o)[f.0 := Utils.SanitizeByType(PostValue(post, f.0), f.1, o.sanitizeText, o.sanitizeEmail)]
  }

  /** The second loop: one error for each required field that is ''. */
  function RequiredErrors(data: map<string, string>, required: seq<(string, FormError)>): seq<FormError>
  {
    if required == [] then []
    else
      var r := required[|required| - 1];
      RequiredErrors(data, required[..|required| - 1]) + (if Field(data, r.0) == "" then [r.1] else [])
  }

  /** The third loop: `update_user_meta` for each pair whose value is not ''. */
  function MetaWrites(values: map<string, string>, pairs: seq<(string, string)>): map<string, string>
  {
    if pairs == [] then values
    else
      var p := pairs[|pairs| - 1];
      var before := MetaWrites(values, pairs[..|pairs| - 1]);
      if p.1 != "" then before[p.0 := p.1] else before
  }

  method CollectInputs(post: map<string, string>, fields: seq<(string, Utils.FieldType)>, o: Oracles)
    returns (data: map<string, string>)
    ensures data == CollectFields(post, fields, o)
  {
    data := map[];
    var i := 0;
    while i < |fields|
      invariant 0 <= i <= |fields|
      invariant data == CollectFields(post, fields[..i], o)
    {
      var (key, t) := fields[i];
      assert fields[..i + 1][..i] == fields[..i];
      data := data[key := Utils.SanitizeByType(PostValue(post, key), t, o.sanitizeText, o.sanitizeEmail)];
      i := i + 1;
    }
    assert fields[..i] == fields;
  }

  method SaveMeta(meta: UserMeta, pairs: seq<(string, string)>)
    modifies meta
    ensures meta.values == MetaWrites(old(meta.values), pairs)
  {
    var i := 0;
    while i < |pairs|
      invariant 0 <= i <= |pairs|
      invariant meta.values == MetaWrites(old(meta.values), pairs[..i])
    {
      assert pairs[..i + 1][..i] == pairs[..i];
      var (key, value) := pairs[i];
      if value != "" {
        meta.Update(key, value);
      }
      i := i + 1;
    }
    assert pairs[..i] == pairs;
  }

  // ------------------------------------------------------ the specification

  /** The digits of the posted phone, the future login: `preg_replace('/\D+/', '', ...)`. */
  function LocalDigits(data: map<string, string>): string
  {
    StripNonDigits(Field(data, PhoneKey))
  }

  /** A non-empty email that `is_email` refuses. */
  function EmailCheck(email: string, o: Oracles): seq<FormError>
  {
    if !PhpEmpty(email) && !o.isEmail(email) then [InvalidEmail] else []
  }

  /** `preg_match('/^\d{9}$/', $local_digits)` failing. */
  function PhoneShapeCheck(local: string): seq<FormError>
  {
    if !Utils.IsLocalNumber(local) then [PhoneNotNineDigits] else []
  }

  /** A non-empty login or email `username_exists` or `email_exists` knows. */
  function UniquenessChecks(local: string, email: string, o: Oracles): seq<FormError>
  {
    (if !PhpEmpty(local) && o.usernameExists(local) then [PhoneTaken] else [])
    + (if !PhpEmpty(email) && o.emailExists(email) then [EmailTaken] else [])
  }

  /** The checks after the required fields, in the order they are recorded. */
  function FieldChecks(data: map<string, string>, o: Oracles): seq<FormError>
  {
    var email := Field(data, EmailKey);
    var local := LocalDigits(data);
    EmailCheck(email, o) + PhoneShapeCheck(local) + UniquenessChecks(local, email, o)
  }

  /** Every validation error, in the order they are recorded. */
  function ValidationErrors(data: map<string, string>, o: Oracles): seq<FormError>
  {
    RequiredErrors(data, RequiredFields) + FieldChecks(data, o)
  }

  /** The user meta written after the insert, in order; '' values are skipped by the loop. */
  function MetaMap(data: map<string, string>, local: string, verified: bool): seq<(string, string)>
  {
    [(BillingPhoneKey, "+995 " + local), ("billing_address_1", Field(data, "anketa_address")),
     ("_anketa_personal_id", Field(data, "anketa_personal_id")), ("_anketa_dob", Field(data, "anketa_dob")),
     ("_anketa_card_no", Field(data, "anketa_card_no")),
     ("_anketa_responsible_person", Field(data, "anketa_responsible_person")),
     ("_anketa_form_date", Field(data, "anketa_form_date")), ("_anketa_shop", Field(data, "anketa_shop")),
     (SmsConsentKey, CoerceConsent(Lower(Field(data, SmsConsentField)))),
     (CallConsentKey, CoerceConsent(Lower(Field(data, CallConsentField)))),
     (VerifiedPhoneKey, if verified then local else "")]
  }

  /** The account requested from the collected data. */
  function UserFor(data: map<string, string>): NewUser
  {
    var first := Field(data, FirstNameKey);
    var last := Field(data, LastNameKey);
    NewUser(LocalDigits(data), Field(data, EmailKey), first, last, Trim(first + " " + last))
  }

  /** From user creation on: records the insert error, or writes the meta and consumes a used token. */
  function Register(data: map<string, string>, meta: map<string, string>, entries: Entries, verified: bool,
                    insert: InsertResult): Submission
  {
    var local := LocalDigits(data);
    match insert
    case InsertFailure(message) => Submission(InsertFailed(UserFor(data)), [InsertError(message)], data, meta, entries)
    case InsertedUser(id) =>
      Submission(Registered(UserFor(data), id), [], data, MetaWrites(meta, MetaMap(data, local, verified)),
                 if verified then entries - {VerifiedToken(local)} else entries)
  }

  /** From validation on, with the fields collected. */
  function Validated(errors: seq<FormError>, data: map<string, string>, meta: map<string, string>, entries: Entries,
                     token: string, o: Oracles, check: TokenCheck, insert: InsertResult, now: int): Submission
  {
    var all := errors + ValidationErrors(data, o);
    if all != [] then Submission(Rejected, all, data, meta, entries)
    else Register(data, meta, entries, check(entries, LocalDigits(data), token, now), insert)
  }

  /** `process_submission` from the form's `errors` and `oldValues`, the new user's `meta` and the store. */
  function SubmissionSpec(errors: seq<FormError>, oldValues: map<string, string>, meta: map<string, string>,
                          entries: Entries, isPost: bool, post: map<string, string>, token: string, o: Oracles,
                          check: TokenCheck, insert: InsertResult, now: int): Submission
  {
    var nonce := PostValue(post, NonceKey);
    if !isPost || PhpEmpty(PostValue(post, FlagKey)) then Submission(Skipped, errors, oldValues, meta, entries)
    else if PhpEmpty(nonce) || !o.verifyNonce(o.sanitizeText(nonce)) then Submission(Skipped, errors, oldValues, meta, entries)
    else if Trim(PostValue(post, HoneypotKey)) != "" then Submission(Skipped, errors, oldValues, meta, entries)
    else Validated(errors, CollectFields(post, Fields, o), meta, entries, token, o, check, insert, now)
  }

  /** Concatenation regroups freely. */
  lemma ConcatAssociative<T>(a: seq<T>, b: seq<T>, c: seq<T>)
    ensures a + b + c == a + (b + c)
  {
  }

  /** Any recorded error rejects the submission with the state as it was. */
  lemma ValidatedRejects(errors: seq<FormError>, data: map<string, string>, meta: map<string, string>, entries: Entries,
                         token: string, o: Oracles, check: TokenCheck, insert: InsertResult, now: int)
    requires errors + ValidationErrors(data, o) != []
    ensures Validated(errors, data, meta, entries, token, o, check, insert, now)
            == Submission(Rejected, errors + ValidationErrors(data, o), data, meta, entries)
  {
  }

  /** Without errors the submission goes on to user creation, with the copy's token check deciding. */
  lemma ValidatedRegisters(errors: seq<FormError>, data: map<string, string>, meta: map<string, string>, entries: Entries,
                           token: string, o: Oracles, check: TokenCheck, insert: InsertResult, now: int)
    requires errors + ValidationErrors(data, o) == []
    ensures Validated(errors, data, meta, entries, token, o, check, insert, now)
            == Register(data, meta, entries, check(entries, LocalDigits(data), token, now), insert)
  {
  }

  // ------------------------------------------------------------ the form

  class RegistrationForm {
    var errors: seq<FormError>
    var oldValues: map<string, string>

    constructor ()
      ensures errors == [] && oldValues == map[]
    {
      errors := [];
      oldValues := map[];
    }

    /** The second loop of `process_submission`. */
    method AddRequiredErrors(data: map<string, string>, required: seq<(string, FormError)>)
      modifies this
      ensures errors == old(errors) + RequiredErrors(data, required)
      ensures oldValues == old(oldValues)
    {
      var i := 0;
      while i < |required|
        invariant 0 <= i <= |required|
        invariant errors == old(errors) + RequiredErrors(data, required[..i])
        invariant oldValues == old(oldValues)
      {
        assert required[..i + 1][..i] == required[..i];
        var (key, message) := required[i];
        if Field(data, key) == "" {
          errors := errors + [message];
        }
        i := i + 1;
      }
      assert required[..i] == required;
    }

    /** The email, phone and uniqueness checks after the required fields. */
    method AddFieldErrors(data: map<string, string>, o: Oracles)
      modifies this
      ensures errors == old(errors) + FieldChecks(data, o)
      ensures oldValues == old(oldValues)
    {
      var email := Field(data, EmailKey);
      var local := StripNonDigits(Field(data, PhoneKey));
      var badEmail := !PhpEmpty(email) && !o.isEmail(email);
      var phoneTaken := !PhpEmpty(local) && o.usernameExists(local);
      var emailTaken := !PhpEmpty(email) && o.emailExists(email);
      var found: seq<FormError> := [];
      if badEmail {
        found := found + [InvalidEmail];
      }
      if !(|local| == 9 && AllDigits(local)) {
        found := found + [PhoneNotNineDigits];
      }
      assert found == EmailCheck(email, o) + PhoneShapeCheck(local);
      var unique: seq<FormError> := [];
      if phoneTaken {
        unique := unique + [PhoneTaken];
      }
      if emailTaken {
        unique := unique + [EmailTaken];
      }
      assert unique == UniquenessChecks(local, email, o);
      errors := errors + (found + unique);
    }

    /** Validation, then user creation when nothing was recorded. */
    method ValidateAndRegister(meta: UserMeta, store: TransientStore, data: map<string, string>, token: string,
                               o: Oracles, check: TokenCheck, insert: InsertResult, now: int)
      returns (outcome: Outcome)
      requires oldValues == data
      modifies this, meta, store
      ensures Submission(outcome, errors, oldValues, meta.values, store.entries)
              == Validated(old(errors), data, old(meta.values), old(store.entries), token, o, check, insert, now)
    {
      ghost var e0, m0, s0 := errors, meta.values, store.entries;
      ghost var required, checks := RequiredErrors(data, RequiredFields), FieldChecks(data, o);
      assert ValidationErrors(data, o) == required + checks;
      AddRequiredErrors(data, RequiredFields);
      AddFieldErrors(data, o);
      ConcatAssociative(e0, required, checks);
      if errors != [] {
        ValidatedRejects(e0, data, m0, s0, token, o, check, insert, now);
        return Rejected;
      }
      var verified := check(store.entries, LocalDigits(data), token, now);
      ValidatedRegisters(e0, data, m0, s0, token, o, check, insert, now);
      outcome := RegisterUser(meta, store, data, verified, insert);
    }

    /** `process_submission`; `check` is the copy's token check (`Utils.IsPhoneVerified` for this one). */
    method ProcessSubmission(meta: UserMeta, store: TransientStore, isPost: bool, post: map<string, string>,
                             token: string, o: Oracles, check: TokenCheck, insert: InsertResult, now: int)
      returns (outcome: Outcome)
      modifies this, meta, store
      ensures Submission(outcome, errors, oldValues, meta.values, store.entries)
              == SubmissionSpec(old(errors), old(oldValues), old(meta.values), old(store.entries),
                                isPost, post, token, o, check, insert, now)
    {
      ghost var spec := SubmissionSpec(errors, oldValues, meta.values, store.entries, isPost, post, token, o, check, insert, now);
      ghost var skipped := Submission(Skipped, errors, oldValues, meta.values, store.entries);
      if !isPost || PhpEmpty(PostValue(post, FlagKey)) {
        assert spec == skipped;
        return Skipped;
      }
      var nonce := PostValue(post, NonceKey);
      if PhpEmpty(nonce) || !o.verifyNonce(o.sanitizeText(nonce)) {
        assert spec == skipped;
        return Skipped;
      }
      var honeypot := Trim(PostValue(post, HoneypotKey));
      if honeypot != "" {
        assert spec == skipped;
        return Skipped;
      }
      var data := CollectInputs(post, Fields, o);
      assert spec == Validated(errors, data, meta.values, store.entries, token, o, check, insert, now);
      oldValues := data;
      outcome := ValidateAndRegister(meta, store, data, token, o, check, insert, now);
    }

    /** User creation, the meta loop and the token clean-up. */
    method RegisterUser(meta: UserMeta, store: TransientStore, data: map<string, string>, verified: bool,
                        insert: InsertResult)
      returns (outcome: Outcome)
      requires errors == [] && oldValues == data
      modifies this, meta, store
      ensures Submission(outcome, errors, oldValues, meta.values, store.entries)
              == Register(data, old(meta.values), old(store.entries), verified, insert)
    {
      var local := StripNonDigits(Field(data, PhoneKey));
      var user := UserFor(data);
      if insert.InsertFailure? {
        errors := errors + [InsertError(insert.message)];
        return InsertFailed(user);
      }
      SaveMeta(meta, MetaMap(data, local, verified));
      if verified {
        store.Delete(VerifiedToken(local));
      }
      return Registered(user, insert.id);
    }
  }

  // -------------------------------------------------------------- lemmas

  /** No POST, no form flag, a bad nonce or a filled honeypot: nothing changes and no error is recorded. */
  lemma SkipsSilently(errors: seq<FormError>, oldValues: map<string, string>, meta: map<string, string>,
                      entries: Entries, isPost: bool, post: map<string, string>, token: string, o: Oracles,
                      check: TokenCheck, insert: InsertResult, now: int)
    requires !isPost || PhpEmpty(PostValue(post, FlagKey)) || PhpEmpty(PostValue(post, NonceKey))
             || !o.verifyNonce(o.sanitizeText(PostValue(post, NonceKey))) || Trim(PostValue(post, HoneypotKey)) != ""
    ensures SubmissionSpec(errors, oldValues, meta, entries, isPost, post, token, o, check, insert, now)
            == Submission(Skipped, errors, oldValues, meta, entries)
  {
  }

  /** The required-field loop records no error that is not listed. */
  lemma {:induction false} RequiredErrorsOnlyListed(data: map<string, string>, required: seq<(string, FormError)>, e: FormError)
    requires forall i :: 0 <= i < |required| ==> required[i].1 != e
    ensures multiset(RequiredErrors(data, required))[e] == 0
  {
    if required != [] {
      var n := |required| - 1;
      var front, last := required[..n], required[n];
      assert forall i :: 0 <= i < n ==> front[i] == required[i];
      RequiredErrorsOnlyListed(data, front, e);
      assert last.1 != e;
      var tail := if Field(data, last.0) == "" then [last.1] else [];
      assert RequiredErrors(data, required) == RequiredErrors(data, front) + tail;
      assert multiset(tail)[e] == 0;
    }
  }

  /** When no other entry shares the error of entry k, the required-field loop records that error once
    * when the field of entry k is '', and not at all otherwise. */
  lemma {:induction false} RequiredErrorsExact(data: map<string, string>, required: seq<(string, FormError)>, k: nat)
    requires k < |required|
    requires forall j :: 0 <= j < |required| && j != k ==> required[j].1 != required[k].1
    ensures multiset(RequiredErrors(data, required))[required[k].1] == if Field(data, required[k].0) == "" then 1 else 0
  {
    var n := |required| - 1;
    var front, last := required[..n], required[n];
    var e := required[k].1;
    var tail := if Field(data, last.0) == "" then [last.1] else [];
    assert RequiredErrors(data, required) == RequiredErrors(data, front) + tail;
    if k < n {
      assert front[k] == required[k];
      forall j | 0 <= j < n && j != k
        ensures front[j].1 != front[k].1
      {
        assert front[j] == required[j];
      }
      RequiredErrorsExact(data, front, k);
      assert last.1 != e;
      assert multiset(tail)[e] == 0;
    } else {
      forall j | 0 <= j < n
        ensures front[j].1 != last.1
      {
        assert front[j] == required[j];
      }
      RequiredErrorsOnlyListed(data, front, last.1);
      assert multiset(tail)[e] == if Field(data, last.0) == "" then 1 else 0;
    }
  }

  /** For the form's six required fields: each empty one raises its own error once. */
  lemma EmptyRequiredFieldOneError(data: map<string, string>, k: nat)
    requires k < |RequiredFields|
    ensures multiset(RequiredErrors(data, RequiredFields))[RequiredFields[k].1]
            == if Field(data, RequiredFields[k].0) == "" then 1 else 0
  {
    RequiredErrorsExact(data, RequiredFields, k);
  }

  /** Validation records "not nine digits" exactly when the digits of the posted phone are not nine;
    * a leading 995 is not removed, so "+995 599 62 03 03" is refused. */
  lemma PhoneRule(data: map<string, string>, o: Oracles)
    ensures PhoneNotNineDigits in ValidationErrors(data, o) <==> |LocalDigits(data)| != 9
  {
    PhoneShapeNotRequired(data);
    PhoneShapeOnlyFromShape(data, o);
  }

  /** Among the checks after the required fields only the shape check records "not nine digits". */
  lemma PhoneShapeOnlyFromShape(data: map<string, string>, o: Oracles)
    ensures PhoneNotNineDigits in FieldChecks(data, o) <==> PhoneNotNineDigits in PhoneShapeCheck(LocalDigits(data))
  {
    var email, local := Field(data, EmailKey), LocalDigits(data);
    assert PhoneNotNineDigits !in EmailCheck(email, o);
    assert PhoneNotNineDigits !in UniquenessChecks(local, email, o);
  }

  /** The required-field loop never records the phone-shape error. */
  lemma PhoneShapeNotRequired(data: map<string, string>)
    ensures PhoneNotNineDigits !in RequiredErrors(data, RequiredFields)
  {
    forall i | 0 <= i < |RequiredFields|
      ensures RequiredFields[i].1 != PhoneNotNineDigits
    {
    }
    RequiredErrorsOnlyListed(data, RequiredFields, PhoneNotNineDigits);
    assert multiset(RequiredErrors(data, RequiredFields))[PhoneNotNineDigits] == 0;
  }

  /** A field that no later field repeats is collected as its posted value through its sanitiser. */
  lemma {:induction false} CollectedField(post: map<string, string>, fields: seq<(string, Utils.FieldType)>, o: Oracles, k: nat)
    requires k < |fields|
    requires forall j :: k < j < |fields| ==> fields[j].0 != fields[k].0
    ensures Field(CollectFields(post, fields, o), fields[k].0)
            == Utils.SanitizeByType(PostValue(post, fields[k].0), fields[k].1, o.sanitizeText, o.sanitizeEmail)
  {
    var n := |fields| - 1;
    var front, f := fields[..n], fields[n];
    var v := Utils.SanitizeByType(PostValue(post, f.0), f.1, o.sanitizeText, o.sanitizeEmail);
    assert CollectFields(post, fields, o) == CollectFields(post, front, o)[f.0 := v];
    if k < n {
      assert front[k] == fields[k];
      assert forall j :: k < j < n ==> front[j] == fields[j];
      CollectedField(post, front, o, k);
      assert f.0 != fields[k].0;
    }
  }

  /** The login is the digits of the posted phone: the tel filter and trimming drop no digit. */
  lemma PostedPhoneDigits(post: map<string, string>, o: Oracles)
    ensures LocalDigits(CollectFields(post, Fields, o)) == StripNonDigits(Trim(PostValue(post, PhoneKey)))
  {
    CollectedField(post, Fields, o, 4);
    Utils.TelKeepsDigits(PostValue(post, PhoneKey), o.sanitizeText, o.sanitizeEmail);
  }

  /** The digits of a number posted as "+995" and nine digits are all twelve of them. */
  lemma PostedCountryCodeDigits(local: string)
    requires Utils.IsLocalNumber(local)
    ensures StripNonDigits(Trim("+995" + local)) == "995" + local
  {
    TrimUntrimmed("+995" + local);
    Utils.InternationalNumber(local);
  }

  /** No country code is removed here: a number posted as "+995" and nine digits is refused. */
  lemma CountryCodeRefused(post: map<string, string>, o: Oracles, local: string)
    requires Utils.IsLocalNumber(local)
    requires PostValue(post, PhoneKey) == "+995" + local
    ensures PhoneNotNineDigits in ValidationErrors(CollectFields(post, Fields, o), o)
  {
    PostedCountryCodeDigits(local);
    PostedPhoneDigits(post, o);
    PhoneRule(CollectFields(post, Fields, o), o);
  }

  /** Any recorded error, even one left from before, stops before the user is created: meta and store
    * are untouched. A registration happens only with no error at all and a nine-digit login. */
  lemma ErrorsStopRegistration(errors: seq<FormError>, data: map<string, string>, meta: map<string, string>,
                               entries: Entries, token: string, o: Oracles, check: TokenCheck, insert: InsertResult, now: int)
    ensures var s := Validated(errors, data, meta, entries, token, o, check, insert, now);
      (errors + ValidationErrors(data, o) != [] ==> s.outcome == Rejected && s.meta == meta && s.entries == entries)
      && (s.outcome.Registered? ==> errors == [] && ValidationErrors(data, o) == []
                                    && Utils.IsLocalNumber(s.outcome.user.login))
  {
    var s := Validated(errors, data, meta, entries, token, o, check, insert, now);
    if s.outcome.Registered? {
      assert ValidationErrors(data, o) == [];
      assert !(PhoneNotNineDigits in ValidationErrors(data, o));
    }
  }

  /** A registration stores the lower-cased consents, with anything but yes/no taken as "yes". */
  lemma ConsentDefaultsToYes(data: map<string, string>, meta: map<string, string>, entries: Entries, verified: bool, id: nat)
    ensures var s := Register(data, meta, entries, verified, InsertedUser(id));
      var sms := Lower(Field(data, SmsConsentField));
      var call := Lower(Field(data, CallConsentField));
      MetaValue(s.meta, SmsConsentKey) == (if sms == "yes" || sms == "no" then sms else "yes")
      && MetaValue(s.meta, CallConsentKey) == (if call == "yes" || call == "no" then call else "yes")
  {
    MetaWritesLast(meta, MetaMap(data, LocalDigits(data), verified), 8);
    MetaWritesLast(meta, MetaMap(data, LocalDigits(data), verified), 9);
  }

  /** A pair whose key no later pair repeats decides that key: its value when it is not '', the earlier
    * one otherwise. */
  lemma {:induction false} MetaWritesLast(values: map<string, string>, pairs: seq<(string, string)>, k: nat)
    requires k < |pairs|
    requires forall j :: k < j < |pairs| ==> pairs[j].0 != pairs[k].0
    ensures MetaValue(MetaWrites(values, pairs), pairs[k].0)
            == if pairs[k].1 != "" then pairs[k].1 else MetaValue(MetaWrites(values, pairs[..k]), pairs[k].0)
  {
    var n := |pairs| - 1;
    if k < n {
      assert pairs[..n][k] == pairs[k];
      assert pairs[..n][..k] == pairs[..k];
      MetaWritesLast(values, pairs[..n], k);
    } else {
      assert pairs[..n] == pairs[..k];
    }
  }

  /** A key that no pair names keeps its value. */
  lemma {:induction false} MetaWritesOthers(values: map<string, string>, pairs: seq<(string, string)>, key: string)
    requires forall j :: 0 <= j < |pairs| ==> pairs[j].0 != key
    ensures (key in MetaWrites(values, pairs) <==> key in values)
            && (key in values ==> MetaWrites(values, pairs)[key] == values[key])
  {
    if pairs != [] {
      var n := |pairs| - 1;
      assert forall j :: 0 <= j < n ==> pairs[..n][j] == pairs[j];
      MetaWritesOthers(values, pairs[..n], key);
    }
  }

  /** A registration records the login as the verified number exactly when the token checked out, and
    * leaves whatever the user's meta held otherwise; the billing number normalises back to the login. */
  lemma VerifiedPhoneOnlyWhenVerified(data: map<string, string>, meta: map<string, string>, entries: Entries,
                                      verified: bool, id: nat)
    requires Utils.IsLocalNumber(LocalDigits(data))
    ensures var s := Register(data, meta, entries, verified, InsertedUser(id));
      var local := LocalDigits(data);
      (verified ==> MetaValue(s.meta, VerifiedPhoneKey) == local)
      && (!verified ==> MetaValue(s.meta, VerifiedPhoneKey) == MetaValue(meta, VerifiedPhoneKey))
      && MetaValue(s.meta, BillingPhoneKey) == "+995 " + local
      && Utils.NormalizePhone(MetaValue(s.meta, BillingPhoneKey)) == local
  {
    var local := LocalDigits(data);
    var pairs := MetaMap(data, local, verified);
    MetaWritesLast(meta, pairs, 10);
    MetaWritesLast(meta, pairs, 0);
    assert pairs[..0] == [];
    if !verified {
      MetaWritesOthers(meta, pairs[..10], VerifiedPhoneKey);
    }
    Utils.FormatRoundTrip(local);
  }

  /** The token is deleted exactly when a user was created with a verified number; nothing else in the
    * store changes, and the same token no longer verifies the number afterwards. */
  lemma TokenConsumedOnRegistration(data: map<string, string>, meta: map<string, string>, entries: Entries,
                                    verified: bool, insert: InsertResult, token: string, later: int)
    requires Utils.IsLocalNumber(LocalDigits(data))
    ensures var s := Register(data, meta, entries, verified, insert);
      var key := VerifiedToken(LocalDigits(data));
      (s.outcome.Registered? && verified ==>
         (s.entries == entries - {key} && !Utils.IsPhoneVerified(s.entries, LocalDigits(data), token, later)))
      && (!(s.outcome.Registered? && verified) ==> s.entries == entries)
  {
    Utils.NormalizeLocalNumber(LocalDigits(data));
  }

  /** A user registered with a verified number passes the checkout check for that number once logged in,
    * with no token. */
  lemma RegisteredUserPassesCheckout(data: map<string, string>, meta: map<string, string>, entries: Entries, id: nat,
                                     token: string, now: int)
    requires Utils.IsLocalNumber(LocalDigits(data))
    ensures var s := Register(data, meta, entries, true, InsertedUser(id));
      WooCommerce.CheckoutNotices(Some(MetaValue(s.meta, BillingPhoneKey)), true, s.meta, s.entries, token, now) == []
  {
    var s := Register(data, meta, entries, true, InsertedUser(id));
    VerifiedPhoneOnlyWhenVerified(data, meta, entries, true, id);
    Utils.UserVerifiedPhoneOfLocal(s.meta);
  }
}
