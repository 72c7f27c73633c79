# Club Anketa SMS verification, modelled in Dafny

This project models the SMS one-time-password lifecycle of the Club Anketa
WordPress plugin and proves properties of it. It covers:

- the v3 helpers in `includes/Core/Utils.php`: phone normalisation and display, code generation, field sanitising, the client address, the send limit, and the proof-token check;
- the bi.msg.ge gateway client in `includes/Api/SmsProvider.php`;
- the two AJAX endpoints in `includes/Frontend/OtpHandler.php`, which drive each phone through the states "no code", "code pending" and "verified";
- the WooCommerce consent save and the checkout and account validators;
- the registration form handler in `includes/Frontend/Shortcode.php`;
- the legacy single-class copy of all of this in `includes/class-club-anketa.php`.

The WordPress transients are an expiring key/value store: `Transients.TransientStore` holds a map from `Key` to an `Entry`, which is a value plus an expiry time. A read (`Lookup`) is live while `now <= expiresAt`. User meta is `Meta.UserMeta`, a string-to-string map.

Each handler has two halves:

- a specification function on the store's map and the meta map (`SendSpec`, `VerifySpec`, `SaveConsentSpec`, `SubmissionSpec`, …);
- an imperative method with the source's early returns, whose `ensures` says that its result and the new state are those of the specification function.

The lifecycle properties are lemmas about the specification functions. These include rate limits, lockout, token issue and consumption, that a failed request changes nothing, and a store invariant.

The legacy copy reuses the v3 definitions wherever its code is the same, and proves the two copies equal there. Where the code differs, the legacy copy has its own definitions and a lemma showing the difference. The differences are:

- the order in which the client address is taken;
- uncleaned gateway codes;
- no `995` removal on send;
- no verify lockout;
- no length check on the proof token;
- the regex-based local part used by the consent save.

Inputs from outside the modelled code are parameters:

- the random draw of `random_int`/`wp_rand`;
- the token of `wp_generate_password(32, false)`;
- the gateway's response and its JSON decoding;
- the current time;
- `check_ajax_referer`, as a boolean;
- `sanitize_text_field`, `sanitize_email`, `is_email`, `wp_verify_nonce`, `username_exists`, `email_exists` and `filter_var(FILTER_VALIDATE_IP)`, as functions;
- the answer of `wp_insert_user`.

## Model

| member | source | states |
|---|---|---|
| Utils.NormalizePhone | includes/Core/Utils.php:29-47 | PHP-empty input gives ""; otherwise the result is at most nine digits and is a suffix of the input's digits |
| Utils.NormalizeShortNumber | includes/Core/Utils.php:34-46 | at most nine digits come back unchanged, including too-short ones |
| Utils.NormalizeLongNumber | includes/Core/Utils.php:37-44 | twelve or more digits reduce to their last nine, with or without a leading 995 |
| Utils.NormalizeCountryCode | includes/Core/Utils.php:37-44 | more than nine digits starting 995 lose exactly the prefix when at most twelve; more than nine without it keep their last nine |
| Utils.NormalizeIdempotent | includes/Core/Utils.php:29-47 | a second normalisation changes nothing unless the first gave "0" |
| Utils.NormalizeLocalNumber | includes/Core/Utils.php:29-47 | every nine-digit number is its own normal form |
| Utils.NormalizeZeroQuirk | includes/Core/Utils.php:30-32 | `empty("0")`: "0" normalises to "", so "a0" gives "0" and then "" |
| Utils.NormalizeExamples | includes/Core/Utils.php:37-44 | "+995599620303" and "599620303" both normalise to "599620303" |
| Utils.PrefixedLocalNumber | includes/Core/Utils.php:34-44 | a prefix whose only digits are 995, followed by a local number, gives 995 plus the number and normalises back to it |
| Utils.CountryCodeDigits | includes/Core/Utils.php:34 | "+995" and "+995 " contribute exactly the digits 995 |
| Utils.InternationalNumber | includes/Core/Utils.php:29-47 | a local number written after "+995" or "+995 " normalises back to itself |
| Utils.FormatPhone | includes/Core/Utils.php:55-68 | the result is either the trimmed input or "+995 " followed by nine digits, and it is exactly the trimmed input when the digits are neither nine nor 995 followed by nine |
| Utils.FormatMatchesNormalize | includes/Core/Utils.php:55-64 | whenever a number is recognised, the display form is "+995 " plus its normalised nine digits |
| Utils.FormatRoundTrip | includes/Core/Utils.php:55-64 | round trip: normalising the display form of a local number gives the number back |
| Utils.GenerateOtp | includes/Core/Utils.php:242-245 | six digits whose decimal value is the random draw |
| Utils.GenerateOtpInjective | includes/Core/Utils.php:242-245 | distinct draws give distinct codes, in both directions |
| Utils.SanitizeByType | includes/Core/Utils.php:136-150 | the date filter leaves only date characters and the tel filter only tel characters |
| Utils.TelKeepsDigits | includes/Core/Utils.php:144-145 | the tel filter drops no digit of the trimmed input |
| Utils.FiltersKeepCleanInput | includes/Core/Utils.php:142-145 | a trimmed value passes either filter unchanged exactly when all of its characters are allowed |
| Utils.FirstListEntry | includes/Core/Utils.php:176-177 | the prefix of the header up to the first comma, which contains no comma |
| Utils.ClientIp | includes/Core/Utils.php:161-191 | the address is "0.0.0.0" or one the validator accepts; a set REMOTE_ADDR whose sanitised value is valid always wins |
| Utils.ClientIpIsFirstAccepted | includes/Core/Utils.php:161-191 | the address is the first candidate, in the order REMOTE_ADDR, first X-Forwarded-For entry, CLIENT_IP, that is set and whose sanitised value is valid; "0.0.0.0" when all three are refused |
| Utils.ClientIpNeverEmpty | includes/Core/Utils.php:161-191 | the address is never "" when the validator refuses "" |
| Utils.ClientIpPrefersRemoteAddr | includes/Core/Utils.php:162-169 | a header is used only when REMOTE_ADDR is empty or its sanitised value is invalid |
| Utils.CheckRateLimit | includes/Core/Utils.php:210-219 | a send is allowed exactly when the live counter for this phone and address is below 3 |
| Utils.IncrementRateLimit | includes/Core/Utils.php:226-235 | the counter becomes the old live count plus one, with a fresh ten-minute lifetime; no other key changes |
| Utils.PhoneVerifiedExactly | includes/Core/Utils.php:76-92 | verified exactly for nine digits and a non-empty token equal to the live token stored for them |
| Utils.UserVerifiedPhone | includes/Core/Utils.php:100-108 | "" or a normalised number of at most nine digits, never "0" |
| Utils.UserVerifiedPhoneOfLocal | includes/Core/Utils.php:100-108 | a stored nine-digit number is returned unchanged |
| Meta.CoerceConsent | includes/Integrations/WooCommerce.php:155-160 | the stored call consent is always "yes" or "no", and a posted yes/no is kept |
| SmsProvider.Destination | includes/Api/SmsProvider.php:66-70 | the destination is all digits |
| SmsProvider.DestinationOfLocal | includes/Api/SmsProvider.php:66-70 | a phone whose digits form a local number is sent to as 995 plus those digits, and that destination normalises back to them |
| SmsProvider.DestinationOfOtherLengths | includes/Api/SmsProvider.php:66-70 | a phone with any other number of digits is sent to as just its digits |
| SmsProvider.ErrorForCode | includes/Api/SmsProvider.php:118-127 | a non-success code maps to one of the three named errors or to the generic failure |
| SmsProvider.Classify | includes/Api/SmsProvider.php:88-141 | a transport error is reported as such, and no response reads as "not configured" |
| SmsProvider.SendSmsRequest | includes/Api/SmsProvider.php:55-86 | a request goes out exactly when the gateway is configured, carrying the credentials, the destination and the message |
| SmsProvider.SuccessOnlyOnZeroCode | includes/Api/SmsProvider.php:100-136 | success happens exactly on a 0000 prefix: of the cleaned string code when there is one, otherwise of the body |
| SmsProvider.StringCodeOutcomes | includes/Api/SmsProvider.php:106-127 | the outcome for each cleaned code: 0000 gives success with the message id, 0001/0007/0008 give their errors, anything else the generic failure |
| SmsProvider.NoStringCodeUsesBody | includes/Api/SmsProvider.php:101-141 | a response that decodes to no array, or a code that is not a string, is judged on the raw body alone |
| SmsProvider.PaddedCodeIsSuccess | includes/Api/SmsProvider.php:107-116 | punctuation around a code is cleaned away, so " 0000 " is a success |
| SmsProvider.PaddedCodeCleans | includes/Api/SmsProvider.php:107 | cleaning " 0000 " leaves "0000" |
| SmsProvider.OtpMessage | includes/Api/SmsProvider.php:152 | the message ends with the code |
| SmsProvider.SendOtpCarriesCode | includes/Api/SmsProvider.php:151-154 | the OTP SMS goes to 995 plus the number, carries the templated code, and its result is the gateway's |
| OtpHandler.ReachesDispatch | includes/Frontend/OtpHandler.php:112-131 | past the nonce, length and limit checks, the handler stores the generated code and hands it to the gateway |
| OtpHandler.AjaxSendOtp | includes/Frontend/OtpHandler.php:108-142 | the response, the new store and the SMS request are those of `SendSpec` |
| OtpHandler.VerifyAllowed | includes/Frontend/OtpHandler.php:156-165 | a verification is allowed exactly when the live counter is below 5 |
| OtpHandler.IncrementVerifyAttempts | includes/Frontend/OtpHandler.php:172-181 | the counter becomes the old live count plus one, with a fresh 15-minute lifetime |
| OtpHandler.ClearVerifyAttempts | includes/Frontend/OtpHandler.php:188-190 | only the counter is removed |
| OtpHandler.AjaxVerifyOtp | includes/Frontend/OtpHandler.php:195-246 | the response and the new store are those of `VerifySpec`; the meta records the number exactly for a logged-in success |
| OtpHandler.SendRejectsBadPhone | includes/Frontend/OtpHandler.php:112-116 | "invalid phone" exactly when the number does not normalise to nine digits; no write and no SMS then |
| OtpHandler.SendRateLimited | includes/Frontend/OtpHandler.php:118-121 | "too many attempts" exactly at three live sends; no code is stored and no SMS goes out |
| OtpHandler.SendStoresCodeFirst | includes/Frontend/OtpHandler.php:123-131 | the new code is stored for 300 s before the send and survives a failed send; the SMS goes to 995 plus the number with that code |
| OtpHandler.PastGuardsEffect | includes/Frontend/OtpHandler.php:127-141 | only the code and the send counter change, and the counter rises by one for ten minutes exactly when the gateway accepted the message |
| OtpHandler.PastGuardsResult | includes/Frontend/OtpHandler.php:131-141 | past the guards the response is a success or a gateway failure, never a guard's error |
| OtpHandler.SendCountsOnlySuccess | includes/Frontend/OtpHandler.php:119-141 | a success needs nine digits and fewer than three sends, reports 300 s, and adds one to the counter; a failure leaves the counter alone |
| OtpHandler.ThirdSendBlocksFourth | includes/Frontend/OtpHandler.php:118-134 | three successful sends, each within ten minutes of the last, block a fourth within ten minutes of the third |
| OtpHandler.VerifyRejectsBadFormat | includes/Frontend/OtpHandler.php:200-204 | "invalid format" exactly for a number that is not nine digits or a code that is not six bytes; nothing changes |
| OtpHandler.NonDigitCodePassesFormat | includes/Frontend/OtpHandler.php:202 | six letters pass the format check |
| OtpHandler.LockoutChangesNothing | includes/Frontend/OtpHandler.php:206-211 | with five counted failures even the right code is refused, and nothing changes |
| OtpHandler.VerifyFailureCounts | includes/Frontend/OtpHandler.php:213-224 | a missing code gives "expired" and a different code gives "invalid"; each adds one failure that lives 15 minutes |
| OtpHandler.VerifyMatchIssuesToken | includes/Frontend/OtpHandler.php:226-245 | the right code deletes itself and the counter, and issues the token, which verifies the number for exactly 300 s; resubmitting the code is "expired" |
| OtpHandler.VerifySuccessNeedsLiveCode | includes/Frontend/OtpHandler.php:195-246 | a success needs the nonce, nine digits, no lockout and the live stored code |
| OtpHandler.SameEntrySameCount | includes/Frontend/OtpHandler.php:156-165 | two stores that agree on a key read the same count from it |
| OtpHandler.OtpByteLength | includes/Frontend/OtpHandler.php:202 | every generated code is six bytes, so it passes the format check |
| OtpHandler.SendThenVerify | includes/Frontend/OtpHandler.php:108-246 | sending and then submitting the code within 300 s verifies the number under any spelling that normalises to it, whatever the SMS outcome |
| OtpHandler.InternationalSendLocalVerify | includes/Frontend/OtpHandler.php:112 | a code sent to "+995599620303" verifies as "599620303" |
| OtpHandler.ChainedTail | includes/Frontend/OtpHandler.php:172-181 | the tail of a chain of attempts is still a chain |
| OtpHandler.AllWrongAfterCount | includes/Frontend/OtpHandler.php:221-223 | counting a failure does not touch the stored code |
| OtpHandler.WrongAttemptStep | includes/Frontend/OtpHandler.php:214-224 | one well-formed wrong attempt below the limit counts one failure and changes nothing else |
| OtpHandler.WrongAttemptsAccumulate | includes/Frontend/OtpHandler.php:172-224 | chained wrong attempts add one each to the counter and re-arm it from the last attempt; no other key changes |
| OtpHandler.FiveFailuresLockOut | includes/Frontend/OtpHandler.php:147-224 | five chained wrong codes lock the number: a sixth request within 15 minutes is refused and changes nothing, even with the right code |
| OtpHandler.CounterNonNegative | includes/Frontend/OtpHandler.php:156-165 | under the store invariant no counter reads below zero |
| OtpHandler.PastGuardsPreservesInvariant | includes/Frontend/OtpHandler.php:127-134 | storing a code and counting a send below the limit keep the invariant |
| OtpHandler.SendPreservesInvariant | includes/Frontend/OtpHandler.php:108-142 | the send handler keeps the store invariant: codes and tokens are text, send counters hold 1..3 and verify counters 1..5 |
| OtpHandler.VerifyPreservesInvariant | includes/Frontend/OtpHandler.php:195-246 | the verify handler keeps the same store invariant |
| WooCommerce.ApplyConsent | includes/Integrations/WooCommerce.php:134-161 | the notices and the new meta are those of the consent rule |
| WooCommerce.SaveAccountSmsConsent | includes/Integrations/WooCommerce.php:122-162 | the notices and the new meta are those of `SaveConsentSpec` |
| WooCommerce.NoConsentPostedNoChange | includes/Integrations/WooCommerce.php:123-125 | without a posted consent nothing changes |
| WooCommerce.OptInNeedsToken | includes/Integrations/WooCommerce.php:135-145 | an opt-in without a token raises the notice and changes no meta; with a token it records the number and the consent |
| WooCommerce.OptOutClearsPhone | includes/Integrations/WooCommerce.php:148-152 | "no" deletes the verified number and stores "no" |
| WooCommerce.ConsentStoredAsPosted | includes/Integrations/WooCommerce.php:152-161 | unless the opt-in is refused, the consent is stored as posted, the call consent is coerced to yes/no, and no other key changes |
| WooCommerce.ConsentAfterSave | includes/Core/Utils.php:116-127 | after a consent save there is never consent without a user; for the user, consent is on exactly when "yes" was posted and no notice was raised |
| WooCommerce.ConsentOnlyWithToken | includes/Integrations/WooCommerce.php:134-152 | consent that was off can become "yes" only through a verified opt-in, which records the number |
| WooCommerce.ConsentKeptWithoutToken | includes/Integrations/WooCommerce.php:135 | re-posting "yes" when consent is already on needs no token and changes no verified number |
| WooCommerce.VerifiedTokenEnablesConsent | includes/Integrations/WooCommerce.php:130-152 | a fresh token from the verify endpoint for the billing number lets the opt-in through |
| WooCommerce.CheckoutNotices | includes/Integrations/WooCommerce.php:167-191 | at most one notice, "order verification required" |
| WooCommerce.CheckoutBlocksExactlyUnverified | includes/Integrations/WooCommerce.php:167-191 | the order is held back exactly for a posted nine-digit number that neither is the user's verified number nor carries a valid token |
| WooCommerce.VerifiedTokenPassesCheckout | includes/Integrations/WooCommerce.php:187-190 | a fresh token passes checkout for any spelling of the verified number |
| WooCommerce.ValidateAccountPhoneVerification | includes/Integrations/WooCommerce.php:198-222 | the errors and the new meta are those of `AccountCheck` |
| WooCommerce.AccountChangedPhone | includes/Integrations/WooCommerce.php:213-221 | a changed number raises the error exactly when no valid token is presented, and otherwise becomes the verified number |
| WooCommerce.AccountCheckSettles | includes/Integrations/WooCommerce.php:198-222 | after a check without errors a second check with any token changes nothing, and checkout passes for the user without a token |
| Shortcode.CollectInputs | includes/Frontend/Shortcode.php:108-112 | the loop builds the map of `CollectFields` |
| Shortcode.SaveMeta | includes/Frontend/Shortcode.php:200-204 | the loop writes the meta of `MetaWrites` |
| Shortcode.RegistrationForm.AddRequiredErrors | includes/Frontend/Shortcode.php:125-129 | the loop appends the errors of `RequiredErrors` |
| Shortcode.RegistrationForm.AddFieldErrors | includes/Frontend/Shortcode.php:131-148 | the email, phone-shape and uniqueness errors, appended in order |
| Shortcode.RegistrationForm.ValidateAndRegister | includes/Frontend/Shortcode.php:115-209 | the outcome, errors, meta and store are those of `Validated` |
| Shortcode.RegistrationForm.ProcessSubmission | includes/Frontend/Shortcode.php:72-215 | the outcome, errors, old values, meta and store are those of `SubmissionSpec` |
| Shortcode.RegistrationForm.RegisterUser | includes/Frontend/Shortcode.php:168-209 | the outcome, meta and store are those of `Register` |
| Shortcode.SkipsSilently | includes/Frontend/Shortcode.php:73-89 | no POST, no flag, a bad nonce or a filled honeypot: nothing changes and no error is recorded |
| Shortcode.RequiredErrorsOnlyListed | includes/Frontend/Shortcode.php:125-129 | the required-field loop records only listed errors |
| Shortcode.RequiredErrorsExact | includes/Frontend/Shortcode.php:125-129 | a required field with its own error message raises it once if empty and never otherwise |
| Shortcode.EmptyRequiredFieldOneError | includes/Frontend/Shortcode.php:116-129 | each of the six required fields raises its error exactly once when empty |
| Shortcode.PhoneRule | includes/Frontend/Shortcode.php:137-140 | "not nine digits" is recorded exactly when the phone's digits are not nine |
| Shortcode.PhoneShapeNotRequired | includes/Frontend/Shortcode.php:116-129 | the required-field loop never records the phone-shape error |
| Shortcode.PhoneShapeOnlyFromShape | includes/Frontend/Shortcode.php:131-148 | among the later checks only the shape check records "not nine digits" |
| Shortcode.CollectedField | includes/Frontend/Shortcode.php:109-111 | each collected field is its posted value through its sanitiser |
| Shortcode.PostedPhoneDigits | includes/Frontend/Shortcode.php:97-137 | the login is the digits of the trimmed posted phone |
| Shortcode.PostedCountryCodeDigits | includes/Frontend/Shortcode.php:137 | "+995" followed by nine digits has twelve digits |
| Shortcode.CountryCodeRefused | includes/Frontend/Shortcode.php:137-140 | a number posted with "+995" is refused as not nine digits |
| Shortcode.ErrorsStopRegistration | includes/Frontend/Shortcode.php:150-152 | any recorded error stops before user creation with meta and store untouched; a registration has a nine-digit login |
| Shortcode.ConsentDefaultsToYes | includes/Frontend/Shortcode.php:154-163 | the stored consents are the lower-cased yes/no, and anything else becomes "yes" |
| Shortcode.MetaWritesLast | includes/Frontend/Shortcode.php:200-204 | a key that no later pair repeats holds its value unless that value is "", when the earlier value stays |
| Shortcode.MetaWritesOthers | includes/Frontend/Shortcode.php:200-204 | keys that no pair names are untouched |
| Shortcode.VerifiedPhoneOnlyWhenVerified | includes/Frontend/Shortcode.php:185-204 | the verified number is written exactly when the token checked out; the billing number is "+995 " plus the login and normalises back to it |
| Shortcode.TokenConsumedOnRegistration | includes/Frontend/Shortcode.php:206-209 | the token is deleted exactly after a registration with a verified number, and then no longer verifies; the store is otherwise unchanged |
| Shortcode.RegisteredUserPassesCheckout | includes/Frontend/Shortcode.php:185-204 | a user registered with a verified number passes the checkout validator |
| Legacy.ClientIp | includes/class-club-anketa.php:173-183 | the first non-empty of CLIENT_IP, the whole X-Forwarded-For value and REMOTE_ADDR, sanitised; "" when all are empty |
| Legacy.HeaderOverridesRemoteAddr | includes/class-club-anketa.php:173-183 | the client's CLIENT_IP header wins over a valid REMOTE_ADDR, which v3 would take |
| Legacy.CheckRateLimit | includes/class-club-anketa.php:188-197 | allowed exactly when the live counter under the legacy address is below 3 |
| Legacy.IncrementRateLimit | includes/class-club-anketa.php:202-213 | the counter becomes the old live count plus one, with a fresh ten-minute lifetime |
| Legacy.Classify | includes/class-club-anketa.php:258-295 | a transport error is reported as such, and no response reads as "not configured" |
| Legacy.SendSmsSameRequest | includes/class-club-anketa.php:216-251 | both copies send the same request; the legacy result is the legacy classification |
| Legacy.SendOtpCarriesCode | includes/class-club-anketa.php:322-323 | the legacy OTP SMS goes to 995 plus the nine digits, carries the templated code and is read by the legacy chain |
| Legacy.ClassifyAgreesOnCleanCodes | includes/class-club-anketa.php:258-295 | for a string code of letters and digits only, or no code, the two classifications agree |
| Legacy.PaddedCodeFails | includes/class-club-anketa.php:262-280 | " 0000 " is a generic failure here and a success in v3 |
| Legacy.PaddedCodeUncleaned | includes/class-club-anketa.php:262-280 | " 0000 " has no 0000 prefix and matches no error code here, so it is the generic failure |
| Legacy.StringCodeUncleaned | includes/class-club-anketa.php:261-279 | a string code without the 0000 prefix fails with the error-table entry for the code exactly as sent, with no cleaning |
| Legacy.ScalarCodeIgnoresBody | includes/class-club-anketa.php:260-281 | a code that is set but not a string fails without reading the body, which v3 reads instead |
| Legacy.SuccessOnlyOnZeroCode | includes/class-club-anketa.php:260-288 | success exactly on a 0000 prefix: of the set code when there is one, otherwise of the body |
| Legacy.AjaxSendOtp | includes/class-club-anketa.php:299-336 | the response, the new store and the SMS request are those of the legacy `SendSpec` |
| Legacy.SendRejectsCountryCode | includes/class-club-anketa.php:303-307 | "+995" plus a local number is refused with nothing written, while v3 normalises it to the number |
| Legacy.SendStoresCodeFirst | includes/class-club-anketa.php:314-333 | the code is stored for 300 s before the send; the counter rises by one for ten minutes exactly on success; nothing else changes |
| Legacy.SendPreservesInvariant | includes/class-club-anketa.php:299-336 | the legacy send keeps the store invariant |
| Legacy.AjaxVerifyOtp | includes/class-club-anketa.php:339-381 | the response and the new store are those of the legacy `VerifySpec`; the meta records the digits exactly for a logged-in success |
| Legacy.VerifyFailuresChangeNothing | includes/class-club-anketa.php:346-362 | a failure happens exactly without the nonce, with a malformed request or a code other than the live one; it changes nothing and is never "locked out" |
| Legacy.VerifyMatchIssuesToken | includes/class-club-anketa.php:364-380 | the right code deletes itself and issues the token for exactly 300 s; resubmitting it is "expired"; no other key changes |
| Legacy.NoLockout | includes/class-club-anketa.php:346-367 | with five failures counted by v3 the legacy handler still accepts the code, where v3 answers "locked out" |
| Legacy.WrongGuessesChangeNothing | includes/class-club-anketa.php:352-362 | any number of wrong codes leaves the store as it was |
| Legacy.UnlimitedGuesses | includes/class-club-anketa.php:346-380 | after any run of wrong guesses the live code is still accepted |
| Legacy.SendThenVerify | includes/class-club-anketa.php:299-381 | sending and then submitting the code within 300 s verifies the number for the issued token |
| Legacy.VerifyPreservesInvariant | includes/class-club-anketa.php:339-381 | the legacy verify keeps the store invariant |
| Legacy.IsPhoneVerifiedAgrees | includes/class-club-anketa.php:385-396 | on nine-digit numbers the legacy token check is the v3 check |
| Legacy.NoLengthCheck | includes/class-club-anketa.php:385-396 | for every digit string of one to eight digits other than "0", a live token stored under it is accepted by the legacy check and refused by v3; neither verify handler stores such a key, so the difference is not reached through the handlers |
| Legacy.UserVerifiedPhone | includes/class-club-anketa.php:140-153 | "" or at most nine digits |
| Legacy.UserVerifiedPhoneAgrees | includes/class-club-anketa.php:140-153 | the legacy verified-number read equals the v3 one |
| Legacy.LocalPartIsLastNine | includes/class-club-anketa.php:449-455 | both branches of the regex give the last nine digits of a longer number and the digits otherwise; nine or more digits give a local number |
| Legacy.LocalPartAgrees | includes/class-club-anketa.php:449-455 | for nine digits, or for twelve or more, the legacy local part is the v3 normalised number |
| Legacy.LocalPartOfShortInternational | includes/class-club-anketa.php:449-455 | ten or eleven digits starting 995 keep their last nine here, while v3 is left with too few digits |
| Legacy.LocalPartOfElevenDigits | includes/class-club-anketa.php:449-455 | "99512345678" gives "512345678" here and "12345678" in v3 |
| Legacy.SaveAccountSmsConsent | includes/class-club-anketa.php:440-486 | the notices and the new meta are those of the legacy `SaveConsentSpec` |
| Legacy.SaveConsentAgrees | includes/class-club-anketa.php:440-486 | for a billing number of nine digits, or of twelve or more, the legacy save is the v3 save |
| Legacy.CheckoutAgrees | includes/class-club-anketa.php:634-658 | the legacy checkout validator raises exactly the v3 notices |
| Legacy.ValidateAccountPhoneVerification | includes/class-club-anketa.php:663-689 | the errors and the new meta are those of the legacy `AccountCheck` |
| Legacy.AccountAgrees | includes/class-club-anketa.php:663-689 | the legacy account validator has the v3 effect |
| Legacy.ValidatedAgrees | includes/class-club-anketa.php:760-862 | once the fields are collected, the legacy and the v3 token checks lead to the same submission |
| Legacy.SubmissionAgrees | includes/class-club-anketa.php:714-869 | the legacy registration handler equals the v3 one on every request, so every `Shortcode` property holds for it |

## Left out

- Rendering, scripts, admin screens, rewrite routing and hook registration are HTML output or WordPress wiring, not lifecycle logic.
- `check_ajax_referer` ends the request on a bad nonce. This is modelled as the `BadNonce` response with nothing changed.
- `wp_send_json_*` are modelled as the tagged result of an early return. The translated message texts are the constructors of `AjaxError`, `SmsError`, `Notice` and `FormError`.
- The transient key strings (`otp_<phone>` and the others) are the constructors of `Transients.Key`. The `md5($phone . $ip)` of the send-limit key is kept as the pair of phone and address, which assumes md5 does not collide on the inputs that occur.
- `random_int` and `wp_rand` are the integer parameter `random`. `wp_generate_password(32, false)` is the parameter `token`. The form's user password is not modelled, because nothing reads it.
- The HTTP call, `add_query_arg`, `rawurlencode` of the message and the 30-second timeout are not performed. The request is returned as a value carrying the unencoded message.
- `json_decode` is part of the response input. A code or message id that is a number or a boolean is carried as its PHP string form. A nested array as a code or as a message id is not modelled (v3 would return "" for such a message id, and the legacy copy would return the array).
- SmsProvider.Classify: `sanitize_text_field` on the message id is not applied; the id is returned as the gateway sent it.
- The AJAX and WooCommerce inputs (`$_POST` phone, code, consent, billing phone and token) are taken as already passed through `sanitize_text_field`. The registration form treats that function as the oracle `sanitizeText`.
- `wc_add_notice` is assumed to exist in the consent save. The `function_exists` guard is not modelled.
- Cross-request concurrency is not modelled. Each handler runs alone on the store.
- `get_current_user_id`, `is_user_logged_in` and `get_user_meta` are modelled as the boolean `loggedIn` and the current user's meta map.
- `wp_safe_redirect`/`exit` after a registration, and the `home_url` print address, are not modelled. The outcome `Registered` carries the new user's id instead.
- The legacy `normalize_phone` (includes/class-club-anketa.php:586-604) and `generate_otp` (includes/class-club-anketa.php:158-160) are the v3 code. They are modelled by `Utils.NormalizePhone` and `Utils.GenerateOtp`.
- The legacy `sanitize_by_type` (includes/class-club-anketa.php:871-885) and the registration steps of `maybe_process_submission` are the v3 code. They are modelled by `Shortcode` with the legacy token check `Legacy.Check`, and `Legacy.SubmissionAgrees` proves the two copies equal.
- Legacy.CheckoutNotices and Legacy.AccountCheck have no contract of their own. Their meaning is stated by `Legacy.CheckoutAgrees` and `Legacy.AccountAgrees` together with the v3 lemmas.
- Utils.IsPhoneVerified (includes/Core/Utils.php:76-92) has no contract of its own. Its meaning is stated by `Utils.PhoneVerifiedExactly`.
- Utils.UserHasSmsConsent (includes/Core/Utils.php:116-127) has no contract of its own. Its meaning is stated by `WooCommerce.ConsentAfterSave` and `WooCommerce.ConsentOnlyWithToken`.
- Utils.RateLimitKey (includes/Core/Utils.php:199-202) has no contract of its own. Its meaning is stated by `Utils.CheckRateLimit`, `Utils.IncrementRateLimit` and `Utils.ClientIpIsFirstAccepted`.
- SmsProvider.IsConfigured and SmsProvider.SendSms (includes/Api/SmsProvider.php:43-86) have no contract of their own. Their meaning is stated by `SmsProvider.SendSmsRequest`.
- SmsProvider.SendOtp (includes/Api/SmsProvider.php:151-154) has no contract of its own. Its meaning is stated by `SmsProvider.SendOtpCarriesCode`.
- Legacy.IsPhoneVerified (includes/class-club-anketa.php:385-396) has no contract of its own. Its meaning is stated by `Legacy.IsPhoneVerifiedAgrees` and `Legacy.NoLengthCheck`.
- Legacy.SendSms and Legacy.SendOtp (includes/class-club-anketa.php:216-251, 322-323) have no contract of their own. Their meaning is stated by `Legacy.SendSmsSameRequest` and `Legacy.SendOtpCarriesCode`.
- Legacy.LocalPart (includes/class-club-anketa.php:449-455) has no contract of its own. Its meaning is stated by `Legacy.LocalPartIsLastNine` and `Legacy.LocalPartAgrees`.
- Legacy.RateLimitKey (includes/class-club-anketa.php:165-168) has no contract of its own. Its meaning is stated by `Legacy.CheckRateLimit` and `Legacy.IncrementRateLimit`.
