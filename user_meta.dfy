/**
 * WordPress user meta of one account: `get_user_meta($id, $key, true)` reads
 * "" for a missing key, `update_user_meta` overwrites and `delete_user_meta`
 * removes.
 */
module Meta {

  const SmsConsentKey := "_sms_consent"
  const CallConsentKey := "_call_consent"
  const VerifiedPhoneKey := "_verified_phone_number"
  const BillingPhoneKey := "billing_phone"

  /** `get_user_meta($user_id, $key, true)` */
  function MetaValue(values: map<string, string>, key: string): string
  {
    if key in values then values[key] else ""
  }

  /** A consent value other than "yes" or "no" is taken as "yes". */
  function CoerceConsent(v: string): (r: string)
    ensures r == "yes" || r == "no"
    ensures v == "yes" || v == "no" ==> r == v
  {
    if v != "yes" && v != "no" then "yes" else v
  }

  class UserMeta {
    var values: map<string, string>

    constructor (initial: map<string, string>)
      ensures values == initial
    {
      values := initial;
    }

    /** `update_user_meta($user_id, $key, $value)` */
    method Update(key: string, value: string)
      modifies this
      ensures values == old(values)[key := value]
    {
      values := values[key := value];
    }

    /** `delete_user_meta($user_id, $key)` */
    method Delete(key: string)
      modifies this
      ensures values == old(values) - {key}
    {
      values := values - {key};
    }
  }
}
