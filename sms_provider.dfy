/**
 * includes/Api/SmsProvider.php: the bi.msg.ge gateway. The HTTP exchange is
 * foreign, so the response (and what `json_decode` made of its body) is an
 * input; what remains is the request that would be sent and a closed decision
 * chain over the credentials and the response.
 */
module SmsProvider {
  import opened Wrappers
  import opened Strings
  import Utils

  const ApiUrl := "http://bi.msg.ge/sendsms.php"
  const TimeoutSeconds := 30

  /** The four gateway options from the settings screen. */
  datatype Credentials = Credentials(username: string, password: string, clientId: string, serviceId: string)

  /** A member of the decoded JSON object: absent or null, a string, or another scalar
    * (number or boolean) carried with PHP's string conversion of it. */
  datatype JsonField = Missing | JsonString(s: string) | JsonScalar(text: string)

  /** `json_decode($body, true)`: either not an array, or an array with its `code` and `message_id`. */
  datatype Decoded = NotAnArray | JsonObject(code: JsonField, messageId: JsonField)

  /** What `wp_remote_get` returned: a `WP_Error`, or a body together with its decoding. */
  datatype Response = TransportError(message: string) | HttpBody(body: string, json: Decoded)

  datatype SmsError =
    | NotConfigured
    | Transport(message: string)
    | BadCredentials          // 0001: invalid credentials or forbidden IP
    | InvalidNumber           // 0007
    | InsufficientBalance     // 0008
    | SendingFailed           // any other code
    | UnexpectedResponse

  datatype SmsResult = Delivered(messageId: string) | Failed(error: SmsError)

  /** The GET request `send_sms` issues: the query arguments, with `result=json`. */
  datatype Request = Request(url: string, username: string, password: string, clientId: string,
                             serviceId: string, to: string, text: string, timeout: int)

  /** The request made (none when the gateway is not configured) and the result. */
  datatype Dispatch = Dispatch(request: Option<Request>, result: SmsResult)

  /** `is_configured`: none of the four options is PHP-empty. */
  function IsConfigured(c: Credentials): bool
  {
    !PhpEmpty(c.username) && !PhpEmpty(c.password) && !PhpEmpty(c.clientId) && !PhpEmpty(c.serviceId)
  }

  /** The `to` argument: the digits of `phone`, with 995 in front when exactly nine remain. */
  function Destination(phone: string): (to: string)
    ensures AllDigits(to)
  {
    var digits := StripNonDigits(phone);
    if |digits| == 9 then "995" + digits else digits
  }

  /** A phone whose digits form a local number goes out as 995 and those digits, whatever else
    * it contains, and that destination normalises back to the digits. */
  lemma DestinationOfLocal(phone: string)
    requires Utils.IsLocalNumber(StripNonDigits(phone))
    ensures Destination(phone) == "995" + StripNonDigits(phone)
    ensures Utils.NormalizePhone(Destination(phone)) == StripNonDigits(phone)
  {
    var local := StripNonDigits(phone);
    var to := "995" + local;
    StripNonDigitsOfDigits(to);
    Utils.NormalizeLongNumber(to);
    assert to[|to| - 9..] == local;
  }

  /** A phone with any other number of digits goes out as just its digits. */
  lemma DestinationOfOtherLengths(phone: string)
    requires |StripNonDigits(phone)| != 9
    ensures Destination(phone) == StripNonDigits(phone)
  {
  }

  /** The text of `$data['message_id']`, or '' when it is not set (`sanitize_text_field` is not applied). */
  function FieldText(f: JsonField): string
  {
    match f
    case Missing => ""
    case JsonString(s) => s
    case JsonScalar(t) => t
  }

  /** The error table for a non-success code. */
  function ErrorForCode(code: string): (e: SmsError)
    ensures e in {BadCredentials, InvalidNumber, InsufficientBalance, SendingFailed}
  {
    if code == "0001" then BadCredentials
    else if code == "0007" then InvalidNumber
    else if code == "0008" then InsufficientBalance
    else SendingFailed
  }

  /** The string `code` of a decoded array, if there is one; a body that is not an array has none. */
  function StringCode(json: Decoded): Option<string>
  {
    if json.JsonObject? && json.code.JsonString? then Some(json.code.s) else None
  }

  /** The response chain of `send_sms` after the request has gone out. */
  function Classify(response: Response): (r: SmsResult)
    ensures response.TransportError? ==> r == Failed(Transport(response.message))
    ensures r.Failed? ==> r.error != NotConfigured
  {
    match response
    case TransportError(message) => Failed(Transport(message))
    case HttpBody(body, json) =>
      var code := StringCode(json);
      if code.Some? then
        var cleaned := KeepWhere(code.value, IsAsciiAlnum);
        if StartsWith(cleaned, "0000") then Delivered(FieldText(json.messageId))
        else Failed(ErrorForCode(cleaned))
      else if StartsWith(body, "0000") then Delivered(Trim(RemoveAll(body, "0000-")))
      else Failed(UnexpectedResponse)
  }

  /** `send_sms`: no request and "not configured" unless all four options are set; otherwise the
    * GET request to the gateway and the classification of its response. */
  function SendSms(creds: Credentials, phone: string, message: string, response: Response): (d: Dispatch)
  {
    if !IsConfigured(creds) then Dispatch(None, Failed(NotConfigured))
    else
      var request := Request(ApiUrl, creds.username, creds.password, creds.clientId, creds.serviceId,
                             Destination(phone), message, TimeoutSeconds);
      Dispatch(Some(request), Classify(response))
  }

  /** The text of the OTP message, `sprintf('თქვენი ვერიფიკაციის კოდია: %s', $otp)`. */
  function OtpMessage(otp: string): (m: string)
    ensures |m| >= |otp| && m[|m| - |otp|..] == otp
  {
    "თქვენი ვერიფიკაციის კოდია: " + otp
  }

  /** `send_otp`: the templated message through `send_sms`. */
  function SendOtp(creds: Credentials, phone: string, otp: string, response: Response): Dispatch
  {
    SendSms(creds, phone, OtpMessage(otp), response)
  }

  /** A request goes out exactly when the gateway is configured; without one the result is
    * "not configured". When it goes out it carries the credentials, the destination and the message. */
  lemma SendSmsRequest(creds: Credentials, phone: string, message: string, response: Response)
    ensures var d := SendSms(creds, phone, message, response);
      (d.request.None? <==> !IsConfigured(creds))
      && (!IsConfigured(creds) ==> d.result == Failed(NotConfigured))
      && (IsConfigured(creds) ==>
            (d.result == Classify(response)
             && d.request.value.to == Destination(phone) && d.request.value.text == message
             && d.request.value.username == creds.username && d.request.value.password == creds.password
             && d.request.value.clientId == creds.clientId && d.request.value.serviceId == creds.serviceId))
  {
  }

  /** The gateway succeeds only through one of the two 0000-prefix paths, and always through them. */
  lemma SuccessOnlyOnZeroCode(response: Response)
    ensures Classify(response).Delivered?
            <==> response.HttpBody?
                 && (if StringCode(response.json).Some?
                     then StartsWith(KeepWhere(StringCode(response.json).value, IsAsciiAlnum), "0000")
                     else StartsWith(response.body, "0000"))
  {
  }

  /** With a string code, the cleaned code decides: 0000 is success with the message id,
    * 0001, 0007 and 0008 are their own errors, anything else is a generic failure. */
  lemma StringCodeOutcomes(body: string, code: string, messageId: JsonField)
    ensures var r := Classify(HttpBody(body, JsonObject(JsonString(code), messageId)));
      var cleaned := KeepWhere(code, IsAsciiAlnum);
      (StartsWith(cleaned, "0000") ==> r == Delivered(FieldText(messageId)))
      && (cleaned == "0001" ==> r == Failed(BadCredentials))
      && (cleaned == "0007" ==> r == Failed(InvalidNumber))
      && (cleaned == "0008" ==> r == Failed(InsufficientBalance))
      && (!StartsWith(cleaned, "0000") && cleaned !in {"0001", "0007", "0008"} ==> r == Failed(SendingFailed))
  {
    var cleaned := KeepWhere(code, IsAsciiAlnum);
    if cleaned in {"0001", "0007", "0008"} {
      assert cleaned[..4] != "0000" by { assert cleaned[3] != "0000"[3]; }
    }
  }

  /** A body that does not decode to an array is treated like an array without a code, and so is
    * a code that is not a string: only the raw body is then examined. */
  lemma NoStringCodeUsesBody(body: string, json: Decoded)
    requires StringCode(json).None?
    ensures Classify(HttpBody(body, json)) == Classify(HttpBody(body, NotAnArray))
    ensures Classify(HttpBody(body, json)) ==
      if StartsWith(body, "0000") then Delivered(Trim(RemoveAll(body, "0000-"))) else Failed(UnexpectedResponse)
  {
  }

  /** Punctuation around a code is ignored: " 0000 " is a success like "0000". */
  lemma PaddedCodeIsSuccess(body: string)
    ensures Classify(HttpBody(body, JsonObject(JsonString(" 0000 "), Missing))) == Delivered("")
  {
    PaddedCodeCleans();
  }

  /** Cleaning " 0000 " leaves "0000". */
  lemma PaddedCodeCleans()
    ensures KeepWhere(" 0000 ", IsAsciiAlnum) == "0000"
  {
    assert " 0000 " == " " + "0000" + " ";
    KeepWhereConcat(" " + "0000", " ", IsAsciiAlnum);
    KeepWhereConcat(" ", "0000", IsAsciiAlnum);
    assert KeepWhere(" ", IsAsciiAlnum) == [] + KeepWhere("", IsAsciiAlnum);
    KeepWhereIdentity("0000", IsAsciiAlnum);
  }

  /** The OTP message carries the code, and sending it is `send_sms` of that message. */
  lemma SendOtpCarriesCode(creds: Credentials, local: string, otp: string, response: Response)
    requires IsConfigured(creds) && Utils.IsLocalNumber(local)
    ensures var d := SendOtp(creds, local, otp, response);
      d.request.Some? && d.request.value.to == "995" + local
      && d.request.value.text == OtpMessage(otp)
      && d.result == Classify(response)
  {
    StripNonDigitsOfDigits(local);
    DestinationOfLocal(local);
  }
}
