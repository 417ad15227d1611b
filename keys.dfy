/**
 * The key-generation call's response handling: how a reply becomes either a
 * new key or the message shown to the user.
 */
module Keys {
  import opened Wrappers
  import opened Text
  import opened Gateway

  /** The prefix of every message for a call that threw or a reply that was not ok. */
  const ErrorPrefix: string := "Error generating key: "

  /** Shown when an ok reply carries no usable key. */
  const NoKeyReturned: string := "No key returned from API."

  /** The common start of the thrown message for a reply that was not ok. */
  const FailedToGenerate: string := "Failed to generate key: "

  /** The advice given for status 400, which the gateway returns for a duplicate alias. */
  const DuplicateHint: string := "This might be due to a duplicate key name. Please try a different name."

  /** The message thrown for a reply that was not ok: the status, then a detail chosen by the status. */
  function FailureReason(status: nat, statusText: string): (m: string)
    ensures FailedToGenerate + Decimal(status) + " " <= m
    ensures m[|FailedToGenerate| + |Decimal(status)| + 1..] == FailureDetail(status, statusText)
  {
    FailedToGenerate + Decimal(status) + " " + FailureDetail(status, statusText)
  }

  /** Status 400 suggests a duplicate alias, status 500 names the server error, any other status gives its text. */
  function FailureDetail(status: nat, statusText: string): (d: string)
    ensures status == 400 ==> "Bad Request - " <= d && d[|"Bad Request - "|..] == DuplicateHint
    ensures status == 500 ==> d == "Internal Server Error"
    ensures status != 400 && status != 500 ==> d == statusText
  {
    if status == 400 then "Bad Request - " + DuplicateHint
    else if status == 500 then "Internal Server Error"
    else statusText
  }

  /** What the page makes of the key-generation call: a new key, or a message to show. */
  datatype KeyOutcome = Issued(key: string) | Refused(message: string)

  /**
   * Reading the reply: a call that threw and a reply that was not ok become a
   * message with the common prefix; an ok reply gives its key when the key is
   * present and non-empty, and the no-key message otherwise.
   * The body is the reply's `key` field, `None` when missing or not a string.
   */
  function KeyGenerationOutcome(response: Response<Option<string>>): (o: KeyOutcome)
    ensures o.Issued? <==> response.Reply? && IsOk(response.status) && response.body.Some? && response.body.value != ""
    ensures o.Issued? ==> o.key == response.body.value && o.key != ""
    ensures response.Rejected? ==> o == Refused(ErrorPrefix + response.message)
    ensures response.Reply? && !IsOk(response.status) ==>
              o == Refused(ErrorPrefix + FailureReason(response.status, response.statusText))
    ensures response.Reply? && IsOk(response.status) && !o.Issued? ==> o == Refused(NoKeyReturned)
  {
    match response
    case Rejected(message) => Refused(ErrorPrefix + message)
    case Reply(status, statusText, key) =>
      if !IsOk(status) then Refused(ErrorPrefix + FailureReason(status, statusText))
      else if key.Some? && key.value != "" then Issued(key.value)
      else Refused(NoKeyReturned)
  }

  /** Every failure message starts with the status in decimal, so the status can be read back from it. */
  lemma FailureReasonNamesStatus(status: nat, statusText: string)
    ensures var m := FailureReason(status, statusText);
            var d := Decimal(status);
            && FailedToGenerate + d + " " <= m
            && DigitsValue(m[|FailedToGenerate|..|FailedToGenerate| + |d|]) == status
  {
    var m := FailureReason(status, statusText);
    var d := Decimal(status);
    var p := FailedToGenerate + d + " ";
    var k := |FailedToGenerate|;
    assert p <= m;
    assert m[k..k + |d|] == p[k..k + |d|];
    assert p[k..k + |d|] == d;
    DecimalRoundTrip(status);
  }

  /** Status 400 is reported with the advice to pick another alias. */
  lemma BadRequestAdvisesRename(statusText: string)
    ensures Contains(FailureReason(400, statusText), DuplicateHint)
  {
    var lead := FailedToGenerate + Decimal(400) + " " + "Bad Request - ";
    assert FailureReason(400, statusText) == lead + DuplicateHint;
    assert lead + DuplicateHint == lead + DuplicateHint + "";
    InfixOfConcat(lead, DuplicateHint, "");
  }

  /** Status 500 is reported as "500 Internal Server Error", whatever the status text. */
  lemma ServerErrorMessage(statusText: string)
    ensures FailureReason(500, statusText) == FailedToGenerate + "500 Internal Server Error"
  {
  }

  /** Any other status is reported with the status text the reply carried. */
  lemma OtherStatusMessage(status: nat, statusText: string)
    requires status != 400 && status != 500
    ensures FailureReason(status, statusText) == FailedToGenerate + Decimal(status) + " " + statusText
  {
  }

  /** A message shown for a failed call always carries the common prefix, and such a call never yields a key. */
  lemma FailuresArePrefixed(response: Response<Option<string>>)
    requires response.Rejected? || !IsOk(response.status)
    ensures KeyGenerationOutcome(response).Refused?
    ensures ErrorPrefix <= KeyGenerationOutcome(response).message
  {
  }
}
