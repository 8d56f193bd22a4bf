/** The `safeFetch` helpers' ok/throw rule, shared by every platform module:
    a response whose `ok` flag is set yields its parsed body; any other
    response throws an Error naming its status and the details the error
    body gave, or "Unknown error" when it gave none. The fetch itself is an
    input. */
module Http {
  import opened Common
  import opened Text

  /** One HTTP response as safeFetch sees it: the `ok` flag, the status,
      the parsed JSON body of an ok response, and the message an error body
      carried ("" when it had none). */
  datatype Response<T> = Response(ok: bool, status: nat, data: T, details: string)

  const STATUS_LABEL := " Status: "
  const DETAILS_LABEL := ", Details: "
  const UNKNOWN_ERROR := "Unknown error"

  /** The message thrown for a response that is not ok, after the API's
      prefix ("HTTP error!", "YouTube API error!", "TikTok API error!"). */
  function ErrorMessage(prefix: string, status: nat, details: string): string
  {
    prefix + STATUS_LABEL + NatToString(status) + DETAILS_LABEL + (if details == "" then UNKNOWN_ERROR else details)
  }

  /** safeFetch: the body of an ok response, else the Error. */
  function SafeFetch<T>(prefix: string, r: Response<T>): (res: Result<T>)
    ensures res.Ok? <==> r.ok
    ensures res.Ok? ==> res.value == r.data
    ensures res.Err? ==> StartsWith(res.message, prefix + STATUS_LABEL)
  {
    if !r.ok then Err(ErrorMessage(prefix, r.status, r.details)) else Ok(r.data)
  }

  /** The thrown message names the status in decimal right after the
      label, and ends with the details (or "Unknown error"): both can be
      read back from it. */
  lemma {:induction false} ErrorMessageReadBack(prefix: string, status: nat, details: string)
    ensures var msg := ErrorMessage(prefix, status, details);
      var start := |prefix| + |STATUS_LABEL|;
      var digits := NatToString(status);
      start + |digits| <= |msg|
      && msg[start..start + |digits|] == digits
      && DigitsValue(msg[start..start + |digits|]) == status
      && msg[|msg| - |if details == "" then UNKNOWN_ERROR else details|..] == (if details == "" then UNKNOWN_ERROR else details)
  {
    var shown := if details == "" then UNKNOWN_ERROR else details;
    var msg := ErrorMessage(prefix, status, details);
    var start := |prefix| + |STATUS_LABEL|;
    var digits := NatToString(status);
    assert msg == (prefix + STATUS_LABEL) + digits + (DETAILS_LABEL + shown);
    assert msg[start..start + |digits|] == digits;
    assert msg[|msg| - |shown|..] == shown;
    DigitsValueOfNatToString(status);
  }
}
