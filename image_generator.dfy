/** src/utils/image-generator.js: one image-generation request to the
    Gemini model, which takes the data of the first response part that
    carries inline data, and a retry loop with exponential backoff around
    it. The model's answers are inputs; the backoff sleeps are recorded as
    a list of durations; the returned Buffer is represented by the base64
    text it is decoded from. */
module ImageGenerator {
  import opened Common

  const KEY_NOT_SET := "GEMINI_API_KEY not set"
  const NO_IMAGE_DATA := "No image data in response"
  const NO_IMAGE_PARTS := "No image data found in response parts"
  /** The default of `maxRetries`. */
  const DEFAULT_MAX_RETRIES: int := 3

  /** `part.inlineData`; `data` is "" when the field is absent. */
  datatype InlineData = InlineData(data: string)
  datatype Part = Part(inlineData: Option<InlineData>)
  datatype Content = Content(parts: seq<Part>)
  datatype Candidate = Candidate(content: Option<Content>)
  /** The model's answer; `candidates` is None when the field is absent. */
  datatype GenResponse = GenResponse(candidates: Option<seq<Candidate>>)

  /** The parts of the first candidate, or None when the candidates, the
      first candidate or its content is missing. */
  function FirstCandidateParts(response: GenResponse): (r: Option<seq<Part>>)
    ensures r.Some? <==> response.candidates.Some? && |response.candidates.value| > 0
                         && response.candidates.value[0].content.Some?
    ensures r.Some? ==> r.value == response.candidates.value[0].content.value.parts
  {
    match response.candidates
    case None => None
    case Some(cs) =>
      if |cs| == 0 then None
      else match cs[0].content
        case None => None
        case Some(c) => Some(c.parts)
  }

  /** The `data` of the first part that has `inlineData`, or None when no
      part has it. */
  function FirstInlineData(parts: seq<Part>): (r: Option<string>)
    ensures r.None? <==> forall k :: 0 <= k < |parts| ==> parts[k].inlineData.None?
    ensures r.Some? ==> exists k :: 0 <= k < |parts| && parts[k].inlineData == Some(InlineData(r.value))
                                    && forall j :: 0 <= j < k ==> parts[j].inlineData.None?
  {
    if |parts| == 0 then None
    else if parts[0].inlineData.Some? then Some(parts[0].inlineData.value.data)
    else
      var r := FirstInlineData(parts[1..]);
      assert forall k :: 1 <= k < |parts| ==> parts[k] == parts[1..][k - 1];
      if r.Some? then
        var k :| 0 <= k < |parts[1..]| && parts[1..][k].inlineData == Some(InlineData(r.value))
                 && forall j :: 0 <= j < k ==> parts[1..][j].inlineData.None?;
        assert parts[k + 1].inlineData == Some(InlineData(r.value));
        r
      else r
  }

  /** The loop over `parts` that keeps the first `inlineData.data` and
      breaks. */
  method SelectImageData(parts: seq<Part>) returns (imageData: Option<string>)
    ensures imageData == FirstInlineData(parts)
  {
    imageData := None;
    var i := 0;
    while i < |parts|
      invariant i <= |parts|
      invariant FirstInlineData(parts) == FirstInlineData(parts[i..])
    {
      if parts[i].inlineData.Some? {
        imageData := Some(parts[i].inlineData.value.data);
        break;
      }
      assert parts[i..][1..] == parts[i + 1..];
      i := i + 1;
    }
  }

  /** One call of generatePhotoBanano: its result (the image data, or the
      Error it rethrows) and whether it sent a request to the model. */
  datatype Generated = Generated(result: Result<string>, requested: bool)

  /** generatePhotoBanano, given the key and what the model's request
      returned (or the Error it threw). */
  function Banano(apiKey: string, response: Result<GenResponse>): Generated
  {
    if apiKey == "" then Generated(Err(KEY_NOT_SET), false)
    else match response
      case Err(m) => Generated(Err(m), true)
      case Ok(answer) =>
        match FirstCandidateParts(answer)
        case None => Generated(Err(NO_IMAGE_DATA), true)
        case Some(parts) =>
          var imageData := FirstInlineData(parts);
          if imageData.None? || imageData.value == "" then Generated(Err(NO_IMAGE_PARTS), true)
          else Generated(Ok(imageData.value), true)
  }

  /** What generatePhotoBanano promises. */
  lemma BananoSpec(apiKey: string, response: Result<GenResponse>)
    // a missing key throws before any request
    ensures Banano(apiKey, response).requested <==> apiKey != ""
    ensures apiKey == "" ==> Banano(apiKey, response).result == Err(KEY_NOT_SET)
    // a failed request is rethrown unchanged
    ensures apiKey != "" && response.Err? ==> Banano(apiKey, response).result == Err(response.message)
    // missing candidates or content
    ensures apiKey != "" && response.Ok? && FirstCandidateParts(response.value).None?
      ==> Banano(apiKey, response).result == Err(NO_IMAGE_DATA)
    // an image is returned exactly when the first part with inline data has
    // non-empty data, and it is that data
    ensures Banano(apiKey, response).result.Ok? <==>
      && apiKey != "" && response.Ok? && FirstCandidateParts(response.value).Some?
      && FirstInlineData(FirstCandidateParts(response.value).value).Some?
      && FirstInlineData(FirstCandidateParts(response.value).value).value != ""
    ensures Banano(apiKey, response).result.Ok?
      ==> Banano(apiKey, response).result.value == FirstInlineData(FirstCandidateParts(response.value).value).value
  {
  }

  /** When some part has inline data but the first such part's data is
      empty, the call fails even if a later part carries an image: the loop
      has already stopped. */
  lemma FirstInlinePartDecides(apiKey: string, parts: seq<Part>, k: nat)
    requires apiKey != ""
    requires k < |parts| && parts[k].inlineData == Some(InlineData(""))
    requires forall j :: 0 <= j < k ==> parts[j].inlineData.None?
    ensures Banano(apiKey, Ok(GenResponse(Some([Candidate(Some(Content(parts)))])))).result == Err(NO_IMAGE_PARTS)
  {
    FirstInlineDataAt(parts, k);
  }

  /** The first part with inline data determines FirstInlineData. */
  lemma {:induction false} FirstInlineDataAt(parts: seq<Part>, k: nat)
    requires k < |parts| && parts[k].inlineData.Some?
    requires forall j :: 0 <= j < k ==> parts[j].inlineData.None?
    ensures FirstInlineData(parts) == Some(parts[k].inlineData.value.data)
  {
    if k > 0 {
      FirstInlineDataAt(parts[1..], k - 1);
    }
  }

  /** generatePhotoBanano with its parts loop. */
  method GeneratePhotoBanano(apiKey: string, response: Result<GenResponse>) returns (g: Generated)
    ensures g == Banano(apiKey, response)
  {
    if apiKey == "" {
      return Generated(Err(KEY_NOT_SET), false);
    }
    if response.Err? {
      return Generated(Err(response.message), true);
    }
    var parts := FirstCandidateParts(response.value);
    if parts.None? {
      return Generated(Err(NO_IMAGE_DATA), true);
    }
    var imageData := SelectImageData(parts.value);
    if imageData.None? || imageData.value == "" {
      return Generated(Err(NO_IMAGE_PARTS), true);
    }
    return Generated(Ok(imageData.value), true);
  }

  /** What generatePhotoWithRetry did: its result (None for `undefined`),
      the backoff delays it slept and how many times it called
      generatePhotoBanano. */
  datatype Retried = Retried(result: Option<Result<string>>, delays: seq<nat>, calls: nat)

  /** The loop of generatePhotoWithRetry from iteration `attempt` on;
      `outcomes[k]` is what call number k returned or threw. */
  function RetryFrom(outcomes: seq<Result<string>>, maxRetries: int, attempt: nat): Retried
    requires maxRetries <= |outcomes|
    decreases maxRetries - attempt
  {
    if attempt >= maxRetries then Retried(None, [], 0)
    else if outcomes[attempt].Ok? || attempt == maxRetries - 1 then Retried(Some(outcomes[attempt]), [], 1)
    else
      var rest := RetryFrom(outcomes, maxRetries, attempt + 1);
      Retried(rest.result, [Pow2(attempt) * 1000] + rest.delays, rest.calls + 1)
  }

  /** What the retry loop promises, from iteration `attempt` on. */
  lemma {:induction false} RetrySpec(outcomes: seq<Result<string>>, maxRetries: int, attempt: nat)
    requires maxRetries <= |outcomes|
    decreases maxRetries - attempt
    ensures var t := RetryFrom(outcomes, maxRetries, attempt);
      && (attempt >= maxRetries ==> t == Retried(None, [], 0))
      // every iteration calls once; the result is the outcome of the last call
      && (attempt < maxRetries ==>
            && 1 <= t.calls <= maxRetries - attempt && |t.delays| == t.calls - 1
            && t.result == Some(outcomes[attempt + t.calls - 1]))
      // the calls before the last one all failed, and their errors were swallowed
      && (forall k :: attempt <= k < attempt + t.calls - 1 ==> outcomes[k].Err?)
      // an error escapes only from the final iteration
      && (t.result.Some? && t.result.value.Err? ==> attempt + t.calls == maxRetries)
      // the delay after failed call k is 2^k seconds
      && (forall k :: 0 <= k < |t.delays| ==> t.delays[k] == Pow2(attempt + k) * 1000)
  {
    if attempt < maxRetries && outcomes[attempt].Err? && attempt != maxRetries - 1 {
      RetrySpec(outcomes, maxRetries, attempt + 1);
      var rest := RetryFrom(outcomes, maxRetries, attempt + 1);
      var t := RetryFrom(outcomes, maxRetries, attempt);
      assert forall k :: 1 <= k < |t.delays| ==> t.delays[k] == rest.delays[k - 1];
    }
  }

  /** With at least one iteration, the retry returns an image exactly when
      one of the first `maxRetries` calls succeeded, and then it is the
      first success. */
  lemma {:induction false} RetrySucceedsIff(outcomes: seq<Result<string>>, maxRetries: int, attempt: nat)
    requires maxRetries <= |outcomes| && attempt < maxRetries
    ensures var t := RetryFrom(outcomes, maxRetries, attempt);
      t.result.Some? && t.result.value.Ok? <==> exists k :: attempt <= k < maxRetries && outcomes[k].Ok?
    decreases maxRetries - attempt
  {
    RetrySpec(outcomes, maxRetries, attempt);
    if outcomes[attempt].Err? && attempt < maxRetries - 1 {
      RetrySucceedsIff(outcomes, maxRetries, attempt + 1);
    }
  }

  /** With the default limit the image is asked for at most three times,
      and the waits between the calls are a prefix of 1 s, 2 s. */
  lemma DefaultRetryWaits(outcomes: seq<Result<string>>)
    requires DEFAULT_MAX_RETRIES <= |outcomes|
    ensures var t := RetryFrom(outcomes, DEFAULT_MAX_RETRIES, 0);
      1 <= t.calls <= 3 && t.delays <= [1000, 2000]
  {
    RetrySpec(outcomes, DEFAULT_MAX_RETRIES, 0);
    var t := RetryFrom(outcomes, DEFAULT_MAX_RETRIES, 0);
    assert Pow2(0) == 1 && Pow2(1) == 2;
    assert t.delays == [1000, 2000][..|t.delays|];
  }

  /** `t` preceded by |delays| failed iterations that slept `delays`. */
  function Later(t: Retried, delays: seq<nat>): Retried
  {
    Retried(t.result, delays + t.delays, |delays| + t.calls)
  }

  /** One failed, non-final iteration: it sleeps 2^attempt seconds and the
      loop goes on. */
  lemma RetryStep(outcomes: seq<Result<string>>, maxRetries: int, attempt: nat, delays: seq<nat>)
    requires maxRetries <= |outcomes| && attempt < maxRetries - 1 && outcomes[attempt].Err?
    ensures Later(RetryFrom(outcomes, maxRetries, attempt), delays)
         == Later(RetryFrom(outcomes, maxRetries, attempt + 1), delays + [Pow2(attempt) * 1000])
  {
    var rest := RetryFrom(outcomes, maxRetries, attempt + 1);
    assert delays + ([Pow2(attempt) * 1000] + rest.delays) == delays + [Pow2(attempt) * 1000] + rest.delays;
  }

  /** An iteration whose call succeeded, or the final one: the loop returns
      that call's outcome. */
  lemma RetryStop(outcomes: seq<Result<string>>, maxRetries: int, attempt: nat, delays: seq<nat>)
    requires maxRetries <= |outcomes| && attempt < maxRetries
    requires outcomes[attempt].Ok? || attempt == maxRetries - 1
    ensures Later(RetryFrom(outcomes, maxRetries, attempt), delays) == Retried(Some(outcomes[attempt]), delays, |delays| + 1)
  {
    assert delays + [] == delays;
  }

  /** The outcomes of calling generatePhotoBanano once per answer. */
  function Outcomes(apiKey: string, responses: seq<Result<GenResponse>>): (os: seq<Result<string>>)
    ensures |os| == |responses|
    ensures forall k :: 0 <= k < |responses| ==> os[k] == Banano(apiKey, responses[k]).result
  {
    seq(|responses|, k requires 0 <= k < |responses| => Banano(apiKey, responses[k]).result)
  }

  /** generatePhotoWithRetry(prompt, maxRetries): `responses[k]` is what
      the model's request of call number k returned. */
  method GeneratePhotoWithRetry(apiKey: string, responses: seq<Result<GenResponse>>, maxRetries: int)
    returns (result: Option<Result<string>>, delays: seq<nat>, calls: nat)
    requires maxRetries <= |responses|
    ensures Retried(result, delays, calls) == RetryFrom(Outcomes(apiKey, responses), maxRetries, 0)
  {
    ghost var outcomes := Outcomes(apiKey, responses);
    delays := [];
    calls := 0;
    var attempt := 0;
    while attempt < maxRetries
      invariant attempt == calls == |delays| && (attempt == 0 || attempt < maxRetries)
      invariant RetryFrom(outcomes, maxRetries, 0) == Later(RetryFrom(outcomes, maxRetries, attempt), delays)
    {
      var g := GeneratePhotoBanano(apiKey, responses[attempt]);
      assert g.result == outcomes[attempt];
      calls := calls + 1;
      if g.result.Ok? || attempt == maxRetries - 1 {
        RetryStop(outcomes, maxRetries, attempt, delays);
        return Some(g.result), delays, calls;
      }
      RetryStep(outcomes, maxRetries, attempt, delays);
      delays := delays + [Pow2(attempt) * 1000];
      attempt := attempt + 1;
    }
    return None, delays, calls;
  }

  /** Without a key every call throws before reaching the model, so the
      retry sleeps between all `maxRetries` calls and rethrows
      "GEMINI_API_KEY not set". */
  lemma MissingKeyExhaustsRetries(responses: seq<Result<GenResponse>>, maxRetries: int)
    requires 0 < maxRetries <= |responses|
    ensures var t := RetryFrom(Outcomes("", responses), maxRetries, 0);
      t.result == Some(Err(KEY_NOT_SET)) && t.calls == maxRetries
  {
    var os := Outcomes("", responses);
    RetrySpec(os, maxRetries, 0);
  }
}
