/** src/platforms/tiktok.js: the bot's TikTok poster. Every Content Posting
    API call goes through a safeFetch that adds the bearer token and a JSON
    content type under the caller's own headers; a post validates the
    video, initialises an upload, downloads the video, PUTs it, creates the
    post and polls its status at most 5 times, reporting through the
    `sendMessage` callback. */
module TikTok {
  import opened Common
  import opened Http
  import opened Polling
  import Media
  import VideoValidator

  const API_ERROR := "TikTok API error!"
  const API_BASE_URL := "https://open.tiktokapis.com/v2"
  const AUTHORIZATION := "Authorization"
  const CONTENT_TYPE := "Content-Type"
  const CONTENT_LENGTH := "Content-Length"
  const JSON_TYPE := "application/json"
  const BEARER := "Bearer "

  /** The headers safeFetch sends: its two defaults, then the caller's
      headers spread over them. */
  function MergeHeaders(accessToken: string, callerHeaders: map<string, string>): (h: map<string, string>)
    // the caller's headers win
    ensures forall k :: k in callerHeaders ==> k in h && h[k] == callerHeaders[k]
    // the defaults fill in what the caller did not set
    ensures AUTHORIZATION !in callerHeaders ==> AUTHORIZATION in h && h[AUTHORIZATION] == BEARER + accessToken
    ensures CONTENT_TYPE !in callerHeaders ==> CONTENT_TYPE in h && h[CONTENT_TYPE] == JSON_TYPE
    // and nothing else is sent
    ensures h.Keys == callerHeaders.Keys + {AUTHORIZATION, CONTENT_TYPE}
  {
    map[AUTHORIZATION := BEARER + accessToken, CONTENT_TYPE := JSON_TYPE] + callerHeaders
  }

  // ---- uploadVideoToTikTok ----

  const DEFAULT_TITLE := "Video from Telegram Bot"

  /** The `post_info` of the init and create bodies. */
  datatype PostInfo = PostInfo(
    title: string, privacyLevel: string,
    disableDuet: bool, disableComment: bool, disableStitch: bool,
    videoCoverTimestampMs: nat)

  /** `caption || 'Video from Telegram Bot'` as the title of a public post
      with duets, comments and stitches allowed. */
  function PostInfoFor(caption: string): (p: PostInfo)
    ensures caption != "" ==> p.title == caption
    ensures caption == "" ==> p.title == DEFAULT_TITLE
    ensures p.privacyLevel == "public" && !p.disableDuet && !p.disableComment && !p.disableStitch
  {
    PostInfo(if caption == "" then DEFAULT_TITLE else caption, "public", false, false, false, 0)
  }

  /** The body of a request, as its JSON object (or the video bytes, by
      their size). */
  datatype Body =
    | NoBody
    | InitBody(postInfo: PostInfo, source: string, videoSize: nat, chunkSize: nat, totalChunkCount: nat)
    | VideoBytes(size: nat)
    | CreateBody(videoId: string, postInfo: PostInfo)
    | QueryBody(fields: seq<string>, publishIds: seq<string>)

  datatype Request = Request(verb: string, url: string, headers: map<string, string>, body: Body)

  /** A request made through safeFetch. */
  function Api(accessToken: string, verb: string, url: string, callerHeaders: map<string, string>, body: Body): Request
  {
    Request(verb, url, MergeHeaders(accessToken, callerHeaders), body)
  }

  /** The `data` of the init answer. */
  datatype InitData = InitData(uploadUrl: string, videoId: string)

  /** The answers of the outside world to one upload: the init response,
      the downloaded video's size (or the download's Error), the PUT
      response and the create response carrying the publish id. */
  datatype UploadAnswers = UploadAnswers(
    init: Response<InitData>, download: Result<nat>, put: Response<bool>, create: Response<string>)

  /** uploadVideoToTikTok: the requests it made and its publish id or
      Error. */
  datatype Upload = Upload(requests: seq<Request>, result: Result<string>)

  function UploadVideoToTikTok(accessToken: string, videoUrl: string, caption: string, answers: UploadAnswers): (u: Upload)
    // the upload stops at its first failing step
    ensures u.result.Ok? <==> answers.init.ok && answers.download.Ok? && answers.put.ok && answers.create.ok
    ensures u.result.Ok? ==> u.result.value == answers.create.data && |u.requests| == 4
  {
    var info := PostInfoFor(caption);
    var init := Api(accessToken, "POST", API_BASE_URL + "/video/init/", map[], InitBody(info, "FILE_UPLOAD", 0, 0, 1));
    match SafeFetch(API_ERROR, answers.init)
    case Err(m) => Upload([init], Err(m))
    case Ok(data) =>
      var download := Request("GET", videoUrl, map[], NoBody);
      match answers.download
      case Err(m) => Upload([init, download], Err(m))
      case Ok(size) =>
        var put := Api(accessToken, "PUT", data.uploadUrl,
          map[CONTENT_TYPE := "video/mp4", CONTENT_LENGTH := Text.NatToString(size)], VideoBytes(size));
        match SafeFetch(API_ERROR, answers.put)
        case Err(m) => Upload([init, download, put], Err(m))
        case Ok(_) =>
          var create := Api(accessToken, "POST", API_BASE_URL + "/video/create/", map[], CreateBody(data.videoId, info));
          Upload([init, download, put, create], SafeFetch(API_ERROR, answers.create))
  }

  /** What a complete upload sends: the init and create bodies carry the
      same post_info titled by the caption or the default, the create body
      names the video id the init answer gave, and the PUT goes to the
      upload URL with the video's own content type and length under the
      bearer token. */
  lemma UploadRequests(accessToken: string, videoUrl: string, caption: string, answers: UploadAnswers)
    requires answers.init.ok && answers.download.Ok? && answers.put.ok
    ensures var rs := UploadVideoToTikTok(accessToken, videoUrl, caption, answers).requests;
      var title := if caption == "" then DEFAULT_TITLE else caption;
      |rs| == 4
      && rs[0].body.InitBody? && rs[0].body.postInfo.title == title
      && rs[3].body == CreateBody(answers.init.data.videoId, rs[0].body.postInfo)
      && rs[2].url == answers.init.data.uploadUrl
      && rs[2].headers[CONTENT_TYPE] == "video/mp4"
      && Text.DigitsValue(rs[2].headers[CONTENT_LENGTH]) == answers.download.value
      && rs[2].headers[AUTHORIZATION] == BEARER + accessToken
      && forall k :: 0 <= k < 4 && k != 1 ==> rs[k].headers[AUTHORIZATION] == BEARER + accessToken
  {
    Text.DigitsValueOfNatToString(answers.download.value);
  }

  // ---- pollTikTokStatus ----

  const MAX_POLLING_ATTEMPTS: nat := 5

  /** One status query's answer through safeFetch: `data.videos[0]?.status`,
      None when there is no first video. */
  type StatusResponse = Response<Option<string>>

  /** How pollTikTokStatus reads an answer: a failed request throws,
      PUBLISHED succeeds, FAILED fails, and anything else, a missing first
      video included, is still processing. */
  function TikTokVerdict(r: StatusResponse): (v: Verdict)
    ensures !r.ok ==> v.Raised?
    ensures r.ok && r.data == None ==> v == Pending
  {
    var fetched: Result<Option<string>> := SafeFetch(API_ERROR, r);
    if fetched.Err? then Raised(fetched.message)
    else if fetched.value == Some("PUBLISHED") then Succeeded
    else if fetched.value == Some("FAILED") then Failed
    else Pending
  }

  /** pollTikTokStatus: at most 5 queries, nothing caught. */
  method PollTikTokStatus(replies: seq<StatusResponse>) returns (p: Polled)
    requires MAX_POLLING_ATTEMPTS <= |replies|
    ensures p == Poll(Verdicts(replies, TikTokVerdict), MAX_POLLING_ATTEMPTS)
  {
    ghost var vs := Verdicts(replies, TikTokVerdict);
    PollStart(vs, MAX_POLLING_ATTEMPTS);
    var i := 0;
    while i < MAX_POLLING_ATTEMPTS
      invariant i <= MAX_POLLING_ATTEMPTS
      invariant Poll(vs, MAX_POLLING_ATTEMPTS) == Later(Poll(vs[i..], MAX_POLLING_ATTEMPTS - i), i)
    {
      PollStep(vs, MAX_POLLING_ATTEMPTS, i);
      var verdict := Classify(replies, TikTokVerdict, i);
      match verdict
      case Succeeded => return Polled(Returned(true), i + 1);
      case Failed => return Polled(Returned(false), i + 1);
      case Raised(message) => return Polled(Threw(message), i + 1);
      case Pending => i := i + 1;
    }
    return Polled(Returned(false), MAX_POLLING_ATTEMPTS);
  }

  /** A post whose status is never reported (no first video in any of the
      5 answers) times out: 5 queries and false. */
  lemma UnreportedStatusTimesOut(replies: seq<StatusResponse>)
    requires MAX_POLLING_ATTEMPTS <= |replies|
    requires forall j :: 0 <= j < MAX_POLLING_ATTEMPTS ==> replies[j].ok && replies[j].data == None
    ensures Poll(Verdicts(replies, TikTokVerdict), MAX_POLLING_ATTEMPTS) == Polled(Returned(false), MAX_POLLING_ATTEMPTS)
  {
    AlwaysPendingTimesOut(Verdicts(replies, TikTokVerdict), MAX_POLLING_ATTEMPTS);
  }

  // ---- postToTikTok ----

  const CREDENTIALS_MISSING := "TikTok API credentials are not set."
  const VALIDATING := "🔍 Validating video for TikTok..."
  const VALIDATION_FAILED := "❌ TikTok video validation failed: "
  const UPLOADING := "📦 Uploading video to TikTok..."
  const WAITING := "⏳ Waiting for TikTok to process the video..."
  const POSTED := "🎉" + " Video posted to TikTok successfully! Publish ID: "
  const PUBLISH_FAILED := "⚠️" + " TikTok failed to publish the video."
  const ERROR_POSTING := "💥" + " Error posting to TikTok: "

  datatype Run = Run(requests: seq<Request>, messages: seq<string>)

  datatype Answers = Answers(
    probe: Media.Probe, floats: VideoValidator.FloatChecks,
    upload: UploadAnswers, replies: seq<StatusResponse>)

  /** The status queries of a poll that made `n` requests. */
  function Queries(accessToken: string, publishId: string, n: nat): (rs: seq<Request>)
    ensures |rs| == n
  {
    seq(n, _ => Api(accessToken, "POST", API_BASE_URL + "/video/query/", map[], QueryBody(["publish_id", "status"], [publishId])))
  }

  /** postToTikTok after validation passed: upload, then poll. */
  function UploadAndPoll(accessToken: string, videoUrl: string, caption: string, answers: Answers): (r: Run)
    requires MAX_POLLING_ATTEMPTS <= |answers.replies|
  {
    var upload := UploadVideoToTikTok(accessToken, videoUrl, caption, answers.upload);
    match upload.result
    case Err(m) => Run(upload.requests, [ERROR_POSTING + m])
    case Ok(publishId) =>
      var polled := Poll(Verdicts(answers.replies, TikTokVerdict), MAX_POLLING_ATTEMPTS);
      var requests := upload.requests + Queries(accessToken, publishId, polled.requests);
      match polled.result
      case Threw(m) => Run(requests, [WAITING, ERROR_POSTING + m])
      case Returned(true) => Run(requests, [WAITING, POSTED + publishId])
      case Returned(false) => Run(requests, [WAITING, PUBLISH_FAILED])
  }

  /** postToTikTok(videoUrl, caption, sendMessage). */
  function PostToTikTok(accessToken: string, openId: string, videoUrl: string, caption: string, answers: Answers): (r: Run)
    requires MAX_POLLING_ATTEMPTS <= |answers.replies|
    // missing credentials: one message and no request
    ensures accessToken == "" || openId == "" <==> r == Run([], [CREDENTIALS_MISSING])
    // a video the validator rejects is never uploaded
    ensures accessToken != "" && openId != "" && !VideoValidator.Validate(answers.probe, answers.floats).isValid ==>
      r == Run([], [VALIDATING, VALIDATION_FAILED + VideoValidator.Validate(answers.probe, answers.floats).message])
    // a valid one is uploaded and polled, after two messages
    ensures accessToken != "" && openId != "" && VideoValidator.Validate(answers.probe, answers.floats).isValid ==>
      r.requests == UploadAndPoll(accessToken, videoUrl, caption, answers).requests
      && r.messages == [VALIDATING, UPLOADING] + UploadAndPoll(accessToken, videoUrl, caption, answers).messages
  {
    if accessToken == "" || openId == "" then Run([], [CREDENTIALS_MISSING])
    else
      var validation := VideoValidator.Validate(answers.probe, answers.floats);
      if !validation.isValid then Run([], [VALIDATING, VALIDATION_FAILED + validation.message])
      else
        var rest := UploadAndPoll(accessToken, videoUrl, caption, answers);
        Run(rest.requests, [VALIDATING, UPLOADING] + rest.messages)
  }

  /** The chat hears the publish id exactly when every upload step
      succeeded and the status poll saw PUBLISHED. */
  lemma SuccessIffPublished(accessToken: string, videoUrl: string, caption: string, answers: Answers)
    requires MAX_POLLING_ATTEMPTS <= |answers.replies|
    ensures var ms := UploadAndPoll(accessToken, videoUrl, caption, answers).messages;
      var u := answers.upload;
      (ms[|ms| - 1] == POSTED + u.create.data)
      <==> (u.init.ok && u.download.Ok? && u.put.ok && u.create.ok
            && Poll(Verdicts(answers.replies, TikTokVerdict), MAX_POLLING_ATTEMPTS).result == Returned(true))
  {
    var ms := UploadAndPoll(accessToken, videoUrl, caption, answers).messages;
    var posted := POSTED + answers.upload.create.data;
    // the three closing messages differ in their first character
    assert ms[|ms| - 1][0] == posted[0] ==> ms[|ms| - 1] == posted;
  }

  /** A post makes at most 9 requests: 4 for the upload and 5 queries. */
  lemma RequestsBounded(accessToken: string, openId: string, videoUrl: string, caption: string, answers: Answers)
    requires MAX_POLLING_ATTEMPTS <= |answers.replies|
    ensures |PostToTikTok(accessToken, openId, videoUrl, caption, answers).requests| <= 4 + MAX_POLLING_ATTEMPTS
  {
  }
}
