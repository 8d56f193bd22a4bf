# spread: a Dafny model of the posting core

This project is a Dafny model of the core of *spread*, a Node.js service that
posts short videos to Instagram Reels, TikTok and YouTube Shorts. Its parts:

- **The cron script** (`index.mjs`) reads its settings from the environment
  and checks the credentials. It then creates an Instagram media container,
  polls it at most 3 times and publishes it only when the poll reported
  `FINISHED`. Any other path exits with failure.
- **The bot poster** (`src/instagram_poster.js`) takes a video URL and a
  caption from the Telegram chat. It checks the credentials set by
  `setInstagramCredentials` and validates the video against the Reels rules.
  It then creates, polls (at most 30 times, swallowing failed status
  requests) and publishes, and reports each step to the chat.
- **The platforms** (`src/platforms/`):
  - Instagram has a `safeFetch` that retries transient errors with
    exponential back-off.
  - TikTok runs a four-request upload (init, download, PUT, create).
  - YouTube has a cached OAuth access token, consulted before the upload
    and before every status request, and a hand-built `multipart/related`
    upload body.
  - Each platform has a bounded status poll and a `post*` function that
    catches its own errors and reports them in the chat.
- **Multi-platform posting** (`multi-platform.js`) posts to each requested
  platform and builds the summary message. It also dispatches a
  case-insensitive platform name.
- **The utilities**:
  - the shared video validator, used by TikTok and YouTube;
  - Gemini image generation and its retry loop;
  - caption generation;
  - the in-memory task tracker.
- **The Telegram webhook handler** (`src/bot_webhook.js`) does the following:
  - it applies the security check, which uses `parseInt` with radix 10;
  - it ignores empty texts and `/start`;
  - it parses `video_url:` and `caption:` with the handler's two regular
    expressions;
  - it dispatches to the poster or answers with help;
  - separately, its `/start` handler answers with a welcome.

The outside world is an input to every operation:
- probe results and the outcome of every floating-point comparison;
- HTTP responses, the JSON the APIs answer with, and the random numbers;
- `Date.now()`.

Each `post*` operation returns a `Run`, which holds:
- the ordered requests it made;
- the chat messages it sent (or, for the cron script, how the process ends).

Loops of the source are methods with loop invariants. Each is proved equal
to a recursive specification function, and the lemmas are about that
function. The specification functions:
- `Polling.Poll`, for the bounded polls;
- `InstagramPlatform.SafeFetchFrom`, for the retrying fetch;
- `ImageGenerator.RetryFrom` and `ImageGenerator.FirstInlineData`, for the
  image retries and the search through the response parts;
- `VideoValidator.Validate` and `InstagramPoster.Validate`, for the issue
  lists.

Objects whose state the source updates in place are classes:
- the poster's credentials, `InstagramPoster.Poster`;
- YouTube's token cache, `YouTube.TokenCache`;
- the task map, `TaskTracker.Tracker`.

A `string` is a sequence of Unicode scalar values, so an emoji is one
`char`. Where the source depends on the encoding, module `Unicode` gives it
explicitly:
- the UTF-16 code units that JavaScript's `length` and `substring` count,
  for the caption's 300-unit limit;
- UTF-8 encoding and the WHATWG UTF-8 decoder, for the YouTube upload body,
  which is built as a string from the downloaded bytes and sent as UTF-8.

How the webhook parses a message: the URL is taken at the leftmost position
where the whole `video_url:\s*(https?://\S+)` pattern matches. The caption is
everything after the first `caption:`, trimmed. So a message that puts
`caption:` before `video_url:` gets a caption that includes the URL line.

## Model

| member | source | states |
|---|---|---|
| Http.SafeFetch | index.mjs:26-34 | a response is returned exactly when it is ok (its data); otherwise the Error's message starts with the caller's prefix and "Status: " |
| Http.ErrorMessageReadBack | index.mjs:31 | the status code and the details (or "Unknown error" when absent) can be read back from the Error message |
| Polling.PollSpec | index.mjs:65-91 | a poll stops at the first decisive answer, having read only pending answers before it. It returns true exactly when that answer succeeded and throws exactly when it raised, with its message. A poll stopping short of the cap stopped on a decisive answer |
| Polling.AlwaysPendingTimesOut | index.mjs:90-91 | when every answer up to the cap is pending, the poll makes all its requests and returns false |
| Polling.StopsAtFirstDecisive | src/platforms/instagram.js:48-60 | the first non-pending answer decides the poll after exactly that many requests |
| Polling.UnreadAnswersIrrelevant | src/platforms/instagram.js:48-60 | answers after the deciding request do not change the poll |
| Polling.SwallowingNeverRaises | index.mjs:85-88 | a poll that catches failed requests never sees a throwing verdict |
| CronPoster.OrDefault | index.mjs:9-10 | an unset variable takes the default and a set one is used as given |
| CronPoster.DefaultsNeverEmpty | index.mjs:9-134 | the video URL and caption are never empty, so the `!VIDEO_URL` guard and the empty-caption warning never fire |
| CronPoster.GuardError | index.mjs:120-127 | the guards pass exactly when the token and the account id are set and are not the placeholders |
| CronPoster.PollMediaContainerStatus | index.mjs:63-92 | the loop returns exactly the bounded poll of 3 answers, with failed requests taken as pending |
| CronPoster.UndecidedTimesOut | index.mjs:90-91 | three undecided answers end the poll with false after 3 requests |
| CronPoster.PostReel | index.mjs:116-155 | a failed guard throws before any request, and the script ends successfully only on a path that published |
| CronPoster.PublishGate | index.mjs:136-149 | the container is published exactly when the guards passed, creation succeeded and the poll returned true; an unsuccessful poll exits with "Media container processing failed." |
| CronPoster.RequestsBounded | index.mjs:136-149 | a run makes at most 5 requests |
| InstagramPoster.Poster.SetInstagramCredentials | src/instagram_poster.js:24-28 | the poster's token and account id become exactly the given ones |
| InstagramPoster.CriticalIssues | src/instagram_poster.js:255 | the critical issues are the issues other than the no-audio one |
| InstagramPoster.Decide | src/instagram_poster.js:254-261 | valid exactly when every issue is the no-audio one; the issues list is always returned, with the matching message |
| InstagramPoster.IssuesOccurrences | src/instagram_poster.js:144-251 | the issue list holds each issue exactly as often as the checks that push it failed |
| InstagramPoster.CheckRules | src/instagram_poster.js:181-248 | below 540x960 is an issue; an oversized known file is an issue; a missing audio stream never is |
| InstagramPoster.RuleCounts | src/instagram_poster.js:181-248 | the same rules, counted: one issue per failed check and none otherwise |
| InstagramPoster.WarningRules | src/instagram_poster.js:184-251 | below 720x1280, a missing audio stream and an unknown size are only warnings |
| InstagramPoster.ValidIffNoIssues | src/instagram_poster.js:254-261 | because no check pushes the no-audio issue, a probed video is valid exactly when no check failed |
| InstagramPoster.LowResolutionRejected | src/instagram_poster.js:181-182 | a frame below 540x960 is always rejected |
| InstagramPoster.Validate | src/instagram_poster.js:134-138 | a failed probe is invalid and carries no issues list |
| InstagramPoster.CheckVideoStream | src/instagram_poster.js:154-213 | the video-stream checks push exactly the frame checks followed by the content checks |
| InstagramPoster.ValidateVideoFile | src/instagram_poster.js:131-264 | the method resolves with the specified validation and collects exactly the specified warnings |
| InstagramPoster.PollMediaContainerStatus | src/instagram_poster.js:73-104 | the loop returns exactly the bounded poll of 30 answers, with failed requests swallowed |
| InstagramPoster.FailedRequestsTimeOut | src/instagram_poster.js:73-104 | thirty failed status requests end the poll with false after 30 requests |
| InstagramPoster.PollNeverThrows | src/instagram_poster.js:73-104 | the poll always returns a value and never throws |
| InstagramPoster.GuardFailure | src/instagram_poster.js:277-291 | the guards pass exactly when the token and the account id are set and are not the placeholders, and the video URL is not empty |
| InstagramPoster.ReelRun | src/instagram_poster.js:273-291 | the first message echoes the URL and the caption ("No caption" when empty); a failed guard sends its note and makes no request |
| InstagramPoster.Poster.ProcessAndPostReel | src/instagram_poster.js:273-338 | a run uses the token and account id last set on the poster |
| InstagramPoster.ContainerStagePublishes | src/instagram_poster.js:313-333 | after creation the container is published exactly when the poll returned true, and publishing is the last request |
| InstagramPoster.PublishGate | src/instagram_poster.js:273-338 | publication happens exactly when the guards passed, the video validated, creation succeeded and the poll returned true |
| InstagramPoster.RequestsBounded | src/instagram_poster.js:293-333 | a run makes at most 33 requests |
| InstagramPoster.CredentialsSetPassGuards | src/instagram_poster.js:24-295 | a poster given real credentials by setInstagramCredentials gets past the guards to the probe on a run with a URL |
| VideoValidator.Decide | src/utils/video-validator.js:205-225 | valid exactly when there are no issues or a single issue the case-insensitive no-audio pattern matches; a failure carries the whole list |
| VideoValidator.NoAudioMessageMatches | src/utils/video-validator.js:153-207 | the pattern matches the missing-audio issue itself |
| VideoValidator.IssuesOccurrences | src/utils/video-validator.js:33-198 | the issue list holds each issue exactly as often as the checks that push it failed |
| VideoValidator.FormatRules | src/utils/video-validator.js:41-203 | a container that is neither MP4 nor MOV is an issue, as is a known size over 100 MiB; an unknown size is not |
| VideoValidator.FormatCounts | src/utils/video-validator.js:41-203 | the same rules, counted |
| VideoValidator.FrameRules | src/utils/video-validator.js:79-101 | below 720x1280 is an issue; a landscape frame is an issue unless the 9:16 check fired first |
| VideoValidator.FrameCounts | src/utils/video-validator.js:79-101 | the same rules, counted |
| VideoValidator.AudioPresenceRules | src/utils/video-validator.js:153-165 | a missing audio stream is always an issue; a present one is rejected for any codec other than exactly "aac" |
| VideoValidator.AudioPresenceCounts | src/utils/video-validator.js:153-165 | the same rules, counted |
| VideoValidator.AudioLimitRules | src/utils/video-validator.js:166-185 | each exceeded audio limit adds exactly one issue, and no issue otherwise |
| VideoValidator.AudioLimitCounts | src/utils/video-validator.js:166-185 | the same rules, counted |
| VideoValidator.WarningRules | src/utils/video-validator.js:102-203 | above 1080x1920 and an unknown size only warn |
| VideoValidator.Validate | src/utils/video-validator.js:14-22 | a failed probe is invalid with no issues list |
| VideoValidator.MissingAudioAloneAccepted | src/utils/video-validator.js:153-212 | a video whose only problem is the missing audio is accepted, without an issues list |
| VideoValidator.LandscapeRejected | src/utils/video-validator.js:79-93 | any landscape video, whatever its height, is reported horizontal and rejected |
| VideoValidator.ValidateVideoFile | src/utils/video-validator.js:10-227 | the method resolves with the specified validation and collects exactly the specified warnings |
| InstagramPlatform.AttemptResult | src/platforms/instagram.js:13-19 | a fetch that threw gives its Error; an answered one follows the ok/throw rule |
| InstagramPlatform.SafeFetchFromSpec | src/platforms/instagram.js:12-27 | the result is that of the first attempt not retried. Every earlier attempt failed transiently, and the k-th wait is 1000·2^(attempt+k) ms. A retry stops early only on a permanent failure or a success |
| InstagramPlatform.RetryingFetch | src/platforms/instagram.js:12-27 | at most 2 retries from the first attempt |
| InstagramPlatform.RetryingFetchSpec | src/platforms/instagram.js:21-23 | from the first attempt the waits are 2000 ms and then 4000 ms |
| InstagramPlatform.PermanentErrorNotRetried | src/platforms/instagram.js:21-25 | a non-transient first Error is thrown at once with no wait |
| InstagramPlatform.TooManyRequestsIsTransient | src/platforms/instagram.js:17-32 | a 429 answer is retried |
| InstagramPlatform.StatusReplyOf | src/platforms/instagram.js:54-55 | a status request yields a status exactly when its fetch succeeded |
| InstagramPlatform.PollMediaContainerStatus | src/platforms/instagram.js:47-61 | the loop returns exactly the bounded poll of 3 answers, with failed requests propagated |
| InstagramPlatform.FailedStatusRequestThrows | src/platforms/instagram.js:54 | a failed status request after pending answers throws its Error out of the poll |
| InstagramPlatform.PostReelToInstagram | src/platforms/instagram.js:73-101 | missing credentials send one message and make no request; otherwise the first call creates the container with this URL and caption |
| InstagramPlatform.PostQueuedReelToInstagram | src/platforms/instagram.js:103-105 | a queued reel is posted with the configured caption |
| InstagramPlatform.PublishGate | src/platforms/instagram.js:85-96 | the container is published exactly when credentials are set, creation succeeded and the poll returned true |
| InstagramPlatform.ClosingMessage | src/platforms/instagram.js:73-101 | every post ends with one closing message: missing credentials, posted, failed to process, or an error |
| InstagramPlatform.PostedIffPublished | src/platforms/instagram.js:89-99 | the chat hears "posted" exactly when creation, the poll and the publication all succeeded |
| InstagramPlatform.CallsBounded | src/platforms/instagram.js:12-101 | at most 5 Graph API calls, each of 1 to 3 fetches |
| TikTok.MergeHeaders | src/platforms/tiktok.js:11-18 | the caller's headers override the defaults; the bearer token and the JSON content type are added where the caller set none; no other header appears |
| TikTok.PostInfoFor | src/platforms/tiktok.js:32-39 | the title is the caption, or "Video from Telegram Bot" when empty; the post is public with duet, comment and stitch allowed |
| TikTok.UploadVideoToTikTok | src/platforms/tiktok.js:27-84 | the upload succeeds exactly when all four steps do; its value is the publish id after four requests |
| TikTok.UploadRequests | src/platforms/tiktok.js:29-81 | init and create carry the same post info and the video id; the PUT goes to the upload URL as video/mp4 with the downloaded size as Content-Length and the bearer token |
| TikTok.TikTokVerdict | src/platforms/tiktok.js:88-98 | a failed query throws; a query with no video entry is pending |
| TikTok.PollTikTokStatus | src/platforms/tiktok.js:86-103 | the loop returns exactly the bounded poll of 5 answers |
| TikTok.UnreportedStatusTimesOut | src/platforms/tiktok.js:96-102 | five answers without a status end the poll with false |
| TikTok.PostToTikTok | src/platforms/tiktok.js:105-134 | missing credentials give one message and no request; a rejected video is never uploaded; a valid one is uploaded and polled |
| TikTok.SuccessIffPublished | src/platforms/tiktok.js:119-130 | the chat hears "posted" exactly when the upload succeeded and the poll saw PUBLISHED |
| TikTok.RequestsBounded | src/platforms/tiktok.js:105-134 | a post makes at most 9 requests |
| YouTube.TokenLookup | src/platforms/youtube.js:14-41 | the endpoint is asked exactly when the cached token is unusable. A refusal throws and keeps the cache. An accepted refresh caches the new token until expires_in seconds after the answer |
| YouTube.TokenCache.GetAccessToken | src/platforms/youtube.js:14-41 | the call returns what the lookup specifies and leaves the cache in the specified state |
| YouTube.CachedUntilExpiry | src/platforms/youtube.js:15-38 | a refreshed token is served with no request at every call before its expiry |
| YouTube.RefusedRefreshRetried | src/platforms/youtube.js:32-34 | a refused refresh is retried at the next call, and its status reads back from the Error |
| YouTube.ExpiredTokenRefreshed | src/platforms/youtube.js:15 | a token at or past its expiry is never served |
| YouTube.UploadMetadata | src/platforms/youtube.js:67-78 | title and description are the caption or the defaults; tags, category and privacy are fixed |
| YouTube.MetadataNeverEmpty | src/platforms/youtube.js:69-70 | the title and the description are never empty |
| YouTube.MultipartLayout | src/platforms/youtube.js:82-93 | the body in closed form: the delimiter line, the JSON part's header, a blank line, the metadata, the second delimiter line, the video part's two headers and a blank line, each ended by CRLF; then the video; then CRLF and the close delimiter |
| YouTube.MultipartFront | src/platforms/youtube.js:82-93 | the metadata JSON sits intact after a blank line and is followed by CRLF |
| YouTube.MultipartBack | src/platforms/youtube.js:82-93 | the video sits intact after CRLF and is followed by the close delimiter |
| YouTube.MultipartLength | src/platforms/youtube.js:82-93 | the body string's length is three times the boundary's, plus the metadata's and the video's, plus 127 characters |
| YouTube.BoundaryValid | src/platforms/youtube.js:81 | the boundary is a valid boundary under section 5.1.1 of RFC 2046 |
| YouTube.YouTubeVerdict | src/platforms/youtube.js:118-129 | a failed query throws; an answer with no video throws "Video not found after upload" |
| YouTube.PollYouTubeStatus | src/platforms/youtube.js:116-134 | the loop returns exactly the bounded poll of 5 attempts, each safeFetch's token lookup on the shared cache (a refused refresh throws) and then the status answer; the cache ends as those lookups leave it |
| YouTube.MissingVideoThrows | src/platforms/youtube.js:122-125 | an answer with no video after pending answers throws out of the poll |
| YouTube.RefusedTokenEndsPoll | src/platforms/youtube.js:116-134 | a refused token refresh after pending answers ends the poll with the refusal's Error, before that attempt's status request |
| YouTube.PollRequestsBounded | src/platforms/youtube.js:116-134 | each attempt makes at most one token request and one status request, and no other request |
| YouTube.ProcessedPollHadTokens | src/platforms/youtube.js:116-128 | a poll that saw "processed" had every token lookup succeed |
| YouTube.PostToYouTubeShorts | src/platforms/youtube.js:136-166 | missing credentials give one message; a rejected video is never downloaded; neither touches the token cache; a valid video is downloaded, uploaded and polled, with the cache carried through |
| YouTube.UploadCarriesBody | src/platforms/youtube.js:61-105 | the download comes first, then a token request exactly when the cached token is unusable, then the upload. The upload records the boundary, the metadata JSON and the downloaded bytes. Its Content-Type names the boundary; its body is the UTF-8 encoding of the joined lines, with the downloaded bytes decoded as UTF-8; its Content-Length is the body's byte count |
| YouTube.RefusedTokenStopsUpload | src/platforms/youtube.js:61-164 | a refused refresh before the upload ends the post with its Error after the download and the token request; nothing is uploaded and the cache is unchanged |
| YouTube.SuccessIffProcessed | src/platforms/youtube.js:61-162 | the chat hears the Shorts link exactly when the download worked, the token lookup before the upload gave a token, the upload was accepted and the poll, made from the cache that lookup left, saw "processed" |
| YouTube.PolledPostClosing | src/platforms/youtube.js:150-164 | a post that reached the poll closes on the Shorts link, the processing failure or "Error posting" with the poll's Error, as the poll ended |
| YouTube.FailedStepClosing | src/platforms/youtube.js:61-164 | a failed download, token lookup before the upload or upload closes on a message starting with "Error posting to YouTube Shorts" |
| YouTube.RequestsBounded | src/platforms/youtube.js:136-166 | a post makes at most 13 requests: at most 5 status requests, at most 6 token requests and at most one download |
| YouTube.UploadBytesLayout | src/platforms/youtube.js:82-104 | the bytes sent are the encoded head, the video decoded and encoded again, and the encoded tail |
| Unicode.ReplacedByteChanges | src/platforms/youtube.js:91-93 | decoding bytes that run as ASCII up to a byte no UTF-8 sequence starts with, and encoding them again, puts 0xEF in that byte's place |
| YouTube.UploadedVideoReencoded | src/platforms/youtube.js:82-104 | as written: such a video is not uploaded as downloaded; the body carries 0xEF where the byte was, and differs from the corrected body |
| YouTube.CorrectedUploadCarriesVideo | src/platforms/youtube.js:82-104 | corrected: the body carries the video's bytes verbatim between the encoded head and tail, and equals the body as written whenever the video is well-formed UTF-8 |
| MultiPlatform.Set | src/platforms/multi-platform.js:19-21 | a result update changes that platform's entry and no other |
| MultiPlatform.ResultsOf | src/platforms/multi-platform.js:5-48 | each platform's entry is determined by whether it was requested and how its post ended |
| MultiPlatform.PostTo | src/platforms/multi-platform.js:15-24 | one platform's step sets its entry and appends its messages |
| MultiPlatform.PostToAllPlatforms | src/platforms/multi-platform.js:5-74 | the method produces exactly the specified results and messages |
| MultiPlatform.BuildSummary | src/platforms/multi-platform.js:50-69 | the `+=` appends build exactly the specified summary text |
| MultiPlatform.SuccessfulMembership | src/platforms/multi-platform.js:51-53 | a platform is listed as successful exactly when it was requested and its post returned without throwing |
| MultiPlatform.EntryNamesPlatform | src/platforms/multi-platform.js:57 | a failed entry names its platform and its error unambiguously |
| MultiPlatform.FailedMembership | src/platforms/multi-platform.js:55-57 | `platform (message)` is listed as failed exactly when the platform was requested and its post threw an Error with that non-empty message |
| MultiPlatform.SuccessRate | src/platforms/multi-platform.js:69 | at most 3 platforms succeed, and the summary ends with the rate line: the successful count over the requested count |
| MultiPlatform.Dispatch | src/platforms/multi-platform.js:77-86 | a name is dispatched exactly when its lower-cased form names a platform; otherwise it is "Unknown platform: " followed by the name |
| MultiPlatform.PostToSpecificPlatform | src/platforms/multi-platform.js:76-87 | the dispatched platform's post is run, or the unknown-platform Error is thrown |
| MultiPlatform.DispatchIgnoresCase | src/platforms/multi-platform.js:77 | every case variant of a platform name dispatches to that platform |
| MultiPlatform.UnpostedReelReportedSuccessful | src/platforms/multi-platform.js:16-19 | as written: Instagram without credentials is counted successful |
| MultiPlatform.CorrectedResultOf | src/platforms/multi-platform.js:16-23 | corrected: an entry is successful exactly when the post was delivered, and otherwise carries the closing message |
| MultiPlatform.CorrectedInstagramIffPublished | src/platforms/multi-platform.js:16-23 | corrected: Instagram is successful exactly when the Reel was published |
| ImageGenerator.FirstCandidateParts | src/utils/image-generator.js:28-33 | the parts are those of the first candidate's content, when one exists |
| ImageGenerator.FirstInlineData | src/utils/image-generator.js:35-40 | the search finds nothing exactly when no part has inline data; otherwise it finds the first part that has some |
| ImageGenerator.SelectImageData | src/utils/image-generator.js:34-40 | the loop finds exactly the first inline data |
| ImageGenerator.BananoSpec | src/utils/image-generator.js:14-55 | the model is asked exactly when the key is set. A missing key, a rethrown Error and a missing candidate give their Errors. A call succeeds exactly when the first inline data exists and is non-empty |
| ImageGenerator.FirstInlinePartDecides | src/utils/image-generator.js:35-44 | an empty first inline part fails the call even when later parts hold data |
| ImageGenerator.FirstInlineDataAt | src/utils/image-generator.js:35-40 | the first part with inline data is the one found |
| ImageGenerator.GeneratePhotoBanano | src/utils/image-generator.js:14-55 | the method returns exactly the specified generation |
| ImageGenerator.RetrySpec | src/utils/image-generator.js:63-76 | between 1 and maxRetries calls. Every earlier call failed, and a final failure means the retries ran out. The k-th wait is 2^k·1000 ms; no calls are made when maxRetries ≤ 0 |
| ImageGenerator.RetrySucceedsIff | src/utils/image-generator.js:63-76 | the retry succeeds exactly when some attempt within the limit succeeds |
| ImageGenerator.GeneratePhotoWithRetry | src/utils/image-generator.js:63-76 | the loop returns exactly the specified retry: result, waits and number of calls |
| ImageGenerator.DefaultRetryWaits | src/utils/image-generator.js:63-76 | with the default of 3 retries there are 1 to 3 calls, and the waits are a prefix of 1000 ms, 2000 ms |
| ImageGenerator.MissingKeyExhaustsRetries | src/utils/image-generator.js:16-76 | without a key every attempt fails, so all retries are spent |
| CaptionGenerator.PromptIndex | src/utils/caption-generator.js:30 | the random prompt index is within the five prompts |
| CaptionGenerator.Truncate | src/utils/caption-generator.js:40-42 | a caption of at most 300 UTF-16 code units is kept; a longer one keeps its first 297 units and ends in "..." |
| CaptionGenerator.TruncateBounded | src/utils/caption-generator.js:40-42 | a cut caption is at most 300 UTF-16 code units |
| CaptionGenerator.TruncateIdempotent | src/utils/caption-generator.js:40-42 | cutting twice is cutting once |
| CaptionGenerator.GenerateCaption | src/utils/caption-generator.js:22-50 | with no key the model is not asked and the default is returned; with a key one of the five prompts is used; a failure falls back to the default; a reply becomes the UTF-16 code units of its trimmed text, cut to the limit |
| CaptionGenerator.GeneratedCaptionShape | src/utils/caption-generator.js:37-43 | a generated caption is at most 300 UTF-16 code units. It ends in "..." when the trimmed reply has more than 300 units; otherwise it is exactly the trimmed reply, with no surrounding white space |
| CaptionGenerator.AstralReplyCut | src/utils/caption-generator.js:37-43 | a reply of more than 150 emoji (scalars above U+FFFF) is cut, and the kept part ends in a lone leading surrogate |
| Unicode.Utf16Length | src/utils/caption-generator.js:40 | a string's JavaScript length is its number of scalars plus its number of scalars above U+FFFF, between one and two units per scalar |
| BotWebhook.LeadingDigits | src/bot_webhook.js:33 | parseInt reads the longest run of leading digits |
| BotWebhook.ParseIntRoundTrip | src/bot_webhook.js:33-35 | a chat id written in decimal parses back to itself |
| BotWebhook.ParseIntPrefix | src/bot_webhook.js:33 | parsing reads an integer followed by any non-digit text |
| BotWebhook.ParseNatPrefix | src/bot_webhook.js:33 | parsing reads a natural number followed by any non-digit text |
| BotWebhook.ParseNegativePrefix | src/bot_webhook.js:33 | parsing reads a negative number followed by any non-digit text |
| BotWebhook.ParseIntEmpty | src/bot_webhook.js:33-35 | an unset authorized id parses to NaN |
| BotWebhook.Word | src/bot_webhook.js:49 | the URL capture is the longest run of non-space characters |
| BotWebhook.FirstUrlMatch | src/bot_webhook.js:49 | the URL match is at the leftmost position where the whole pattern matches, and there is none exactly when the pattern matches nowhere |
| BotWebhook.FirstCaptionKey | src/bot_webhook.js:50 | the caption is taken after the leftmost "caption:", in any case |
| BotWebhook.VideoUrlShape | src/bot_webhook.js:49-52 | a URL is found exactly when the pattern matches somewhere; it is non-empty, holds no white space and starts with http:// or https:// |
| BotWebhook.CaptionTrimmed | src/bot_webhook.js:50-53 | the caption neither starts nor ends with white space |
| BotWebhook.HandleMessageGuards | src/bot_webhook.js:33-46 | a message is denied exactly when the authorized id parses to NaN or differs from the chat id. It is ignored exactly when it passes that check and is empty or starts with "/start" |
| BotWebhook.HandleMessageDispatch | src/bot_webhook.js:49-75 | past the guards, a message is posted exactly when a URL is found, with that URL and the caption; otherwise help is sent |
| BotWebhook.UnauthorizedStartWelcomed | src/bot_webhook.js:79-82 | as written: an unauthorized chat sending "/start" is denied and welcomed |
| BotWebhook.CorrectedWelcomeOnlyAuthorized | src/bot_webhook.js:79-82 | corrected: only the authorized chat is welcomed, a welcomed chat is never denied, and the message handling is unchanged |
| TaskTracker.Live | src/utils/task-tracker.js:50-57 | the live entries are exactly those not expired, unchanged |
| TaskTracker.GetTaskCases | src/utils/task-tracker.js:26-37 | a task is found exactly when it is present and not expired; an expired entry is deleted and nothing else is |
| TaskTracker.ExpiryBoundary | src/utils/task-tracker.js:31 | expiry is strict: an entry exactly one hour old is still found, one millisecond later it is gone |
| TaskTracker.StoredTaskFound | src/utils/task-tracker.js:14-37 | a stored task is found with its chat id for an hour |
| TaskTracker.RemovedTaskNotFound | src/utils/task-tracker.js:43-45 | a removed task is not found |
| TaskTracker.CleanupPreservesLookups | src/utils/task-tracker.js:50-57 | cleanup changes no lookup made at the same time |
| TaskTracker.CleanupIdempotent | src/utils/task-tracker.js:50-57 | a second cleanup, at the same time or an earlier one, removes nothing |
| TaskTracker.Tracker.StoreTask | src/utils/task-tracker.js:14-19 | the entry is inserted or overwritten with the current time |
| TaskTracker.Tracker.GetTask | src/utils/task-tracker.js:26-37 | the lookup returns and leaves the map as specified |
| TaskTracker.Tracker.RemoveTask | src/utils/task-tracker.js:43-45 | exactly that entry is deleted |
| TaskTracker.Tracker.CleanupExpiredTasks | src/utils/task-tracker.js:50-57 | the map becomes exactly its live entries |

## Left out

- Network I/O, `fetch`, JSON parsing, ffprobe, Gemini and the Telegram client are not modelled. Their answers are inputs to each operation.
- Floating point is not modelled. The width/height ratios, the parsed durations, the frame rates from `eval`, and `toFixed` in messages are taken as the boolean outcomes of their comparisons. Only `VideoValidator.Coherent` relates them to the integer frame size.
- `setTimeout` sleeps are not slept. Only the back-off delays of the retries are recorded, as values.
- `sendMessage` is taken never to fail; its messages are recorded in order.
- The exact text of the long chat messages is not modelled verbatim (validation details, the help text and the welcome text). Where a property needs a message, it is modelled by the words that distinguish it.
- Logging (`console.log`, `console.warn`, `console.error`) and `handleBotError` are not modelled.
- The webhook's Express route, `WEBHOOK_PATH` and the `webhook_error` listener are not modelled.
- The periodic `setInterval` that runs the task cleanup is not modelled. `Date.now()` is a parameter.
- `src/config/index.js` exports neither `CAPTION` nor `GEMINI_API_KEY`. The configured caption and key are parameters.
- The OAuth request body and the form encoding of the Graph API parameters are not modelled.
- Request headers are modelled for TikTok (all of them, through `TikTok.MergeHeaders`) and for the YouTube upload's Content-Type and Content-Length; the Instagram headers and the other YouTube headers are not, nor are their bearer tokens.
- `JSON.stringify` of the YouTube metadata is a function parameter.
- The random digits of the multipart boundary are an input.
- `Buffer.from(..., 'base64')` of the generated image is not modelled: the result is the base64 text.
- A response without a `parts` array (a TypeError in the image generator) is not modelled.
- A download whose response is not ok is taken like any other download; its body is the video.
- TikTok header names are merged as exact keys, whereas HTTP header names ignore case.
- `ImageGenerator.RetryFrom`: a non-integer `maxRetries` is not modelled.
- `BotWebhook.ParseInt10`: digits beyond 2^53 lose no precision in the model, whereas JavaScript rounds them.
- A JavaScript string may hold a lone surrogate; a `string` here cannot. The one place the source makes one, the caption cut, is kept as UTF-16 code units.
- The probe's stream lists are reduced to the first video and the first audio stream, which is what `find` returns.

## Findings

| source | as written | input that shows it | evidently intended | confidence | as-written member | corrected member |
|---|---|---|---|---|---|---|
| src/platforms/multi-platform.js:16-19 | a platform is marked successful whenever its post function returns. Every post function catches its own errors and returns, including when credentials are missing or the video was not published | Instagram requested with no access token: the chat hears "credentials are not set", no request is made, and the summary lists Instagram as successful | successful only when the post was delivered | not executed | MultiPlatform.UnpostedReelReportedSuccessful | MultiPlatform.CorrectedInstagramIffPublished |
| src/platforms/youtube.js:82-104 | the downloaded Buffer is joined into the string body, which decodes it as UTF-8, and the string is sent encoded as UTF-8 again, with `Buffer.byteLength` as Content-Length | an MP4 video whose bytes, after an ASCII run, hold a byte from 0x80 to 0xC1 or from 0xF5 to 0xFF: that byte is replaced by EF BF BD, so the uploaded file is not the video | the video's bytes sent verbatim between the encoded head and tail (`Buffer.concat`) | not executed | YouTube.UploadedVideoReencoded | YouTube.CorrectedUploadCarriesVideo |
| src/bot_webhook.js:79-82 | the `/start` handler is registered with `onText`, which runs independently of the `message` listener and so bypasses its security check, contrary to the comment on line 81 | an unauthorized chat sends "/start": it receives both the access-denied reply and the welcome | the welcome only for the authorized chat | not executed | BotWebhook.UnauthorizedStartWelcomed | BotWebhook.CorrectedWelcomeOnlyAuthorized |
