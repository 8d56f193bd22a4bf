/** src/platforms/youtube.js: the bot's YouTube Shorts poster. It keeps an
    OAuth access token obtained with the refresh-token grant (section 6 of
    RFC 6749) in module-level state, uploads the video as a
    multipart/related body (section 5.1.1 of RFC 2046 for the delimiter
    lines), polls the upload status at most 5 times and reports through the
    `sendMessage` callback. */
module YouTube {
  import opened Common
  import opened Text
  import opened Http
  import opened Polling
  import opened Unicode
  import Media
  import VideoValidator

  // ---- getAccessToken: the token cache ----

  const REFRESH_FAILED := "Failed to refresh Google access token: "

  /** The token endpoint's answer to a refresh-token grant: the ok flag and
      status, and in an ok body the `access_token` ("" when absent) and
      `expires_in` in seconds. */
  datatype TokenResponse = TokenResponse(ok: bool, status: nat, accessToken: string, expiresIn: int)

  /** The module-level `accessToken` (null or "" both read as "no token",
      both modelled as "") and `tokenExpiry` in epoch milliseconds. */
  datatype Cache = Cache(accessToken: string, tokenExpiry: int)

  /** The state before the first call. */
  const EMPTY_CACHE := Cache("", 0)

  /** The cached token may be used at time `now`: it is set and has not
      reached its expiry (the comparison is strict). */
  predicate Usable(c: Cache, now: int)
  {
    c.accessToken != "" && now < c.tokenExpiry
  }

  /** One getAccessToken call: its result, whether it asked the token
      endpoint, and the cache afterwards. */
  datatype Lookup = Lookup(result: Result<string>, requested: bool, next: Cache)

  /** getAccessToken at time `now`, with `refresh` the token endpoint's
      answer should it ask, received at time `receivedAt`. */
  function TokenLookup(c: Cache, now: int, refresh: TokenResponse, receivedAt: int): (l: Lookup)
    // the endpoint is asked exactly when the cached token is not usable
    ensures l.requested <==> !Usable(c, now)
    // a usable token is returned with no request and nothing changes
    ensures !l.requested ==> l.result == Ok(c.accessToken) && l.next == c
    // a refused refresh throws and leaves the cache as it was
    ensures l.requested && !refresh.ok ==> l.result.Err? && l.next == c
    // an accepted refresh caches the new token until expires_in seconds
    // after the answer arrived
    ensures l.requested && refresh.ok ==>
      l.result == Ok(refresh.accessToken) && l.next.accessToken == refresh.accessToken
      && l.next.tokenExpiry == receivedAt + refresh.expiresIn * 1000
  {
    if Usable(c, now) then Lookup(Ok(c.accessToken), false, c)
    else if !refresh.ok then Lookup(Err(REFRESH_FAILED + NatToString(refresh.status)), true, c)
    else
      var renewed := Cache(refresh.accessToken, receivedAt + refresh.expiresIn * 1000);
      Lookup(Ok(renewed.accessToken), true, renewed)
  }

  /** The module-level token state with getAccessToken as its operation. */
  class TokenCache {
    var accessToken: string
    var tokenExpiry: int

    function State(): Cache
      reads this
    {
      Cache(accessToken, tokenExpiry)
    }

    constructor()
      ensures State() == EMPTY_CACHE
    {
      accessToken := "";
      tokenExpiry := 0;
    }

    /** getAccessToken. */
    method GetAccessToken(now: int, refresh: TokenResponse, receivedAt: int) returns (token: Result<string>, requested: bool)
      modifies this
      ensures Lookup(token, requested, State()) == TokenLookup(old(State()), now, refresh, receivedAt)
    {
      if accessToken != "" && now < tokenExpiry {
        return Ok(accessToken), false;
      }
      if !refresh.ok {
        return Err(REFRESH_FAILED + NatToString(refresh.status)), true;
      }
      accessToken := refresh.accessToken;
      tokenExpiry := receivedAt + refresh.expiresIn * 1000;
      return Ok(accessToken), true;
    }
  }

  /** A token received at `receivedAt` is served from the cache, with no
      request, at every later call before its expiry. */
  lemma CachedUntilExpiry(c: Cache, now: int, refresh: TokenResponse, receivedAt: int, later: int, again: TokenResponse, againAt: int)
    requires !Usable(c, now) && refresh.ok && refresh.accessToken != ""
    requires later < receivedAt + refresh.expiresIn * 1000
    ensures var next := TokenLookup(c, now, refresh, receivedAt).next;
      TokenLookup(next, later, again, againAt) == Lookup(Ok(refresh.accessToken), false, next)
  {
  }

  /** A refused refresh is asked again at the next call, and its Error
      names the refused status, which reads back from the message. */
  lemma RefusedRefreshRetried(c: Cache, now: int, refresh: TokenResponse, receivedAt: int, again: TokenResponse, againAt: int)
    requires !Usable(c, now) && !refresh.ok
    ensures var l := TokenLookup(c, now, refresh, receivedAt);
      TokenLookup(l.next, now, again, againAt).requested
      && StartsWith(l.result.message, REFRESH_FAILED)
      && DigitsValue(l.result.message[|REFRESH_FAILED|..]) == refresh.status
  {
    var l := TokenLookup(c, now, refresh, receivedAt);
    assert l.result.message[|REFRESH_FAILED|..] == NatToString(refresh.status);
    DigitsValueOfNatToString(refresh.status);
  }

  /** A token whose expiry has been reached is never served: the endpoint
      is asked again (no grace period, not even at the expiry instant). */
  lemma ExpiredTokenRefreshed(c: Cache, now: int, refresh: TokenResponse, receivedAt: int)
    requires now >= c.tokenExpiry
    ensures TokenLookup(c, now, refresh, receivedAt).requested
  {
  }

  // ---- uploadVideoToYouTube: metadata and the multipart body ----

  const DEFAULT_TITLE := "Video from Telegram Bot"
  const DEFAULT_DESCRIPTION := "Video uploaded via Telegram Bot"

  datatype Snippet = Snippet(title: string, description: string, tags: seq<string>, categoryId: string)
  datatype VideoMetadata = VideoMetadata(snippet: Snippet, privacyStatus: string, selfDeclaredMadeForKids: bool)

  /** The upload's metadata for a caption (`caption || default`). */
  function UploadMetadata(caption: string): (m: VideoMetadata)
    // a caption is both title and description; an empty one gives defaults
    ensures caption != "" ==> m.snippet.title == caption && m.snippet.description == caption
    ensures caption == "" ==> m.snippet.title == DEFAULT_TITLE && m.snippet.description == DEFAULT_DESCRIPTION
    // a public, not-for-kids Short in category 22 (People & Blogs)
    ensures m.snippet.tags == ["shorts", "video"] && m.snippet.categoryId == "22"
    ensures m.privacyStatus == "public" && !m.selfDeclaredMadeForKids
  {
    var title := if caption == "" then DEFAULT_TITLE else caption;
    var description := if caption == "" then DEFAULT_DESCRIPTION else caption;
    VideoMetadata(Snippet(title, description, ["shorts", "video"], "22"), "public", false)
  }

  /** The title and description are never empty. */
  lemma MetadataNeverEmpty(caption: string)
    ensures UploadMetadata(caption).snippet.title != "" && UploadMetadata(caption).snippet.description != ""
  {
  }

  const BOUNDARY_PREFIX := "boundary_"
  const CRLF := "\r\n"
  const JSON_PART_TYPE := "Content-Type: application/json; charset=UTF-8"
  const VIDEO_PART_TYPE := "Content-Type: video/mp4"
  const VIDEO_PART_ENCODING := "Content-Transfer-Encoding: binary"

  /** `'boundary_' + Math.random().toString(36).substring(2)`, with the
      random digits as input. */
  function Boundary(randomDigits: string): string
  {
    BOUNDARY_PREFIX + randomDigits
  }

  /** The lines of the multipart body: the metadata part and the video
      part, each opened by a delimiter line, then the close delimiter. */
  function MultipartLines(boundary: string, metadataJson: string, video: string): (lines: seq<string>)
    ensures |lines| == 10
  {
    ["--" + boundary, JSON_PART_TYPE, "", metadataJson,
     "--" + boundary, VIDEO_PART_TYPE, VIDEO_PART_ENCODING, "", video,
     "--" + boundary + "--"]
  }

  function MultipartBody(boundary: string, metadataJson: string, video: string): string
  {
    Join(MultipartLines(boundary, metadataJson, video), CRLF)
  }

  /** Everything before the video: the first delimiter line, the JSON
      part's header line, a blank line, the metadata, the second delimiter
      line, the video part's two header lines and a blank line. */
  function MultipartHead(boundary: string, metadataJson: string): string
  {
    Line("--" + boundary) + (Line(JSON_PART_TYPE) + (Line("") + (Line(metadataJson)
    + (Line("--" + boundary) + (Line(VIDEO_PART_TYPE) + (Line(VIDEO_PART_ENCODING) + Line("")))))))
  }

  /** A line of the body and the CRLF that ends it. */
  function Line(line: string): string
  {
    line + CRLF
  }

  /** Everything after the video: a CRLF and the close delimiter. */
  function MultipartTail(boundary: string): string
  {
    CRLF + "--" + boundary + "--"
  }

  /** The joined lines are the head, the video and the tail: each line in
      its place, one CRLF between each two. */
  lemma {:induction false} MultipartLayout(boundary: string, metadataJson: string, video: string)
    ensures MultipartBody(boundary, metadataJson, video)
      == MultipartHead(boundary, metadataJson) + video + MultipartTail(boundary)
  {
    var lines := MultipartLines(boundary, metadataJson, video);
    var d := "--" + boundary;
    var tail := MultipartTail(boundary);
    assert Join(lines[9..], CRLF) == d + "--";
    JoinStep(lines, 8);
    assert Join(lines[8..], CRLF) == video + tail;
    // from line 7 back to line 0, each line and its CRLF join the head
    var p := Line("");
    JoinStep(lines, 7);
    assert Join(lines[7..], CRLF) == p + video + tail;
    JoinStep(lines, 6);
    PrependLine(VIDEO_PART_ENCODING, p, video, tail);
    p := Line(VIDEO_PART_ENCODING) + p;
    JoinStep(lines, 5);
    PrependLine(VIDEO_PART_TYPE, p, video, tail);
    p := Line(VIDEO_PART_TYPE) + p;
    JoinStep(lines, 4);
    PrependLine(d, p, video, tail);
    p := Line(d) + p;
    JoinStep(lines, 3);
    PrependLine(metadataJson, p, video, tail);
    p := Line(metadataJson) + p;
    JoinStep(lines, 2);
    PrependLine("", p, video, tail);
    p := Line("") + p;
    JoinStep(lines, 1);
    PrependLine(JSON_PART_TYPE, p, video, tail);
    p := Line(JSON_PART_TYPE) + p;
    JoinStep(lines, 0);
    PrependLine(d, p, video, tail);
    p := Line(d) + p;
    assert lines[0..] == lines;
  }

  /** A line and its CRLF in front of a body split as head, video, tail
      join the head. */
  lemma PrependLine(line: string, head: string, video: string, tail: string)
    ensures line + CRLF + (head + video + tail) == (Line(line) + head) + video + tail
  {
  }

  /** Joining from line `k` is that line, a CRLF, and the join of the rest. */
  lemma JoinStep(lines: seq<string>, k: nat)
    requires k + 1 < |lines|
    ensures Join(lines[k..], CRLF) == lines[k] + CRLF + Join(lines[k + 1..], CRLF)
  {
    assert lines[k..][1..] == lines[k + 1..];
  }

  /** The body opens with the first delimiter line, and the metadata
      follows the JSON part's header line and a blank line. */
  lemma MultipartFront(boundary: string, metadataJson: string, video: string)
    ensures var body := MultipartBody(boundary, metadataJson, video);
      var delimiter := "--" + boundary;
      var metadataStart := |delimiter| + |JSON_PART_TYPE| + 3 * |CRLF|;
      StartsWith(body, delimiter + CRLF)
      && metadataStart + |metadataJson| + |CRLF| <= |body|
      && body[metadataStart - 2 * |CRLF|..metadataStart] == CRLF + CRLF
      && body[metadataStart..metadataStart + |metadataJson|] == metadataJson
      && body[metadataStart + |metadataJson|..metadataStart + |metadataJson| + |CRLF|] == CRLF
  {
    var lines := MultipartLines(boundary, metadataJson, video);
    var d := "--" + boundary;
    var rest := Join(lines[4..], CRLF);
    assert Join(lines[3..], CRLF) == metadataJson + CRLF + rest;
    assert Join(lines[2..], CRLF) == "" + CRLF + Join(lines[3..], CRLF);
    assert Join(lines[1..], CRLF) == JSON_PART_TYPE + CRLF + Join(lines[2..], CRLF);
    var body := MultipartBody(boundary, metadataJson, video);
    assert body == d + CRLF + Join(lines[1..], CRLF);
    var opening := d + CRLF + JSON_PART_TYPE + CRLF + CRLF;
    assert body == opening + metadataJson + CRLF + rest;
    assert body[..|d + CRLF|] == d + CRLF;
  }

  /** The body closes with the video, a CRLF and the close delimiter
      `--boundary--`, after the video part's blank line. */
  lemma MultipartBack(boundary: string, metadataJson: string, video: string)
    ensures var body := MultipartBody(boundary, metadataJson, video);
      var close := CRLF + "--" + boundary + "--";
      var videoStart := |body| - |close| - |video|;
      |CRLF| <= videoStart
      && body[videoStart - |CRLF|..videoStart] == CRLF
      && body[videoStart..videoStart + |video|] == video
      && body[videoStart + |video|..] == close
  {
    var lines := MultipartLines(boundary, metadataJson, video);
    var d := "--" + boundary;
    assert lines[..9] == lines[..8] + [video];
    assert lines == lines[..9] + [d + "--"];
    JoinAppend(lines[..8], video, CRLF);
    JoinAppend(lines[..9], d + "--", CRLF);
    var front := Join(lines[..8], CRLF);
    var body := MultipartBody(boundary, metadataJson, video);
    assert body == front + CRLF + video + (CRLF + d + "--");
  }

  /** The body's length: the three boundaries, the metadata and the video,
      plus 127 characters of framing (the dashes, the three header lines and
      the nine CRLFs). */
  lemma MultipartLength(boundary: string, metadataJson: string, video: string)
    ensures |MultipartBody(boundary, metadataJson, video)| == 3 * |boundary| + |metadataJson| + |video| + 127
  {
    var lines := MultipartLines(boundary, metadataJson, video);
    JoinLength(lines, CRLF);
    assert TotalLength(lines[9..]) == |lines[9]| + TotalLength(lines[10..]);
    assert TotalLength(lines[8..]) == |lines[8]| + TotalLength(lines[9..]);
    assert TotalLength(lines[7..]) == |lines[7]| + TotalLength(lines[8..]);
    assert TotalLength(lines[6..]) == |lines[6]| + TotalLength(lines[7..]);
    assert TotalLength(lines[5..]) == |lines[5]| + TotalLength(lines[6..]);
    assert TotalLength(lines[4..]) == |lines[4]| + TotalLength(lines[5..]);
    assert TotalLength(lines[3..]) == |lines[3]| + TotalLength(lines[4..]);
    assert TotalLength(lines[2..]) == |lines[2]| + TotalLength(lines[3..]);
    assert TotalLength(lines[1..]) == |lines[1]| + TotalLength(lines[2..]);
  }

  /** The characters section 5.1.1 of RFC 2046 allows in a boundary, less
      the space (which may not end it). */
  predicate BoundaryChar(c: char)
  {
    ('0' <= c <= '9') || ('a' <= c <= 'z') || ('A' <= c <= 'Z')
    || c in "'()+_,-./:=?"
  }

  /** The boundary is one RFC 2046 accepts (1 to 70 boundary characters,
      none a space) whenever the random part is at most 61 base-36 digits;
      `toString(36)` only writes digits and lower-case letters. */
  lemma BoundaryValid(randomDigits: string)
    requires |randomDigits| <= 61
    requires forall i :: 0 <= i < |randomDigits| ==> ('0' <= randomDigits[i] <= '9') || ('a' <= randomDigits[i] <= 'z')
    ensures var b := Boundary(randomDigits);
      1 <= |b| <= 70 && forall i :: 0 <= i < |b| ==> BoundaryChar(b[i])
  {
    var b := Boundary(randomDigits);
    forall i | 0 <= i < |b|
      ensures BoundaryChar(b[i])
    {
      if i >= |BOUNDARY_PREFIX| {
        assert b[i] == randomDigits[i - |BOUNDARY_PREFIX|];
      }
    }
  }

  // ---- pollYouTubeStatus ----

  const MAX_POLLING_ATTEMPTS: nat := 5
  const API_ERROR := "YouTube API error!"
  const NOT_FOUND := "Video not found after upload"

  /** One status request's answer read through safeFetch: the first item's
      `status.uploadStatus`, or None when `items` is empty. */
  type StatusResponse = Response<Option<string>>

  /** How pollYouTubeStatus reads an answer: a failed request throws, an
      empty item list throws "Video not found after upload", "processed"
      succeeds, "failed" fails, anything else is still processing. */
  function YouTubeVerdict(r: StatusResponse): (v: Verdict)
    ensures !r.ok ==> v.Raised?
    ensures r.ok && r.data == None ==> v == Raised(NOT_FOUND)
  {
    var fetched: Result<Option<string>> := SafeFetch(API_ERROR, r);
    if fetched.Err? then Raised(fetched.message)
    else if fetched.value.None? then Raised(NOT_FOUND)
    else if fetched.value.value == "processed" then Succeeded
    else if fetched.value.value == "failed" then Failed
    else Pending
  }

  /** The inputs of one getAccessToken call: the time it is made, and the
      token endpoint's answer with the time it arrived, should it ask. */
  datatype TokenCall = TokenCall(now: int, refresh: TokenResponse, receivedAt: int)

  function Call(c: Cache, t: TokenCall): Lookup
  {
    TokenLookup(c, t.now, t.refresh, t.receivedAt)
  }

  /** The inputs of one status request: safeFetch's getAccessToken call,
      then the answer to the request itself. */
  datatype PollInput = PollInput(token: TokenCall, reply: StatusResponse)

  /** The token cache after the first `k` attempts of a poll started with
      cache `c`. */
  function CacheAfter(c: Cache, polls: seq<PollInput>, k: nat): Cache
    requires k <= |polls|
  {
    if k == 0 then c else Call(CacheAfter(c, polls, k - 1), polls[k - 1].token).next
  }

  /** One attempt of the poll: its token lookup, made on the cache the
      earlier attempts left, and the status answer. */
  datatype Attempt = Attempt(token: Lookup, reply: StatusResponse)

  function Attempts(c: Cache, polls: seq<PollInput>): (attempts: seq<Attempt>)
    ensures |attempts| == |polls|
    ensures forall i :: 0 <= i < |polls| ==>
      attempts[i] == Attempt(Call(CacheAfter(c, polls, i), polls[i].token), polls[i].reply)
  {
    seq(|polls|, i requires 0 <= i < |polls| => Attempt(Call(CacheAfter(c, polls, i), polls[i].token), polls[i].reply))
  }

  /** safeFetch inside the loop: a token lookup that throws leaves the loop
      before the status request; otherwise the answer is read as above. */
  function AttemptVerdict(a: Attempt): Verdict
  {
    if a.token.result.Err? then Raised(a.token.result.message) else YouTubeVerdict(a.reply)
  }

  /** The poll from cache `c`, as the verdicts of its attempts. */
  function PollFrom(c: Cache, polls: seq<PollInput>): Polled
    requires MAX_POLLING_ATTEMPTS <= |polls|
  {
    Poll(Verdicts(Attempts(c, polls), AttemptVerdict), MAX_POLLING_ATTEMPTS)
  }

  /** pollYouTubeStatus: at most 5 status requests, each preceded by
      getAccessToken on the module's token cache; nothing caught. */
  method PollYouTubeStatus(cache: TokenCache, polls: seq<PollInput>) returns (p: Polled)
    requires MAX_POLLING_ATTEMPTS <= |polls|
    modifies cache
    ensures p == PollFrom(old(cache.State()), polls)
    ensures cache.State() == CacheAfter(old(cache.State()), polls, p.requests)
  {
    ghost var c0 := cache.State();
    ghost var vs := Verdicts(Attempts(c0, polls), AttemptVerdict);
    PollStart(vs, MAX_POLLING_ATTEMPTS);
    var i := 0;
    while i < MAX_POLLING_ATTEMPTS
      invariant i <= MAX_POLLING_ATTEMPTS
      invariant Poll(vs, MAX_POLLING_ATTEMPTS) == Later(Poll(vs[i..], MAX_POLLING_ATTEMPTS - i), i)
      invariant cache.State() == CacheAfter(c0, polls, i)
    {
      PollStep(vs, MAX_POLLING_ATTEMPTS, i);
      var call := polls[i].token;
      ghost var attempt := Attempts(c0, polls)[i];
      assert attempt.token == Call(CacheAfter(c0, polls, i), call);
      var token, requested := cache.GetAccessToken(call.now, call.refresh, call.receivedAt);
      assert Lookup(token, requested, cache.State()) == attempt.token;
      assert cache.State() == CacheAfter(c0, polls, i + 1);
      assert vs[i] == AttemptVerdict(attempt);
      if token.Err? {
        return Polled(Threw(token.message), i + 1);
      }
      var verdict := YouTubeVerdict(polls[i].reply);
      match verdict
      case Succeeded => return Polled(Returned(true), i + 1);
      case Failed => return Polled(Returned(false), i + 1);
      case Raised(message) => return Polled(Threw(message), i + 1);
      case Pending => i := i + 1;
    }
    return Polled(Returned(false), MAX_POLLING_ATTEMPTS);
  }

  /** An upload that the status endpoint does not list, before any deciding
      answer, ends the poll with "Video not found after upload". */
  lemma MissingVideoThrows(c: Cache, polls: seq<PollInput>, k: nat)
    requires k < MAX_POLLING_ATTEMPTS <= |polls|
    requires forall j :: 0 <= j < k ==> AttemptVerdict(Attempts(c, polls)[j]) == Pending
    requires Attempts(c, polls)[k].token.result.Ok?
    requires polls[k].reply.ok && polls[k].reply.data == None
    ensures PollFrom(c, polls) == Polled(Threw(NOT_FOUND), k + 1)
  {
    StopsAtFirstDecisive(Verdicts(Attempts(c, polls), AttemptVerdict), MAX_POLLING_ATTEMPTS, k);
  }

  /** A token refresh refused before a status request, after pending
      answers, ends the poll with the refusal's Error; no status request is
      made for that attempt. */
  lemma RefusedTokenEndsPoll(c: Cache, polls: seq<PollInput>, k: nat)
    requires k < MAX_POLLING_ATTEMPTS <= |polls|
    requires forall j :: 0 <= j < k ==> AttemptVerdict(Attempts(c, polls)[j]) == Pending
    requires !Usable(CacheAfter(c, polls, k), polls[k].token.now) && !polls[k].token.refresh.ok
    ensures PollFrom(c, polls) == Polled(Threw(REFRESH_FAILED + NatToString(polls[k].token.refresh.status)), k + 1)
  {
    StopsAtFirstDecisive(Verdicts(Attempts(c, polls), AttemptVerdict), MAX_POLLING_ATTEMPTS, k);
  }

  // ---- postToYouTubeShorts ----

  const CREDENTIALS_MISSING := "YouTube API credentials are not set."
  const VALIDATING := "🔍 Validating video for YouTube Shorts..."
  const VALIDATION_FAILED := "❌ YouTube video validation failed: "
  const UPLOADING := "📦 Uploading video to YouTube..."
  const WAITING := "⏳ Waiting for YouTube to process the video..."
  const POSTED := "🎉" + " Video posted to YouTube Shorts successfully!\n🔗 "
  const SHORTS_URL := "https://youtube.com/shorts/"
  const PROCESSING_FAILED := "⚠️" + " YouTube failed to process the video."
  const ERROR_POSTING := "💥" + " Error posting to YouTube Shorts: "
  const UPLOAD_FAILED := "YouTube upload failed: "
  const MULTIPART_TYPE := "multipart/related; boundary="

  datatype Credentials = Credentials(apiKey: string, clientId: string, clientSecret: string, refreshToken: string)

  predicate CredentialsSet(c: Credentials)
  {
    c.apiKey != "" && c.clientId != "" && c.clientSecret != "" && c.refreshToken != ""
  }

  /** The requests of one post: downloading the video, the refresh-token
      grant to the token endpoint, the multipart upload, and the status
      requests. The upload is recorded by what it is built from: the
      boundary, the metadata's JSON and the downloaded bytes; what it sends
      follows from them (`ContentType`, `Body`, `ContentLength`). */
  datatype Request =
    | DownloadVideo(url: string)
    | TokenRequest
    | UploadVideo(boundary: string, metadataJson: string, video: seq<Byte>)
    | StatusRequest

  /** What a post did: its requests in order, the chat messages, and the
      module's token cache afterwards. */
  datatype Run = Run(requests: seq<Request>, messages: seq<string>, cache: Cache)

  /** The outside world's answers: the probe behind validateVideoFile, the
      downloaded bytes (or the download's Error), the random boundary
      digits, the token call before the upload, the upload response
      carrying the new video id, and the inputs of the status requests.
      `json` is JSON.stringify on the metadata. */
  datatype Answers = Answers(
    probe: Media.Probe, floats: VideoValidator.FloatChecks,
    download: Result<seq<Byte>>, randomDigits: string, json: VideoMetadata -> string,
    uploadToken: TokenCall, upload: Response<string>, polls: seq<PollInput>)

  /** The Error of an upload response that is not ok. */
  function UploadError(status: nat, details: string): string
  {
    UPLOAD_FAILED + NatToString(status) + DETAILS_LABEL + (if details == "" then UNKNOWN_ERROR else details)
  }

  /** The body string as written: the downloaded Buffer joined into the
      lines, which decodes it as UTF-8. */
  function UploadBodyText(boundary: string, metadataJson: string, video: seq<Byte>): string
  {
    MultipartBody(boundary, metadataJson, Utf8Decode(video))
  }

  /** The upload's Content-Type header. */
  function ContentType(r: Request): string
    requires r.UploadVideo?
  {
    MULTIPART_TYPE + r.boundary
  }

  /** The bytes the upload sends: fetch encodes the body string as UTF-8. */
  function Body(r: Request): seq<Byte>
    requires r.UploadVideo?
  {
    Utf8(UploadBodyText(r.boundary, r.metadataJson, r.video))
  }

  /** The upload's Content-Length header, `Buffer.byteLength` of the body
      string: the number of its UTF-8 bytes. */
  function ContentLength(r: Request): nat
    requires r.UploadVideo?
  {
    |Utf8(UploadBodyText(r.boundary, r.metadataJson, r.video))|
  }

  /** The upload request of a post: the boundary from the random digits,
      the JSON of the caption's metadata, and the downloaded bytes. */
  function UploadRequest(caption: string, answers: Answers, video: seq<Byte>): Request
  {
    UploadVideo(Boundary(answers.randomDigits), answers.json(UploadMetadata(caption)), video)
  }

  /** The token request, if the lookup made one. */
  function TokenRequests(l: Lookup): seq<Request>
  {
    if l.requested then [TokenRequest] else []
  }

  /** How many of the requests are `x`. */
  function Occurrences(rs: seq<Request>, x: Request): (k: nat)
    ensures k <= |rs|
  {
    if rs == [] then 0 else (if rs[0] == x then 1 else 0) + Occurrences(rs[1..], x)
  }

  lemma {:induction false} OccurrencesAppend(a: seq<Request>, b: seq<Request>, x: Request)
    ensures Occurrences(a + b, x) == Occurrences(a, x) + Occurrences(b, x)
  {
    if a != [] {
      assert (a + b)[1..] == a[1..] + b;
      OccurrencesAppend(a[1..], b, x);
    } else {
      assert a + b == b;
    }
  }

  /** The requests of one attempt: a token request when its lookup makes
      one, then the status request unless the lookup threw. */
  function AttemptRequests(a: Attempt): seq<Request>
  {
    TokenRequests(a.token) + (if a.token.result.Ok? then [StatusRequest] else [])
  }

  /** An attempt makes at most one token request and one status request,
      and nothing else. */
  lemma AttemptCounts(a: Attempt)
    ensures var rs := AttemptRequests(a);
      && Occurrences(rs, StatusRequest) <= 1 && Occurrences(rs, TokenRequest) <= 1
      && Occurrences(rs, TokenRequest) + Occurrences(rs, StatusRequest) == |rs|
  {
    var status: seq<Request> := if a.token.result.Ok? then [StatusRequest] else [];
    OccurrencesAppend(TokenRequests(a.token), status, TokenRequest);
    OccurrencesAppend(TokenRequests(a.token), status, StatusRequest);
  }

  /** The requests of the first `n` attempts of a poll. */
  function PollRequests(attempts: seq<Attempt>, n: nat): seq<Request>
    requires n <= |attempts|
  {
    if n == 0 then [] else PollRequests(attempts, n - 1) + AttemptRequests(attempts[n - 1])
  }

  /** The first `n` attempts make at most `n` token requests and `n` status
      requests, and no other request. */
  lemma {:induction false} PollRequestsBounded(attempts: seq<Attempt>, n: nat)
    requires n <= |attempts|
    ensures var rs := PollRequests(attempts, n);
      && Occurrences(rs, TokenRequest) + Occurrences(rs, StatusRequest) == |rs|
      && Occurrences(rs, StatusRequest) <= n && Occurrences(rs, TokenRequest) <= n
  {
    if n > 0 {
      var earlier := PollRequests(attempts, n - 1);
      var extra := AttemptRequests(attempts[n - 1]);
      assert PollRequests(attempts, n) == earlier + extra;
      PollRequestsBounded(attempts, n - 1);
      AttemptCounts(attempts[n - 1]);
      OccurrencesAppend(earlier, extra, TokenRequest);
      OccurrencesAppend(earlier, extra, StatusRequest);
    }
  }

  /** uploadVideoToYouTube and what follows it, after validation passed,
      from token cache `cache`. */
  function UploadAndPoll(cache: Cache, videoUrl: string, caption: string, answers: Answers): (r: Run)
    requires MAX_POLLING_ATTEMPTS <= |answers.polls|
  {
    var download := DownloadVideo(videoUrl);
    match answers.download
    case Err(m) => Run([download], [ERROR_POSTING + m], cache)
    case Ok(video) =>
      var token := Call(cache, answers.uploadToken);
      var asked := [download] + TokenRequests(token);
      if token.result.Err? then Run(asked, [ERROR_POSTING + token.result.message], token.next)
      else
        var sent := asked + [UploadRequest(caption, answers, video)];
        if !answers.upload.ok then
          Run(sent, [ERROR_POSTING + UploadError(answers.upload.status, answers.upload.details)], token.next)
        else
          var videoId := answers.upload.data;
          var polled := PollFrom(token.next, answers.polls);
          var requests := sent + PollRequests(Attempts(token.next, answers.polls), polled.requests);
          var after := CacheAfter(token.next, answers.polls, polled.requests);
          match polled.result
          case Threw(m) => Run(requests, [WAITING, ERROR_POSTING + m], after)
          case Returned(true) => Run(requests, [WAITING, POSTED + SHORTS_URL + videoId], after)
          case Returned(false) => Run(requests, [WAITING, PROCESSING_FAILED], after)
  }

  /** postToYouTubeShorts(videoUrl, caption, sendMessage), with the module's
      token cache as it stands before the call. */
  function PostToYouTubeShorts(cache: Cache, credentials: Credentials, videoUrl: string, caption: string, answers: Answers): (r: Run)
    requires MAX_POLLING_ATTEMPTS <= |answers.polls|
    // a missing credential: one message, no request, no validation
    ensures !CredentialsSet(credentials) <==> r == Run([], [CREDENTIALS_MISSING], cache)
    // a video the validator rejects is never downloaded or uploaded
    ensures CredentialsSet(credentials) && !VideoValidator.Validate(answers.probe, answers.floats).isValid ==>
      r == Run([], [VALIDATING, VALIDATION_FAILED + VideoValidator.Validate(answers.probe, answers.floats).message], cache)
    // a valid video is downloaded, uploaded and polled, after two messages
    ensures CredentialsSet(credentials) && VideoValidator.Validate(answers.probe, answers.floats).isValid ==>
      r.requests == UploadAndPoll(cache, videoUrl, caption, answers).requests
      && r.messages == [VALIDATING, UPLOADING] + UploadAndPoll(cache, videoUrl, caption, answers).messages
      && r.cache == UploadAndPoll(cache, videoUrl, caption, answers).cache
  {
    if !CredentialsSet(credentials) then Run([], [CREDENTIALS_MISSING], cache)
    else
      var validation := VideoValidator.Validate(answers.probe, answers.floats);
      if !validation.isValid then Run([], [VALIDATING, VALIDATION_FAILED + validation.message], cache)
      else
        var rest := UploadAndPoll(cache, videoUrl, caption, answers);
        Run(rest.requests, [VALIDATING, UPLOADING] + rest.messages, rest.cache)
  }

  /** The requests up to the upload come first in every post that gets
      that far. */
  lemma UploadSent(cache: Cache, videoUrl: string, caption: string, answers: Answers)
    requires MAX_POLLING_ATTEMPTS <= |answers.polls|
    requires answers.download.Ok? && Call(cache, answers.uploadToken).result.Ok?
    ensures var rs := UploadAndPoll(cache, videoUrl, caption, answers).requests;
      var sent := [DownloadVideo(videoUrl)] + TokenRequests(Call(cache, answers.uploadToken))
        + [UploadRequest(caption, answers, answers.download.value)];
      |sent| <= |rs| && rs[..|sent|] == sent
  {
    var token := Call(cache, answers.uploadToken);
    var sent := [DownloadVideo(videoUrl)] + TokenRequests(token) + [UploadRequest(caption, answers, answers.download.value)];
    var rs := UploadAndPoll(cache, videoUrl, caption, answers).requests;
    if answers.upload.ok {
      var poll := PollRequests(Attempts(token.next, answers.polls), PollFrom(token.next, answers.polls).requests);
      assert rs == sent + poll;
      assert (sent + poll)[..|sent|] == sent;
    } else {
      assert rs == sent;
    }
  }

  /** The upload follows the download and, when the cached token was not
      usable, a token request. It is built from the boundary, the JSON of
      the caption's metadata and the downloaded bytes; it sends the UTF-8
      encoding of the joined lines, in which those bytes were decoded as
      UTF-8, with the number of bytes sent as Content-Length and the
      boundary named in the Content-Type. */
  lemma UploadCarriesBody(cache: Cache, videoUrl: string, caption: string, answers: Answers)
    requires MAX_POLLING_ATTEMPTS <= |answers.polls|
    requires answers.download.Ok? && Call(cache, answers.uploadToken).result.Ok?
    ensures var r := UploadAndPoll(cache, videoUrl, caption, answers);
      var k := if Call(cache, answers.uploadToken).requested then 2 else 1;
      var boundary := Boundary(answers.randomDigits);
      var metadataJson := answers.json(UploadMetadata(caption));
      |r.requests| > k && r.requests[0] == DownloadVideo(videoUrl)
      && (k == 2 ==> r.requests[1] == TokenRequest)
      && r.requests[k] == UploadVideo(boundary, metadataJson, answers.download.value)
      && ContentType(r.requests[k]) == MULTIPART_TYPE + BOUNDARY_PREFIX + answers.randomDigits
      && Body(r.requests[k]) == Utf8(MultipartBody(boundary, metadataJson, Utf8Decode(answers.download.value)))
      && ContentLength(r.requests[k]) == |Body(r.requests[k])|
  {
    var token := Call(cache, answers.uploadToken);
    var upload := UploadRequest(caption, answers, answers.download.value);
    var sent := [DownloadVideo(videoUrl)] + TokenRequests(token) + [upload];
    var rs := UploadAndPoll(cache, videoUrl, caption, answers).requests;
    UploadSent(cache, videoUrl, caption, answers);
    var k := if token.requested then 2 else 1;
    assert |sent| == k + 1 && sent[0] == DownloadVideo(videoUrl) && sent[k] == upload;
    assert k == 2 ==> sent[1] == TokenRequest;
    assert rs[0] == sent[0] && rs[k] == sent[k] && (k == 2 ==> rs[1] == sent[1]) by {
      assert rs[..|sent|] == sent;
    }
    assert MULTIPART_TYPE + (BOUNDARY_PREFIX + answers.randomDigits) == MULTIPART_TYPE + BOUNDARY_PREFIX + answers.randomDigits;
  }

  /** A refused token refresh before the upload ends the post with that
      Error: the video was downloaded and the endpoint asked, but nothing
      is uploaded and the cache is left as it was. */
  lemma RefusedTokenStopsUpload(cache: Cache, videoUrl: string, caption: string, answers: Answers)
    requires MAX_POLLING_ATTEMPTS <= |answers.polls|
    requires answers.download.Ok?
    requires !Usable(cache, answers.uploadToken.now) && !answers.uploadToken.refresh.ok
    ensures UploadAndPoll(cache, videoUrl, caption, answers)
      == Run([DownloadVideo(videoUrl), TokenRequest],
             [ERROR_POSTING + REFRESH_FAILED + NatToString(answers.uploadToken.refresh.status)], cache)
  {
    var token := Call(cache, answers.uploadToken);
    var refusal := REFRESH_FAILED + NatToString(answers.uploadToken.refresh.status);
    assert token == Lookup(Err(refusal), true, cache);
    assert [DownloadVideo(videoUrl)] + TokenRequests(token) == [DownloadVideo(videoUrl), TokenRequest];
    assert ERROR_POSTING + token.result.message == ERROR_POSTING + REFRESH_FAILED + NatToString(answers.uploadToken.refresh.status);
  }

  /** The chat hears the Shorts link of the uploaded video exactly when the
      download worked, the token lookup before the upload gave a token, the
      upload was accepted and the status poll (whose own token lookups must
      all succeed) saw "processed". */
  lemma SuccessIffProcessed(cache: Cache, videoUrl: string, caption: string, answers: Answers)
    requires MAX_POLLING_ATTEMPTS <= |answers.polls|
    ensures var ms := UploadAndPoll(cache, videoUrl, caption, answers).messages;
      var token := Call(cache, answers.uploadToken);
      (ms[|ms| - 1] == POSTED + SHORTS_URL + answers.upload.data)
      <==> (answers.download.Ok? && token.result.Ok? && answers.upload.ok
            && PollFrom(token.next, answers.polls).result == Returned(true))
  {
    var ms := UploadAndPoll(cache, videoUrl, caption, answers).messages;
    var posted := POSTED + SHORTS_URL + answers.upload.data;
    var token := Call(cache, answers.uploadToken);
    // the closing messages differ in their first character
    if answers.download.Ok? && token.result.Ok? && answers.upload.ok {
      PolledPostClosing(cache, videoUrl, caption, answers);
      match PollFrom(token.next, answers.polls).result
      case Returned(true) =>
      case Returned(false) =>
        assert PROCESSING_FAILED[0] != posted[0];
      case Threw(m) =>
        assert (ERROR_POSTING + m)[0] != posted[0];
    } else {
      FailedStepClosing(cache, videoUrl, caption, answers);
      assert ms[|ms| - 1][0] == ERROR_POSTING[0] != posted[0];
    }
  }

  /** A post that reached the poll closes on the Shorts link, the
      processing failure or the poll's Error, as the poll ended. */
  lemma PolledPostClosing(cache: Cache, videoUrl: string, caption: string, answers: Answers)
    requires MAX_POLLING_ATTEMPTS <= |answers.polls|
    requires answers.download.Ok? && Call(cache, answers.uploadToken).result.Ok? && answers.upload.ok
    ensures var ms := UploadAndPoll(cache, videoUrl, caption, answers).messages;
      ms != [] &&
      ms[|ms| - 1] == match PollFrom(Call(cache, answers.uploadToken).next, answers.polls).result
        case Returned(true) => POSTED + SHORTS_URL + answers.upload.data
        case Returned(false) => PROCESSING_FAILED
        case Threw(m) => ERROR_POSTING + m
  {
  }

  /** A failed download, token lookup or upload closes on an Error
      message. */
  lemma FailedStepClosing(cache: Cache, videoUrl: string, caption: string, answers: Answers)
    requires MAX_POLLING_ATTEMPTS <= |answers.polls|
    requires !(answers.download.Ok? && Call(cache, answers.uploadToken).result.Ok? && answers.upload.ok)
    ensures var ms := UploadAndPoll(cache, videoUrl, caption, answers).messages;
      ms != [] && StartsWith(ms[|ms| - 1], ERROR_POSTING)
  {
  }

  /** A successful poll had every one of its token lookups succeed and
      every answer before the last one pending. */
  lemma ProcessedPollHadTokens(c: Cache, polls: seq<PollInput>)
    requires MAX_POLLING_ATTEMPTS <= |polls|
    requires PollFrom(c, polls).result == Returned(true)
    ensures forall j :: 0 <= j < PollFrom(c, polls).requests ==> Attempts(c, polls)[j].token.result.Ok?
  {
    var vs := Verdicts(Attempts(c, polls), AttemptVerdict);
    PollSpec(vs, MAX_POLLING_ATTEMPTS);
    forall j | 0 <= j < PollFrom(c, polls).requests
      ensures Attempts(c, polls)[j].token.result.Ok?
    {
      assert vs[j] == AttemptVerdict(Attempts(c, polls)[j]);
    }
  }

  /** Counts of three different requests add up to at most the number of
      requests. */
  lemma {:induction false} OccurrencesDistinct(rs: seq<Request>, x: Request, y: Request, z: Request)
    requires x != y && y != z && x != z
    ensures Occurrences(rs, x) + Occurrences(rs, y) + Occurrences(rs, z) <= |rs|
  {
    if rs != [] {
      OccurrencesDistinct(rs[1..], x, y, z);
    }
  }

  lemma OccurrencesSingle(r: Request, x: Request)
    ensures Occurrences([r], x) == if r == x then 1 else 0
  {
    assert [r][1..] == [];
  }

  /** The request counts of `a + b` for the three kinds a post bounds. */
  lemma CountsAppend(a: seq<Request>, b: seq<Request>, download: Request)
    ensures Occurrences(a + b, StatusRequest) == Occurrences(a, StatusRequest) + Occurrences(b, StatusRequest)
    ensures Occurrences(a + b, TokenRequest) == Occurrences(a, TokenRequest) + Occurrences(b, TokenRequest)
    ensures Occurrences(a + b, download) == Occurrences(a, download) + Occurrences(b, download)
  {
    OccurrencesAppend(a, b, StatusRequest);
    OccurrencesAppend(a, b, TokenRequest);
    OccurrencesAppend(a, b, download);
  }

  /** The requests before the upload: the download and at most one token
      request. */
  lemma AskedCounts(download: Request, token: Lookup)
    requires download.DownloadVideo?
    ensures var asked := [download] + TokenRequests(token);
      |asked| <= 2 && Occurrences(asked, download) == 1
      && Occurrences(asked, TokenRequest) <= 1 && Occurrences(asked, StatusRequest) == 0
  {
    CountsAppend([download], TokenRequests(token), download);
    OccurrencesSingle(download, download);
    OccurrencesSingle(download, TokenRequest);
    OccurrencesSingle(download, StatusRequest);
    if token.requested {
      OccurrencesSingle(TokenRequest, download);
      OccurrencesSingle(TokenRequest, TokenRequest);
      OccurrencesSingle(TokenRequest, StatusRequest);
    }
  }

  /** The bound of RequestsBounded for a post that reached the poll. */
  lemma PolledPostBounded(cache: Cache, videoUrl: string, caption: string, answers: Answers)
    requires MAX_POLLING_ATTEMPTS <= |answers.polls|
    requires answers.download.Ok? && Call(cache, answers.uploadToken).result.Ok? && answers.upload.ok
    ensures var rs := UploadAndPoll(cache, videoUrl, caption, answers).requests;
      |rs| <= 2 * MAX_POLLING_ATTEMPTS + 3
      && Occurrences(rs, StatusRequest) <= MAX_POLLING_ATTEMPTS
      && Occurrences(rs, TokenRequest) <= MAX_POLLING_ATTEMPTS + 1
      && Occurrences(rs, DownloadVideo(videoUrl)) <= 1
  {
    var d := DownloadVideo(videoUrl);
    var token := Call(cache, answers.uploadToken);
    var u := UploadRequest(caption, answers, answers.download.value);
    var attempts := Attempts(token.next, answers.polls);
    PolledRequests(cache, videoUrl, caption, answers);
    SentPollBounded(d, token, u, attempts, PollFrom(token.next, answers.polls).requests);
  }

  /** The requests of an upload that was accepted: what was sent, then the
      poll's. */
  lemma PolledRequests(cache: Cache, videoUrl: string, caption: string, answers: Answers)
    requires MAX_POLLING_ATTEMPTS <= |answers.polls|
    requires answers.download.Ok? && Call(cache, answers.uploadToken).result.Ok? && answers.upload.ok
    ensures var token := Call(cache, answers.uploadToken);
      UploadAndPoll(cache, videoUrl, caption, answers).requests
      == [DownloadVideo(videoUrl)] + TokenRequests(token) + [UploadRequest(caption, answers, answers.download.value)]
         + PollRequests(Attempts(token.next, answers.polls), PollFrom(token.next, answers.polls).requests)
  {
  }

  /** The counts of a download, its token lookup, an upload and the poll
      that follows. */
  lemma SentPollBounded(d: Request, token: Lookup, u: Request, attempts: seq<Attempt>, n: nat)
    requires d.DownloadVideo? && u.UploadVideo?
    requires n <= |attempts| && n <= MAX_POLLING_ATTEMPTS
    ensures var rs := [d] + TokenRequests(token) + [u] + PollRequests(attempts, n);
      |rs| <= 2 * MAX_POLLING_ATTEMPTS + 3
      && Occurrences(rs, StatusRequest) <= MAX_POLLING_ATTEMPTS
      && Occurrences(rs, TokenRequest) <= MAX_POLLING_ATTEMPTS + 1
      && Occurrences(rs, d) <= 1
  {
    var sent := [d] + TokenRequests(token) + [u];
    var poll := PollRequests(attempts, n);
    AskedCounts(d, token);
    CountsAppend([d] + TokenRequests(token), [u], d);
    OccurrencesSingle(u, d);
    OccurrencesSingle(u, TokenRequest);
    OccurrencesSingle(u, StatusRequest);
    PollRequestsBounded(attempts, n);
    OccurrencesDistinct(poll, d, TokenRequest, StatusRequest);
    CountsAppend(sent, poll, d);
  }

  /** The bound of RequestsBounded for the part after validation. */
  lemma UploadAndPollBounded(cache: Cache, videoUrl: string, caption: string, answers: Answers)
    requires MAX_POLLING_ATTEMPTS <= |answers.polls|
    ensures var rs := UploadAndPoll(cache, videoUrl, caption, answers).requests;
      |rs| <= 2 * MAX_POLLING_ATTEMPTS + 3
      && Occurrences(rs, StatusRequest) <= MAX_POLLING_ATTEMPTS
      && Occurrences(rs, TokenRequest) <= MAX_POLLING_ATTEMPTS + 1
      && Occurrences(rs, DownloadVideo(videoUrl)) <= 1
  {
    var d := DownloadVideo(videoUrl);
    var rs := UploadAndPoll(cache, videoUrl, caption, answers).requests;
    if answers.download.Err? {
      assert rs == [d];
      OccurrencesSingle(d, d);
      OccurrencesSingle(d, TokenRequest);
      OccurrencesSingle(d, StatusRequest);
    } else {
      var token := Call(cache, answers.uploadToken);
      var asked := [d] + TokenRequests(token);
      if token.result.Err? {
        assert rs == asked;
        AskedCounts(d, token);
      } else if !answers.upload.ok {
        var u := UploadRequest(caption, answers, answers.download.value);
        assert rs == asked + [u];
        AskedCounts(d, token);
        CountsAppend(asked, [u], d);
        OccurrencesSingle(u, d);
        OccurrencesSingle(u, TokenRequest);
        OccurrencesSingle(u, StatusRequest);
      } else {
        PolledPostBounded(cache, videoUrl, caption, answers);
      }
    }
  }

  /** A post makes at most 13 requests: the download, a token request and
      the upload, then at most a token request and a status request for
      each of the 5 attempts; never more than 5 status requests, 6 token
      requests and one download. */
  lemma RequestsBounded(cache: Cache, credentials: Credentials, videoUrl: string, caption: string, answers: Answers)
    requires MAX_POLLING_ATTEMPTS <= |answers.polls|
    ensures var rs := PostToYouTubeShorts(cache, credentials, videoUrl, caption, answers).requests;
      |rs| <= 2 * MAX_POLLING_ATTEMPTS + 3
      && Occurrences(rs, StatusRequest) <= MAX_POLLING_ATTEMPTS
      && Occurrences(rs, TokenRequest) <= MAX_POLLING_ATTEMPTS + 1
      && Occurrences(rs, DownloadVideo(videoUrl)) <= 1
  {
    UploadAndPollBounded(cache, videoUrl, caption, answers);
  }

  // ---- the upload body's bytes ----

  /** The body's bytes as written: the head and the tail encoded, and the
      video decoded and encoded again. */
  lemma {:induction false} UploadBytesLayout(boundary: string, metadataJson: string, video: seq<Byte>)
    ensures Body(UploadVideo(boundary, metadataJson, video))
      == Utf8(MultipartHead(boundary, metadataJson)) + Utf8(Utf8Decode(video)) + Utf8(MultipartTail(boundary))
  {
    MultipartLayout(boundary, metadataJson, Utf8Decode(video));
    Utf8Append(MultipartHead(boundary, metadataJson) + Utf8Decode(video), MultipartTail(boundary));
    Utf8Append(MultipartHead(boundary, metadataJson), Utf8Decode(video));
  }

  /** The body as intended: the video's bytes between the encoded head and
      tail (what `Buffer.concat` of the parts gives). */
  function CorrectedUploadBody(boundary: string, metadataJson: string, video: seq<Byte>): (body: seq<Byte>)
  {
    Utf8(MultipartHead(boundary, metadataJson)) + video + Utf8(MultipartTail(boundary))
  }

  /** The corrected body carries the video byte for byte in the video
      part, after the head, and agrees with the body as written whenever
      the video's bytes are well-formed UTF-8 text. */
  lemma CorrectedUploadCarriesVideo(boundary: string, metadataJson: string, video: seq<Byte>)
    ensures var body := CorrectedUploadBody(boundary, metadataJson, video);
      var start := |Utf8(MultipartHead(boundary, metadataJson))|;
      start + |video| <= |body|
      && body[start..start + |video|] == video
      && body[..start] == Utf8(MultipartHead(boundary, metadataJson))
      && body[start + |video|..] == Utf8(MultipartTail(boundary))
    ensures Utf8(Utf8Decode(video)) == video ==>
      CorrectedUploadBody(boundary, metadataJson, video) == Body(UploadVideo(boundary, metadataJson, video))
  {
    UploadBytesLayout(boundary, metadataJson, video);
  }

  /** As written, a video whose bytes run as ASCII up to a byte that no
      UTF-8 sequence starts with (0x80 to 0xC1, or 0xF5 to 0xFF, as in
      most MP4 files) is not uploaded as downloaded: in its place the body
      carries EF BF BD, the encoded U+FFFD. */
  lemma {:induction false} UploadedVideoReencoded(boundary: string, metadataJson: string, p: seq<Byte>, x: Byte, q: seq<Byte>)
    requires forall i :: 0 <= i < |p| ==> p[i] < 0x80
    requires 0x80 <= x < 0xC2 || 0xF5 <= x
    ensures var video := p + [x] + q;
      var sent := Body(UploadVideo(boundary, metadataJson, video));
      var start := |Utf8(MultipartHead(boundary, metadataJson))|;
      start + |p| < |sent| && sent[start + |p|] == 0xEF != video[|p|]
      && sent != CorrectedUploadBody(boundary, metadataJson, video)
  {
    var video := p + [x] + q;
    var head := Utf8(MultipartHead(boundary, metadataJson));
    var again := Utf8(Utf8Decode(video));
    UploadBytesLayout(boundary, metadataJson, video);
    ReplacedByteChanges(p, x, q);
    var sent := Body(UploadVideo(boundary, metadataJson, video));
    assert sent[|head| + |p|] == again[|p|];
    var corrected := CorrectedUploadBody(boundary, metadataJson, video);
    assert corrected[|head| + |p|] == video[|p|] == x;
  }
}
