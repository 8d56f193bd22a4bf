/** src/instagram_poster.js, the poster behind the Telegram webhook bot: the
    Graph API credentials it keeps, its own video validator, its 30-attempt
    status poll that swallows failed requests, and processAndPostReel, which
    guards, validates, creates a media container, polls it and publishes it
    only when the poll succeeded. */
module InstagramPoster {
  import opened Common
  import opened Media
  import opened Polling

  // ---------------------------------------------------------------------
  // Credentials
  // ---------------------------------------------------------------------

  const TOKEN_PLACEHOLDER := "YOUR_LONG_LIVED_FACEBOOK_USER_ACCESS_TOKEN"
  const ACCOUNT_PLACEHOLDER := "YOUR_INSTAGRAM_BUSINESS_ACCOUNT_ID"

  /** The module-level credentials, both "" until the bot sets them. */
  class Poster {
    var accessToken: string
    var accountId: string

    constructor()
      ensures accessToken == "" && accountId == ""
    {
      accessToken := "";
      accountId := "";
    }

    /** setInstagramCredentials: overwrite both values. */
    method SetInstagramCredentials(fbAccessToken: string, igBusinessId: string)
      modifies this
      ensures accessToken == fbAccessToken && accountId == igBusinessId
    {
      accessToken := fbAccessToken;
      accountId := igBusinessId;
    }

    /** processAndPostReel, which reads the credentials last set. */
    method ProcessAndPostReel(videoUrl: string, caption: string, answers: Answers) returns (r: Run)
      requires MAX_POLLING_ATTEMPTS <= |answers.replies|
      ensures r == ReelRun(accessToken, accountId, videoUrl, caption, answers)
    {
      r := ReelRun(accessToken, accountId, videoUrl, caption, answers);
    }
  }

  // ---------------------------------------------------------------------
  // Video validation
  // ---------------------------------------------------------------------

  /** The outcomes of the floating-point comparisons on width/height,
      duration and frame rate, taken as inputs. */
  datatype FloatChecks = FloatChecks(
    aspectOutOfRange: bool,  // width/height < 0.01 or > 10
    offSixteenByNine: bool,  // |width/height - 16/9| > 0.05
    offNineBySixteen: bool,  // |width/height - 9/16| > 0.05
    timing: Timing)          // frame rate outside 24..60

  const MIN_WIDTH := 540
  const MIN_HEIGHT := 960
  const HD_WIDTH := 720
  const HD_HEIGHT := 1280

  const PROBE_FAILED := "Could not probe video file or URL is inaccessible. Ensure it's a valid, public URL."
  const FAILED := "Video validation failed."
  const ALL_GOOD := "Video seems to meet Instagram Reel requirements."

  /** The issues the accept rule holds against the video: those whose
      message is not "No audio stream found.". Only the missing-audio issue
      has that message; every other one starts with other words. */
  function CriticalIssues(issues: seq<Issue>): (r: seq<Issue>)
    ensures forall i :: i in r <==> i in issues && i != NoAudioStream
  {
    if issues == [] then []
    else (if issues[0] != NoAudioStream then [issues[0]] else []) + CriticalIssues(issues[1..])
  }

  /** The final decision: valid exactly when no critical issue remains; the
      issues list is attached either way. */
  function Decide(issues: seq<Issue>): (v: Validation)
    ensures v.isValid <==> forall k :: 0 <= k < |issues| ==> issues[k] == NoAudioStream
    ensures v.issues == Some(issues)
    ensures v.message == if v.isValid then ALL_GOOD else FAILED
  {
    var critical := CriticalIssues(issues);
    assert critical != [] ==> critical[0] in critical;
    assert forall k :: 0 <= k < |issues| ==> issues[k] in issues;
    if |critical| > 0 then Validation(false, FAILED, Some(issues))
    else Validation(true, ALL_GOOD, Some(issues))
  }

  /** A clearly horizontal frame away from 16:9. */
  predicate HorizontalCheck(v: VideoStream, fc: FloatChecks)
  {
    v.width > v.height && fc.offSixteenByNine
  }

  /** Otherwise, a vertical frame away from 9:16. */
  predicate VerticalCheck(v: VideoStream, fc: FloatChecks)
  {
    !HorizontalCheck(v, fc) && v.width < v.height && fc.offNineBySixteen
  }

  /** The checks on the frame of a present video stream. The orientation
      checks are an if / else-if pair: a clearly horizontal frame away from
      16:9, else a vertical one away from 9:16. */
  function FrameChecks(v: VideoStream, fc: FloatChecks, issues: seq<Issue>): seq<Issue>
  {
    var withAspect := PushIf(issues, fc.aspectOutOfRange, AspectRatioOutOfRange);
    var withHorizontal := PushIf(withAspect, HorizontalCheck(v, fc), Horizontal);
    var withVertical := PushIf(withHorizontal, VerticalCheck(v, fc), NotNineBySixteen);
    PushIf(withVertical, v.width < MIN_WIDTH || v.height < MIN_HEIGHT, LowResolution)
  }

  /** The video-stream checks, pushing in order. */
  function VideoChecks(video: Option<VideoStream>, fc: FloatChecks, issues: seq<Issue>): seq<Issue>
  {
    match video
    case None => PushIf(issues, true, NoVideoStream)
    case Some(v) => ContentChecks(v, fc.timing, FrameChecks(v, fc, issues))
  }

  /** The audio checks: here a missing stream is only a warning. */
  function AudioChecks(audio: Option<AudioStream>, issues: seq<Issue>): seq<Issue>
  {
    match audio
    case None => issues
    case Some(a) => AudioStreamChecks(a, issues)
  }

  /** Every issue the checks push, in push order. */
  function Issues(m: Metadata, fc: FloatChecks): seq<Issue>
  {
    SizeChecks(m.format, AudioChecks(m.audio, VideoChecks(m.video, fc, ContainerChecks(m.format, []))))
  }

  /** How many times the frame checks push `y`. */
  function FrameCount(v: VideoStream, fc: FloatChecks, y: Issue): nat
  {
    Hit(fc.aspectOutOfRange, AspectRatioOutOfRange, y)
    + Hit(HorizontalCheck(v, fc), Horizontal, y)
    + Hit(VerticalCheck(v, fc), NotNineBySixteen, y)
    + Hit(v.width < MIN_WIDTH || v.height < MIN_HEIGHT, LowResolution, y)
  }

  /** How many times the video-stream checks push `y`. */
  function VideoCount(video: Option<VideoStream>, fc: FloatChecks, y: Issue): nat
  {
    match video
    case None => Hit(true, NoVideoStream, y)
    case Some(v) => FrameCount(v, fc, y) + ContentCount(v, fc.timing, y)
  }

  /** How many times all the checks push `y`: once per failed check whose
      issue is `y`. */
  function IssueCount(m: Metadata, fc: FloatChecks, y: Issue): nat
  {
    Hit(BadContainer(m.format), ContainerFormat(m.format.formatName), y)
    + VideoCount(m.video, fc, y)
    + (match m.audio
       case None => 0
       case Some(a) => AudioStreamCount(a, y))
    + Hit(Oversized(m.format), FileSize, y)
  }

  /** The frame checks add exactly the pushes their failed checks call
      for. */
  lemma FrameOccurrences(v: VideoStream, fc: FloatChecks, issues: seq<Issue>, y: Issue)
    ensures Occurrences(FrameChecks(v, fc, issues), y) == Occurrences(issues, y) + FrameCount(v, fc, y)
  {
    FourPushesOccurrences(issues, fc.aspectOutOfRange, AspectRatioOutOfRange, HorizontalCheck(v, fc), Horizontal,
      VerticalCheck(v, fc), NotNineBySixteen,
      v.width < MIN_WIDTH || v.height < MIN_HEIGHT, LowResolution, y);
  }

  /** The video-stream checks add exactly the pushes their failed checks
      call for. */
  lemma VideoOccurrences(video: Option<VideoStream>, fc: FloatChecks, issues: seq<Issue>, y: Issue)
    ensures Occurrences(VideoChecks(video, fc, issues), y) == Occurrences(issues, y) + VideoCount(video, fc, y)
  {
    match video
    case None =>
      PushIfOccurrences(issues, true, NoVideoStream, y);
    case Some(v) =>
      FrameOccurrences(v, fc, issues, y);
      ContentOccurrences(v, fc.timing, FrameChecks(v, fc, issues), y);
  }

  /** The collected list holds each issue exactly as often as the checks
      that push it failed. */
  lemma IssuesOccurrences(m: Metadata, fc: FloatChecks, y: Issue)
    ensures Occurrences(Issues(m, fc), y) == IssueCount(m, fc, y)
  {
    var afterContainer := ContainerChecks(m.format, []);
    var afterVideo := VideoChecks(m.video, fc, afterContainer);
    var afterAudio := AudioChecks(m.audio, afterVideo);
    PushIfOccurrences([], BadContainer(m.format), ContainerFormat(m.format.formatName), y);
    VideoOccurrences(m.video, fc, afterContainer, y);
    if m.audio.Some? {
      AudioStreamOccurrences(m.audio.value, afterVideo, y);
    }
    PushIfOccurrences(afterAudio, Oversized(m.format), FileSize, y);
  }

  /** The counts behind the size, resolution and audio rules, without the
      list. */
  lemma RuleCounts(m: Metadata, fc: FloatChecks)
    ensures IssueCount(m, fc, FileSize) == if Oversized(m.format) then 1 else 0
    ensures IssueCount(m, fc, LowResolution) == if m.video.Some? && (m.video.value.width < MIN_WIDTH || m.video.value.height < MIN_HEIGHT) then 1 else 0
    ensures IssueCount(m, fc, NoAudioStream) == 0
  {
  }

  /** Below 540x960 is an issue; a known size over 100 MiB is an issue and
      an unknown size is not; the missing-audio issue is never pushed. */
  lemma CheckRules(m: Metadata, fc: FloatChecks)
    ensures LowResolution in Issues(m, fc) <==> m.video.Some? && (m.video.value.width < MIN_WIDTH || m.video.value.height < MIN_HEIGHT)
    ensures FileSize in Issues(m, fc) <==> Oversized(m.format)
    ensures NoAudioStream !in Issues(m, fc)
  {
    RuleCounts(m, fc);
    IssuesOccurrences(m, fc, LowResolution);
    OccursIn(Issues(m, fc), LowResolution);
    IssuesOccurrences(m, fc, FileSize);
    OccursIn(Issues(m, fc), FileSize);
    IssuesOccurrences(m, fc, NoAudioStream);
    OccursIn(Issues(m, fc), NoAudioStream);
  }

  /** Everything only logged as a warning, in logging order. */
  function Warnings(m: Metadata): seq<Warning>
  {
    PushIf(PushIf(VideoWarnings(m.video), m.audio.None?, NoAudio), m.format.size.None?, UnknownFileSize)
  }

  /** The warning of the video-stream checks. */
  function VideoWarnings(video: Option<VideoStream>): seq<Warning>
  {
    PushIf([], video.Some? && (video.value.width < HD_WIDTH || video.value.height < HD_HEIGHT), ResolutionBelowRecommended)
  }

  /** Below 720x1280, a missing audio stream and an unknown size each only
      warn. */
  lemma WarningRules(m: Metadata)
    ensures ResolutionBelowRecommended in Warnings(m) <==> m.video.Some? && (m.video.value.width < HD_WIDTH || m.video.value.height < HD_HEIGHT)
    ensures NoAudio in Warnings(m) <==> m.audio.None?
    ensures UnknownFileSize in Warnings(m) <==> m.format.size.None?
  {
  }

  /** The value validateVideoFile resolves with. */
  function Validate(probe: Probe, fc: FloatChecks): (v: Validation)
    ensures probe.ProbeFailed? ==> !v.isValid && v.issues == None
  {
    match probe
    case ProbeFailed(_) => Validation(false, PROBE_FAILED, None)
    case Probed(m) => Decide(Issues(m, fc))
  }

  /** Since the missing-audio issue is never pushed, the exception in the
      accept rule never applies: a probed video is valid exactly when no
      check failed. */
  lemma ValidIffNoIssues(m: Metadata, fc: FloatChecks)
    ensures Validate(Probed(m), fc).isValid <==> Issues(m, fc) == []
  {
    CheckRules(m, fc);
    var r := Issues(m, fc);
    if r != [] {
      assert r[0] in r;
    }
  }

  /** A video below 540x960 is rejected. */
  lemma LowResolutionRejected(m: Metadata, fc: FloatChecks)
    requires m.video.Some? && (m.video.value.width < MIN_WIDTH || m.video.value.height < MIN_HEIGHT)
    ensures !Validate(Probed(m), fc).isValid
  {
    CheckRules(m, fc);
    ValidIffNoIssues(m, fc);
  }

  /** The checks on a present video stream, in push order. */
  method CheckVideoStream(vs: VideoStream, fc: FloatChecks, issues: seq<Issue>) returns (r: seq<Issue>)
    ensures r == ContentChecks(vs, fc.timing, FrameChecks(vs, fc, issues))
  {
    r := PushIf(issues, fc.aspectOutOfRange, AspectRatioOutOfRange);
    r := PushIf(r, HorizontalCheck(vs, fc), Horizontal);
    r := PushIf(r, VerticalCheck(vs, fc), NotNineBySixteen);
    r := PushIf(r, vs.width < MIN_WIDTH || vs.height < MIN_HEIGHT, LowResolution);
    assert r == FrameChecks(vs, fc, issues);
    ghost var afterFrame := r;
    r := PushIf(r, fc.timing.durationOver90, DurationTooLong);
    r := PushIf(r, !fc.timing.durationOver90 && fc.timing.durationUnder3, DurationTooShort);
    r := PushIf(r, fc.timing.frameRateOutside, FrameRate);
    r := PushIf(r, BadVideoCodec(vs.codecName), VideoCodec(vs.codecName));
    r := PushIf(r, Exceeds(vs.bitRate, MAX_VIDEO_BITRATE), VideoBitrate);
    assert r == ContentChecks(vs, fc.timing, afterFrame);
  }

  /** validateVideoFile: each check pushes its issue onto `issues` when it
      fails, the warnings are collected instead of logged, and the last step
      decides. */
  method ValidateVideoFile(probe: Probe, fc: FloatChecks) returns (v: Validation, warnings: seq<Warning>)
    ensures v == Validate(probe, fc)
    ensures warnings == if probe.Probed? then Warnings(probe.metadata) else []
  {
    if probe.ProbeFailed? {
      return Validation(false, PROBE_FAILED, None), [];
    }
    var m := probe.metadata;
    var issues: seq<Issue> := [];
    warnings := [];
    issues := PushIf(issues, BadContainer(m.format), ContainerFormat(m.format.formatName));
    ghost var afterContainer := issues;
    if m.video.None? {
      issues := PushIf(issues, true, NoVideoStream);
    } else {
      var vs := m.video.value;
      issues := CheckVideoStream(vs, fc, issues);
      warnings := PushIf(warnings, vs.width < HD_WIDTH || vs.height < HD_HEIGHT, ResolutionBelowRecommended);
    }
    assert issues == VideoChecks(m.video, fc, afterContainer);
    assert warnings == VideoWarnings(m.video);
    ghost var afterVideo := issues;
    if m.audio.None? {
      warnings := PushIf(warnings, true, NoAudio);
    } else {
      var a := m.audio.value;
      issues := PushIf(issues, a.codecName != "aac", AudioCodec(a.codecName));
      issues := PushIf(issues, Exceeds(a.sampleRate, MAX_SAMPLE_RATE), SampleRate);
      issues := PushIf(issues, Exceeds(a.channels, MAX_AUDIO_CHANNELS), AudioChannels);
      issues := PushIf(issues, Exceeds(a.bitRate, MAX_AUDIO_BITRATE), AudioBitrate);
    }
    assert issues == AudioChecks(m.audio, afterVideo);
    issues := PushIf(issues, Oversized(m.format), FileSize);
    assert issues == Issues(m, fc);
    warnings := PushIf(warnings, m.format.size.None?, UnknownFileSize);
    v := Decide(issues);
  }

  // ---------------------------------------------------------------------
  // Status poll
  // ---------------------------------------------------------------------

  const MAX_POLLING_ATTEMPTS: nat := 30

  /** pollMediaContainerStatus: at most 30 status requests; FINISHED returns
      true, ERROR or EXPIRED return false, and a failed request is caught
      and the loop goes on. */
  method PollMediaContainerStatus(replies: seq<StatusReply>) returns (p: Polled)
    requires MAX_POLLING_ATTEMPTS <= |replies|
    ensures p == Poll(Verdicts(replies, Swallowing), MAX_POLLING_ATTEMPTS)
  {
    ghost var vs := Verdicts(replies, Swallowing);
    PollStart(vs, MAX_POLLING_ATTEMPTS);
    var i := 0;
    while i < MAX_POLLING_ATTEMPTS
      invariant i <= MAX_POLLING_ATTEMPTS
      invariant Poll(vs, MAX_POLLING_ATTEMPTS) == Later(Poll(vs[i..], MAX_POLLING_ATTEMPTS - i), i)
    {
      PollStep(vs, MAX_POLLING_ATTEMPTS, i);
      // the FINISHED / ERROR-or-EXPIRED branches, with a caught failure
      // falling through like a pending status
      var verdict := Classify(replies, Swallowing, i);
      SwallowingNeverRaises(replies, i);
      if verdict == Succeeded {
        return Polled(Returned(true), i + 1);
      } else if verdict == Failed {
        return Polled(Returned(false), i + 1);
      }
      i := i + 1;
    }
    return Polled(Returned(false), MAX_POLLING_ATTEMPTS);
  }

  /** A poll whose every request fails never throws: it makes all 30
      requests and returns false. */
  lemma FailedRequestsTimeOut(replies: seq<StatusReply>)
    requires MAX_POLLING_ATTEMPTS <= |replies|
    requires forall j :: 0 <= j < MAX_POLLING_ATTEMPTS ==> replies[j].RequestFailed?
    ensures Poll(Verdicts(replies, Swallowing), MAX_POLLING_ATTEMPTS) == Polled(Returned(false), MAX_POLLING_ATTEMPTS)
  {
    AlwaysPendingTimesOut(Verdicts(replies, Swallowing), MAX_POLLING_ATTEMPTS);
  }

  /** The poll never throws: every failed request is caught. */
  lemma PollNeverThrows(replies: seq<StatusReply>)
    requires MAX_POLLING_ATTEMPTS <= |replies|
    ensures Poll(Verdicts(replies, Swallowing), MAX_POLLING_ATTEMPTS).result.Returned?
  {
    var vs := Verdicts(replies, Swallowing);
    PollSpec(vs, MAX_POLLING_ATTEMPTS);
    var p := Poll(vs, MAX_POLLING_ATTEMPTS);
  }

  // ---------------------------------------------------------------------
  // processAndPostReel
  // ---------------------------------------------------------------------

  /** The network requests of one run, in order: the probe that streams the
      video, then the Graph API calls. */
  datatype Request = ProbeVideo | CreateContainer | StatusRequest | PublishContainer

  /** The messages sent to the chat, in order, by kind. */
  datatype Note =
    | Received(videoUrl: string, caption: string)
    | TokenMissing
    | AccountMissing
    | UrlMissing
    | Validating
    | PreValidationFailed(message: string)
    | Details(issues: seq<Issue>)
    | PassedWithWarnings(issues: seq<Issue>)
    | PassedAll
    | CreatingContainer
    | ContainerCreated(containerId: string)
    | WaitingFirstCheck
    | PollingEvery
    | Publishing
    | Completed(mediaId: string)
    | ProcessingFailed
    | ErrorOccurred(message: string)

  /** What one call of processAndPostReel does. */
  datatype Run = Run(requests: seq<Request>, notes: seq<Note>)

  /** The external answers one run receives, in the order it asks for them. */
  datatype Answers = Answers(
    probe: Probe,
    fc: FloatChecks,
    created: Result<string>,     // the container id, or the create request's Error
    replies: seq<StatusReply>,   // the status answers
    published: Result<string>)   // the published media id, or the publish request's Error

  /** `n` status requests. */
  function StatusRequests(n: nat): (r: seq<Request>)
    ensures |r| == n && forall k :: 0 <= k < n ==> r[k] == StatusRequest
  {
    seq(n, _ => StatusRequest)
  }

  /** The credential and URL guards, in source order; None when all pass. */
  function GuardFailure(accessToken: string, accountId: string, videoUrl: string): (r: Option<Note>)
    ensures r == None <==> accessToken != "" && accessToken != TOKEN_PLACEHOLDER && accountId != "" && accountId != ACCOUNT_PLACEHOLDER && videoUrl != ""
  {
    if accessToken == "" || accessToken == TOKEN_PLACEHOLDER then Some(TokenMissing)
    else if accountId == "" || accountId == ACCOUNT_PLACEHOLDER then Some(AccountMissing)
    else if videoUrl == "" then Some(UrlMissing)
    else None
  }

  /** From creating the container on: create, wait, poll, and publish only
      when the poll returned true. An Error from any request is caught and
      reported. */
  function ContainerStage(created: Result<string>, replies: seq<StatusReply>, published: Result<string>): Run
    requires MAX_POLLING_ATTEMPTS <= |replies|
  {
    match created
    case Err(e) => Run([CreateContainer], [CreatingContainer, ErrorOccurred(e)])
    case Ok(id) =>
      var polled := Poll(Verdicts(replies, Swallowing), MAX_POLLING_ATTEMPTS);
      var requests := [CreateContainer] + StatusRequests(polled.requests);
      var notes := [CreatingContainer, ContainerCreated(id), WaitingFirstCheck, PollingEvery];
      match polled.result
      case Returned(true) =>
        Run(requests + [PublishContainer], notes + [Publishing] + match published
          case Ok(mediaId) => [Completed(mediaId)]
          case Err(e) => [ErrorOccurred(e)])
      case Returned(false) => Run(requests, notes + [ProcessingFailed])
      case Threw(e) => Run(requests, notes + [ErrorOccurred(e)])
  }

  /** From validation on: a rejected video stops the run after the probe,
      with the issues as details when there are any. */
  function ValidatedStage(videoUrl: string, caption: string, answers: Answers): Run
    requires MAX_POLLING_ATTEMPTS <= |answers.replies|
  {
    var v := Validate(answers.probe, answers.fc);
    var listed := v.issues.Some? && |v.issues.value| > 0;
    if !v.isValid then
      Run([ProbeVideo], [Validating, PreValidationFailed(v.message)] + if listed then [Details(v.issues.value)] else [])
    else
      var rest := ContainerStage(answers.created, answers.replies, answers.published);
      var passed := if listed then PassedWithWarnings(v.issues.value) else PassedAll;
      Run([ProbeVideo] + rest.requests, [Validating, passed] + rest.notes)
  }

  /** processAndPostReel over credentials `accessToken` and `accountId`. */
  function ReelRun(accessToken: string, accountId: string, videoUrl: string, caption: string, answers: Answers): (r: Run)
    requires MAX_POLLING_ATTEMPTS <= |answers.replies|
    // the first message always echoes the request
    ensures r.notes != [] && r.notes[0] == Received(videoUrl, if caption == "" then "No caption" else caption)
    // a failed guard returns before any request is made
    ensures GuardFailure(accessToken, accountId, videoUrl).Some? ==> r.requests == [] && r.notes == [r.notes[0], GuardFailure(accessToken, accountId, videoUrl).value]
  {
    var received := Received(videoUrl, if caption == "" then "No caption" else caption);
    match GuardFailure(accessToken, accountId, videoUrl)
    case Some(note) => Run([], [received, note])
    case None =>
      var rest := ValidatedStage(videoUrl, caption, answers);
      Run(rest.requests, [received] + rest.notes)
  }

  /** The poll succeeded when its last answer read was FINISHED. */
  predicate PollSucceeded(replies: seq<StatusReply>)
    requires MAX_POLLING_ATTEMPTS <= |replies|
  {
    Poll(Verdicts(replies, Swallowing), MAX_POLLING_ATTEMPTS).result == Returned(true)
  }

  /** After creation, the container is published exactly when the poll
      returned true, and publishing is then the last request. */
  lemma ContainerStagePublishes(created: Result<string>, replies: seq<StatusReply>, published: Result<string>)
    requires MAX_POLLING_ATTEMPTS <= |replies|
    ensures var r := ContainerStage(created, replies, published);
      (PublishContainer in r.requests <==> created.Ok? && PollSucceeded(replies))
      && (PublishContainer in r.requests ==> r.requests[|r.requests| - 1] == PublishContainer)
  {
    if created.Ok? {
      var polled := Poll(Verdicts(replies, Swallowing), MAX_POLLING_ATTEMPTS);
      var requests := [CreateContainer] + StatusRequests(polled.requests);
      assert forall k :: 0 <= k < |requests| ==> requests[k] != PublishContainer;
    }
  }

  /** The container is published exactly when every guard passed, the video
      passed validation, the container was created and the poll returned
      true; publishing is then the last request. */
  lemma PublishGate(accessToken: string, accountId: string, videoUrl: string, caption: string, answers: Answers)
    requires MAX_POLLING_ATTEMPTS <= |answers.replies|
    ensures var r := ReelRun(accessToken, accountId, videoUrl, caption, answers);
      (PublishContainer in r.requests <==>
        GuardFailure(accessToken, accountId, videoUrl).None?
        && Validate(answers.probe, answers.fc).isValid
        && answers.created.Ok?
        && PollSucceeded(answers.replies))
      && (PublishContainer in r.requests ==> r.requests[|r.requests| - 1] == PublishContainer)
  {
    ContainerStagePublishes(answers.created, answers.replies, answers.published);
    var rest := ContainerStage(answers.created, answers.replies, answers.published);
    assert PublishContainer in [ProbeVideo] + rest.requests <==> PublishContainer in rest.requests;
  }

  /** A run makes at most 33 requests: the probe, the create, at most 30
      status requests and the publish. */
  lemma RequestsBounded(accessToken: string, accountId: string, videoUrl: string, caption: string, answers: Answers)
    requires MAX_POLLING_ATTEMPTS <= |answers.replies|
    ensures |ReelRun(accessToken, accountId, videoUrl, caption, answers).requests| <= MAX_POLLING_ATTEMPTS + 3
  {
  }

  /** A poster given credentials that are neither empty nor placeholders
      gets past the guards to the probe on a run with a video URL. */
  method CredentialsSetPassGuards(token: string, account: string, videoUrl: string, caption: string, answers: Answers)
    returns (r: Run)
    requires MAX_POLLING_ATTEMPTS <= |answers.replies|
    requires token != "" && token != TOKEN_PLACEHOLDER && account != "" && account != ACCOUNT_PLACEHOLDER && videoUrl != ""
    ensures r.requests != [] && r.requests[0] == ProbeVideo
  {
    var poster := new Poster();
    poster.SetInstagramCredentials(token, account);
    r := poster.ProcessAndPostReel(videoUrl, caption, answers);
  }
}
