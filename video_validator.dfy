/** The shared validator of src/utils/video-validator.js, used by the TikTok
    and YouTube flows: it pushes one issue per failed check onto a list and
    then decides. Landscape videos and missing audio are issues here; the
    only tolerated issue list is a single entry that the case-insensitive
    pattern `No audio stream found.` matches. */
module VideoValidator {
  import opened Common
  import opened Text
  import opened Media

  /** The outcomes of the floating-point comparisons on width/height,
      duration and frame rate, taken as inputs. */
  datatype FloatChecks = FloatChecks(
    aspectOutOfRange: bool,        // width/height < 0.01 or > 10
    offNineBySixteen: bool,        // |width/height - 9/16| > 0.05
    betweenSixTenthsAndOne: bool,  // 0.6 < width/height < 1.0
    timing: Timing)                // frame rate outside 25..60

  /** What real arithmetic guarantees of the judgements: a ratio strictly
      between 0.6 and 1 means a portrait frame of positive height (with a
      height of 0 the ratio is Infinity or NaN, and both comparisons fail). */
  predicate Coherent(v: VideoStream, fc: FloatChecks)
  {
    fc.betweenSixTenthsAndOne ==> 0 < v.height && v.width < v.height
  }

  const MIN_WIDTH := 720
  const MIN_HEIGHT := 1280
  const RECOMMENDED_WIDTH := 1080
  const RECOMMENDED_HEIGHT := 1920

  const PROBE_FAILED := "Could not probe video file or URL is inaccessible."
  const NO_AUDIO_OK := "No audio stream found, but its ok!"
  const FAILED := "Video validation failed."
  const ALL_GOOD := "Video seems to meet Instagram Reel requirements."

  predicate IsLineTerminator(c: char)
  {
    c == '\n' || c == '\r' || c == '\U{2028}' || c == '\U{2029}'
  }

  const NO_AUDIO_WORDS := "no audio stream found"

  /** The pattern matches at the start of `s`: the words in any ASCII case,
      then one character that is not a line terminator (the unescaped `.`;
      on a character above U+FFFF it matches the leading surrogate, with the
      same outcome). */
  predicate NoAudioAt(s: string)
  {
    |s| >= 22 && Lower(s[..21]) == NO_AUDIO_WORDS && !IsLineTerminator(s[21])
  }

  /** `new RegExp("No audio stream found.", "i").test(s)`: the pattern
      matches at some position of `s`. */
  predicate MatchesNoAudio(s: string)
    decreases |s|
  {
    NoAudioAt(s) || (|s| > 0 && MatchesNoAudio(s[1..]))
  }

  /** Whether the pattern matches the message of an issue. Only three
      messages embed text from the probe; all others consist of fixed words
      and numbers and cannot hold the phrase. */
  predicate IssueMatchesNoAudio(i: Issue)
  {
    match i
    case NoAudioStream => MatchesNoAudio("No audio stream found.")
    case ContainerFormat(n) => MatchesNoAudio("Invalid container format: " + n + ". Expected MP4 or MOV.")
    case VideoCodec(n) => MatchesNoAudio("Video codec (" + n + ") is not recommended (H264 or HEVC).")
    case AudioCodec(n) => MatchesNoAudio("Audio codec (" + n + ") is not recommended (AAC).")
    case _ => false
  }

  /** The pattern does match the missing-audio message itself. */
  lemma NoAudioMessageMatches()
    ensures IssueMatchesNoAudio(NoAudioStream)
  {
    var s := "No audio stream found.";
    assert s[..21] == "No audio stream found";
    var folded := Lower(s[..21]);
    forall i | 0 <= i < 21
      ensures folded[i] == NO_AUDIO_WORDS[i]
    {
    }
    assert NoAudioAt(s);
  }

  /** The final decision on the collected issues. */
  function Decide(issues: seq<Issue>): (v: Validation)
    // accepted: no issue, or one issue the no-audio pattern matches
    ensures v.isValid <==> issues == [] || (|issues| == 1 && IssueMatchesNoAudio(issues[0]))
    // an accepted video carries no issues list; a rejected one carries all of them
    ensures v.isValid ==> v.issues == None
    ensures !v.isValid ==> v.issues == Some(issues) && v.message == FAILED
  {
    if |issues| > 0 then
      if |issues| == 1 && IssueMatchesNoAudio(issues[0]) then Validation(true, NO_AUDIO_OK, None)
      else Validation(false, FAILED, Some(issues))
    else Validation(true, ALL_GOOD, None)
  }

  /** The checks on the frame of a present video stream: aspect ratio,
      orientation and resolution. The orientation checks are an if /
      else-if pair: the landscape check fires only when the 9:16 check did
      not. */
  function FrameChecks(v: VideoStream, fc: FloatChecks, issues: seq<Issue>): seq<Issue>
  {
    var offNineBySixteen := fc.offNineBySixteen && fc.betweenSixTenthsAndOne;
    var withAspect := PushIf(issues, fc.aspectOutOfRange, AspectRatioOutOfRange);
    var withNineBySixteen := PushIf(withAspect, offNineBySixteen, NotNineBySixteen);
    var withHorizontal := PushIf(withNineBySixteen, !offNineBySixteen && v.width > v.height, Horizontal);
    PushIf(withHorizontal, v.width < MIN_WIDTH || v.height < MIN_HEIGHT, LowResolution)
  }

  /** The video-stream checks, pushing in order. */
  function VideoChecks(video: Option<VideoStream>, fc: FloatChecks, issues: seq<Issue>): seq<Issue>
  {
    match video
    case None => PushIf(issues, true, NoVideoStream)
    case Some(v) => ContentChecks(v, fc.timing, FrameChecks(v, fc, issues))
  }

  /** The audio checks: here a missing stream is an issue. */
  function AudioChecks(audio: Option<AudioStream>, issues: seq<Issue>): seq<Issue>
  {
    match audio
    case None => PushIf(issues, true, NoAudioStream)
    case Some(a) => AudioStreamChecks(a, issues)
  }

  /** Every issue the checks push, in push order. */
  function Issues(m: Metadata, fc: FloatChecks): seq<Issue>
  {
    SizeChecks(m.format, AudioChecks(m.audio, VideoChecks(m.video, fc, ContainerChecks(m.format, []))))
  }

  /** How many times the frame checks push `y`. */
  function FrameCount(v: VideoStream, fc: FloatChecks, y: Issue): nat
  {
    var offNineBySixteen := fc.offNineBySixteen && fc.betweenSixTenthsAndOne;
    Hit(fc.aspectOutOfRange, AspectRatioOutOfRange, y)
    + Hit(offNineBySixteen, NotNineBySixteen, y)
    + Hit(!offNineBySixteen && v.width > v.height, Horizontal, y)
    + Hit(v.width < MIN_WIDTH || v.height < MIN_HEIGHT, LowResolution, y)
  }

  /** How many times the video-stream checks push `y`. */
  function VideoCount(video: Option<VideoStream>, fc: FloatChecks, y: Issue): nat
  {
    match video
    case None => Hit(true, NoVideoStream, y)
    case Some(v) => FrameCount(v, fc, y) + ContentCount(v, fc.timing, y)
  }

  /** How many times all the checks push `y`: once per failed check whose
      issue is `y`. */
  function IssueCount(m: Metadata, fc: FloatChecks, y: Issue): nat
  {
    Hit(BadContainer(m.format), ContainerFormat(m.format.formatName), y)
    + VideoCount(m.video, fc, y)
    + (match m.audio
       case None => Hit(true, NoAudioStream, y)
       case Some(a) => AudioStreamCount(a, y))
    + Hit(Oversized(m.format), FileSize, y)
  }

  /** The frame checks add exactly the pushes their failed checks call
      for. */
  lemma FrameOccurrences(v: VideoStream, fc: FloatChecks, issues: seq<Issue>, y: Issue)
    ensures Occurrences(FrameChecks(v, fc, issues), y) == Occurrences(issues, y) + FrameCount(v, fc, y)
  {
    var offNineBySixteen := fc.offNineBySixteen && fc.betweenSixTenthsAndOne;
    var withAspect := PushIf(issues, fc.aspectOutOfRange, AspectRatioOutOfRange);
    var withNineBySixteen := PushIf(withAspect, offNineBySixteen, NotNineBySixteen);
    var withHorizontal := PushIf(withNineBySixteen, !offNineBySixteen && v.width > v.height, Horizontal);
    PushIfOccurrences(issues, fc.aspectOutOfRange, AspectRatioOutOfRange, y);
    PushIfOccurrences(withAspect, offNineBySixteen, NotNineBySixteen, y);
    PushIfOccurrences(withNineBySixteen, !offNineBySixteen && v.width > v.height, Horizontal, y);
    PushIfOccurrences(withHorizontal, v.width < MIN_WIDTH || v.height < MIN_HEIGHT, LowResolution, y);
  }

  /** The video-stream checks add exactly the pushes their failed checks
      call for. */
  lemma VideoOccurrences(video: Option<VideoStream>, fc: FloatChecks, issues: seq<Issue>, y: Issue)
    ensures Occurrences(VideoChecks(video, fc, issues), y) == Occurrences(issues, y) + VideoCount(video, fc, y)
  {
    match video
    case None =>
      PushIfOccurrences(issues, true, NoVideoStream, y);
    case Some(v) =>
      FrameOccurrences(v, fc, issues, y);
      ContentOccurrences(v, fc.timing, FrameChecks(v, fc, issues), y);
  }

  /** The collected list holds each issue exactly as often as the checks
      that push it failed. */
  lemma IssuesOccurrences(m: Metadata, fc: FloatChecks, y: Issue)
    ensures Occurrences(Issues(m, fc), y) == IssueCount(m, fc, y)
  {
    var afterContainer := ContainerChecks(m.format, []);
    var afterVideo := VideoChecks(m.video, fc, afterContainer);
    var afterAudio := AudioChecks(m.audio, afterVideo);
    PushIfOccurrences([], BadContainer(m.format), ContainerFormat(m.format.formatName), y);
    VideoOccurrences(m.video, fc, afterContainer, y);
    match m.audio {
      case None => PushIfOccurrences(afterVideo, true, NoAudioStream, y);
      case Some(a) => AudioStreamOccurrences(a, afterVideo, y);
    }
    PushIfOccurrences(afterAudio, Oversized(m.format), FileSize, y);
  }

  /** The counts behind the container and size rules, without the list. */
  lemma FormatCounts(m: Metadata, fc: FloatChecks)
    ensures IssueCount(m, fc, ContainerFormat(m.format.formatName)) == if BadContainer(m.format) then 1 else 0
    ensures IssueCount(m, fc, FileSize) == if Oversized(m.format) then 1 else 0
  {
  }

  /** The container is rejected exactly when it is neither MP4 nor MOV; a
      known size over 100 MiB is an issue, an unknown size is not. */
  lemma FormatRules(m: Metadata, fc: FloatChecks)
    ensures ContainerFormat(m.format.formatName) in Issues(m, fc) <==> BadContainer(m.format)
    ensures FileSize in Issues(m, fc) <==> Oversized(m.format)
  {
    FormatCounts(m, fc);
    IssuesOccurrences(m, fc, ContainerFormat(m.format.formatName));
    OccursIn(Issues(m, fc), ContainerFormat(m.format.formatName));
    IssuesOccurrences(m, fc, FileSize);
    OccursIn(Issues(m, fc), FileSize);
  }

  /** The counts behind the frame rules, without the list. */
  lemma FrameCounts(m: Metadata, fc: FloatChecks)
    ensures IssueCount(m, fc, LowResolution) == if m.video.Some? && (m.video.value.width < MIN_WIDTH || m.video.value.height < MIN_HEIGHT) then 1 else 0
    ensures IssueCount(m, fc, Horizontal) == if m.video.Some? && !(fc.offNineBySixteen && fc.betweenSixTenthsAndOne) && m.video.value.width > m.video.value.height then 1 else 0
  {
  }

  /** Below 720x1280 is an issue; a landscape frame is one unless the 9:16
      check fired first. */
  lemma FrameRules(m: Metadata, fc: FloatChecks)
    ensures LowResolution in Issues(m, fc) <==> m.video.Some? && (m.video.value.width < MIN_WIDTH || m.video.value.height < MIN_HEIGHT)
    ensures Horizontal in Issues(m, fc) <==> m.video.Some? && !(fc.offNineBySixteen && fc.betweenSixTenthsAndOne) && m.video.value.width > m.video.value.height
  {
    FrameCounts(m, fc);
    IssuesOccurrences(m, fc, LowResolution);
    OccursIn(Issues(m, fc), LowResolution);
    IssuesOccurrences(m, fc, Horizontal);
    OccursIn(Issues(m, fc), Horizontal);
  }

  /** The counts behind the audio presence rules, without the list. */
  lemma AudioPresenceCounts(m: Metadata, fc: FloatChecks)
    ensures IssueCount(m, fc, NoAudioStream) == if m.audio.None? then 1 else 0
    ensures m.audio.Some? ==> IssueCount(m, fc, AudioCodec(m.audio.value.codecName)) == if m.audio.value.codecName != "aac" then 1 else 0
  {
  }

  /** The counts behind the audio limit rules, without the list. */
  lemma AudioLimitCounts(m: Metadata, fc: FloatChecks)
    ensures m.audio.Some? ==> IssueCount(m, fc, SampleRate) == if Exceeds(m.audio.value.sampleRate, MAX_SAMPLE_RATE) then 1 else 0
    ensures m.audio.Some? ==> IssueCount(m, fc, AudioChannels) == if Exceeds(m.audio.value.channels, MAX_AUDIO_CHANNELS) then 1 else 0
    ensures m.audio.Some? ==> IssueCount(m, fc, AudioBitrate) == if Exceeds(m.audio.value.bitRate, MAX_AUDIO_BITRATE) then 1 else 0
  {
  }

  /** A missing audio stream always adds the no-audio issue; a present one
      is rejected for any codec other than exactly "aac". */
  lemma AudioPresenceRules(m: Metadata, fc: FloatChecks)
    ensures NoAudioStream in Issues(m, fc) <==> m.audio.None?
    ensures m.audio.Some? ==> (AudioCodec(m.audio.value.codecName) in Issues(m, fc) <==> m.audio.value.codecName != "aac")
  {
    AudioPresenceCounts(m, fc);
    IssuesOccurrences(m, fc, NoAudioStream);
    OccursIn(Issues(m, fc), NoAudioStream);
    if m.audio.Some? {
      IssuesOccurrences(m, fc, AudioCodec(m.audio.value.codecName));
      OccursIn(Issues(m, fc), AudioCodec(m.audio.value.codecName));
    }
  }

  /** Each audio limit of a present stream adds exactly one issue when
      exceeded and none otherwise. */
  lemma AudioLimitRules(m: Metadata, fc: FloatChecks)
    requires m.audio.Some?
    ensures Occurrences(Issues(m, fc), SampleRate) == if Exceeds(m.audio.value.sampleRate, MAX_SAMPLE_RATE) then 1 else 0
    ensures Occurrences(Issues(m, fc), AudioChannels) == if Exceeds(m.audio.value.channels, MAX_AUDIO_CHANNELS) then 1 else 0
    ensures Occurrences(Issues(m, fc), AudioBitrate) == if Exceeds(m.audio.value.bitRate, MAX_AUDIO_BITRATE) then 1 else 0
  {
    AudioLimitCounts(m, fc);
    IssuesOccurrences(m, fc, SampleRate);
    IssuesOccurrences(m, fc, AudioChannels);
    IssuesOccurrences(m, fc, AudioBitrate);
  }

  /** Everything only logged as a warning, in logging order. */
  function Warnings(m: Metadata): seq<Warning>
  {
    var above := m.video.Some? && (m.video.value.width > RECOMMENDED_WIDTH || m.video.value.height > RECOMMENDED_HEIGHT);
    PushIf(PushIf([], above, ResolutionAboveRecommended), m.format.size.None?, UnknownFileSize)
  }

  /** Above 1080x1920 only warns, and an unknown size only warns. */
  lemma WarningRules(m: Metadata)
    ensures ResolutionAboveRecommended in Warnings(m) <==> m.video.Some? && (m.video.value.width > RECOMMENDED_WIDTH || m.video.value.height > RECOMMENDED_HEIGHT)
    ensures UnknownFileSize in Warnings(m) <==> m.format.size.None?
  {
  }

  /** The value validateVideoFile resolves with. */
  function Validate(probe: Probe, fc: FloatChecks): (v: Validation)
    ensures probe.ProbeFailed? ==> !v.isValid && v.issues == None
  {
    match probe
    case ProbeFailed(_) => Validation(false, PROBE_FAILED, None)
    case Probed(m) => Decide(Issues(m, fc))
  }

  /** A video probed without an audio stream but otherwise clean is
      accepted, without an issues list. */
  lemma MissingAudioAloneAccepted(m: Metadata, fc: FloatChecks)
    requires Issues(m, fc) == [NoAudioStream]
    ensures Validate(Probed(m), fc) == Validation(true, NO_AUDIO_OK, None)
  {
    NoAudioMessageMatches();
  }

  /** Any landscape video (wider than tall, positive height) is reported as
      horizontal and therefore rejected. */
  lemma LandscapeRejected(m: Metadata, fc: FloatChecks)
    requires m.video.Some? && m.video.value.height < m.video.value.width
    requires Coherent(m.video.value, fc)
    ensures Horizontal in Issues(m, fc)
    ensures !Validate(Probed(m), fc).isValid
  {
    FrameRules(m, fc);
    var r := Issues(m, fc);
    if |r| == 1 {
      assert r[0] == Horizontal;
    }
  }

  /** validateVideoFile: each check pushes its issue onto `issues` when it
      fails, the warnings are collected instead of logged, and the last step
      decides. */
  method ValidateVideoFile(probe: Probe, fc: FloatChecks) returns (v: Validation, warnings: seq<Warning>)
    ensures v == Validate(probe, fc)
    ensures warnings == if probe.Probed? then Warnings(probe.metadata) else []
  {
    if probe.ProbeFailed? {
      return Validation(false, PROBE_FAILED, None), [];
    }
    var m := probe.metadata;
    var issues: seq<Issue> := [];
    warnings := [];
    issues := PushIf(issues, BadContainer(m.format), ContainerFormat(m.format.formatName));
    if m.video.None? {
      issues := PushIf(issues, true, NoVideoStream);
    } else {
      var vs := m.video.value;
      var offNineBySixteen := fc.offNineBySixteen && fc.betweenSixTenthsAndOne;
      issues := PushIf(issues, fc.aspectOutOfRange, AspectRatioOutOfRange);
      issues := PushIf(issues, offNineBySixteen, NotNineBySixteen);
      issues := PushIf(issues, !offNineBySixteen && vs.width > vs.height, Horizontal);
      issues := PushIf(issues, vs.width < MIN_WIDTH || vs.height < MIN_HEIGHT, LowResolution);
      assert issues == FrameChecks(vs, fc, ContainerChecks(m.format, []));
      warnings := PushIf(warnings, vs.width > RECOMMENDED_WIDTH || vs.height > RECOMMENDED_HEIGHT, ResolutionAboveRecommended);
      issues := PushIf(issues, fc.timing.durationOver90, DurationTooLong);
      issues := PushIf(issues, !fc.timing.durationOver90 && fc.timing.durationUnder3, DurationTooShort);
      issues := PushIf(issues, fc.timing.frameRateOutside, FrameRate);
      issues := PushIf(issues, BadVideoCodec(vs.codecName), VideoCodec(vs.codecName));
      issues := PushIf(issues, Exceeds(vs.bitRate, MAX_VIDEO_BITRATE), VideoBitrate);
    }
    assert issues == VideoChecks(m.video, fc, ContainerChecks(m.format, []));
    if m.audio.None? {
      issues := PushIf(issues, true, NoAudioStream);
    } else {
      var a := m.audio.value;
      issues := PushIf(issues, a.codecName != "aac", AudioCodec(a.codecName));
      issues := PushIf(issues, Exceeds(a.sampleRate, MAX_SAMPLE_RATE), SampleRate);
      issues := PushIf(issues, Exceeds(a.channels, MAX_AUDIO_CHANNELS), AudioChannels);
      issues := PushIf(issues, Exceeds(a.bitRate, MAX_AUDIO_BITRATE), AudioBitrate);
    }
    assert issues == AudioChecks(m.audio, VideoChecks(m.video, fc, ContainerChecks(m.format, [])));
    issues := PushIf(issues, Oversized(m.format), FileSize);
    warnings := PushIf(warnings, m.format.size.None?, UnknownFileSize);
    v := Decide(issues);
  }
}
