/** What the two video validators read from a probe of the video and what
    they report. The probe itself (ffprobe streaming the URL) is outside the
    model: its answer is an input. Both validators apply the same container,
    codec, bitrate, audio and file-size rules, defined once here. */
module Media {
  import opened Common
  import opened Text

  /** The video stream's fields that the integer checks read. `codecName` is
      "" when the probe gave none (both are falsy); `bitRate` is None when
      parseInt gave NaN, which no comparison accepts. */
  datatype VideoStream = VideoStream(width: int, height: int, codecName: string, bitRate: Option<int>)

  /** The outcomes of the floating-point checks on a video stream's
      duration and frame rate (parseFloat, eval), taken as inputs:
      duration > 90 s, duration < 3 s, frame rate outside the accepted
      range. A NaN duration makes both comparisons false. */
  datatype Timing = Timing(durationOver90: bool, durationUnder3: bool, frameRateOutside: bool)

  /** The audio stream's fields; None again stands for NaN or undefined. */
  datatype AudioStream = AudioStream(codecName: string, sampleRate: Option<int>, channels: Option<int>, bitRate: Option<int>)

  /** A file size the `!fileSize` test lets through: a positive byte count. */
  type ByteCount = n: nat | 0 < n witness 1

  /** The container: its format name ("" when absent) and its size in bytes,
      None when the size is absent or zero (falsy), so a zero size cannot
      be written down as a known one. */
  datatype Format = Format(formatName: string, size: Option<ByteCount>)

  /** The first video stream, the first audio stream and the container. */
  datatype Metadata = Metadata(video: Option<VideoStream>, audio: Option<AudioStream>, format: Format)

  /** The probe's answer: its error, or the metadata it read. */
  datatype Probe = ProbeFailed(message: string) | Probed(metadata: Metadata)

  /** One entry of a validator's `issues` list, by the check that pushed it.
      The strings the probe supplied are kept because the messages embed them. */
  datatype Issue =
    | ContainerFormat(formatName: string)
    | NoVideoStream
    | AspectRatioOutOfRange
    | Horizontal
    | NotNineBySixteen
    | LowResolution
    | DurationTooLong
    | DurationTooShort
    | FrameRate
    | VideoCodec(codecName: string)
    | VideoBitrate
    | NoAudioStream
    | AudioCodec(codecName: string)
    | SampleRate
    | AudioChannels
    | AudioBitrate
    | FileSize

  /** What a validator only logs with console.warn. */
  datatype Warning = ResolutionBelowRecommended | ResolutionAboveRecommended | NoAudio | UnknownFileSize

  /** The object a validator resolves with. */
  datatype Validation = Validation(isValid: bool, message: string, issues: Option<seq<Issue>>)

  const MAX_VIDEO_BITRATE: int := 5 * 1000 * 1000
  const MAX_AUDIO_BITRATE: int := 128 * 1000
  const MAX_SAMPLE_RATE: int := 48000
  const MAX_AUDIO_CHANNELS: int := 2
  const MAX_FILE_SIZE: nat := 100 * 1024 * 1024

  /** `x > limit` in JavaScript, where NaN and undefined compare false. */
  predicate Exceeds(x: Option<int>, limit: int)
  {
    x.Some? && x.value > limit
  }

  /** The container is neither MP4 nor MOV (or has no name). */
  predicate BadContainer(f: Format)
  {
    f.formatName == "" || (!Contains(f.formatName, "mp4") && !Contains(f.formatName, "mov"))
  }

  /** The video codec is neither H.264 nor HEVC (or has no name). */
  predicate BadVideoCodec(codecName: string)
  {
    codecName == "" || (!Contains(codecName, "h264") && !Contains(codecName, "hevc"))
  }

  /** A known file size above 100 MiB. */
  predicate Oversized(f: Format)
  {
    f.size.Some? && f.size.value > MAX_FILE_SIZE
  }

  /** How many entries of `list` equal `x`. */
  function Occurrences<T(==)>(list: seq<T>, x: T): nat
  {
    multiset(list)[x]
  }

  lemma OccursIn<T>(list: seq<T>, x: T)
    ensures x in list <==> Occurrences(list, x) > 0
  {
  }

  /** 1 when a check that failed (`c`) pushes `x` and `x` is `y`, else 0. */
  function Hit<T(==)>(c: bool, x: T, y: T): nat
  {
    if c && x == y then 1 else 0
  }

  /** `list.push(x)` when the check that guards it failed (`c`). */
  function PushIf<T>(list: seq<T>, c: bool, x: T): seq<T>
  {
    if c then list + [x] else list
  }

  /** A conditional push adds one occurrence of `x` when its check failed
      and leaves every other count unchanged. */
  lemma PushIfOccurrences<T>(list: seq<T>, c: bool, x: T, y: T)
    ensures Occurrences(PushIf(list, c, x), y) == Occurrences(list, y) + Hit(c, x, y)
  {
    if c {
      assert multiset(list + [x]) == multiset(list) + multiset{x};
    }
  }

  /** The container check, common to both validators: the name is missing or names neither MP4 nor
      MOV. */
  function ContainerChecks(f: Format, issues: seq<Issue>): seq<Issue>
  {
    PushIf(issues, BadContainer(f), ContainerFormat(f.formatName))
  }

  /** The file-size check, common to both validators: an unknown size
      passes. */
  function SizeChecks(f: Format, issues: seq<Issue>): seq<Issue>
  {
    PushIf(issues, Oversized(f), FileSize)
  }

  /** Four conditional pushes in a row add one occurrence per push that
      happened. */
  lemma FourPushesOccurrences<T>(list: seq<T>, c1: bool, x1: T, c2: bool, x2: T, c3: bool, x3: T, c4: bool, x4: T, y: T)
    ensures Occurrences(PushIf(PushIf(PushIf(PushIf(list, c1, x1), c2, x2), c3, x3), c4, x4), y)
      == Occurrences(list, y) + Hit(c1, x1, y) + Hit(c2, x2, y) + Hit(c3, x3, y) + Hit(c4, x4, y)
  {
    PushIfOccurrences(list, c1, x1, y);
    PushIfOccurrences(PushIf(list, c1, x1), c2, x2, y);
    PushIfOccurrences(PushIf(PushIf(list, c1, x1), c2, x2), c3, x3, y);
    PushIfOccurrences(PushIf(PushIf(PushIf(list, c1, x1), c2, x2), c3, x3), c4, x4, y);
  }

  /** The checks on the content of a present video stream, common to both
      validators: duration (an if / else-if pair), frame rate, codec and
      bitrate. */
  function ContentChecks(v: VideoStream, t: Timing, issues: seq<Issue>): seq<Issue>
  {
    var withLong := PushIf(issues, t.durationOver90, DurationTooLong);
    var withShort := PushIf(withLong, !t.durationOver90 && t.durationUnder3, DurationTooShort);
    var withFrameRate := PushIf(withShort, t.frameRateOutside, FrameRate);
    var withCodec := PushIf(withFrameRate, BadVideoCodec(v.codecName), VideoCodec(v.codecName));
    PushIf(withCodec, Exceeds(v.bitRate, MAX_VIDEO_BITRATE), VideoBitrate)
  }

  /** How many times the content checks push `y`. */
  function ContentCount(v: VideoStream, t: Timing, y: Issue): nat
  {
    Hit(t.durationOver90, DurationTooLong, y)
    + Hit(!t.durationOver90 && t.durationUnder3, DurationTooShort, y)
    + Hit(t.frameRateOutside, FrameRate, y)
    + Hit(BadVideoCodec(v.codecName), VideoCodec(v.codecName), y)
    + Hit(Exceeds(v.bitRate, MAX_VIDEO_BITRATE), VideoBitrate, y)
  }

  /** The content checks add exactly the pushes their failed checks call
      for. */
  lemma ContentOccurrences(v: VideoStream, t: Timing, issues: seq<Issue>, y: Issue)
    ensures Occurrences(ContentChecks(v, t, issues), y) == Occurrences(issues, y) + ContentCount(v, t, y)
  {
    var withLong := PushIf(issues, t.durationOver90, DurationTooLong);
    var withShort := PushIf(withLong, !t.durationOver90 && t.durationUnder3, DurationTooShort);
    var withFrameRate := PushIf(withShort, t.frameRateOutside, FrameRate);
    var withCodec := PushIf(withFrameRate, BadVideoCodec(v.codecName), VideoCodec(v.codecName));
    PushIfOccurrences(issues, t.durationOver90, DurationTooLong, y);
    PushIfOccurrences(withLong, !t.durationOver90 && t.durationUnder3, DurationTooShort, y);
    PushIfOccurrences(withShort, t.frameRateOutside, FrameRate, y);
    PushIfOccurrences(withFrameRate, BadVideoCodec(v.codecName), VideoCodec(v.codecName), y);
    PushIfOccurrences(withCodec, Exceeds(v.bitRate, MAX_VIDEO_BITRATE), VideoBitrate, y);
  }

  /** The checks of a present audio stream, pushing onto `issues` in
      order. */
  function AudioStreamChecks(a: AudioStream, issues: seq<Issue>): seq<Issue>
  {
    var withCodec := PushIf(issues, a.codecName != "aac", AudioCodec(a.codecName));
    var withRate := PushIf(withCodec, Exceeds(a.sampleRate, MAX_SAMPLE_RATE), SampleRate);
    var withChannels := PushIf(withRate, Exceeds(a.channels, MAX_AUDIO_CHANNELS), AudioChannels);
    PushIf(withChannels, Exceeds(a.bitRate, MAX_AUDIO_BITRATE), AudioBitrate)
  }

  /** How many times the audio-stream checks push `y`: once per failed
      check whose issue is `y`. */
  function AudioStreamCount(a: AudioStream, y: Issue): nat
  {
    Hit(a.codecName != "aac", AudioCodec(a.codecName), y)
    + Hit(Exceeds(a.sampleRate, MAX_SAMPLE_RATE), SampleRate, y)
    + Hit(Exceeds(a.channels, MAX_AUDIO_CHANNELS), AudioChannels, y)
    + Hit(Exceeds(a.bitRate, MAX_AUDIO_BITRATE), AudioBitrate, y)
  }

  /** The audio-stream checks add exactly the pushes their failed checks
      call for to what `issues` already held. */
  lemma AudioStreamOccurrences(a: AudioStream, issues: seq<Issue>, y: Issue)
    ensures Occurrences(AudioStreamChecks(a, issues), y) == Occurrences(issues, y) + AudioStreamCount(a, y)
  {
    FourPushesOccurrences(issues, a.codecName != "aac", AudioCodec(a.codecName),
      Exceeds(a.sampleRate, MAX_SAMPLE_RATE), SampleRate,
      Exceeds(a.channels, MAX_AUDIO_CHANNELS), AudioChannels,
      Exceeds(a.bitRate, MAX_AUDIO_BITRATE), AudioBitrate, y);
  }
}
