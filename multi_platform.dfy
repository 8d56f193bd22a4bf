/** src/platforms/multi-platform.js: posting one video to several
    platforms in turn and summing up, and posting to one platform named by
    the user. Each platform's post function is an input here: the messages
    it sent and the Error it threw, if any. */
module MultiPlatform {
  import opened Common
  import opened Text
  import InstagramPlatform
  import Polling

  datatype Platform = Instagram | TikTok | YouTube

  /** The platform's key in `results` and its name in `platforms`. */
  function Name(p: Platform): string
  {
    match p
    case Instagram => "instagram"
    case TikTok => "tiktok"
    case YouTube => "youtube"
  }

  function Heading(p: Platform): string
  {
    match p
    case Instagram => "📸 Posting to Instagram Reels..."
    case TikTok => "🎵 Posting to TikTok..."
    case YouTube => "📺 Posting to YouTube Shorts..."
  }

  function FailureLabel(p: Platform): string
  {
    match p
    case Instagram => "❌ Instagram failed: "
    case TikTok => "❌ TikTok failed: "
    case YouTube => "❌ YouTube failed: "
  }

  /** What awaiting one platform's post function did: the messages it sent
      and the message of the Error it threw (None when it returned). */
  datatype Outcome = Outcome(messages: seq<string>, thrown: Option<string>)

  datatype Outcomes = Outcomes(instagram: Outcome, tiktok: Outcome, youtube: Outcome)

  function OutcomeOf(os: Outcomes, p: Platform): Outcome
  {
    match p
    case Instagram => os.instagram
    case TikTok => os.tiktok
    case YouTube => os.youtube
  }

  /** One entry of `results`. */
  datatype PlatformResult = PlatformResult(success: bool, error: Option<string>)

  /** `{ success: false, error: null }`, every entry's start. */
  const NOT_ATTEMPTED := PlatformResult(false, None)

  /** `results`: always the three keys. */
  datatype Results = Results(instagram: PlatformResult, tiktok: PlatformResult, youtube: PlatformResult)

  function Get(rs: Results, p: Platform): PlatformResult
  {
    match p
    case Instagram => rs.instagram
    case TikTok => rs.tiktok
    case YouTube => rs.youtube
  }

  function Set(rs: Results, p: Platform, r: PlatformResult): (rs': Results)
    ensures Get(rs', p) == r
    ensures forall q :: q != p ==> Get(rs', q) == Get(rs, q)
  {
    match p
    case Instagram => rs.(instagram := r)
    case TikTok => rs.(tiktok := r)
    case YouTube => rs.(youtube := r)
  }

  /** A platform's entry after the run: untouched unless requested, then
      success when its post returned, else the Error's message. */
  function ResultOf(platforms: seq<string>, p: Platform, o: Outcome): PlatformResult
  {
    if Name(p) !in platforms then NOT_ATTEMPTED
    else if o.thrown.None? then PlatformResult(true, None)
    else PlatformResult(false, o.thrown)
  }

  function ResultsOf(platforms: seq<string>, os: Outcomes): (rs: Results)
    ensures forall p :: Get(rs, p) == ResultOf(platforms, p, OutcomeOf(os, p))
  {
    Results(
      ResultOf(platforms, Instagram, os.instagram),
      ResultOf(platforms, TikTok, os.tiktok),
      ResultOf(platforms, YouTube, os.youtube))
  }

  /** `Object.entries(results)`, in the key order instagram, tiktok,
      youtube, filtered to the successful ones. */
  function Successful(rs: Results): seq<string>
  {
    (if rs.instagram.success then [Name(Instagram)] else [])
    + (if rs.tiktok.success then [Name(TikTok)] else [])
    + (if rs.youtube.success then [Name(YouTube)] else [])
  }

  /** An entry listed as failed: not successful and with a truthy error. */
  predicate Listed(r: PlatformResult)
  {
    !r.success && r.error.Some? && r.error.value != ""
  }

  function FailedEntry(p: Platform, r: PlatformResult): seq<string>
  {
    if Listed(r) then [Name(p) + " (" + r.error.value + ")"] else []
  }

  function FailedList(rs: Results): seq<string>
  {
    FailedEntry(Instagram, rs.instagram) + FailedEntry(TikTok, rs.tiktok) + FailedEntry(YouTube, rs.youtube)
  }

  const STARTING := "🚀 Starting multi-platform posting to: "
  const SUMMARY_HEADER := "📊 **Posting Summary:**\n\n"
  const SUCCESSFUL_LABEL := "✅ **Successful:** "
  const FAILED_LABEL := "❌ **Failed:** "
  const RATE_LABEL := "🎯 **Success Rate:** "
  const PLATFORMS_WORD := " platforms"
  const LIST_SEPARATOR := ", "
  const PARAGRAPH := "\n\n"

  /** The success-rate line. */
  function RateLine(successful: nat, requested: nat): string
  {
    RATE_LABEL + NatToString(successful) + "/" + NatToString(requested) + PLATFORMS_WORD
  }

  /** The summary message. */
  function Summary(platforms: seq<string>, rs: Results): string
  {
    var successful := Successful(rs);
    var failed := FailedList(rs);
    SUMMARY_HEADER
    + (if |successful| > 0 then SUCCESSFUL_LABEL + Join(successful, LIST_SEPARATOR) + PARAGRAPH else "")
    + (if |failed| > 0 then FAILED_LABEL + Join(failed, LIST_SEPARATOR) + PARAGRAPH else "")
    + RateLine(|successful|, |platforms|)
  }

  /** The messages one platform's turn sends. */
  function Section(platforms: seq<string>, p: Platform, o: Outcome): seq<string>
  {
    if Name(p) !in platforms then []
    else [Heading(p)] + o.messages + (if o.thrown.Some? then [FailureLabel(p) + o.thrown.value] else [])
  }

  /** Every message of a run: the opening line, each requested platform's
      turn in the fixed order, and the summary. */
  function Messages(platforms: seq<string>, os: Outcomes): seq<string>
  {
    [STARTING + Join(platforms, LIST_SEPARATOR)]
    + Section(platforms, Instagram, os.instagram)
    + Section(platforms, TikTok, os.tiktok)
    + Section(platforms, YouTube, os.youtube)
    + [Summary(platforms, ResultsOf(platforms, os))]
  }

  /** One platform's turn of postToAllPlatforms: the try/catch around its
      post function, updating its entry of `results`. */
  method PostTo(platforms: seq<string>, p: Platform, o: Outcome, results: Results, messages: seq<string>)
    returns (results': Results, messages': seq<string>)
    requires Get(results, p) == NOT_ATTEMPTED
    ensures results' == Set(results, p, ResultOf(platforms, p, o))
    ensures messages' == messages + Section(platforms, p, o)
  {
    results', messages' := results, messages;
    if Name(p) in platforms {
      messages' := messages' + [Heading(p)] + o.messages;
      if o.thrown.None? {
        results' := Set(results', p, Get(results', p).(success := true));
      } else {
        var message := o.thrown.value;
        results' := Set(results', p, Get(results', p).(error := Some(message)));
        messages' := messages' + [FailureLabel(p) + message];
      }
    }
  }

  /** The summary, built by appending its lines. */
  method BuildSummary(platforms: seq<string>, results: Results) returns (summary: string)
    ensures summary == Summary(platforms, results)
  {
    var successful := Successful(results);
    var failed := FailedList(results);
    summary := SUMMARY_HEADER;
    if |successful| > 0 {
      summary := summary + SUCCESSFUL_LABEL + Join(successful, LIST_SEPARATOR) + PARAGRAPH;
    }
    if |failed| > 0 {
      summary := summary + FAILED_LABEL + Join(failed, LIST_SEPARATOR) + PARAGRAPH;
    }
    summary := summary + RateLine(|successful|, |platforms|);
  }

  /** postToAllPlatforms(videoUrl, caption, sendMessage, platforms). */
  method PostToAllPlatforms(platforms: seq<string>, os: Outcomes) returns (results: Results, messages: seq<string>)
    ensures results == ResultsOf(platforms, os)
    ensures messages == Messages(platforms, os)
  {
    results := Results(NOT_ATTEMPTED, NOT_ATTEMPTED, NOT_ATTEMPTED);
    messages := [STARTING + Join(platforms, LIST_SEPARATOR)];
    results, messages := PostTo(platforms, Instagram, os.instagram, results, messages);
    results, messages := PostTo(platforms, TikTok, os.tiktok, results, messages);
    results, messages := PostTo(platforms, YouTube, os.youtube, results, messages);
    assert results == ResultsOf(platforms, os);
    var summary := BuildSummary(platforms, results);
    messages := messages + [summary];
  }

  /** The successful list names exactly the requested platforms whose post
      returned; unrequested platforms are never listed. */
  lemma SuccessfulMembership(platforms: seq<string>, os: Outcomes, p: Platform)
    ensures Name(p) in Successful(ResultsOf(platforms, os))
      <==> Name(p) in platforms && OutcomeOf(os, p).thrown.None?
  {
    var rs := ResultsOf(platforms, os);
    assert Get(rs, p) == ResultOf(platforms, p, OutcomeOf(os, p));
    assert "instagram"[0] == 'i' && "tiktok"[0] == 't' && "youtube"[0] == 'y';
  }

  /** `platform (message)` names the platform it starts with. */
  lemma {:induction false} EntryNamesPlatform(p: Platform, q: Platform, m: string, n: string)
    requires Name(p) + " (" + m + ")" == Name(q) + " (" + n + ")"
    ensures p == q && m == n
  {
    var e := Name(p) + " (" + m + ")";
    assert e[0] == Name(p)[0] && e[0] == Name(q)[0];
    assert "instagram"[0] == 'i' && "tiktok"[0] == 't' && "youtube"[0] == 'y';
    assert |m| == |n|;
    var start := |Name(p)| + 2;
    assert e[start..start + |m|] == m;
    assert (Name(q) + " (" + n + ")")[start..start + |n|] == n;
  }

  /** The failed list holds `platform (message)` exactly for the requested
      platforms whose post threw an Error with a non-empty message. */
  lemma FailedMembership(platforms: seq<string>, os: Outcomes, p: Platform, m: string)
    ensures Name(p) + " (" + m + ")" in FailedList(ResultsOf(platforms, os))
      <==> Name(p) in platforms && OutcomeOf(os, p).thrown == Some(m) && m != ""
  {
    var rs := ResultsOf(platforms, os);
    var entry := Name(p) + " (" + m + ")";
    if entry in FailedList(rs) {
      var q :| q in [Instagram, TikTok, YouTube] && entry in FailedEntry(q, Get(rs, q));
      EntryNamesPlatform(p, q, m, Get(rs, q).error.value);
    }
  }

  /** The summary ends with the rate line: successful over requested
      platforms, where at most 3 can succeed. */
  lemma SuccessRate(platforms: seq<string>, os: Outcomes)
    ensures var rs := ResultsOf(platforms, os);
      var summary := Summary(platforms, rs);
      var rate := RateLine(|Successful(rs)|, |platforms|);
      |Successful(rs)| <= 3
      && |rate| <= |summary| && summary[|summary| - |rate|..] == rate
  {
  }

  // ---- the finding: a platform that did not post is reported successful ----

  /** The model's post functions never throw (each catches its own Errors
      and reports them in the chat), so their outcome is always this. */
  function Returning(messages: seq<string>): (o: Outcome)
    ensures o.thrown == None
  {
    Outcome(messages, None)
  }

  /** As written: Instagram with its credentials unset sends only
      "credentials are not set", makes no request, and yet is counted
      successful and listed under Successful. */
  lemma UnpostedReelReportedSuccessful(videoUrl: string, caption: string, answers: InstagramPlatform.Answers, other: Outcome)
    requires InstagramPlatform.WellFormed(answers)
    ensures var run := InstagramPlatform.PostReelToInstagram("", "", videoUrl, caption, answers);
      var rs := ResultsOf([Name(Instagram)], Outcomes(Returning(run.messages), other, other));
      run.requests == [] && run.messages == [InstagramPlatform.CREDENTIALS_MISSING]
      && rs.instagram.success && Successful(rs) == [Name(Instagram)]
  {
  }

  /** The message that announces a finished post on each platform. */
  function PostedPrefix(p: Platform): string
  {
    match p
    case Instagram => InstagramPlatform.POSTED
    case TikTok => "🎉" + " Video posted to TikTok successfully! Publish ID: "
    case YouTube => "🎉" + " Video posted to YouTube Shorts successfully!\n🔗 "
  }

  /** The post got through: it returned and its last message announced the
      finished post. */
  predicate Delivered(p: Platform, o: Outcome)
  {
    o.thrown.None? && |o.messages| > 0 && StartsWith(o.messages[|o.messages| - 1], PostedPrefix(p))
  }

  /** Corrected: an entry is successful only when the post got through;
      otherwise it carries the Error, or the post's own last message. */
  function CorrectedResultOf(platforms: seq<string>, p: Platform, o: Outcome): (r: PlatformResult)
    ensures r.success <==> Name(p) in platforms && Delivered(p, o)
    ensures Name(p) in platforms && o.thrown.None? && |o.messages| > 0 && !Delivered(p, o)
      ==> r.error == Some(o.messages[|o.messages| - 1])
  {
    if Name(p) !in platforms then NOT_ATTEMPTED
    else if o.thrown.Some? then PlatformResult(false, o.thrown)
    else if Delivered(p, o) then PlatformResult(true, None)
    else PlatformResult(false, Some(if |o.messages| > 0 then o.messages[|o.messages| - 1] else ""))
  }

  function CorrectedResultsOf(platforms: seq<string>, os: Outcomes): (rs: Results)
    ensures forall p :: Get(rs, p) == CorrectedResultOf(platforms, p, OutcomeOf(os, p))
  {
    Results(
      CorrectedResultOf(platforms, Instagram, os.instagram),
      CorrectedResultOf(platforms, TikTok, os.tiktok),
      CorrectedResultOf(platforms, YouTube, os.youtube))
  }

  /** Corrected, for Instagram: the entry is successful exactly when the
      Reel was published, and the unset-credentials run is listed as
      failed with its message. */
  lemma CorrectedInstagramIffPublished(accessToken: string, accountId: string, videoUrl: string, caption: string, answers: InstagramPlatform.Answers, other: Outcome)
    requires InstagramPlatform.WellFormed(answers)
    ensures var run := InstagramPlatform.PostReelToInstagram(accessToken, accountId, videoUrl, caption, answers);
      var rs := CorrectedResultsOf([Name(Instagram)], Outcomes(Returning(run.messages), other, other));
      (rs.instagram.success <==>
        (accessToken != "" && accountId != ""
              && InstagramPlatform.RetryingFetch(answers.created).result.Ok?
              && InstagramPlatform.PollOf(answers).result == Polling.Returned(true)
              && InstagramPlatform.RetryingFetch(answers.published).result.Ok?))
      && (accessToken == "" ==> rs.instagram == PlatformResult(false, Some(InstagramPlatform.CREDENTIALS_MISSING)))
  {
    InstagramPlatform.PostedIffPublished(accessToken, accountId, videoUrl, caption, answers);
  }

  // ---- postToSpecificPlatform ----

  const UNKNOWN_PLATFORM := "Unknown platform: "

  /** String.prototype.toLowerCase as far as it decides a match with an
      ASCII word: ASCII capitals fold, and so does the Kelvin sign
      (U+212A), the one character outside ASCII whose lower case is an
      ASCII letter ('k'). */
  function FoldChar(c: char): char
  {
    if 'A' <= c <= 'Z' then (c as int + 32) as char
    else if c == '\U{212A}' then 'k'
    else c
  }

  function Fold(s: string): (r: string)
    ensures |r| == |s|
    ensures forall i :: 0 <= i < |s| ==> r[i] == FoldChar(s[i])
  {
    seq(|s|, i requires 0 <= i < |s| => FoldChar(s[i]))
  }

  /** The switch of postToSpecificPlatform. */
  function Dispatch(platform: string): (r: Result<Platform>)
    ensures r.Ok? ==> Fold(platform) == Name(r.value)
    ensures r.Err? ==> r.message == UNKNOWN_PLATFORM + platform && forall p :: Fold(platform) != Name(p)
  {
    var name := Fold(platform);
    if name == "instagram" then Ok(Instagram)
    else if name == "tiktok" then Ok(TikTok)
    else if name == "youtube" then Ok(YouTube)
    else Err(UNKNOWN_PLATFORM + platform)
  }

  /** postToSpecificPlatform: the chosen platform's outcome, or the
      unknown-platform Error before any post. */
  function PostToSpecificPlatform(platform: string, os: Outcomes): (o: Outcome)
    ensures Dispatch(platform).Ok? ==> o == OutcomeOf(os, Dispatch(platform).value)
    ensures Dispatch(platform).Err? ==> o == Outcome([], Some(UNKNOWN_PLATFORM + platform))
  {
    match Dispatch(platform)
    case Ok(p) => OutcomeOf(os, p)
    case Err(m) => Outcome([], Some(m))
  }

  /** Any capitalisation of a platform's name selects it, the Kelvin sign
      standing in for a "k" included. */
  lemma DispatchIgnoresCase(p: Platform, platform: string)
    requires |platform| == |Name(p)|
    requires forall i :: 0 <= i < |platform| ==> FoldChar(platform[i]) == Name(p)[i]
    ensures Dispatch(platform) == Ok(p)
  {
    assert Fold(platform) == Name(p);
  }
}
