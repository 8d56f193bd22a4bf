/** index.mjs, the cron-job script: it reads its settings from the
    environment, checks the credentials, then creates a media container,
    polls it at most 3 times (catching failed requests) and publishes it
    only when the poll succeeded. Any Error inside the try ends the process
    with exit code 1; the credential guards throw before the try. */
module CronPoster {
  import opened Common
  import opened Http
  import opened Polling

  const DEFAULT_VIDEO_URL := "https://cdn.pixabay.com/video/2025/05/01/275983_large.mp4"
  const DEFAULT_CAPTION := "My awesome new Reel! #reels #instagram #nodejs #automation"
  const TOKEN_PLACEHOLDER := "YOUR_LONG_LIVED_FACEBOOK_USER_ACCESS_TOKEN"
  const ACCOUNT_PLACEHOLDER := "YOUR_INSTAGRAM_BUSINESS_ACCOUNT_ID"
  const GRAPH_ERROR := "HTTP error!"
  const MAX_POLLING_ATTEMPTS: nat := 3

  /** The environment variables the script reads; "" when unset. */
  datatype Env = Env(accessToken: string, accountId: string, videoUrl: string, caption: string)

  /** `process.env.X || default`. */
  function OrDefault(value: string, default: string): (r: string)
    ensures value != "" ==> r == value
    ensures value == "" ==> r == default
  {
    if value == "" then default else value
  }

  function VideoUrl(env: Env): string
  {
    OrDefault(env.videoUrl, DEFAULT_VIDEO_URL)
  }

  function Caption(env: Env): string
  {
    OrDefault(env.caption, DEFAULT_CAPTION)
  }

  /** Because both settings fall back to non-empty defaults, the script's
      missing-URL guard and its empty-caption warning can never fire. */
  lemma DefaultsNeverEmpty(env: Env)
    ensures VideoUrl(env) != "" && Caption(env) != ""
  {
  }

  /** pollMediaContainerStatus: at most 3 status requests; FINISHED returns
      true, ERROR or EXPIRED return false, and a failed request is caught
      and the loop goes on. */
  method PollMediaContainerStatus(replies: seq<StatusReply>) returns (p: Polled)
    requires MAX_POLLING_ATTEMPTS <= |replies|
    ensures p == Poll(Verdicts(replies, Swallowing), MAX_POLLING_ATTEMPTS)
  {
    ghost var vs := Verdicts(replies, Swallowing);
    PollStart(vs, MAX_POLLING_ATTEMPTS);
    var i := 0;
    while i < MAX_POLLING_ATTEMPTS
      invariant i <= MAX_POLLING_ATTEMPTS
      invariant Poll(vs, MAX_POLLING_ATTEMPTS) == Later(Poll(vs[i..], MAX_POLLING_ATTEMPTS - i), i)
    {
      PollStep(vs, MAX_POLLING_ATTEMPTS, i);
      // the FINISHED / ERROR-or-EXPIRED branches, with a caught failure
      // falling through like a pending status
      var verdict := Classify(replies, Swallowing, i);
      SwallowingNeverRaises(replies, i);
      if verdict == Succeeded {
        return Polled(Returned(true), i + 1);
      } else if verdict == Failed {
        return Polled(Returned(false), i + 1);
      }
      i := i + 1;
    }
    return Polled(Returned(false), MAX_POLLING_ATTEMPTS);
  }

  /** The status answer of one poll request: the response to the status
      request, read through safeFetch. */
  function StatusReplyOf(r: Response<string>): StatusReply
  {
    match SafeFetch(GRAPH_ERROR, r)
    case Ok(code) => Status(code)
    case Err(m) => RequestFailed(m)
  }

  /** A poll of 3 whose answers are all still processing or failed requests
      makes all 3 requests and returns false. */
  lemma UndecidedTimesOut(replies: seq<StatusReply>)
    requires MAX_POLLING_ATTEMPTS <= |replies|
    requires forall j :: 0 <= j < MAX_POLLING_ATTEMPTS ==> Swallowing(replies[j]) == Pending
    ensures Poll(Verdicts(replies, Swallowing), MAX_POLLING_ATTEMPTS) == Polled(Returned(false), MAX_POLLING_ATTEMPTS)
  {
    AlwaysPendingTimesOut(Verdicts(replies, Swallowing), MAX_POLLING_ATTEMPTS);
  }

  /** The requests of one run, in order. */
  datatype Request = CreateContainer | StatusRequest | PublishContainer

  /** How the script ends: normally, by process.exit(1) from the catch, or
      with an Error thrown by a guard outside the try (an unhandled
      rejection). */
  datatype Ending = Posted | ExitFailure(message: string) | Rejected(message: string)

  datatype Run = Run(requests: seq<Request>, ending: Ending)

  /** The answers of the Graph API to one run's requests, in order. */
  datatype Answers = Answers(created: Response<string>, replies: seq<Response<string>>, published: Response<string>)

  const PROCESSING_FAILED := "Media container processing failed."

  /** The guards of postReel, as the Error each one throws. */
  function GuardError(env: Env): (r: Option<string>)
    ensures r == None <==> env.accessToken != "" && env.accessToken != TOKEN_PLACEHOLDER && env.accountId != "" && env.accountId != ACCOUNT_PLACEHOLDER
  {
    if env.accessToken == "" || env.accessToken == TOKEN_PLACEHOLDER then Some("Missing FACEBOOK_ACCESS_TOKEN.")
    else if env.accountId == "" || env.accountId == ACCOUNT_PLACEHOLDER then Some("Missing IG_BUSINESS_ACCOUNT_ID.")
    else if VideoUrl(env) == "" then Some("Missing VIDEO_URL.")
    else None
  }

  /** The poll's answers as the loop reads them. */
  function PollOf(answers: Answers): Polled
    requires MAX_POLLING_ATTEMPTS <= |answers.replies|
  {
    var replies := seq(|answers.replies|, k requires 0 <= k < |answers.replies| => StatusReplyOf(answers.replies[k]));
    Poll(Verdicts(replies, Swallowing), MAX_POLLING_ATTEMPTS)
  }

  /** postReel. */
  function PostReel(env: Env, answers: Answers): (r: Run)
    requires MAX_POLLING_ATTEMPTS <= |answers.replies|
    // a failed guard throws before any request is made
    ensures GuardError(env).Some? ==> r == Run([], Rejected(GuardError(env).value))
    // the script exits with failure on every path that does not publish
    ensures r.ending == Posted ==> PublishContainer in r.requests
  {
    match GuardError(env)
    case Some(e) => Run([], Rejected(e))
    case None =>
      match SafeFetch(GRAPH_ERROR, answers.created)
      case Err(e) => Run([CreateContainer], ExitFailure(e))
      case Ok(id) =>
        var polled := PollOf(answers);
        var requests := [CreateContainer] + seq(polled.requests, _ => StatusRequest);
        if polled.result == Returned(true) then
          match SafeFetch(GRAPH_ERROR, answers.published)
          case Err(e) => Run(requests + [PublishContainer], ExitFailure(e))
          case Ok(_) => Run(requests + [PublishContainer], Posted)
        else Run(requests, ExitFailure(PROCESSING_FAILED))
  }

  /** The container is published exactly when the guards passed, the
      container was created and the poll returned true; a poll that did not
      succeed makes the script exit with "Media container processing
      failed.". */
  lemma PublishGate(env: Env, answers: Answers)
    requires MAX_POLLING_ATTEMPTS <= |answers.replies|
    ensures var r := PostReel(env, answers);
      PublishContainer in r.requests <==> GuardError(env).None? && answers.created.ok && PollOf(answers).result == Returned(true)
    ensures GuardError(env).None? && answers.created.ok && PollOf(answers).result != Returned(true)
      ==> PostReel(env, answers).ending == ExitFailure(PROCESSING_FAILED)
  {
    if GuardError(env).None? && answers.created.ok {
      var polled := PollOf(answers);
      var requests := [CreateContainer] + seq(polled.requests, _ => StatusRequest);
      assert forall k :: 0 <= k < |requests| ==> requests[k] != PublishContainer;
    }
  }

  /** A run makes at most 5 requests: create, at most 3 status requests,
      publish. */
  lemma RequestsBounded(env: Env, answers: Answers)
    requires MAX_POLLING_ATTEMPTS <= |answers.replies|
    ensures |PostReel(env, answers).requests| <= MAX_POLLING_ATTEMPTS + 2
  {
  }
}
