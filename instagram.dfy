/** src/platforms/instagram.js: the bot's Instagram poster. Every Graph API
    call goes through a safeFetch that retries a transient failure (rate
    limit, timeout, network) with exponential backoff, at most 3 fetches in
    all; the status poll has no catch, so a failed status request ends the
    post with its Error; all progress and errors are reported through the
    `sendMessage` callback. */
module InstagramPlatform {
  import opened Common
  import opened Text
  import opened Http
  import opened Polling

  const MAX_POLLING_ATTEMPTS: nat := 3
  const MAX_RETRIES: nat := 3
  const GRAPH_ERROR := "HTTP error!"

  /** What one `fetch` call did: the server answered, or the call itself
      rejected (a network failure) with this message. */
  datatype Attempt<T> = Answered(response: Response<T>) | Rejected(message: string)

  /** The outcome of one attempt inside safeFetch's try: the body, or the
      Error thrown for a response that is not ok, or the rejection. */
  function AttemptResult<T>(a: Attempt<T>): (r: Result<T>)
    ensures a.Rejected? ==> r == Err(a.message)
    ensures a.Answered? ==> r == SafeFetch(GRAPH_ERROR, a.response)
  {
    match a
    case Answered(response) => SafeFetch(GRAPH_ERROR, response)
    case Rejected(m) => Err(m)
  }

  /** isTransientError: the message matches
      /429|timeout|network|temporarily unavailable/i, a case-insensitive
      search for any of the four words anywhere in it. */
  predicate IsTransientError(message: string)
  {
    var m := Lower(message);
    Contains(m, "429") || Contains(m, "timeout") || Contains(m, "network") || Contains(m, "temporarily unavailable")
  }

  /** An attempt whose Error safeFetch retries (when attempts remain). */
  predicate Retried<T>(a: Attempt<T>)
  {
    AttemptResult(a).Err? && IsTransientError(AttemptResult(a).message)
  }

  /** The result of one safeFetch call and the backoff delays it waited
      between its fetches (one fetch more than delays). */
  datatype Fetched<T> = Fetched(result: Result<T>, delays: seq<nat>)

  /** safeFetch(url, options, attempt): `attempts` are the fetches from
      number `attempt` on. */
  function SafeFetchFrom<T>(attempts: seq<Attempt<T>>, attempt: nat): (f: Fetched<T>)
    requires 1 <= attempt <= MAX_RETRIES
    requires MAX_RETRIES - attempt < |attempts|
    // never more fetches than the retry budget has left
    ensures |f.delays| <= MAX_RETRIES - attempt
    decreases MAX_RETRIES - attempt
  {
    if attempt < MAX_RETRIES && Retried(attempts[0]) then
      var rest := SafeFetchFrom(attempts[1..], attempt + 1);
      Fetched(rest.result, [1000 * Pow2(attempt)] + rest.delays)
    else Fetched(AttemptResult(attempts[0]), [])
  }

  /** A safeFetch call as the other functions make it, from attempt 1. */
  function RetryingFetch<T>(attempts: seq<Attempt<T>>): (f: Fetched<T>)
    requires MAX_RETRIES <= |attempts|
    ensures |f.delays| < MAX_RETRIES
  {
    SafeFetchFrom(attempts, 1)
  }

  /** What safeFetch does, from attempt `attempt` on: with `n` retries it
      returns the outcome of fetch `n`; every earlier fetch failed with a
      transient Error; it waited 1000 * 2^a ms after failed attempt `a`; and
      it stops retrying early only at a success or a non-transient Error. */
  lemma {:induction false} SafeFetchFromSpec<T>(attempts: seq<Attempt<T>>, attempt: nat)
    requires 1 <= attempt <= MAX_RETRIES
    requires MAX_RETRIES - attempt < |attempts|
    ensures var f := SafeFetchFrom(attempts, attempt);
      var n := |f.delays|;
      f.result == AttemptResult(attempts[n])
      && (forall k :: 0 <= k < n ==> Retried(attempts[k]))
      && (forall k :: 0 <= k < n ==> f.delays[k] == 1000 * Pow2(attempt + k))
      && (attempt + n < MAX_RETRIES ==> !Retried(attempts[n]))
    decreases MAX_RETRIES - attempt
  {
    if attempt < MAX_RETRIES && Retried(attempts[0]) {
      SafeFetchFromSpec(attempts[1..], attempt + 1);
      var rest := SafeFetchFrom(attempts[1..], attempt + 1);
      var f := SafeFetchFrom(attempts, attempt);
      assert f.delays == [1000 * Pow2(attempt)] + rest.delays;
      forall k | 1 <= k < |f.delays|
        ensures Retried(attempts[k]) && f.delays[k] == 1000 * Pow2(attempt + k)
      {
        assert attempts[k] == attempts[1..][k - 1];
        assert f.delays[k] == rest.delays[k - 1];
      }
    }
  }

  /** The same for a call from attempt 1: the delays are 2000 ms and then
      4000 ms, and a fetch that succeeds or fails for good is the last. */
  lemma RetryingFetchSpec<T>(attempts: seq<Attempt<T>>)
    requires MAX_RETRIES <= |attempts|
    ensures var f := RetryingFetch(attempts);
      f.result == AttemptResult(attempts[|f.delays|])
      && (forall k :: 0 <= k < |f.delays| ==> Retried(attempts[k]))
      && f.delays == [2000, 4000][..|f.delays|]
      && (|f.delays| < MAX_RETRIES - 1 ==> !Retried(attempts[|f.delays|]))
  {
    SafeFetchFromSpec(attempts, 1);
    var f := RetryingFetch(attempts);
    assert Pow2(1) == 2 && Pow2(2) == 4;
    assert forall k :: 0 <= k < |f.delays| ==> f.delays[k] == [2000, 4000][k];
  }

  /** A non-transient Error of the first fetch is thrown at once. */
  lemma PermanentErrorNotRetried<T>(attempts: seq<Attempt<T>>)
    requires MAX_RETRIES <= |attempts|
    requires !Retried(attempts[0])
    ensures RetryingFetch(attempts) == Fetched(AttemptResult(attempts[0]), [])
  {
  }

  /** `s` contains `p` wherever it holds a copy of it. */
  lemma {:induction false} ContainsAt(s: string, p: string, i: nat)
    requires i + |p| <= |s| && s[i..i + |p|] == p
    ensures Contains(s, p)
    decreases i
  {
    if i > 0 {
      assert s[1..][i - 1..i - 1 + |p|] == s[i..i + |p|];
      ContainsAt(s[1..], p, i - 1);
    }
  }

  /** A 429 (Too Many Requests) response is a transient Error: its message
      names the status 429, so safeFetch retries it. */
  lemma TooManyRequestsIsTransient(details: string)
    ensures IsTransientError(ErrorMessage(GRAPH_ERROR, 429, details))
  {
    var msg := ErrorMessage(GRAPH_ERROR, 429, details);
    var start := |GRAPH_ERROR| + |STATUS_LABEL|;
    assert NatToString(429) == "429";
    assert msg[start..start + 3] == "429";
    var m := Lower(msg);
    assert m[start..start + 3] == "429";
    ContainsAt(m, "429", start);
  }

  /** A status request's answer as the poll loop sees it. */
  function StatusReplyOf(f: Fetched<string>): (r: StatusReply)
    ensures f.result.Ok? <==> r.Status?
  {
    match f.result
    case Ok(code) => Status(code)
    case Err(m) => RequestFailed(m)
  }

  /** pollMediaContainerStatus: at most 3 status requests; FINISHED returns
      true, ERROR or EXPIRED return false, and a failed request leaves the
      loop with its Error. */
  method PollMediaContainerStatus(replies: seq<StatusReply>) returns (p: Polled)
    requires MAX_POLLING_ATTEMPTS <= |replies|
    ensures p == Poll(Verdicts(replies, Propagating), MAX_POLLING_ATTEMPTS)
  {
    ghost var vs := Verdicts(replies, Propagating);
    PollStart(vs, MAX_POLLING_ATTEMPTS);
    var i := 0;
    while i < MAX_POLLING_ATTEMPTS
      invariant i <= MAX_POLLING_ATTEMPTS
      invariant Poll(vs, MAX_POLLING_ATTEMPTS) == Later(Poll(vs[i..], MAX_POLLING_ATTEMPTS - i), i)
    {
      PollStep(vs, MAX_POLLING_ATTEMPTS, i);
      var verdict := Classify(replies, Propagating, i);
      match verdict
      case Succeeded => return Polled(Returned(true), i + 1);
      case Failed => return Polled(Returned(false), i + 1);
      case Raised(message) => return Polled(Threw(message), i + 1);
      case Pending => i := i + 1;
    }
    return Polled(Returned(false), MAX_POLLING_ATTEMPTS);
  }

  /** A status request that fails before any deciding answer makes the
      whole poll throw that request's Error. */
  lemma FailedStatusRequestThrows(replies: seq<StatusReply>, k: nat)
    requires k < MAX_POLLING_ATTEMPTS <= |replies|
    requires forall j :: 0 <= j < k ==> Propagating(replies[j]) == Pending
    requires replies[k].RequestFailed?
    ensures Poll(Verdicts(replies, Propagating), MAX_POLLING_ATTEMPTS) == Polled(Threw(replies[k].message), k + 1)
  {
    StopsAtFirstDecisive(Verdicts(replies, Propagating), MAX_POLLING_ATTEMPTS, k);
  }

  // ---- postReelToInstagram ----

  const CREDENTIALS_MISSING := "Instagram API credentials are not set."
  const CREATING := "📦 Creating Instagram media container..."
  const WAITING := "⏳ Waiting for Instagram to process the video..."
  const PUBLISHING := "✨ Publishing Reel to Instagram..."
  const POSTED := "🎉" + " Reel posted successfully! Media ID: "
  const PROCESSING_FAILED := "⚠️" + " Instagram failed to process the video."
  const ERROR_POSTING := "💥" + " Error posting to Instagram: "

  /** The Graph API calls of one post, each with the fetches its safeFetch
      made. */
  datatype Request =
    | CreateContainer(videoUrl: string, caption: string, fetches: nat)
    | StatusRequest(fetches: nat)
    | PublishContainer(fetches: nat)

  /** The messages sent to the chat, in order, and the calls made. */
  datatype Run = Run(requests: seq<Request>, messages: seq<string>)

  /** The fetches the Graph API answers, call by call: the container
      creation, each status request of the poll, and the publication. */
  datatype Answers = Answers(
    created: seq<Attempt<string>>,
    statuses: seq<seq<Attempt<string>>>,
    published: seq<Attempt<string>>)

  predicate WellFormed(answers: Answers)
  {
    MAX_RETRIES <= |answers.created| && MAX_RETRIES <= |answers.published|
    && MAX_POLLING_ATTEMPTS <= |answers.statuses|
    && forall k :: 0 <= k < |answers.statuses| ==> MAX_RETRIES <= |answers.statuses[k]|
  }

  /** The status answers the poll loop reads, call by call. */
  function StatusReplies(answers: Answers): (rs: seq<StatusReply>)
    requires WellFormed(answers)
    ensures |rs| == |answers.statuses|
  {
    seq(|answers.statuses|, k requires 0 <= k < |answers.statuses| => StatusReplyOf(RetryingFetch(answers.statuses[k])))
  }

  function PollOf(answers: Answers): Polled
    requires WellFormed(answers)
  {
    Poll(Verdicts(StatusReplies(answers), Propagating), MAX_POLLING_ATTEMPTS)
  }

  function Fetches<T>(f: Fetched<T>): nat
  {
    |f.delays| + 1
  }

  /** The status requests the poll made. */
  function StatusRequests(answers: Answers, n: nat): (rs: seq<Request>)
    requires WellFormed(answers) && n <= |answers.statuses|
    ensures |rs| == n
  {
    seq(n, k requires 0 <= k < n => StatusRequest(Fetches(RetryingFetch(answers.statuses[k]))))
  }

  /** postReelToInstagram, from the poll on: publish only if the container
      finished processing; an Error from the poll or from the publication
      is reported as the error message. */
  function AfterCreation(answers: Answers): (r: Run)
    requires WellFormed(answers)
  {
    var polled := PollOf(answers);
    var polls := StatusRequests(answers, polled.requests);
    match polled.result
    case Threw(m) => Run(polls, [WAITING, ERROR_POSTING + m])
    case Returned(false) => Run(polls, [WAITING, PROCESSING_FAILED])
    case Returned(true) =>
      var published := RetryingFetch(answers.published);
      var publish := polls + [PublishContainer(Fetches(published))];
      match published.result
      case Ok(id) => Run(publish, [WAITING, PUBLISHING, POSTED + id])
      case Err(m) => Run(publish, [WAITING, PUBLISHING, ERROR_POSTING + m])
  }

  /** postReelToInstagram(videoUrl, caption, sendMessage) with the
      configured access token and account id. */
  function PostReelToInstagram(accessToken: string, accountId: string, videoUrl: string, caption: string, answers: Answers): (r: Run)
    requires WellFormed(answers)
    // missing credentials: one message and no Graph API call
    ensures accessToken == "" || accountId == "" <==> r == Run([], [CREDENTIALS_MISSING])
    // otherwise the first call creates the container with this URL and caption
    ensures accessToken != "" && accountId != "" ==>
      |r.requests| > 0 && r.requests[0].CreateContainer? && r.requests[0].videoUrl == videoUrl && r.requests[0].caption == caption
  {
    if accessToken == "" || accountId == "" then Run([], [CREDENTIALS_MISSING])
    else
      var created := RetryingFetch(answers.created);
      var create := CreateContainer(videoUrl, caption, Fetches(created));
      match created.result
      case Err(m) => Run([create], [CREATING, ERROR_POSTING + m])
      case Ok(_) =>
        var rest := AfterCreation(answers);
        Run([create] + rest.requests, [CREATING] + rest.messages)
  }

  /** postQueuedReelToInstagram: the same post with the configured caption. */
  function PostQueuedReelToInstagram(accessToken: string, accountId: string, configuredCaption: string, videoUrl: string, answers: Answers): (r: Run)
    requires WellFormed(answers)
    ensures accessToken != "" && accountId != "" ==>
      |r.requests| > 0 && r.requests[0].CreateContainer? && r.requests[0].caption == configuredCaption
  {
    PostReelToInstagram(accessToken, accountId, videoUrl, configuredCaption, answers)
  }

  /** The container is published exactly when the credentials are set, the
      container was created and the poll reported FINISHED; the chat then
      hears "posted" exactly when the publication succeeded. */
  lemma PublishGate(accessToken: string, accountId: string, videoUrl: string, caption: string, answers: Answers)
    requires WellFormed(answers)
    ensures var r := PostReelToInstagram(accessToken, accountId, videoUrl, caption, answers);
      (exists k :: 0 <= k < |r.requests| && r.requests[k].PublishContainer?)
      <==> (accessToken != "" && accountId != ""
            && RetryingFetch(answers.created).result.Ok?
            && PollOf(answers).result == Returned(true))
  {
    var r := PostReelToInstagram(accessToken, accountId, videoUrl, caption, answers);
    if accessToken != "" && accountId != "" && RetryingFetch(answers.created).result.Ok? {
      var polled := PollOf(answers);
      var polls := StatusRequests(answers, polled.requests);
      var rest := AfterCreation(answers);
      assert r.requests == [r.requests[0]] + rest.requests;
      if polled.result == Returned(true) {
        assert rest.requests[|polls|].PublishContainer?;
        assert r.requests[|polls| + 1].PublishContainer?;
      } else {
        assert rest.requests == polls;
        assert forall k :: 0 <= k < |r.requests| ==> !r.requests[k].PublishContainer?;
      }
    }
  }

  /** Every post ends with exactly one closing message: missing
      credentials, posted, failed to process, or an error. */
  lemma ClosingMessage(accessToken: string, accountId: string, videoUrl: string, caption: string, answers: Answers)
    requires WellFormed(answers)
    ensures var ms := PostReelToInstagram(accessToken, accountId, videoUrl, caption, answers).messages;
      |ms| > 0
      && (ms[|ms| - 1] == CREDENTIALS_MISSING
          || ms[|ms| - 1] == PROCESSING_FAILED
          || StartsWith(ms[|ms| - 1], POSTED)
          || StartsWith(ms[|ms| - 1], ERROR_POSTING))
  {
    if accessToken != "" && accountId != "" {
      var created := RetryingFetch(answers.created);
      if created.result.Ok? {
        var published := RetryingFetch(answers.published);
        assert StartsWith(POSTED + (if published.result.Ok? then published.result.value else ""), POSTED);
        assert StartsWith(ERROR_POSTING + (if published.result.Err? then published.result.message else ""), ERROR_POSTING);
        if PollOf(answers).result.Threw? {
          assert StartsWith(ERROR_POSTING + PollOf(answers).result.message, ERROR_POSTING);
        }
      } else {
        assert StartsWith(ERROR_POSTING + created.result.message, ERROR_POSTING);
      }
    }
  }

  /** The chat's last message announces the posted Reel exactly when the
      credentials were set and container creation, the poll and the
      publication all succeeded. */
  lemma PostedIffPublished(accessToken: string, accountId: string, videoUrl: string, caption: string, answers: Answers)
    requires WellFormed(answers)
    ensures var ms := PostReelToInstagram(accessToken, accountId, videoUrl, caption, answers).messages;
      |ms| > 0
      && (StartsWith(ms[|ms| - 1], POSTED)
          <==> (accessToken != "" && accountId != ""
                && RetryingFetch(answers.created).result.Ok?
                && PollOf(answers).result == Returned(true)
                && RetryingFetch(answers.published).result.Ok?))
  {
    var ms := PostReelToInstagram(accessToken, accountId, videoUrl, caption, answers).messages;
    var last := ms[|ms| - 1];
    // the closing messages differ in their first character
    assert StartsWith(last, POSTED) ==> last[0] == POSTED[0];
    assert CREDENTIALS_MISSING[0] == 'I';
  }

  /** A post makes at most 5 Graph API calls (create, 3 status requests,
      publish), each of at most 3 fetches. */
  lemma CallsBounded(accessToken: string, accountId: string, videoUrl: string, caption: string, answers: Answers)
    requires WellFormed(answers)
    ensures var r := PostReelToInstagram(accessToken, accountId, videoUrl, caption, answers);
      |r.requests| <= MAX_POLLING_ATTEMPTS + 2
      && forall k :: 0 <= k < |r.requests| ==> 1 <= r.requests[k].fetches <= MAX_RETRIES
  {
  }
}
