/** The bounded status poll that every platform's publish flow runs after it
    has created a processing job: ask for the job's status at most `cap`
    times and stop at the first answer that decides the job. The five poll
    loops of the repository differ only in their cap and in how they read an
    answer, so each of them classifies its answers into `Verdict`s and is
    proved equal to `Poll` below. */
module Polling {

  /** One answer to a status request as the poll loop receives it: the
      status string the platform reported, or the message of the Error that
      the request raised. */
  datatype StatusReply = Status(code: string) | RequestFailed(message: string)

  /** How one answer bears on the loop: keep polling, stop with true, stop
      with false, or leave the loop by throwing. */
  datatype Verdict = Pending | Succeeded | Failed | Raised(message: string)

  /** What a call of a poll function produces: its boolean return value, or
      an Error propagating out of it. */
  datatype PollResult = Returned(finished: bool) | Threw(message: string)

  /** The result together with the number of status requests made. */
  datatype Polled = Polled(result: PollResult, requests: nat)

  /** The same result, with `n` more requests counted in front. */
  function Later(p: Polled, n: nat): Polled
  {
    Polled(p.result, p.requests + n)
  }

  /** The answers to `replies` as a poll loop reads them, one by one. */
  function Verdicts<R>(replies: seq<R>, classify: R -> Verdict): (vs: seq<Verdict>)
    ensures |vs| == |replies|
    ensures forall i :: 0 <= i < |replies| ==> vs[i] == classify(replies[i])
  {
    seq(|replies|, i requires 0 <= i < |replies| => classify(replies[i]))
  }

  /** The poll loops' reading of answer `i`: the verdict it stands for. */
  method Classify<R>(replies: seq<R>, classify: R -> Verdict, i: nat) returns (v: Verdict)
    requires i < |replies|
    ensures v == Verdicts(replies, classify)[i]
  {
    v := classify(replies[i]);
  }

  /** The Graph API's container status codes: FINISHED succeeds, ERROR and
      EXPIRED fail, anything else (IN_PROGRESS, or no status) means still
      processing. */
  function GraphStatus(code: string): Verdict
  {
    if code == "FINISHED" then Succeeded
    else if code == "ERROR" || code == "EXPIRED" then Failed
    else Pending
  }

  /** A Graph poll loop that catches a failed status request and goes on:
      the failure costs one attempt, like a pending answer. */
  function Swallowing(r: StatusReply): Verdict
  {
    match r
    case Status(code) => GraphStatus(code)
    case RequestFailed(_) => Pending
  }

  /** A swallowing loop never leaves by throwing. */
  lemma SwallowingNeverRaises(replies: seq<StatusReply>, i: nat)
    requires i < |replies|
    ensures !Verdicts(replies, Swallowing)[i].Raised?
  {
  }

  /** A Graph poll loop without a catch: a failed status request leaves the
      loop with its Error. */
  function Propagating(r: StatusReply): Verdict
  {
    match r
    case Status(code) => GraphStatus(code)
    case RequestFailed(m) => Raised(m)
  }

  /** The result a deciding answer calls for. */
  function Decided(v: Verdict): PollResult
  {
    match v
    case Succeeded => Returned(true)
    case Failed => Returned(false)
    case Raised(m) => Threw(m)
    case Pending => Returned(false)
  }

  /** The poll loop over the verdicts of successive answers, at most `cap`
      requests. */
  function Poll(vs: seq<Verdict>, cap: nat): (p: Polled)
    requires cap <= |vs|
    // never more than the cap
    ensures p.requests <= cap
    decreases cap
  {
    if cap == 0 then Polled(Returned(false), 0)
    else match vs[0]
      case Pending => Later(Poll(vs[1..], cap - 1), 1)
      case Succeeded => Polled(Returned(true), 1)
      case Failed => Polled(Returned(false), 1)
      case Raised(m) => Polled(Threw(m), 1)
  }

  /** What every poll loop guarantees. */
  lemma {:induction false} PollSpec(vs: seq<Verdict>, cap: nat)
    requires cap <= |vs|
    // every answer before the last one read said "still processing"
    ensures forall j :: 0 <= j < Poll(vs, cap).requests - 1 ==> vs[j] == Pending
    // the loop stops before the cap only at a deciding answer
    ensures Poll(vs, cap).requests < cap ==> 0 < Poll(vs, cap).requests && vs[Poll(vs, cap).requests - 1] != Pending
    // true exactly when the last answer read reported success
    ensures Poll(vs, cap).result == Returned(true) <==> 0 < Poll(vs, cap).requests && vs[Poll(vs, cap).requests - 1] == Succeeded
    // an exception leaves the loop exactly when the last answer raised one
    ensures Poll(vs, cap).result.Threw? <==> 0 < Poll(vs, cap).requests && vs[Poll(vs, cap).requests - 1].Raised?
    ensures Poll(vs, cap).result.Threw? ==> Poll(vs, cap).result.message == vs[Poll(vs, cap).requests - 1].message
    decreases cap
  {
    if cap > 0 && vs[0] == Pending {
      PollSpec(vs[1..], cap - 1);
      var p := Poll(vs[1..], cap - 1);
      forall j | 1 <= j < p.requests + 1
        ensures vs[j] == vs[1..][j - 1]
      {
      }
    }
  }

  /** A job that stays in processing for every one of `cap` answers uses up
      all `cap` requests and the poll returns false (timed out). */
  lemma {:induction false} AlwaysPendingTimesOut(vs: seq<Verdict>, cap: nat)
    requires cap <= |vs|
    requires forall j :: 0 <= j < cap ==> vs[j] == Pending
    ensures Poll(vs, cap) == Polled(Returned(false), cap)
  {
    if cap > 0 {
      AlwaysPendingTimesOut(vs[1..], cap - 1);
    }
  }

  /** The poll stops at the first deciding answer within the cap: `k + 1`
      requests, with the result that answer calls for. */
  lemma {:induction false} StopsAtFirstDecisive(vs: seq<Verdict>, cap: nat, k: nat)
    requires k < cap <= |vs|
    requires forall j :: 0 <= j < k ==> vs[j] == Pending
    requires vs[k] != Pending
    ensures Poll(vs, cap) == Polled(Decided(vs[k]), k + 1)
  {
    if k > 0 {
      StopsAtFirstDecisive(vs[1..], cap - 1, k - 1);
    }
  }

  /** No request is made after the deciding one: answers beyond the requests
      the poll made cannot change its result. */
  lemma {:induction false} UnreadAnswersIrrelevant(vs: seq<Verdict>, ws: seq<Verdict>, cap: nat)
    requires cap <= |vs| && cap <= |ws|
    requires vs[..Poll(vs, cap).requests] == ws[..Poll(vs, cap).requests]
    ensures Poll(ws, cap) == Poll(vs, cap)
  {
    if cap > 0 {
      PollSpec(vs, cap);
      var read := Poll(vs, cap).requests;
      assert 0 < read;
      assert vs[0] == vs[..read][0] == ws[..read][0] == ws[0];
      if vs[0] == Pending {
        var n := Poll(vs[1..], cap - 1).requests;
        assert vs[..n + 1] == ws[..n + 1];
        assert vs[1..][..n] == vs[..n + 1][1..];
        assert ws[1..][..n] == ws[..n + 1][1..];
        UnreadAnswersIrrelevant(vs[1..], ws[1..], cap - 1);
      }
    }
  }

  /** One turn of a poll loop that has made `i` requests, all answered
      "still processing": a pending answer moves the loop on by one request,
      a deciding one ends it with the result that answer calls for. */
  lemma PollStep(vs: seq<Verdict>, cap: nat, i: nat)
    requires i < cap <= |vs|
    requires Poll(vs, cap) == Later(Poll(vs[i..], cap - i), i)
    ensures vs[i] == Pending ==> Poll(vs, cap) == Later(Poll(vs[i + 1..], cap - (i + 1)), i + 1)
    ensures vs[i] != Pending ==> Poll(vs, cap) == Polled(Decided(vs[i]), i + 1)
  {
    assert vs[i..][0] == vs[i];
    assert vs[i..][1..] == vs[i + 1..];
  }

  /** Where a poll loop starts: no request made yet. */
  lemma PollStart(vs: seq<Verdict>, cap: nat)
    requires cap <= |vs|
    ensures Poll(vs, cap) == Later(Poll(vs[0..], cap - 0), 0)
  {
    assert vs[0..] == vs;
  }
}
