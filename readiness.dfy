/**
 * `waitForUrl`: poll a URL until it answers with something other than a 404 page,
 * throwing once the elapsed time passes the limit. The clock and the HTTP fetches
 * are inputs: `readings[i]` is the stopwatch reading, in the limit's unit, taken
 * before attempt `i`, and `attempts[i]` is what that attempt's sleep and fetch did.
 */
module Readiness {
  import opened Wrappers
  import opened Errors
  import opened Text

  /** What one sleep-then-`HttpHelper.get` attempt did. */
  datatype Attempt =
    /** The fetch threw an exception other than `InterruptedException`. */
    | FetchFailed
    /** The sleep or the fetch was interrupted. */
    | FetchInterrupted
    /** The fetch returned a body, possibly null (`None`). */
    | Fetched(body: Option<string>)

  const NotFoundMarker: string := "404"

  /** Attempts after which the loop goes round again. */
  predicate Retryable(a: Attempt)
  {
    a.FetchFailed? || (a.Fetched? && (a.body.None? || Contains(a.body.value, NotFoundMarker)))
  }

  /**
   * The inputs describe a whole run: one reading per attempt, and the clock is past
   * the limit by the last reading (each attempt sleeps a second, so a real stopwatch
   * always gets there).
   */
  predicate WellFormedRun(readings: seq<int>, attempts: seq<Attempt>, timeout: int)
  {
    |readings| == |attempts| > 0 && readings[|readings| - 1] > timeout
  }

  /** The check after the loop: an accepted body must not be empty. */
  function AcceptBody(body: string, url: string): (r: Result<string, Error>)
    ensures r.Success? <==> body != ""
    ensures r.Success? ==> r.value == body
    ensures r.Failure? ==> r.error == EmptyHealthResponse(url)
  {
    if body == "" then Failure(EmptyHealthResponse(url)) else Success(body)
  }

  /** The outcome of the poll from attempt `i` on. */
  function Poll(readings: seq<int>, attempts: seq<Attempt>, timeout: int, url: string, appName: string, i: nat)
    : Result<string, Error>
    requires WellFormedRun(readings, attempts, timeout) && i < |readings|
    decreases |readings| - i
  {
    if readings[i] > timeout then Failure(ReadinessTimeout(appName))
    else if attempts[i].FetchInterrupted? then Failure(Interrupted)
    else if Retryable(attempts[i]) then Poll(readings, attempts, timeout, url, appName, i + 1)
    else AcceptBody(attempts[i].body.value, url)
  }

  /** Attempt `k` ends the loop. */
  predicate Decisive(readings: seq<int>, attempts: seq<Attempt>, timeout: int, k: nat)
    requires k < |readings| == |attempts|
  {
    readings[k] > timeout || !Retryable(attempts[k])
  }

  /** Attempts `i` to `k - 1` all go round again. */
  predicate RetriesBetween(readings: seq<int>, attempts: seq<Attempt>, timeout: int, i: nat, k: nat)
    requires k <= |readings| == |attempts|
  {
    forall j :: i <= j < k ==> !Decisive(readings, attempts, timeout, j)
  }

  /** The outcome decided at a decisive attempt. */
  function Decide(readings: seq<int>, attempts: seq<Attempt>, timeout: int, url: string, appName: string, k: nat)
    : Result<string, Error>
    requires k < |readings| == |attempts| && Decisive(readings, attempts, timeout, k)
  {
    if readings[k] > timeout then Failure(ReadinessTimeout(appName))
    else if attempts[k].FetchInterrupted? then Failure(Interrupted)
    else AcceptBody(attempts[k].body.value, url)
  }

  /** The first decisive attempt from `i` on; the last attempt always is one. */
  function FirstDecisive(readings: seq<int>, attempts: seq<Attempt>, timeout: int, i: nat): (k: nat)
    requires WellFormedRun(readings, attempts, timeout) && i < |readings|
    ensures i <= k < |readings|
    ensures Decisive(readings, attempts, timeout, k)
    ensures RetriesBetween(readings, attempts, timeout, i, k)
    decreases |readings| - i
  {
    if Decisive(readings, attempts, timeout, i) then i
    else FirstDecisive(readings, attempts, timeout, i + 1)
  }

  /** The poll's outcome is decided by the first attempt that does not retry. */
  lemma {:induction false} PollIsFirstDecisive(readings: seq<int>, attempts: seq<Attempt>, timeout: int,
                                               url: string, appName: string, i: nat, k: nat)
    requires WellFormedRun(readings, attempts, timeout)
    requires i <= k < |readings|
    requires RetriesBetween(readings, attempts, timeout, i, k) && Decisive(readings, attempts, timeout, k)
    ensures Poll(readings, attempts, timeout, url, appName, i) == Decide(readings, attempts, timeout, url, appName, k)
    decreases k - i
  {
    if i < k {
      assert !Decisive(readings, attempts, timeout, i);
      PollIsFirstDecisive(readings, attempts, timeout, url, appName, i + 1, k);
    }
  }

  /**
   * `waitForUrl` returns only after an attempt, made before the limit, fetched a
   * non-empty body without "404", every earlier attempt having failed, fetched null
   * or fetched a 404 page within the limit.
   */
  lemma PollReadyOnlyOnAcceptableBody(readings: seq<int>, attempts: seq<Attempt>, timeout: int,
                                      url: string, appName: string, body: string)
    requires WellFormedRun(readings, attempts, timeout)
    requires Poll(readings, attempts, timeout, url, appName, 0) == Success(body)
    ensures exists k :: 0 <= k < |attempts| && RetriesBetween(readings, attempts, timeout, 0, k)
              && readings[k] <= timeout && attempts[k] == Fetched(Some(body))
              && body != "" && !Contains(body, NotFoundMarker)
  {
    var k := FirstDecisive(readings, attempts, timeout, 0);
    PollIsFirstDecisive(readings, attempts, timeout, url, appName, 0, k);
  }

  /** The timeout is thrown exactly when the limit is passed before any attempt decides the poll. */
  lemma PollTimeoutIff(readings: seq<int>, attempts: seq<Attempt>, timeout: int, url: string, appName: string)
    requires WellFormedRun(readings, attempts, timeout)
    ensures Poll(readings, attempts, timeout, url, appName, 0) == Failure(ReadinessTimeout(appName)) <==>
            exists k :: 0 <= k < |readings| && RetriesBetween(readings, attempts, timeout, 0, k) && readings[k] > timeout
  {
    var k := FirstDecisive(readings, attempts, timeout, 0);
    PollIsFirstDecisive(readings, attempts, timeout, url, appName, 0, k);
    if exists k' :: 0 <= k' < |readings| && RetriesBetween(readings, attempts, timeout, 0, k') && readings[k'] > timeout {
      var k' :| 0 <= k' < |readings| && RetriesBetween(readings, attempts, timeout, 0, k') && readings[k'] > timeout;
      PollIsFirstDecisive(readings, attempts, timeout, url, appName, 0, k');
    }
  }

  /** An accepted body that is empty fails the health check instead of returning. */
  lemma PollEmptyBodyFails(readings: seq<int>, attempts: seq<Attempt>, timeout: int,
                           url: string, appName: string, k: nat)
    requires WellFormedRun(readings, attempts, timeout) && k < |readings|
    requires RetriesBetween(readings, attempts, timeout, 0, k)
    requires readings[k] <= timeout && attempts[k] == Fetched(Some(""))
    ensures Poll(readings, attempts, timeout, url, appName, 0) == Failure(EmptyHealthResponse(url))
  {
    assert !Contains("", NotFoundMarker);
    PollIsFirstDecisive(readings, attempts, timeout, url, appName, 0, k);
  }

  /** `waitForUrl`: the `do { ... } while (rval == null)` loop and the final non-empty check. */
  method WaitForUrl(url: string, timeout: int, appName: string, readings: seq<int>, attempts: seq<Attempt>)
    returns (r: Result<string, Error>)
    requires WellFormedRun(readings, attempts, timeout)
    ensures r == Poll(readings, attempts, timeout, url, appName, 0)
  {
    var rval: Option<string> := None;
    var i := 0;
    while true
      invariant 0 <= i < |readings|
      invariant rval.None?
      invariant Poll(readings, attempts, timeout, url, appName, 0) == Poll(readings, attempts, timeout, url, appName, i)
      decreases |readings| - i
    {
      if readings[i] > timeout {
        return Failure(ReadinessTimeout(appName));
      }
      match attempts[i] {
        case FetchInterrupted =>
          return Failure(Interrupted);
        case FetchFailed =>
          i := i + 1;
          continue;
        case Fetched(body) =>
          rval := body;
      }
      if rval.Some? && Contains(rval.value, NotFoundMarker) {
        rval := None;
      }
      if rval.Some? {
        break;
      }
      i := i + 1;
    }
    r := AcceptBody(rval.value, url);
  }
}
