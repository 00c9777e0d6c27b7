/**
 * The retry and status logic shared by `NRPAPIClientUpdateNRPLocations` and
 * `NRPAPIClientUpdateNRPServices`. The two functions differ only in the
 * request they marshal and the URL they post to; from marshalling onwards
 * they run the same steps, which `Send` models once.
 */
module NrpClient {
  import opened Wrappers

  /** `maxRetries`: the attempt budget of both client functions. */
  const MaxRetries: nat := 3

  /** What one `client.Do(req)` produced. */
  datatype AttemptOutcome = TransportError | Response(statusCode: int)

  /** How far the call got before the first attempt. */
  datatype Preparation = Prepared | MarshalError | RequestError

  /** The non-nil errors the client functions return. */
  datatype CallError =
    | MarshalFailed          // "failed to marshal request DTO"
    | RequestBuildFailed     // "failed to create HTTP request"
    | CancelledDuringRetry   // "context cancelled during retry"
    | SendFailed             // "failed to send HTTP request"
    | NonSuccessStatus(statusCode: int)  // "received non-success status code"

  function Pow2(n: nat): (r: nat)
    ensures r >= 1
  {
    if n == 0 then 1 else 2 * Pow2(n - 1)
  }

  /** Seconds waited after failed attempt `i` (0-based): `1 << i`. */
  function Backoff(i: nat): nat
  {
    Pow2(i)
  }

  /** Total seconds of a list of waits. */
  function TotalWait(waits: seq<nat>): nat
    decreases |waits|
  {
    if |waits| == 0 then 0 else TotalWait(waits[..|waits| - 1]) + waits[|waits| - 1]
  }

  /** Waiting 1, 2, 4, ... seconds after the first n failures takes 2^n - 1 seconds in all. */
  lemma {:induction false} TotalBackoff(waits: seq<nat>)
    requires forall j :: 0 <= j < |waits| ==> waits[j] == Backoff(j)
    ensures TotalWait(waits) == Backoff(|waits|) - 1
  {
    if |waits| > 0 {
      var front := waits[..|waits| - 1];
      assert forall j :: 0 <= j < |front| ==> front[j] == waits[j];
      TotalBackoff(front);
    }
  }

  /** The status code of attempt `i`, if that attempt got a response. */
  function ResponseAt(attempts: seq<AttemptOutcome>, i: int): Option<int>
  {
    if 0 <= i < |attempts| && attempts[i].Response? then Some(attempts[i].statusCode) else None
  }

  /** The status check after a response: 2xx is success, anything else an error. */
  function StatusError(statusCode: int): (r: Option<CallError>)
  {
    if statusCode < 200 || statusCode >= 300 then Some(NonSuccessStatus(statusCode)) else None
  }

  /**
   * One call of an NRP client function. `attempts[i]` is what the i-th
   * `client.Do` would produce, `cancelledDuring == Some(i)` says the context
   * is cancelled while waiting after attempt `i`. Returns the error (None for
   * Go's nil), the backoffs fully waited, in seconds, and the number of
   * attempts made.
   */
  method Send(prep: Preparation, attempts: seq<AttemptOutcome>, cancelledDuring: Option<nat>)
    returns (err: Option<CallError>, waits: seq<nat>, made: nat)
    requires |attempts| == MaxRetries
    // failures before the first attempt
    ensures prep == MarshalError ==> err == Some(MarshalFailed) && made == 0 && waits == []
    ensures prep == RequestError ==> err == Some(RequestBuildFailed) && made == 0 && waits == []
    // at most MaxRetries attempts; every attempt but the last failed in transport,
    // and no cancellation arrived before the last one
    ensures prep == Prepared ==> 1 <= made <= MaxRetries
    ensures prep == Prepared ==>
              forall j :: 0 <= j < made - 1 ==> attempts[j] == TransportError && cancelledDuring != Some(j)
    // a wait of 1 << j seconds after each failed attempt j that was retried, none after the last
    ensures prep == Prepared ==>
              |waits| == made - 1 && forall j :: 0 <= j < |waits| ==> waits[j] == Backoff(j)
    ensures prep == Prepared ==> TotalWait(waits) == Backoff(made - 1) - 1
    // a response ends the loop and only its status decides; it is never retried
    ensures prep == Prepared && attempts[made - 1].Response? ==>
              err == StatusError(attempts[made - 1].statusCode)
    // the last attempt failed: either cancellation interrupted its backoff, or the budget ran out
    ensures prep == Prepared && attempts[made - 1] == TransportError ==>
              if made < MaxRetries then cancelledDuring == Some(made - 1) && err == Some(CancelledDuringRetry)
              else err == Some(SendFailed)
    ensures err == None <==>
              prep == Prepared && attempts[made - 1].Response? && 200 <= attempts[made - 1].statusCode < 300
  {
    waits := [];
    made := 0;
    TotalBackoff(waits);
    if prep == MarshalError {
      err := Some(MarshalFailed);
      return;
    }
    if prep == RequestError {
      err := Some(RequestBuildFailed);
      return;
    }
    var status: Option<int> := None;
    var i := 0;
    while i < MaxRetries
      invariant 0 <= i <= MaxRetries
      invariant status.None? ==> made == i
      invariant status.Some? ==> made == i + 1 && i < MaxRetries && status == ResponseAt(attempts, i)
      invariant forall j :: 0 <= j < i ==> attempts[j] == TransportError
      invariant forall j :: 0 <= j < i && j < MaxRetries - 1 ==> cancelledDuring != Some(j)
      invariant |waits| == (if i == MaxRetries then i - 1 else i)
      invariant forall j :: 0 <= j < |waits| ==> waits[j] == Backoff(j)
      decreases MaxRetries - i, status.None?
    {
      made := i + 1;
      if attempts[i].Response? {
        status := Some(attempts[i].statusCode);
        break;
      }
      if i < MaxRetries - 1 {
        if cancelledDuring == Some(i) {
          err := Some(CancelledDuringRetry);
          TotalBackoff(waits);
          return;
        }
        waits := waits + [Backoff(i)];
      }
      i := i + 1;
    }
    TotalBackoff(waits);
    if status.None? {
      err := Some(SendFailed);
      return;
    }
    err := StatusError(status.value);
  }

  /** Two transport failures then a 2xx: success after waiting 1s and 2s. */
  method SucceedsOnThirdAttempt() returns (err: Option<CallError>, waits: seq<nat>, made: nat)
    ensures err == None && made == 3 && waits == [1, 2] && TotalWait(waits) == 3
  {
    err, waits, made := Send(Prepared, [TransportError, TransportError, Response(200)], None);
    assert Backoff(0) == 1 && Backoff(1) == 2 && Backoff(2) == 4;
  }

  /** Cancellation during the first backoff: one attempt, no completed wait, a cancellation error. */
  method CancelledInFirstBackoff() returns (err: Option<CallError>, waits: seq<nat>, made: nat)
    ensures err == Some(CancelledDuringRetry) && made == 1 && waits == []
  {
    err, waits, made := Send(Prepared, [TransportError, Response(200), Response(200)], Some(0));
  }

  /** A 5xx response is returned as an error without a second attempt. */
  method RejectedStatusIsNotRetried() returns (err: Option<CallError>, waits: seq<nat>, made: nat)
    ensures err == Some(NonSuccessStatus(503)) && made == 1 && waits == []
  {
    var attempts := [Response(503), Response(200), Response(200)];
    err, waits, made := Send(Prepared, attempts, None);
    assert attempts[0].Response?;
    assert made == 1;
    assert StatusError(503) == Some(NonSuccessStatus(503));
  }
}
