/** `fetchWithRetry` (public/js/script.js): up to `retries` attempts, an
    exponential back-off between failed attempts, the first successful
    response returned and the last error rethrown. Each attempt is an
    abstract outcome: a timeout, a network error, a non-OK status and a body
    that is not JSON are all one `Failed`. */
module Retry {
  import opened Optional
  import opened Alerts

  const MaxRetries := 3
  const BackoffBaseMs := 1000

  datatype Attempt = Succeeded(records: seq<FeedRecord>) | Failed(message: string)

  /** How the returned promise settles. `NoAttempt` is a promise fulfilled with
      `undefined`, which is what the loop gives when `retries` is not positive. */
  datatype FetchResult = Fulfilled(records: seq<FeedRecord>) | Rejected(message: string) | NoAttempt

  function Pow2(n: nat): (p: nat)
    ensures p >= 1
  {
    if n == 0 then 1 else 2 * Pow2(n - 1)
  }

  /** `1000 * Math.pow(2, i)`: the wait after failed attempt `i` (from 0). */
  function BackoffDelay(i: nat): nat {
    BackoffBaseMs * Pow2(i)
  }

  /** The waits after the first `n` failed attempts, in order; each is twice
      the one before. */
  function Backoffs(n: nat): (ws: seq<nat>)
    ensures |ws| == n
    ensures forall i :: 0 <= i < n ==> ws[i] == BackoffDelay(i)
    ensures n > 0 ==> ws[0] == BackoffBaseMs
    ensures forall i :: 0 < i < n ==> ws[i] == 2 * ws[i - 1]
  {
    if n == 0 then [] else Backoffs(n - 1) + [BackoffDelay(n - 1)]
  }

  /** With the default of three retries a source that keeps failing waits
      one second, then two, and then gives up. */
  lemma DefaultBackoffs()
    ensures Backoffs(MaxRetries - 1) == [1000, 2000]
  {
  }

  /** Reference definition: the records of the first successful attempt among
      attempts `from` .. `retries - 1`, if there is one. */
  function FirstSuccess(attempt: nat -> Attempt, from: nat, retries: int): Option<seq<FeedRecord>>
    decreases if retries > from then retries - from else 0
  {
    if from >= retries then None
    else if attempt(from).Succeeded? then Some(attempt(from).records)
    else FirstSuccess(attempt, from + 1, retries)
  }

  /** The loop of `fetchWithRetry`. `attempts` counts the requests made and
      `waits` lists the back-off delays slept, in order. */
  method FetchWithRetry(attempt: nat -> Attempt, retries: int)
    returns (result: FetchResult, attempts: nat, waits: seq<nat>)
    ensures attempts == 0 <==> retries <= 0
    ensures result == NoAttempt <==> attempts == 0
    ensures attempts <= retries || attempts == 0
    ensures forall j :: 0 <= j < attempts - 1 ==> attempt(j).Failed?
    ensures result.Fulfilled? ==> attempt(attempts - 1) == Succeeded(result.records)
    ensures result.Rejected? ==> attempts == retries && attempt(attempts - 1) == Failed(result.message)
    ensures attempts > 0 ==> waits == Backoffs(attempts - 1)
    ensures attempts == 0 ==> waits == []
    ensures result.Fulfilled? ==> FirstSuccess(attempt, 0, retries) == Some(result.records)
    ensures result.Rejected? ==> FirstSuccess(attempt, 0, retries) == None
  {
    result, attempts, waits := NoAttempt, 0, [];
    var i := 0;
    while i < retries
      invariant 0 <= i && (i < retries || i == 0)
      invariant attempts == i
      invariant forall j :: 0 <= j < i ==> attempt(j).Failed?
      invariant waits == Backoffs(i)
      invariant FirstSuccess(attempt, i, retries) == FirstSuccess(attempt, 0, retries)
    {
      attempts := i + 1;
      match attempt(i)
      case Succeeded(records) =>
        result := Fulfilled(records);
        return;
      case Failed(message) =>
        if i == retries - 1 {
          result := Rejected(message);
          return;
        }
        waits := waits + [BackoffDelay(i)];
      i := i + 1;
    }
  }

  /** What a source contributes to the batch when the fetch ran with the
      default retry count: a failed source contributes nothing. */
  function SourceRecords(attempt: nat -> Attempt): seq<FeedRecord> {
    Contribution(FirstSuccess(attempt, 0, MaxRetries))
  }
}
