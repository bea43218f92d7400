/** The retry loop of `_download_request`: a download attempt that fails with
    TargetClosedError is retried, up to the configured number of retries. */
module Retry {
  import opened Common
  import Config

  /** What one call of `_download_request_with_retry` does: return a
      response, or raise. */
  datatype Attempt<+R> = Returned(response: R) | Raised(error: Error)

  /** The outcome of `_download_request`: the response, or the exception that
      escapes it. */
  datatype Download<+R> = Response(response: R) | Failed(error: Error)

  /** Attempt `k` (0-based) raised the one error class the loop retries. */
  predicate TargetClosedAt<R>(attempts: nat -> Attempt<R>, k: nat)
  {
    attempts(k).Raised? && attempts(k).error.TargetClosedError?
  }

  /** The outcome an attempt gives when the loop stops at it. */
  function Final<R>(a: Attempt<R>): Download<R>
  {
    match a
    case Returned(resp) => Response(resp)
    case Raised(e) => Failed(e)
  }

  /** `_download_request`.  `attempts(k)` is the outcome of the (k+1)-th call
      of `_download_request_with_retry`; `count` is how many calls were made. */
  method DownloadRequest<R>(cfg: Config.Config, attempts: nat -> Attempt<R>)
    returns (outcome: Download<R>, count: nat)
    ensures 1 <= count <= cfg.targetClosedMaxRetries + 1
    ensures Config.Normalised(cfg) ==> count <= 4
    ensures forall k :: 0 <= k < count - 1 ==> TargetClosedAt(attempts, k)
    ensures outcome == Final(attempts(count - 1))
    ensures !TargetClosedAt(attempts, count - 1) || count == cfg.targetClosedMaxRetries + 1
  {
    var maxRetries := cfg.targetClosedMaxRetries;
    var counter: nat := 0;
    while true
      invariant counter <= maxRetries
      invariant forall k :: 0 <= k < counter ==> TargetClosedAt(attempts, k)
      decreases maxRetries - counter
    {
      var attempt := attempts(counter);
      if !TargetClosedAt(attempts, counter) {
        return Final(attempt), counter + 1;
      }
      counter := counter + 1;
      if counter > maxRetries {
        return Failed(attempt.error), counter;
      }
    }
  }
}
