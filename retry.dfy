/**
 * `retry_with_backoff`: call an operation up to `max_attempts` times, pausing a
 * fixed 0.1 s after every failed attempt but the last, and re-raise the last
 * failure once every attempt has failed.
 *
 * The operation is modelled as a state-passing function: it maps the state of
 * the world before the call to the call's result and the state after it, so
 * that an operation which itself retries (as reconnection does) can be retried.
 */
module RetryPolicy {
  import opened Wrappers

  /** `max_attempts` when the caller gives none. */
  const DefaultMaxAttempts: int := 3

  /** The pause after a failed attempt, in milliseconds; it never grows. */
  const BackoffMs: int := 100

  /** How a call of `retry_with_backoff` ends. */
  datatype Attempt<T, E> =
    | Returned(value: T)   // some attempt succeeded: its value is returned
    | Raised(error: E)     // every attempt failed: the last exception propagates
    | NoAttempt            // `range(max_attempts)` was empty: the function returns None

  /** The state after `n` calls of `op` from state `s`. */
  function After<S, T, E>(op: S -> (Result<T, E>, S), s: S, n: nat): S
    decreases n
  {
    if n == 0 then s else After(op, op(s).1, n - 1)
  }

  /** The result of call number `i` (0-based) of `op`, starting from state `s`. */
  function Outcome<S, T, E>(op: S -> (Result<T, E>, S), s: S, i: nat): Result<T, E> {
    op(After(op, s, i)).0
  }

  /**
   * The attempts loop from attempt number `attempt` on: the outcome, the
   * final state and the number of calls made.
   */
  function RetryFrom<S, T, E>(op: S -> (Result<T, E>, S), maxAttempts: int, attempt: nat, s: S)
    : (Attempt<T, E>, S, nat)
    decreases maxAttempts - attempt
  {
    if attempt >= maxAttempts then (NoAttempt, s, 0)
    else
      var (res, s') := op(s);
      match res
      case Ok(v) => (Returned(v), s', 1)
      case Err(e) =>
        if attempt == maxAttempts - 1 then (Raised(e), s', 1)
        else
          var (r, s'', n) := RetryFrom(op, maxAttempts, attempt + 1, s');
          (r, s'', n + 1)
  }

  /** `retry_with_backoff(op, maxAttempts)` run in state `s`. */
  function Retry<S, T, E>(op: S -> (Result<T, E>, S), maxAttempts: int, s: S): (Attempt<T, E>, S, nat) {
    RetryFrom(op, maxAttempts, 0, s)
  }

  lemma {:induction false} RetryFromCharacterized<S, T, E>(
    op: S -> (Result<T, E>, S), maxAttempts: int, attempt: nat, s: S)
    requires attempt < maxAttempts
    ensures var (r, s', calls) := RetryFrom(op, maxAttempts, attempt, s);
      && 1 <= calls <= maxAttempts - attempt
      && s' == After(op, s, calls)
      && (forall i :: 0 <= i < calls - 1 ==> Outcome(op, s, i).Err?)
      && (r.Returned? ==> Outcome(op, s, calls - 1) == Ok(r.value))
      && (r.Raised? ==> calls == maxAttempts - attempt && Outcome(op, s, calls - 1) == Err(r.error))
      && !r.NoAttempt?
    decreases maxAttempts - attempt
  {
    var (res, s1) := op(s);
    if res.Err? && attempt < maxAttempts - 1 {
      RetryFromCharacterized(op, maxAttempts, attempt + 1, s1);
      var (r, s', n) := RetryFrom(op, maxAttempts, attempt + 1, s1);
      assert After(op, s, n + 1) == After(op, s1, n);
      forall i | 0 <= i < n
        ensures Outcome(op, s, i + 1) == Outcome(op, s1, i)
      {
        assert After(op, s, i + 1) == After(op, s1, i);
      }
      assert Outcome(op, s, 0) == res;
      forall i | 0 <= i < n
        ensures Outcome(op, s, i).Err?
      {
        if i > 0 {
          assert Outcome(op, s, i) == Outcome(op, s1, i - 1);
        }
      }
    }
  }

  /**
   * What `retry_with_backoff` promises: at most `maxAttempts` calls; the value
   * of the first call that succeeds, every earlier call having failed; the
   * exception of the last call when all `maxAttempts` calls failed; and no call
   * at all, with None returned, when `maxAttempts` is not positive.
   */
  lemma {:induction false} RetryCharacterized<S, T, E>(op: S -> (Result<T, E>, S), maxAttempts: int, s: S)
    ensures var (r, s', calls) := Retry(op, maxAttempts, s);
      && (r.NoAttempt? <==> maxAttempts <= 0)
      && (r.NoAttempt? ==> calls == 0 && s' == s)
      && (!r.NoAttempt? ==> 1 <= calls <= maxAttempts)
      && s' == After(op, s, calls)
      && (forall i :: 0 <= i < calls - 1 ==> Outcome(op, s, i).Err?)
      && (r.Returned? ==> Outcome(op, s, calls - 1) == Ok(r.value))
      && (r.Raised? ==> calls == maxAttempts && Outcome(op, s, calls - 1) == Err(r.error))
  {
    if 0 < maxAttempts {
      RetryFromCharacterized(op, maxAttempts, 0, s);
    }
  }

  /**
   * The attempts loop of `retry_with_backoff`. `pauses` lists the sleeps it
   * makes, in milliseconds.
   */
  method RetryWithBackoff<S, T, E>(op: S -> (Result<T, E>, S), maxAttempts: int, s0: S)
    returns (r: Attempt<T, E>, s: S, calls: nat, pauses: seq<int>)
    ensures (r, s, calls) == Retry(op, maxAttempts, s0)
    ensures |pauses| == if calls == 0 then 0 else calls - 1
    ensures forall k :: 0 <= k < |pauses| ==> pauses[k] == BackoffMs
  {
    s, calls, pauses := s0, 0, [];
    var attempt: nat := 0;
    while attempt < maxAttempts
      invariant attempt > 0 ==> attempt < maxAttempts
      invariant calls == attempt && |pauses| == attempt
      invariant forall k :: 0 <= k < |pauses| ==> pauses[k] == BackoffMs
      invariant var (r', s', n) := RetryFrom(op, maxAttempts, attempt, s);
        Retry(op, maxAttempts, s0) == (r', s', n + attempt)
      decreases maxAttempts - attempt
    {
      var (res, s') := op(s);
      s, calls := s', calls + 1;
      match res {
        case Ok(v) =>
          r := Returned(v);
          return;
        case Err(e) =>
          if attempt == maxAttempts - 1 {
            r := Raised(e);
            return;
          }
          pauses := pauses + [BackoffMs];
      }
      attempt := attempt + 1;
    }
    r := NoAttempt;
  }
}
