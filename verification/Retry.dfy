/** The bounded retry policy with exponential backoff. Delays are in seconds. */
module Retry {
  import opened Results

  /** What a fetch may raise. `retryAfter` is the provider's hint, where the error carries one. */
  datatype Failure =
    | NonRetriable(reason: string)
    | CircuitOpen
    | RateLimited(retryAfter: Option<real>)
    | Ingestion(retriable: bool, retryAfter: Option<real>)
    | Transport
    | Other

  predicate IsRetriable(f: Failure) {
    match f
    case NonRetriable(_) => false
    case CircuitOpen => false
    case RateLimited(_) => true
    case Ingestion(retriable, _) => retriable
    case Transport => true
    case Other => false
  }

  function Hint(f: Failure): Option<real> {
    if f.RateLimited? || f.Ingestion? then f.retryAfter else None
  }

  datatype RetryConfig = RetryConfig(
    maxRetries: nat, initialDelay: real, maxDelay: real, backoffFactor: real, jitter: bool)

  /** What the configuration's own validation guarantees. */
  predicate Proper(cfg: RetryConfig) {
    cfg.initialDelay > 0.0 && cfg.maxDelay > 0.0 && cfg.backoffFactor >= 1.0
  }

  function Power(x: real, n: nat): real {
    if n == 0 then 1.0 else x * Power(x, n - 1)
  }

  function Min(a: real, b: real): (m: real)
    ensures m <= a && m <= b && (m == a || m == b)
  {
    if a <= b then a else b
  }

  function Exponential(attempt: nat, cfg: RetryConfig): real {
    cfg.initialDelay * Power(cfg.backoffFactor, attempt)
  }

  /** The delay without jitter. */
  function Backoff(attempt: nat, cfg: RetryConfig): real {
    Min(Exponential(attempt, cfg), cfg.maxDelay)
  }

  function Jittered(b: real, draw: real): real {
    b * 0.75 + draw * (b * 1.25 - b * 0.75)
  }

  /** `draw` is the random draw in [0, 1] that places the jittered delay in its range. */
  function ComputeDelay(attempt: nat, cfg: RetryConfig, hint: Option<real>, draw: real): real {
    if hint.Some? && hint.value > 0.0 then Min(hint.value, cfg.maxDelay)
    else if cfg.jitter then Jittered(Backoff(attempt, cfg), draw)
    else Backoff(attempt, cfg)
  }

  lemma {:induction false} PowerGrows(x: real, m: nat, n: nat)
    requires x >= 1.0 && m <= n
    ensures 1.0 <= Power(x, m) <= Power(x, n)
    decreases n
  {
    if m < n {
      PowerGrows(x, m, n - 1);
      assert x * Power(x, n - 1) >= Power(x, n - 1);
    } else if n > 0 {
      PowerGrows(x, n - 1, n - 1);
      assert x * Power(x, n - 1) >= 1.0 * Power(x, n - 1);
    }
  }

  lemma ExponentialGrows(m: nat, n: nat, cfg: RetryConfig)
    requires Proper(cfg) && m <= n
    ensures 0.0 < Exponential(m, cfg) <= Exponential(n, cfg)
  {
    PowerGrows(cfg.backoffFactor, m, n);
  }

  /** Backoff never shrinks from one attempt to a later one, and never passes the cap. */
  lemma BackoffGrows(m: nat, n: nat, cfg: RetryConfig)
    requires Proper(cfg) && m <= n
    ensures 0.0 < Backoff(m, cfg) <= Backoff(n, cfg) <= cfg.maxDelay
  {
    ExponentialGrows(m, n, cfg);
    hide Exponential;
  }

  /** A delay is positive and at most a quarter above the cap; only jitter takes it past the cap. */
  lemma DelayBounded(n: nat, cfg: RetryConfig, hint: Option<real>, draw: real)
    requires Proper(cfg) && 0.0 <= draw <= 1.0
    ensures 0.0 < ComputeDelay(n, cfg, hint, draw) <= 1.25 * cfg.maxDelay
    ensures !cfg.jitter || (hint.Some? && hint.value > 0.0) ==> ComputeDelay(n, cfg, hint, draw) <= cfg.maxDelay
  {
    BackoffGrows(n, n, cfg);
    hide Backoff, Jittered;
    JitterBounded(Backoff(n, cfg), draw);
  }

  lemma JitterBounded(b: real, draw: real)
    requires b > 0.0 && 0.0 <= draw <= 1.0
    ensures b * 0.75 <= Jittered(b, draw) <= b * 1.25
  {
    var spread := b * 1.25 - b * 0.75;
    var part := draw * spread;
    assert Jittered(b, draw) == b * 0.75 + part;
    hide Jittered;
    assert 0.0 <= part;
    assert spread - part == (1.0 - draw) * spread;
    assert part <= spread;
  }

  /** What is retried: rate refusals, transport failures, and ingestion errors that say they may be. */
  lemma RetriableExactly(f: Failure)
    ensures IsRetriable(f) <==> f.RateLimited? || f.Transport? || (f.Ingestion? && f.retriable)
    ensures Hint(f) == (if f.RateLimited? then f.retryAfter else if f.Ingestion? then f.retryAfter else None)
  {
  }

  /** The backoff starts at the initial delay and grows by the factor with each attempt, up to the cap. */
  lemma BackoffExactly(n: nat, cfg: RetryConfig)
    ensures Exponential(n, cfg) <= cfg.maxDelay ==> Backoff(n, cfg) == Exponential(n, cfg)
    ensures Exponential(n, cfg) >= cfg.maxDelay ==> Backoff(n, cfg) == cfg.maxDelay
    ensures Exponential(0, cfg) == cfg.initialDelay && Exponential(n + 1, cfg) == Exponential(n, cfg) * cfg.backoffFactor
  {
  }

  /** A provider's hint is kept up to the cap; otherwise it is the backoff, or with jitter as far
      between three and five quarters of it as the draw says. */
  lemma DelayExactly(n: nat, cfg: RetryConfig, hint: Option<real>, draw: real)
    ensures hint.Some? && hint.value > 0.0 ==> ComputeDelay(n, cfg, hint, draw) == if hint.value <= cfg.maxDelay then hint.value else cfg.maxDelay
    ensures (hint.None? || hint.value <= 0.0) && !cfg.jitter ==> ComputeDelay(n, cfg, hint, draw) == Backoff(n, cfg)
    ensures (hint.None? || hint.value <= 0.0) && cfg.jitter ==>
              4.0 * ComputeDelay(n, cfg, hint, draw) == 3.0 * Backoff(n, cfg) + draw * (2.0 * Backoff(n, cfg))
  {
    hide Backoff;
  }

  /** The attempt at which a run of attempts ends: the first that succeeds, that fails for
      good, or that exhausts the retries. */
  function LastAttempt<T>(op: nat -> Result<T, Failure>, maxRetries: nat, from: nat): (k: nat)
    requires from <= maxRetries
    ensures from <= k <= maxRetries
    decreases maxRetries - from
  {
    if op(from).Err? && IsRetriable(op(from).error) && from < maxRetries
    then LastAttempt(op, maxRetries, from + 1)
    else from
  }

  /** Attempts before the last all failed retriably; the last did not, or there was no retry left. */
  lemma {:induction false} LastAttemptIsFirst<T>(
    op: nat -> Result<T, Failure>, maxRetries: nat, from: nat)
    requires from <= maxRetries
    ensures var k := LastAttempt(op, maxRetries, from);
            && (forall i: nat :: from <= i < k ==> op(i).Err? && IsRetriable(op(i).error))
            && (op(k).Ok? || !IsRetriable(op(k).error) || k == maxRetries)
    decreases maxRetries - from
  {
    if op(from).Err? && IsRetriable(op(from).error) && from < maxRetries {
      LastAttemptIsFirst(op, maxRetries, from + 1);
    }
  }

  datatype RetryAttempt = RetryAttempt(attempt: nat, maxRetries: nat, delay: real, retryAfter: Option<real>)

  class RetryPolicy {
    const config: RetryConfig
    var attempts: seq<RetryAttempt>

    constructor (config: RetryConfig)
      ensures this.config == config && attempts == []
    {
      this.config := config;
      attempts := [];
    }

    /** Runs the operation, whose i-th call answers `op(i)`, until it succeeds or gives up;
        `calls` counts the calls made. */
    method Execute<T>(op: nat -> Result<T, Failure>, draw: nat -> real)
      returns (r: Result<T, Failure>, calls: nat)
      modifies this
      ensures calls == LastAttempt(op, config.maxRetries, 0) + 1 && r == op(calls - 1)
      ensures |attempts| == |old(attempts)| + calls - 1 && old(attempts) <= attempts
      ensures forall i :: 0 <= i < calls - 1 ==>
                var f := op(i);
                f.Err? && attempts[|old(attempts)| + i]
                          == RetryAttempt(i + 1, config.maxRetries, ComputeDelay(i, config, Hint(f.error), draw(i)), Hint(f.error))
    {
      var retries := 0;
      while true
        invariant retries <= config.maxRetries
        invariant LastAttempt(op, config.maxRetries, 0) == LastAttempt(op, config.maxRetries, retries)
        invariant |attempts| == |old(attempts)| + retries && old(attempts) <= attempts
        invariant forall i :: 0 <= i < retries ==>
                    var f := op(i);
                    f.Err? && attempts[|old(attempts)| + i]
                              == RetryAttempt(i + 1, config.maxRetries, ComputeDelay(i, config, Hint(f.error), draw(i)), Hint(f.error))
        decreases config.maxRetries - retries
      {
        r := op(retries);
        if r.Ok? || !IsRetriable(r.error) || retries >= config.maxRetries {
          return r, retries + 1;
        }
        var delay := ComputeDelay(retries, config, Hint(r.error), draw(retries));
        attempts := attempts + [RetryAttempt(retries + 1, config.maxRetries, delay, Hint(r.error))];
        retries := retries + 1;
      }
    }
  }
}
