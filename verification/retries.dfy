/** The bounded retry loop with linear backoff shared by `checkTokenValidity`
    (index.js:75-96) and `performCheckIn` (index.js:98-120). The remote
    service is replaced by data: the sequence of how each attempt turns out.
    An attempt past the end of that sequence counts as a failed request. */
module Retries {
  import opened Wrappers

  /** MAX_RETRIES and RETRY_BASE_DELAY once read as numbers (index.js:14-15).
      The attempt budget may be zero or negative, in which case the loop
      never runs. */
  datatype Config = Config(maxRetries: int, retryBaseDelay: nat)

  /** The values used when the environment leaves both settings unset. */
  const DefaultConfig: Config := Config(3, 5000)

  /** One request: the service answered with a 2xx response carrying `value`,
      or the request threw (network error, timeout, non-2xx status). */
  datatype Attempt<+T> = Answered(value: T) | Threw

  /** How the loop is left: `return` of an answer; `return` of the give-up
      value after the last failed attempt; or falling out of a loop whose
      condition was false from the start, which yields `undefined`. */
  datatype Exit<+T> = Returned(value: T) | GaveUp | FellThrough

  /** The loop's exit, how many requests it issued, and the backoff waits it
      performed, in order. */
  datatype Retried<+T> = Retried(exit: Exit<T>, attempts: nat, waits: seq<nat>)

  /** How attempt `i` (counting from 0) turns out. */
  function AnswerAt<T>(answers: seq<Attempt<T>>, i: nat): Attempt<T> {
    if i < |answers| then answers[i] else Threw
  }

  /** The waits after failures 1..n: RETRY_BASE_DELAY * k after failure k. */
  function Backoff(base: nat, n: nat): seq<nat> {
    seq(n, k requires 0 <= k < n => base * (k + 1))
  }

  function Sum(xs: seq<nat>): nat
    decreases |xs|
  {
    if |xs| == 0 then 0 else Sum(xs[..|xs| - 1]) + xs[|xs| - 1]
  }

  /** The n waits of linear backoff add up to base * n * (n + 1) / 2. */
  lemma {:induction false} BackoffSum(base: nat, n: nat)
    ensures 2 * Sum(Backoff(base, n)) == base * n * (n + 1)
    decreases n
  {
    if n > 0 {
      var b := Backoff(base, n);
      assert b[..n - 1] == Backoff(base, n - 1);
      BackoffSum(base, n - 1);
      calc {
        2 * Sum(b);
        2 * Sum(Backoff(base, n - 1)) + 2 * (base * n);
        base * (n - 1) * n + 2 * (base * n);
        { assert base * (n - 1) * n == base * n * n - base * n; }
        base * n * n + base * n;
        base * n * (n + 1);
      }
    }
  }

  /** Reference definition: the first attempt within the budget `limit` that
      did not throw. */
  function FirstAnswer<T>(answers: seq<Attempt<T>>, limit: int): (k: Option<nat>)
    ensures k.Some? ==> k.value < limit && AnswerAt(answers, k.value).Answered?
    ensures k.Some? ==> forall i :: 0 <= i < k.value ==> AnswerAt(answers, i).Threw?
    ensures k.None? ==> forall i :: 0 <= i < limit ==> AnswerAt(answers, i).Threw?
    decreases limit
  {
    if limit <= 0 then None
    else
      match FirstAnswer(answers, limit - 1)
      case Some(k) => Some(k)
      case None => if AnswerAt(answers, limit - 1).Answered? then Some(limit - 1) else None
  }

  /** The loop entered with `retries` failures behind it. */
  function RetryFrom<T>(answers: seq<Attempt<T>>, cfg: Config, retries: nat): (r: Retried<T>)
    requires retries < cfg.maxRetries
    ensures retries < r.attempts <= cfg.maxRetries
    ensures !r.exit.FellThrough?
    ensures forall i :: retries <= i < r.attempts - 1 ==> AnswerAt(answers, i).Threw?
    ensures r.exit.Returned? ==> AnswerAt(answers, r.attempts - 1) == Answered(r.exit.value)
    ensures r.exit.GaveUp? ==> r.attempts == cfg.maxRetries && AnswerAt(answers, r.attempts - 1).Threw?
    ensures |r.waits| == r.attempts - 1 - retries
    ensures forall k :: 0 <= k < |r.waits| ==> r.waits[k] == cfg.retryBaseDelay * (retries + 1 + k)
    decreases cfg.maxRetries - retries
  {
    match AnswerAt(answers, retries)
    case Answered(v) => Retried(Returned(v), retries + 1, [])
    case Threw =>
      if retries + 1 >= cfg.maxRetries then
        Retried(GaveUp, retries + 1, [])
      else
        var rest := RetryFrom(answers, cfg, retries + 1);
        rest.(waits := [cfg.retryBaseDelay * (retries + 1)] + rest.waits)
  }

  /** The retry loop: attempts until one is answered or the budget is spent,
      waiting RETRY_BASE_DELAY * k after failure k except the last. */
  function Retry<T>(answers: seq<Attempt<T>>, cfg: Config): (r: Retried<T>)
    ensures r.exit.FellThrough? <==> cfg.maxRetries <= 0
    ensures r.exit.FellThrough? ==> r.attempts == 0 && r.waits == []
    ensures !r.exit.FellThrough? ==>
              && 1 <= r.attempts <= cfg.maxRetries
              && r.waits == Backoff(cfg.retryBaseDelay, r.attempts - 1)
    ensures forall i :: 0 <= i < r.attempts - 1 ==> AnswerAt(answers, i).Threw?
    ensures r.exit.Returned? ==> r.attempts >= 1 && AnswerAt(answers, r.attempts - 1) == Answered(r.exit.value)
    ensures r.exit.GaveUp? ==> r.attempts == cfg.maxRetries && AnswerAt(answers, r.attempts - 1).Threw?
  {
    if cfg.maxRetries <= 0 then
      Retried(FellThrough, 0, [])
    else
      var r := RetryFrom(answers, cfg, 0);
      assert r.waits == Backoff(cfg.retryBaseDelay, r.attempts - 1);
      r
  }

  /** When attempt k is the first to be answered, exactly k requests are made,
      the answer is returned, and the waits are BASE*1, ..., BASE*(k-1),
      totalling BASE*k*(k-1)/2. */
  lemma RetryStopsAtFirstAnswer<T>(answers: seq<Attempt<T>>, cfg: Config, k: nat)
    requires 1 <= k <= cfg.maxRetries
    requires forall i :: 0 <= i < k - 1 ==> AnswerAt(answers, i).Threw?
    requires AnswerAt(answers, k - 1).Answered?
    ensures Retry(answers, cfg) ==
              Retried(Returned(AnswerAt(answers, k - 1).value), k, Backoff(cfg.retryBaseDelay, k - 1))
    ensures 2 * Sum(Retry(answers, cfg).waits) == cfg.retryBaseDelay * k * (k - 1)
  {
    var r := Retry(answers, cfg);
    assert r.attempts == k;
    BackoffSum(cfg.retryBaseDelay, k - 1);
    assert cfg.retryBaseDelay * (k - 1) * k == cfg.retryBaseDelay * k * (k - 1);
  }

  /** When every attempt within the budget throws, exactly MAX_RETRIES requests
      are made, the loop gives up, and there are MAX_RETRIES - 1 waits: none
      after the last failure. */
  lemma RetryExhausts<T>(answers: seq<Attempt<T>>, cfg: Config)
    requires cfg.maxRetries >= 1
    requires forall i :: 0 <= i < cfg.maxRetries ==> AnswerAt(answers, i).Threw?
    ensures Retry(answers, cfg) == Retried(GaveUp, cfg.maxRetries, Backoff(cfg.retryBaseDelay, cfg.maxRetries - 1))
    ensures 2 * Sum(Retry(answers, cfg).waits) == cfg.retryBaseDelay * cfg.maxRetries * (cfg.maxRetries - 1)
  {
    var r := Retry(answers, cfg);
    assert AnswerAt(answers, r.attempts - 1).Threw?;
    BackoffSum(cfg.retryBaseDelay, cfg.maxRetries - 1);
    assert cfg.retryBaseDelay * (cfg.maxRetries - 1) * cfg.maxRetries
        == cfg.retryBaseDelay * cfg.maxRetries * (cfg.maxRetries - 1);
  }

  /** The loop agrees with the reference definition: it returns an answer
      exactly when one arrives within the budget, and that answer is the
      first one. */
  lemma RetryReturnsFirstAnswer<T>(answers: seq<Attempt<T>>, cfg: Config)
    ensures Retry(answers, cfg).exit.Returned? <==> FirstAnswer(answers, cfg.maxRetries).Some?
    ensures FirstAnswer(answers, cfg.maxRetries).Some? ==>
              var k := FirstAnswer(answers, cfg.maxRetries).value;
              Retry(answers, cfg).exit == Returned(AnswerAt(answers, k).value) && Retry(answers, cfg).attempts == k + 1
    ensures FirstAnswer(answers, cfg.maxRetries).None? && cfg.maxRetries >= 1 ==>
              Retry(answers, cfg).exit.GaveUp?
  {
    match FirstAnswer(answers, cfg.maxRetries)
    case Some(k) =>
      RetryStopsAtFirstAnswer(answers, cfg, k + 1);
    case None =>
      if cfg.maxRetries >= 1 {
        RetryExhausts(answers, cfg);
      }
  }
}
