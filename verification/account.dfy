/** The account validator (`checkTokenValidity`, index.js:75-96) and the
    check-in executor (`performCheckIn`, index.js:98-120), both built on the
    shared retry loop. */
module Account {
  import opened Wrappers
  import opened Retries

  /** An account identifier, compared by value. */
  type AccountId = string

  /** The profile payload `data.data` as far as the bot reads it: the account
      id, its display name and whether it has already checked in. */
  datatype AccountInfo = AccountInfo(id: AccountId, name: Option<string>, isCheckIn: bool)

  /** One profile request. `Answered(Some(info))` is a 2xx response whose body
      carries a `data` payload; `Answered(None)` is a 2xx response without one,
      which the script turns into `null` (index.js:83). */
  type ProfileAttempt = Attempt<Option<AccountInfo>>

  /** One check-in request; a 2xx response carries nothing the bot reads. */
  type CheckInAttempt = Attempt<()>

  /** What the validation call resolves to as `processToken` tests it: the
      payload, or None for both `null` (no payload, or retries spent) and
      `undefined` (the loop never ran). */
  function UserOf(r: Retried<Option<AccountInfo>>): (u: Option<AccountInfo>)
    ensures u.Some? ==> r.exit == Returned(u)
    ensures u.None? <==> r.exit == Returned(None) || r.exit == GaveUp || r.exit == FellThrough
  {
    if r.exit.Returned? then r.exit.value else None
  }

  /** Whether the check-in call resolves to a truthy value: `true` only when a
      request went through; `false` and `undefined` are both failures. */
  predicate CheckInOk(r: Retried<()>)
    ensures !CheckInOk(r) <==> r.exit == GaveUp || r.exit == FellThrough
  {
    r.exit.Returned?
  }

  /** `checkTokenValidity`: the payload of the first profile request that gets
      through within the attempt budget, or nothing. */
  function CheckTokenValidity(answers: seq<ProfileAttempt>, cfg: Config): (r: Retried<Option<AccountInfo>>)
    ensures UserOf(r) ==
              match FirstAnswer(answers, cfg.maxRetries)
              case Some(k) => AnswerAt(answers, k).value
              case None => None
  {
    RetryReturnsFirstAnswer(answers, cfg);
    Retry(answers, cfg)
  }

  /** `performCheckIn`: succeeds exactly when some check-in request within the
      attempt budget gets through. */
  function PerformCheckIn(answers: seq<CheckInAttempt>, cfg: Config): (r: Retried<()>)
    ensures CheckInOk(r) <==> FirstAnswer(answers, cfg.maxRetries).Some?
  {
    RetryReturnsFirstAnswer(answers, cfg);
    Retry(answers, cfg)
  }

  /** A 2xx profile response without a payload ends validation at once: one
      request, no wait, and the token counts as invalid. */
  lemma NoPayloadIsNotRetried(answers: seq<ProfileAttempt>, cfg: Config)
    requires cfg.maxRetries >= 1
    requires AnswerAt(answers, 0) == Answered(None)
    ensures CheckTokenValidity(answers, cfg).attempts == 1
    ensures CheckTokenValidity(answers, cfg).waits == []
    ensures UserOf(CheckTokenValidity(answers, cfg)) == None
  {
    RetryStopsAtFirstAnswer(answers, cfg, 1);
  }

  /** With MAX_RETRIES unset (3), a token whose profile request fails twice and
      then succeeds is valid, after waits of RETRY_BASE_DELAY * 1 and
      RETRY_BASE_DELAY * 2. */
  lemma ValidAfterTwoFailures(info: AccountInfo, base: nat)
    ensures var r := CheckTokenValidity([Threw, Threw, Answered(Some(info))], Config(3, base));
            && UserOf(r) == Some(info)
            && r.attempts == 3
            && r.waits == [base * 1, base * 2]
            && Sum(r.waits) == base * 1 + base * 2
  {
    var answers: seq<ProfileAttempt> := [Threw, Threw, Answered(Some(info))];
    RetryStopsAtFirstAnswer(answers, Config(3, base), 3);
    assert Backoff(base, 2) == [base * 1, base * 2];
    assert [base * 1, base * 2][..1] == [base * 1];
  }

  /** When every profile request within the budget fails, validation yields
      null after MAX_RETRIES requests and MAX_RETRIES - 1 waits. */
  lemma ValidationExhausted(answers: seq<ProfileAttempt>, cfg: Config)
    requires cfg.maxRetries >= 1
    requires forall i :: 0 <= i < cfg.maxRetries ==> AnswerAt(answers, i).Threw?
    ensures UserOf(CheckTokenValidity(answers, cfg)) == None
    ensures CheckTokenValidity(answers, cfg).attempts == cfg.maxRetries
    ensures |CheckTokenValidity(answers, cfg).waits| == cfg.maxRetries - 1
  {
    RetryExhausts(answers, cfg);
  }

  /** When every check-in request within the budget fails, the check-in
      yields false after MAX_RETRIES requests and MAX_RETRIES - 1 waits. */
  lemma CheckInExhausted(answers: seq<CheckInAttempt>, cfg: Config)
    requires cfg.maxRetries >= 1
    requires forall i :: 0 <= i < cfg.maxRetries ==> AnswerAt(answers, i).Threw?
    ensures !CheckInOk(PerformCheckIn(answers, cfg))
    ensures PerformCheckIn(answers, cfg).exit == GaveUp
    ensures PerformCheckIn(answers, cfg).attempts == cfg.maxRetries
    ensures |PerformCheckIn(answers, cfg).waits| == cfg.maxRetries - 1
  {
    RetryExhausts(answers, cfg);
  }

  /** With a budget of zero or less neither call issues a request: validation
      yields `undefined` (an invalid token) and so does the check-in (a failure). */
  lemma NoBudgetNoRequests(profile: seq<ProfileAttempt>, checkIn: seq<CheckInAttempt>, cfg: Config)
    requires cfg.maxRetries <= 0
    ensures CheckTokenValidity(profile, cfg) == Retried(FellThrough, 0, [])
    ensures PerformCheckIn(checkIn, cfg) == Retried(FellThrough, 0, [])
    ensures UserOf(CheckTokenValidity(profile, cfg)) == None
    ensures !CheckInOk(PerformCheckIn(checkIn, cfg))
  {
  }
}
