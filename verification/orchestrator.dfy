/** The run: `processToken` (index.js:122-160) decides one token's outcome and
    updates the counters and the set of processed accounts; `runBot`
    (index.js:162-177) folds it over the loaded tokens and reports the
    summary. The service's answers for each token are given as data. */
module Orchestrator {
  import opened Wrappers
  import opened Tokens
  import opened Retries
  import opened Account

  /** How the service answers one token's profile requests and check-in
      requests, attempt by attempt. */
  datatype TokenAnswers = TokenAnswers(profile: seq<ProfileAttempt>, checkIn: seq<CheckInAttempt>)

  /** The five mutually exclusive ways a token can end. */
  datatype Outcome =
    | Invalid
    | Duplicate(id: AccountId)
    | AlreadyDone(id: AccountId)
    | CheckedIn(id: AccountId)
    | CheckInFailed(id: AccountId)

  /** One token's outcome with the two retry runs behind it; `checkIn` is
      None when no check-in request was made. */
  datatype TokenReport = TokenReport(outcome: Outcome, validation: Retried<Option<AccountInfo>>, checkIn: Option<Retried<()>>)

  /** The counters `success` and `failed` and the set `processedAccounts`. */
  datatype RunState = RunState(success: nat, failed: nat, processed: set<AccountId>)

  const Start: RunState := RunState(0, 0, {})

  predicate CountsAsSuccess(o: Outcome) { o.CheckedIn? }
  predicate CountsAsFailure(o: Outcome) { o.Invalid? || o.CheckInFailed? }
  /** The outcomes the summary reports as duplicates. */
  predicate CountsAsSkipped(o: Outcome) { o.Duplicate? || o.AlreadyDone? }
  /** The outcomes that record the account as processed. */
  predicate MarksDone(o: Outcome) { o.AlreadyDone? || o.CheckedIn? }

  /** The decisions of `processToken`, in the script's order: validity, then
      duplicate account, then already checked in, then the check-in itself. */
  function Resolve(processed: set<AccountId>, answers: TokenAnswers, cfg: Config): (rep: TokenReport)
    ensures rep.validation == CheckTokenValidity(answers.profile, cfg)
    ensures rep.outcome.Invalid? <==> UserOf(rep.validation).None?
    ensures !rep.outcome.Invalid? ==> rep.outcome.id == UserOf(rep.validation).value.id
    ensures rep.outcome.Duplicate? <==> !rep.outcome.Invalid? && rep.outcome.id in processed
    ensures rep.outcome.AlreadyDone? <==>
              !rep.outcome.Invalid? && rep.outcome.id !in processed && UserOf(rep.validation).value.isCheckIn
    ensures rep.checkIn.Some? <==> rep.outcome.CheckedIn? || rep.outcome.CheckInFailed?
    ensures rep.checkIn.Some? ==>
              && UserOf(rep.validation).Some?
              && rep.outcome.id !in processed
              && !UserOf(rep.validation).value.isCheckIn
              && rep.checkIn.value == PerformCheckIn(answers.checkIn, cfg)
              && (rep.outcome.CheckedIn? <==> CheckInOk(rep.checkIn.value))
  {
    var validation := CheckTokenValidity(answers.profile, cfg);
    match UserOf(validation)
    case None => TokenReport(Invalid, validation, None)
    case Some(user) =>
      if user.id in processed then
        TokenReport(Duplicate(user.id), validation, None)
      else if user.isCheckIn then
        TokenReport(AlreadyDone(user.id), validation, None)
      else
        var checkIn := PerformCheckIn(answers.checkIn, cfg);
        if CheckInOk(checkIn) then
          TokenReport(CheckedIn(user.id), validation, Some(checkIn))
        else
          TokenReport(CheckInFailed(user.id), validation, Some(checkIn))
  }

  /** The bookkeeping `processToken` does for an outcome. */
  function Apply(s: RunState, o: Outcome): (t: RunState)
    ensures MarksDone(o) ==> t.processed == s.processed + {o.id}
    ensures !MarksDone(o) ==> t.processed == s.processed
    ensures t.success == s.success + (if CountsAsSuccess(o) then 1 else 0)
    ensures t.failed == s.failed + (if CountsAsFailure(o) then 1 else 0)
    ensures t.success + t.failed <= s.success + s.failed + 1
  {
    match o
    case Invalid => s.(failed := s.failed + 1)
    case Duplicate(_) => s
    case AlreadyDone(id) => s.(processed := s.processed + {id})
    case CheckedIn(id) => s.(success := s.success + 1, processed := s.processed + {id})
    case CheckInFailed(_) => s.(failed := s.failed + 1)
  }

  /** `processToken` as a state transition: the processed set only grows and
      the two counters together grow by at most one. */
  function Step(s: RunState, answers: TokenAnswers, cfg: Config): (t: RunState)
    ensures s.processed <= t.processed
    ensures s.success <= t.success && s.failed <= t.failed
    ensures t.success + t.failed <= s.success + s.failed + 1
  {
    Apply(s, Resolve(s.processed, answers, cfg).outcome)
  }

  /** The effect of one token on the state, stated in terms of how the
      service answered, for each of the five cases. */
  lemma StepCases(s: RunState, answers: TokenAnswers, cfg: Config)
    ensures var t := Step(s, answers, cfg);
            var user := UserOf(CheckTokenValidity(answers.profile, cfg));
            && (user.None? ==> t == s.(failed := s.failed + 1))
            && (user.Some? && user.value.id in s.processed ==> t == s)
            && (user.Some? && user.value.id !in s.processed && user.value.isCheckIn ==>
                  t == s.(processed := s.processed + {user.value.id}))
            && (user.Some? && user.value.id !in s.processed && !user.value.isCheckIn ==>
                  if CheckInOk(PerformCheckIn(answers.checkIn, cfg))
                  then t == s.(success := s.success + 1, processed := s.processed + {user.value.id})
                  else t == s.(failed := s.failed + 1))
  {
  }

  /** The state after processing the tokens of `script` in order
      (the `for` loop of `runBot`). */
  function Run(script: seq<TokenAnswers>, cfg: Config): (s: RunState)
    ensures s.success + s.failed <= |script|
    ensures s.success <= |s.processed|
    decreases |script|
  {
    if |script| == 0 then Start
    else
      var prev := Run(script[..|script| - 1], cfg);
      Step(prev, script[|script| - 1], cfg)
  }

  /** The outcome of every token, in order. Each outcome is decided afresh
      against the processed set of the tokens before it, independently of
      how `Run` threads its state, so that `RunMatchesTrace` relates two
      separate definitions. */
  function Trace(script: seq<TokenAnswers>, cfg: Config): (os: seq<Outcome>)
    ensures |os| == |script|
    decreases |script|
  {
    if |script| == 0 then []
    else
      var prefix := script[..|script| - 1];
      Trace(prefix, cfg) + [Resolve(Run(prefix, cfg).processed, script[|script| - 1], cfg).outcome]
  }

  function CountWhere(os: seq<Outcome>, p: Outcome -> bool): nat
    decreases |os|
  {
    if |os| == 0 then 0
    else CountWhere(os[..|os| - 1], p) + (if p(os[|os| - 1]) then 1 else 0)
  }

  /** The ids of the accounts recorded as processed along a trace. */
  function DoneIds(os: seq<Outcome>): set<AccountId>
    decreases |os|
  {
    if |os| == 0 then {}
    else
      var o := os[|os| - 1];
      DoneIds(os[..|os| - 1]) + (if MarksDone(o) then {o.id} else {})
  }

  /** Every outcome falls in exactly one of the three summary columns. */
  lemma {:induction false} CountsPartition(os: seq<Outcome>)
    ensures CountWhere(os, CountsAsSuccess) + CountWhere(os, CountsAsFailure) + CountWhere(os, CountsAsSkipped) == |os|
    decreases |os|
  {
    if |os| > 0 {
      CountsPartition(os[..|os| - 1]);
    }
  }

  /** Token `k` is decided against the accounts processed by the tokens
      before it. */
  lemma {:induction false} TraceAt(script: seq<TokenAnswers>, cfg: Config, k: nat)
    requires k < |script|
    ensures Trace(script, cfg)[k] == Resolve(Run(script[..k], cfg).processed, script[k], cfg).outcome
    decreases |script|
  {
    var n := |script| - 1;
    var prefix := script[..n];
    assert Trace(script, cfg) == Trace(prefix, cfg) + [Resolve(Run(prefix, cfg).processed, script[n], cfg).outcome];
    if k < n {
      TraceAt(prefix, cfg, k);
      assert prefix[..k] == script[..k];
      assert prefix[k] == script[k];
    }
  }

  /** The counters and the processed set agree with the outcomes: the
      counters count successes and failures, and the set holds exactly the
      accounts that were checked in or found already done, each added once. */
  lemma {:induction false} RunMatchesTrace(script: seq<TokenAnswers>, cfg: Config)
    ensures Run(script, cfg).success == CountWhere(Trace(script, cfg), CountsAsSuccess)
    ensures Run(script, cfg).failed == CountWhere(Trace(script, cfg), CountsAsFailure)
    ensures Run(script, cfg).processed == DoneIds(Trace(script, cfg))
    ensures |Run(script, cfg).processed| == CountWhere(Trace(script, cfg), MarksDone)
    decreases |script|
  {
    if |script| > 0 {
      var prefix := script[..|script| - 1];
      RunMatchesTrace(prefix, cfg);
      var os := Trace(script, cfg);
      assert os[..|os| - 1] == Trace(prefix, cfg);
    }
  }

  /** The state after k + 1 tokens is one step from the state after k. */
  lemma RunPrefixStep(script: seq<TokenAnswers>, cfg: Config, k: nat)
    requires k < |script|
    ensures Run(script[..k + 1], cfg) == Step(Run(script[..k], cfg), script[k], cfg)
  {
    assert script[..k + 1][..k] == script[..k];
  }

  /** `processedAccounts` only grows along the run: whatever is processed
      after the first i tokens is still processed at the end. */
  lemma {:induction false} ProcessedGrows(script: seq<TokenAnswers>, cfg: Config, i: nat)
    requires i <= |script|
    ensures Run(script[..i], cfg).processed <= Run(script, cfg).processed
    decreases |script|
  {
    if i < |script| {
      var prefix := script[..|script| - 1];
      ProcessedGrows(prefix, cfg, i);
      assert prefix[..i] == script[..i];
    } else {
      assert script[..i] == script;
    }
  }

  /** Once an account has been checked in or found already done, every later
      token that resolves to it is a Duplicate, even one whose profile says
      it is already checked in. */
  lemma DoneAccountIsDuplicateLater(script: seq<TokenAnswers>, cfg: Config, i: nat, j: nat)
    requires i < j < |script|
    requires MarksDone(Trace(script, cfg)[i])
    requires !Trace(script, cfg)[j].Invalid?
    requires Trace(script, cfg)[j].id == Trace(script, cfg)[i].id
    ensures Trace(script, cfg)[j] == Duplicate(Trace(script, cfg)[i].id)
  {
    var id := Trace(script, cfg)[i].id;
    TraceAt(script, cfg, i);
    RunPrefixStep(script, cfg, i);
    assert id in Run(script[..i + 1], cfg).processed;
    ProcessedGrows(script[..j], cfg, i + 1);
    assert script[..j][..i + 1] == script[..i + 1];
    assert id in Run(script[..j], cfg).processed;
    TraceAt(script, cfg, j);
  }

  /** Within one run, each account is checked in at most once. */
  lemma AtMostOneSuccessPerAccount(script: seq<TokenAnswers>, cfg: Config)
    ensures var os := Trace(script, cfg);
            forall i, j :: 0 <= i < j < |os| && os[i].CheckedIn? && os[j].CheckedIn? ==> os[i].id != os[j].id
  {
    var os := Trace(script, cfg);
    forall i, j | 0 <= i < j < |os| && os[i].CheckedIn? && os[j].CheckedIn?
      ensures os[i].id != os[j].id
    {
      if os[i].id == os[j].id {
        DoneAccountIsDuplicateLater(script, cfg, i, j);
      }
    }
  }

  /** A failed check-in leaves the account out of the processed set, so a
      later token for the same account is still checked in normally. */
  lemma FailedCheckInLeavesAccountOpen(script: seq<TokenAnswers>, cfg: Config, i: nat)
    requires i < |script|
    requires Trace(script, cfg)[i].CheckInFailed?
    ensures Trace(script, cfg)[i].id !in Run(script[..i + 1], cfg).processed
  {
    TraceAt(script, cfg, i);
    RunPrefixStep(script, cfg, i);
  }

  /** Two tokens of one account, the first checked in: the second is a
      Duplicate and the success counter moves once. */
  lemma SameAccountTwiceExample(info: AccountInfo)
    requires !info.isCheckIn
    ensures var token := TokenAnswers([Answered(Some(info))], [Answered(())]);
            && Trace([token, token], DefaultConfig) == [CheckedIn(info.id), Duplicate(info.id)]
            && Run([token, token], DefaultConfig) == RunState(1, 0, {info.id})
  {
    var token := TokenAnswers([Answered(Some(info))], [Answered(())]);
    var script := [token, token];
    RetryStopsAtFirstAnswer(token.profile, DefaultConfig, 1);
    RetryStopsAtFirstAnswer(token.checkIn, DefaultConfig, 1);
    assert script[..1] == [token];
    assert script[..1][..0] == [];
  }

  /** A check-in that fails on every attempt counts one failure and leaves the
      account open; a later token for it is then checked in. */
  lemma FailedThenCheckedInExample(info: AccountInfo)
    requires !info.isCheckIn
    ensures var first := TokenAnswers([Answered(Some(info))], [Threw, Threw, Threw]);
            var second := TokenAnswers([Answered(Some(info))], [Answered(())]);
            && Trace([first, second], DefaultConfig) == [CheckInFailed(info.id), CheckedIn(info.id)]
            && Run([first, second], DefaultConfig) == RunState(1, 1, {info.id})
  {
    var first := TokenAnswers([Answered(Some(info))], [Threw, Threw, Threw]);
    var second := TokenAnswers([Answered(Some(info))], [Answered(())]);
    var script := [first, second];
    RetryStopsAtFirstAnswer(first.profile, DefaultConfig, 1);
    RetryExhausts(first.checkIn, DefaultConfig);
    RetryStopsAtFirstAnswer(second.checkIn, DefaultConfig, 1);
    assert script[..1] == [first];
    assert script[..1][..0] == [];
  }

  /** The duplicate test comes first: a second token of an account found
      already checked in is a Duplicate, not AlreadyDone, and the run counts
      neither. */
  lemma DuplicateBeforeAlreadyDoneExample(info: AccountInfo)
    requires info.isCheckIn
    ensures var token := TokenAnswers([Answered(Some(info))], []);
            && Trace([token, token], DefaultConfig) == [AlreadyDone(info.id), Duplicate(info.id)]
            && Run([token, token], DefaultConfig) == RunState(0, 0, {info.id})
  {
    var token := TokenAnswers([Answered(Some(info))], []);
    var script := [token, token];
    RetryStopsAtFirstAnswer(token.profile, DefaultConfig, 1);
    assert script[..1] == [token];
    assert script[..1][..0] == [];
  }

  /** The summary line: duplicates are whatever is neither a success nor a
      failure (index.js:170). */
  datatype Summary = Summary(success: nat, failed: nat, duplicates: int)

  /** The answers of the service, given per token by its position and value. */
  type Service = (nat, string) -> TokenAnswers

  function ScriptFor(tokens: seq<string>, service: Service): (script: seq<TokenAnswers>)
    ensures |script| == |tokens|
  {
    seq(|tokens|, i requires 0 <= i < |tokens| => service(i, tokens[i]))
  }

  /** `runBot` after `loadTokens`: no tokens ends the run before any request;
      otherwise every token is processed and the summary counts successes,
      failures, and duplicates (Duplicate and AlreadyDone outcomes), which
      add up to the number of tokens. */
  function RunBot(setting: Option<string>, service: Service, cfg: Config): (r: Result<Summary, LoadError>)
    ensures setting.None? ==> r == Failure(NoTokensFound)
    ensures r.Success? ==> r.value.duplicates >= 0
    ensures r.Failure? <==> LoadTokens(setting).Failure?
    ensures r.Success? ==>
              var tokens := LoadTokens(setting).value;
              var os := Trace(ScriptFor(tokens, service), cfg);
              && r.value.success == CountWhere(os, CountsAsSuccess)
              && r.value.failed == CountWhere(os, CountsAsFailure)
              && r.value.duplicates == CountWhere(os, CountsAsSkipped)
              && r.value.duplicates >= 0
              && r.value.success + r.value.failed + r.value.duplicates == |tokens|
  {
    match LoadTokens(setting)
    case Failure(e) => Failure(e)
    case Success(tokens) =>
      var script := ScriptFor(tokens, service);
      var s := Run(script, cfg);
      RunMatchesTrace(script, cfg);
      CountsPartition(Trace(script, cfg));
      Success(Summary(s.success, s.failed, |tokens| - s.success - s.failed))
  }
}
