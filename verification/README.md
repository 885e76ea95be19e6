# Obito auto check-in bot — a Dafny model of its core

The bot reads a comma-separated list of bearer tokens. For each token it
validates the account against a remote profile endpoint, skips accounts already
seen in this run or already checked in, and otherwise calls the check-in
endpoint. Both remote calls go through a bounded retry loop with linear
backoff. At the end the bot prints how many check-ins succeeded, how many
failed, and how many tokens were duplicates.

This project models the logic of that script (`index.js`) as pure functions
and proves what it guarantees:

- `tokens.dfy` (module `Tokens`) covers `loadTokens`: `split(',')`,
  `filter(Boolean)`, `trim()`, and the fatal "no tokens" error. JavaScript's
  `split`, `filter` and `trim` are defined here with contracts and inverse or
  uniqueness lemmas. The trimmed character set is the ECMAScript WhiteSpace
  and LineTerminator set.
- `retries.dfy` (module `Retries`) covers the retry loop shared by
  `checkTokenValidity` and `performCheckIn`. The remote service is replaced by
  data: a sequence saying how each attempt turns out (`Answered(value)` or
  `Threw`). An attempt beyond the end of that sequence counts as a thrown
  request. The loop returns its exit, the number of requests made, and the
  list of backoff waits it performed. `FirstAnswer` is an independent
  reference definition that the loop is proved to agree with.
- `account.dfy` (module `Account`) covers the account validator and the
  check-in executor built on that loop. A 2xx profile response without a
  `data` payload is `Answered(None)`.
- `orchestrator.dfy` (module `Orchestrator`) covers `processToken` as a state
  transition on `(success, failed, processedAccounts)` with five outcomes, and
  `runBot` as a fold of that step over the tokens plus the summary arithmetic.
  The service's answers for each token are given by a function of the
  token's position and value.
- `wrappers.dfy` (module `Wrappers`) holds the `Option` and `Result` types.

`MAX_RETRIES` is an integer, so a zero or negative budget is modelled: the
loop never runs, and the call yields `undefined`. `RETRY_BASE_DELAY` is a
natural number. `process.exit(1)` after `loadTokens` finds nothing is the
`Failure(NoTokensFound)` result.

Empty pieces are dropped *before* trimming, so a whitespace-only entry
survives as the empty token `""` (`BlankPieceBecomesEmptyToken`).

## Model

| member | source | states |
|---|---|---|
| Tokens.Split | index.js:43 | `split(',')` yields at least one piece; no piece contains the separator; joining the pieces with the separator gives back the input |
| Tokens.SplitJoin | index.js:43 | splitting a join of separator-free pieces recovers exactly those pieces, so the split is the unique such decomposition |
| Tokens.DropEmpty | index.js:43 | `filter(Boolean)` keeps no empty piece and never lengthens the list |
| Tokens.KeptIndices | index.js:43 | the kept positions are strictly increasing, each holds a non-empty piece, and every non-empty piece's position is among them |
| Tokens.DropEmptyKeepsOrder | index.js:43 | the filter's output is exactly the non-empty pieces, in their original order |
| Tokens.NothingKeptIffAllEmpty | index.js:43-45 | nothing survives the filter exactly when every piece is empty |
| Tokens.Trim | index.js:51 | `trim()` yields a string with no whitespace at either end; it is a contiguous slice of the input, and only whitespace lies outside it |
| Tokens.TrimExact | index.js:51 | whatever whitespace surrounds a trimmed middle, trimming returns exactly that middle, so trimming is uniquely determined |
| Tokens.TrimIdempotent | index.js:51 | trimming a trimmed token changes nothing |
| Tokens.TrimBlank | index.js:51 | a whitespace-only entry trims to the empty string |
| Tokens.LoadTokens | index.js:42-52 | fails exactly when TOKENS is unset or every comma-separated piece is empty; otherwise the k-th token is the trim of the k-th non-empty piece, in order, and there is at least one |
| Tokens.LoadedTokensAreTrimmed | index.js:51 | every loaded token has no whitespace at either end |
| Tokens.BlankPieceBecomesEmptyToken | index.js:43-51 | a non-empty piece made only of whitespace passes the filter and becomes the empty token `""` |
| Tokens.NoTokensExamples | index.js:43-49 | an unset TOKENS, an empty one, and `",,"` all end with the no-tokens error |
| Retries.FirstAnswer | index.js:78-83 | reference: the index of the first attempt within the budget that did not throw, or none if all of them threw |
| Retries.RetryFrom | index.js:78-94 | the loop entered after `retries` failures: every attempt before the exiting one threw; it returns the answer of the attempt it stops at, or gives up exactly at the budget; one wait `BASE*k` after each failure `k` except the last |
| Retries.Retry | index.js:76-95 | the whole loop: it falls through (`undefined`) exactly when the budget is at most 0; otherwise it makes 1 to MAX_RETRIES requests, every request but the last threw, and the waits are `BASE*1 … BASE*(attempts-1)` |
| Retries.BackoffSum | index.js:93 | the first n linear backoff waits add up to `BASE*n*(n+1)/2` |
| Retries.RetryStopsAtFirstAnswer | index.js:78-93 | if attempt k is the first answered, exactly k requests are made, that answer is returned, and the waits are `[BASE*1, …, BASE*(k-1)]`, totalling `BASE*k*(k-1)/2` |
| Retries.RetryExhausts | index.js:84-93 | if every attempt fails, exactly MAX_RETRIES requests are made with MAX_RETRIES-1 waits (none after the last) and the loop gives up |
| Retries.RetryReturnsFirstAnswer | index.js:78-95 | the loop returns an answer exactly when the reference finds one, and it is that first answer after k+1 requests; with no answer and a positive budget it gives up |
| Account.UserOf | index.js:126-128 | the `if (!userInfo)` test: a user is found only when the call returned a payload; a returned `null` (no `data`), the give-up `null` after the last retry, and the `undefined` of a loop that never ran are all treated alike as invalid |
| Account.CheckInOk | index.js:145-147 | the truthiness test on the check-in result: it holds only when the call returned `true`; the give-up `false` and the `undefined` of a loop that never ran are both failures |
| Account.CheckTokenValidity | index.js:75-96 | validation yields the payload of the first profile response within the budget (none if that response had no `data`), and nothing if no request got through |
| Account.PerformCheckIn | index.js:98-120 | the check-in succeeds exactly when some check-in request within the budget gets through |
| Account.NoPayloadIsNotRetried | index.js:83 | a successful profile response with no `data` payload yields null after one request and no wait |
| Account.ValidAfterTwoFailures | index.js:78-93 | with budget 3, two failures and then an answer give the account after 3 requests and waits `[BASE*1, BASE*2]` |
| Account.ValidationExhausted | index.js:84-91 | all profile requests failing yields null after MAX_RETRIES requests and MAX_RETRIES-1 waits |
| Account.CheckInExhausted | index.js:107-115 | all check-in requests failing yields false after MAX_RETRIES requests and MAX_RETRIES-1 waits |
| Account.NoBudgetNoRequests | index.js:78-95 | with MAX_RETRIES at most 0 no request is made, validation yields `undefined` (invalid), and the check-in is not truthy |
| Orchestrator.Resolve | index.js:126-154 | a token is Invalid exactly when validation yields nothing; Duplicate exactly when its account is already processed, whatever its check-in flag; AlreadyDone exactly when it is new and flagged; a check-in request is made only for a new, unflagged account, and it decides CheckedIn or CheckInFailed |
| Orchestrator.Apply | index.js:128-154 | only AlreadyDone and CheckedIn add the id to the processed set; success grows by one exactly on CheckedIn; failed grows by one exactly on Invalid and CheckInFailed; the two counters grow by at most one together |
| Orchestrator.Step | index.js:122-154 | one token never shrinks the processed set, never lowers a counter, and raises `success + failed` by at most one |
| Orchestrator.StepCases | index.js:126-154 | the transition in terms of the service's answers: invalid → failed+1; duplicate → nothing changes; already checked in → id added; check-in ok → success+1 and id added; check-in failed → failed+1, set unchanged |
| Orchestrator.Run | index.js:165-168 | after the fold, `success + failed` is at most the number of tokens, and `success` is at most the number of processed accounts |
| Orchestrator.TraceAt | index.js:165-168 | token k is decided against the accounts processed by the tokens before it |
| Orchestrator.RunPrefixStep | index.js:165-168 | the state after k+1 tokens is one step from the state after k |
| Orchestrator.CountsPartition | index.js:170 | every outcome counts in exactly one of success, failed and duplicates |
| Orchestrator.RunMatchesTrace | index.js:130-153 | the counters equal the number of CheckedIn and of Invalid/CheckInFailed outcomes; the processed set is exactly the ids of AlreadyDone and CheckedIn outcomes, each added once |
| Orchestrator.ProcessedGrows | index.js:139-154 | the processed set never shrinks along the run: everything processed after the first i tokens is still processed at the end |
| Orchestrator.DoneAccountIsDuplicateLater | index.js:134-143 | once an account is checked in or found already done, every later valid token of that account is a Duplicate, even one flagged as checked in |
| Orchestrator.AtMostOneSuccessPerAccount | index.js:134-154 | within one run no account is checked in twice |
| Orchestrator.FailedCheckInLeavesAccountOpen | index.js:151-154 | after a failed check-in the account is not in the processed set |
| Orchestrator.SameAccountTwiceExample | index.js:134-150 | two tokens of one account: CheckedIn then Duplicate, and the success counter moves once |
| Orchestrator.FailedThenCheckedInExample | index.js:145-154 | a check-in failing on all 3 attempts counts one failure, and a later token of the same account is then checked in |
| Orchestrator.DuplicateBeforeAlreadyDoneExample | index.js:134-142 | a second token of an already-checked-in account is reported Duplicate, not AlreadyDone, and counts in neither counter |
| Orchestrator.RunBot | index.js:162-177 | no tokens is an error and nothing runs; otherwise the summary's success, failed and duplicates are the counts of CheckedIn, Invalid/CheckInFailed and Duplicate/AlreadyDone outcomes; duplicates is never negative, and the three add up to the number of tokens |

## Left out

- HTTP requests through axios, the optional proxy agent and the 10-second request timeout (index.js:16, 56-66, 80-82, 103-105). These are network I/O. Each request is represented by how it turned out.
- The winston logger, the chalk banner, the console lines and the ora spinners (index.js:19-39, 123, 129-157, 163, 171-176). These are presentation and log output. They are assumed not to throw.
- The `catch` branch of `processToken` (index.js:155-158). It can only be reached if a spinner or logger call throws, because every request error is caught inside the retry loops. A throw just after `success++` would also bump `failed` in that branch; this is not modelled.
- The crash handler of `runBot` (index.js:179-183). It is reachable only through the same logging failures.
- `dotenv` and reading `process.env` (index.js:11-15, 43). Settings are passed in as values: TOKENS as an optional string, MAX_RETRIES as an integer, and RETRY_BASE_DELAY as a natural number. Non-numeric or fractional settings that JavaScript would coerce are not modelled.
- The `setTimeout` delays and the random pacing delay between tokens (index.js:17, 73, 167). These involve real time and floating point. Backoff waits are recorded as numbers; the pacing delay is not recorded.
- The five-character token prefix and the account name shown in log messages (index.js:88, 111-112, 123, 135-153). These are cosmetic.
- Account ids are strings compared by value. The script compares them with JavaScript `Set` equality, which would also tell a number id from a string id.
- `data.data` values that are present but falsy, such as `0` or `""`, are folded into `Answered(None)`, as `|| null` does. Truthy non-object payloads are not distinguished from objects.
