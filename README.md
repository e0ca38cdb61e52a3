# IBKR balance to Actual Budget: a Dafny model

The job fetches the balance of an Interactive Brokers account through the Flex
Web Service, converts it to the ledger's currency when the two differ, and
posts at most one adjustment transaction to an Actual Budget ledger. This
project models its four parts and proves what they promise:

- `flex.dfy` (module `Flex`, from `src/api.ts`): the retrieval protocol. One
  SendRequest call yields a reference code. Then a bounded loop of at most 5
  GetStatement polls runs under doubling-with-cap backoff (1000 ms doubled up
  to 30000 ms). Polls are classified as transient, done or fatal. The balance
  is read from the last per-date equity-summary entry.
  `Flex.GetAccountBalance` is a method that makes the SendRequest call and then
  runs `Flex.PollStatements`, the source's `for` loop rendered as a `while`
  loop with its two counters (`i`, `currentDelay`); the loop is proved equal
  to the reference function `Flex.PollLoop`. The method returns the result
  and an ordered log of the calls made and the sleeps taken. It is proved
  equal to the reference function `Flex.Retrieve`, and the protocol's properties are lemmas about
  `Retrieve`: call counts, the delay schedule, no re-initiation, fatal
  outcomes stop polling.
- `budget.dfy` (module `Budget`, from `src/budget.ts`): the reconciliation
  step. A `Recorder` object stands for the ledger SDK and the converter. It
  appends every call to its `trace` and answers from a `Script`.
  `Budget.UpdateBudget` runs the `try` block (`Budget.Attempt`) and then
  `shutdown`, as the `finally` clause does. `Budget.Attempt` is proved against
  the reference function `Budget.TryBlock`; its last part, the ledger read
  and the posting, is the method `Budget.Post`, proved against
  `Budget.Posting`. `Budget.UpdateBudget` is proved against
  the reference function `Budget.Reconciliation`. The difference, threshold,
  sign and transaction record are the pure function `Budget.Adjustment`.
- `currency.dfy` (module `Currency`, from `src/currency.ts`): the ordered
  guard chain of the conversion. The checks run in this order: identity, the
  settings (through `getConfig`), the key, the error result, the rate, and
  finally the product.
- `config.dfy` (module `Config`, from `src/config.ts`): settings are read from
  an environment map. An empty variable counts as unset. The first missing
  required setting is reported, including the `IBKR_QUERYID` spelling that
  comes from upper-casing the key `queryId`. The currency defaults to USD and
  the rate-service key is passed through.
- `outcomes.dfy` (module `Outcomes`): `Option`, `Result` and the error kinds
  the job tells apart. These are a plain `Error` with a message, an HTTP-client
  error (response status, error code), a markup parse error, and the fault of
  reading a property of `undefined` (`FieldAccess`).

External inputs become parameters:
- the parsed replies of the two Flex endpoints (`Flex.Reply`: a parsed
  document, a malformed body, or a rejected call);
- the rate service's reply (`Currency.RateReply`);
- the process environment (`Config.Env`);
- the ledger's answers (`Budget.Script`);
- the current timestamp (`now`);
- `parseFloat` (a function-valued parameter).

Behaviour of the code worth noting:
- Only an HTTP 404 response or the `ERR_NETWORK` code is a transient transport
  failure (src/api.ts:60); a timeout is not.
- A plain `Error` rejection of a poll is fatal, because it is not an
  HTTP-client error (src/api.ts:60-66).
- A missing node of either reply gives the generic fault of reading a property
  of `undefined` (src/api.ts:23, 29, 50).
- The note of an adjustment ends in `(Deposit)` or `(Withdrawal)`
  (src/budget.ts:40, 46). The test expectations at
  src/__tests__/budget.test.ts:66 omit that suffix.
- `convertCurrency` calls `getConfig` (src/currency.ts:11), so a conversion
  also fails when any required setting unrelated to the rate service is
  missing. `Currency.ConvertCurrency` models that.

## Model

| member | source | states |
|---|---|---|
| Config.GetConfig | src/config.ts:18-46 | Error exactly when some required variable is unset or empty, naming the first such one in the fixed order by its reported name; on success every required field equals its non-empty variable, the currency defaults to USD, the key is passed through as it is or absent |
| Config.FirstMissingIsLeast | src/config.ts:37-43 | The reference "first missing" index is the least missing one, and none is found exactly when all six are non-empty |
| Config.IbkrKeysChecked | src/config.ts:37-39 | The loop over the IBKR settings finds token before queryId, and reports IBKR_TOKEN and IBKR_QUERYID (no underscore) |
| Currency.ConvertCurrency | src/currency.ts:5-41 | Equal codes give the amount unchanged with no request regardless of environment and reply; otherwise a settings failure, then a missing or empty key, fail before any request; else exactly one GET to the pair URL; a rejection passes through unchanged; an error result wins over any rate; an absent or zero rate is refused naming the pair; a present non-zero rate without an error result succeeds with amount times rate, and that is the only success |
| Currency.Quote | src/currency.ts:20-40 | After the lookup: a rejection passes through unchanged; an error result gives the ExchangeRate-API error message; an absent or zero rate gives the rate-not-found message for the pair; otherwise the result is amount times rate |
| Currency.SuccessfulLookup | src/currency.ts:18-36 | 100 USD to EUR at 0.85 gives 85 after one request to .../v6/test_api_key/pair/USD/EUR |
| Flex.TokenExpiredMessage | src/api.ts:23-26 | Status Fail with code 1012 and message "Token has expired." gives "Flex Query SendRequest failed: Token has expired. (Code: 1012)" |
| Flex.SendFailureParts | src/api.ts:24-26 | Each of the message and code parts appears exactly when its element is present |
| Flex.ExhaustedMessageText | src/api.ts:71 | The exhaustion message reads "Failed to retrieve Flex Statement after 5 attempts." |
| Flex.NextDelayAt | src/api.ts:46 | One doubling-with-cap step takes the delay of attempt i to that of attempt i+1 |
| Flex.DelayMonotone | src/api.ts:32-46 | Delays never decrease from one attempt to a later one and never exceed 30000 ms |
| Flex.ScheduleAt | src/api.ts:45-46 | The n-th sleep of the schedule is the delay of attempt n |
| Flex.ScheduleSortedAndCapped | src/api.ts:45-46 | Every schedule prefix is non-decreasing and bounded by MaxDelayMs |
| Flex.FullSchedule | src/api.ts:32-46 | The five delays are 1000, 2000, 4000, 8000, 16000 |
| Flex.LastEquityEntry | src/api.ts:50-52 | Success exactly for a completed report whose node path (the first element of each list, a non-empty entry list) is present, returning the last entry in document order; any missing node is a field-access fault |
| Flex.Classify | src/api.ts:37-67 | A poll is transient exactly for a present Fail envelope, an HTTP 404 or an ERR_NETWORK error; other rejections propagate unchanged, parse failures are fatal, a completed report yields parseFloat(total) and currency of the last entry, anything else is a field-access fault |
| Flex.Initiate | src/api.ts:20-29 | Rejections and parse errors propagate; a Status other than Success fails with the SendRequest-failed message; a missing envelope, Status or ReferenceCode is a field-access fault; success exactly for Status Success with a reference code, which is returned |
| Flex.GetAccountBalance | src/api.ts:14-77 | The result and log equal the reference retrieval; the first call is the one SendRequest; at most 6 calls; the sleeps are a prefix of the schedule |
| Flex.PollStatements | src/api.ts:32-71 | The loop's result and log equal the reference polling loop from attempt 0 with the initial delay |
| Flex.AttemptsProjections | src/api.ts:33-47 | A stretch of transient attempts makes one GetStatement with the reference code per attempt and sleeps the scheduled delays |
| Flex.TransientStretch | src/api.ts:41-64 | Transient polls from attempt i to n-1 contribute exactly a call and a sleep each and hand over to attempt n with its scheduled delay |
| Flex.PollLoopDecides | src/api.ts:33-71 | At the first non-transient attempt the loop ends with one call and that attempt's verdict, or with the exhaustion error and no call at the bound |
| Flex.PollShape | src/api.ts:33-71 | After a successful SendRequest, the retrieval is k transient attempts, then the deciding poll (or exhaustion), with the deciding verdict as result |
| Flex.ShapeProjections | src/api.ts:33-71 | A log of SendRequest, k transient attempts and the deciding poll has 1 + k (+1 before the bound) calls, all after the first being GetStatement with the reference code, and the first k scheduled sleeps |
| Flex.LogProjections | src/api.ts:33-71 | The calls are SendRequest, then 1+k (or k at exhaustion) GetStatements with the obtained reference code; the sleeps are the first k delays |
| Flex.RetrieveShape | src/api.ts:19-35 | Every retrieval: one SendRequest first, never re-initiated, every later call uses the obtained reference code, at most 1 + 5 calls, sleeps a prefix of the schedule; a failed initiation makes no poll |
| Flex.InitiationFailureStops | src/api.ts:23-27 | A Status other than Success ends with the built message after exactly the one SendRequest call |
| Flex.RetrieveCounts | src/api.ts:33-71 | For first non-transient attempt k: 1 + k + (1 if k < 5) calls, the first k delays, and the verdict of attempt k |
| Flex.ExhaustedAfterFiveTransients | src/api.ts:33-71 | Five transient polls: the exhaustion error, 6 calls, sleeps 1000, 2000, 4000, 8000, 16000 (one after the 5th too) |
| Flex.SucceedsAfterTransients | src/api.ts:33-57 | k < 5 transient polls and then a completed report: its record after 1 + k + 1 calls and k sleeps |
| Flex.FatalStopsPolling | src/api.ts:59-67 | A fatal poll after k transient ones: its error unchanged after 1 + k + 1 calls, nothing more polled |
| Flex.LastEntryWins | src/api.ts:50-57 | A report's balance is that of the last entry of the first summary of the first statement, whatever entries precede it and whatever further summaries, statements and statement lists follow |
| Flex.MissingNodesAreFatal | src/api.ts:41-50 | Any report whose first FlexStatement has no EquitySummaryInBase, and any envelope whose Status is not Fail, is a field-access fault |
| Flex.FirstPollCompletes | src/api.ts:14-57 | The first poll returning a report with USD 13640.01 yields that record after two calls and no sleep |
| Budget.DatePart | src/budget.ts:44 | The date is the prefix of the timestamp before its first T, and contains no T |
| Budget.NotesKind | src/budget.ts:40-46 | The note ends in (Deposit) exactly for a deposit and in (Withdrawal) exactly otherwise |
| Budget.Adjustment | src/budget.ts:33-47 | No transaction exactly when the absolute difference is below 0.01; otherwise account, rounded minor-unit amount of the difference, date-only date, fixed payee, and the note "Balance adjustment from Interactive Brokers (Deposit)" when the difference is positive, "(Withdrawal)" otherwise |
| Budget.AdjustmentAmountSign | src/budget.ts:35-43 | A posted amount is at least 1 minor unit for a deposit and at most -1 for a withdrawal |
| Budget.Recorder.constructor | src/budget.ts:6-59 | A fresh recorder has the given script and an empty trace |
| Budget.Recorder.Init | src/budget.ts:12-16 | Records init with server URL, password and ./data; answers the scripted fault |
| Budget.Recorder.DownloadBudget | src/budget.ts:18 | Records downloadBudget of the budget id; answers the scripted fault |
| Budget.Recorder.ConvertCurrency | src/budget.ts:20-22 | Records the conversion call; answers with the currency model's result |
| Budget.Recorder.GetAccountBalance | src/budget.ts:27 | Records the balance read of the sync account; answers the scripted balance |
| Budget.Recorder.AddTransactions | src/budget.ts:50 | Records addTransactions with its list; answers the scripted fault |
| Budget.Recorder.Shutdown | src/budget.ts:57 | Records shutdown; answers the scripted fault |
| Budget.Attempt | src/budget.ts:11-52 | The try block appends exactly the reference trace and ends in the reference failure |
| Budget.Post | src/budget.ts:27-50 | The ledger read and the posting append exactly the reference trace of the end of the try block and end in its failure |
| Budget.UpdateBudget | src/budget.ts:6-59 | The whole step appends exactly the reference trace, ending in shutdown, and ends in the reference outcome |
| Budget.PostingOrdered | src/budget.ts:27-50 | The end of the try block starts with the ledger read, keeps the call order, and never calls shutdown |
| Budget.TryBlockOrdered | src/budget.ts:11-52 | The try block starts with init, keeps the fixed call order, and never calls shutdown |
| Budget.CallOrder | src/budget.ts:12-57 | Calls keep the order init, downloadBudget, convertCurrency, getAccountBalance, addTransactions, shutdown, none twice; shutdown always last |
| Budget.ShutdownExactlyOnce | src/budget.ts:53-58 | Shutdown occurs exactly once on every path; the outcome is shutdown's failure if any, otherwise the try block's, unchanged |
| Budget.SameCurrencyNoConversion | src/budget.ts:20-25 | Matching currencies: the converter is never called |
| Budget.ConversionCalledOnce | src/budget.ts:20-22 | Differing currencies: exactly one conversion of the balance for the pair, right after the download; its failure is rethrown unchanged, with shutdown following and no ledger read |
| Budget.InSyncPostsNothing | src/budget.ts:35-38 | Absolute difference below 0.01: no addTransactions, and the step resolves unless shutdown fails |
| Budget.AdjustmentPosted | src/budget.ts:40-50 | Otherwise exactly one addTransactions, just before shutdown, for the sync account with the one adjustment computed from the converted balance |

## Left out

- HTTP transport and markup parsing: each call's reply is an input already parsed, marked malformed, or rejected. The Flex calls are recorded by their parameters (`Flex.Call`: the token with the query id or the reference code), not as URL text; the rate-service URL is rendered by `Currency.PairUrl` but never sent.
- Flex.GetAccountBalance: requires a scripted reply for each of the 5 possible polls, because the script stands for the service. Replies after the loop stops are never read.
- Sleeping (`delay` in src/utils, not part of this model): each sleep is a `Sleep(ms)` event in the log.
- Logging: it has no behavioural effect.
- src/index.ts: straight-line glue that calls getConfig, getAccountBalance and updateBudget in turn and exits non-zero on error.
- IEEE-754 arithmetic: amounts are `real`. `parseFloat` is an input function. `Math.round` and the ledger's amount conversions follow the test doubles (`round(x*100)`, `n/100`). `NaN` rates and totals are not modelled.
- Flex.LastEquityEntry: an entry is modelled with both its `currency` and `total` attributes. An entry that lacks one, which in the source yields `undefined` or `NaN` rather than an error, is not modelled.
- Parser output shapes beyond the schema, such as an envelope element carrying attributes or a child list that is present but empty, are not distinguished. An absent child and an empty child list both stand for a missing node.
- Currency.ConvertCurrency: a rate-service body that is not an object is not modelled. Its fields are read as optional values.
- The Actual Budget SDK: its calls are recorded and answered from a script. Its data directory, network and storage are not modelled.
- The date: `new Date().toISOString()` is the input `now`. Only the `split('T')[0]` is modelled.
