# Accounting and evidence protocols of RinCodeBench

This project models the durable protocols on which a RinCodeBench result rests, and proves what each of
them keeps over whole runs, with crashes and interleavings:

* the **provider budget ledger**, an append-only log with a high-water record, and the provider wrapper
  that reserves money before each call and settles it after (`BudgetLog`, `BudgetLedger`, `BudgetSafety`,
  `BudgetMoney`, `BudgetGrants`, `BudgetGuard`);
* the **worst-case cost estimate** and the **admission** of a paid campaign, composed with the ledger and
  with the harness's retry quota (`CostEstimate`, `RetryRanking`, `CostBound`, `CostExact`, `CostAttained`,
  `Admission`, `AdmissionSafety`, `AdmissionAttempts`, `CampaignRetries`);
* the **experiment plan** and its second derivation from the frozen manifest (`Records`, `Plan`,
  `PlanShape`, `CanonicalJson`, `Manifest`, `ManifestAgreement`);
* the **comparison-block harness** with symmetric retries, quota claims, resume and rebuild, and the
  reducer that validates its files again (`Artifacts`, `Harness*`, `Reducer`);
* the runtime **call ledger**, its health file, and the validator of that file (`CallLedger`,
  `CallLedgerSafety`, `HealthFile`, `HealthFileSafety`);
* the **prompt-cache planner** (`CachePlan`).

`Outcome` and `Sequences` hold what all of them use.

`dafny verify dfyconfig.toml` checks everything.

## How to read it

Code that works by steps is a method or a class method, proved to perform exactly a specification
function; what the program promises is then proved about that function over all runs. A durable operation
is specified by the ordered sequence of its writes, so that a crash is any prefix of it. Every process that
takes a lock is one atomic step; the call ledger is interleaved at the granularity of its lock sections and
queue operations. Money is `real`. A digest that only identifies a value is that value; where digests order
things (the trials of a block) or name an experiment, the digest is an arbitrary function. Fresh ids, trial
outcomes, timeouts and failing writes are inputs.

Main results, with the member that states each:

| promise | member |
|---|---|
| the hard cap holds in every reachable state, and exactly when | `BudgetMoney.HardCapHolds`, `BudgetMoney.CapHoldsExactly` |
| a log is accepted exactly when it extends the recorded one, and any crash recovers | `BudgetSafety.HighWaterDecides`, `BudgetSafety.CrashRecovery` |
| one terminal event for each ended call, under every interleaving | `BudgetGuard.GuardedCalls`, `BudgetGuard.NothingLost` |
| the estimate bounds every run within the plan, and exactly when | `CostBound.EstimateIsUpperBound`, `CostExact.EstimateBoundsExactly` |
| an admitted campaign is never refused for the hard cap | `AdmissionSafety.AdmissionIsSound`, `CampaignRetries.CampaignIsNeverStopped` |
| the ceiling of requests is the one a campaign can reach, and when it never does | `AdmissionAttempts.CeilingIsExact`, `AdmissionAttempts.NeverOutOfAttempts` |
| a reservation is granted exactly if estimate, limits, counts and money allow it | `BudgetGrants.GrantedExactly`, `BudgetGrants.EstimatesFitReservations` |
| the two plan derivations coincide | `ManifestAgreement.DerivationsCoincide` |
| summaries are one function of records and claims after any crashes | `HarnessRuns.CrashAnywhere` |
| no recorded attempt changes, grows or runs again | `HarnessRuns.RecordsNeverChange`, `HarnessPartial.TriedIsFrozen`, `HarnessRuns.NothingRunsTwice` |
| records and summaries say what the trials came to, and a completed run is accepted | `HarnessWorlds.RecordsSayWhatHappened`, `HarnessWorlds.SummariesSayWhatHappened`, `HarnessWorlds.CompletedRunIsAccepted` |
| resume check and reducer agree | `HarnessResults.HarnessAndReducerAgree` |
| a changed summary or claim is noticed, and a run puts it back | `HarnessTamper.OnlyTheHarnessFilesPass`, `HarnessTamper.ReplacedClaims`, `HarnessRepair.RunRepairs` |
| a resolved block has only valid pairs | `HarnessResults.ResolvedPairsAreValid` |
| loss is never reported as healthy, and exactly when a clean run loses | `CallLedgerSafety.NoSilentLoss`, `CallLedgerSafety.DegradedIffLeftEarly` |
| counts and reports are those of the appends | `CallLedgerSafety.CountsAreAppends`, `CallLedgerSafety.ReportsAreExact` |
| the health file reads back after any writes, and says exactly what was reported | `HealthFileSafety.RoundTrip`, `HealthFileSafety.EntriesAreExact` |
| the cache plan keeps its budget, exactly when, and its meaning | `CachePlan.PlanExceedsExactly`, `CachePlan.StripRestores` |

## Where the code does less than one might expect

Each of these comes with its exact condition, and most with an input that shows it.

* `reserve` accepts an empty trial id or request digest, which the scoped reader then rejects for ever:
  `BudgetSafety.EmptyIdentityIsGranted` is such a request, `BudgetSafety.EmptyIdentityIsFinal` the condition.
* The hard cap needs open reservations to be priced at least at the current rates. One made under cheaper
  rates settles over the cap without any violation (`BudgetMoney.CheaperReservationBreaksCap`). Whatever
  the log, a run exceeds the cap at most by what its open reservations lack (`BudgetMoney.HardCapHolds`);
  they lack nothing if and only if every run keeps every cap that the log is within
  (`BudgetMoney.CapHoldsExactly`); and for one fixed cap, runs that only end reservations keep it if and
  only if what is charged and what is lacking fit under it (`BudgetMoney.EndingsKeepCapExactly`).
* A block counts once among the retry candidates, but a policy may permit more than two attempts of a
  block. The estimate bounds every run within the plan if and only if, on every track, blocks are attempted
  at most twice, or at most one retry is permitted, or the dearest blocks, as many as may be retried, cost
  the same (`CostExact.EstimateBoundsExactly`, `CostExact.TotalsBoundExactly`). A campaign the suite's
  classes accept whose run costs seven against an estimate of six is `CostExact.ThirdAttemptEscapes`.
* Retries are ranked by cost, so the reported calls, input tokens and output tokens of a track cover every
  choice of retries if and only if the chosen blocks come to as much, in that count, as the first blocks
  ranked by the count itself (`CostExact.CountsCoveredExactly`); `CostExact.CheaperBlockMakesMoreCalls` is a
  campaign whose reported calls fall short.
* For the same reason the reported number of requests bounds every run within the plan if and only if, on
  every track, the selected retries make as many calls as the first blocks ranked by calls, and, where
  blocks may be attempted more than twice, those make the same number of calls
  (`CostAttained.RequestsBoundExactly`). Then a campaign is never refused for its lifetime
  ceiling (`AdmissionAttempts.NeverOutOfAttempts`).
* The reducer's check of a block result alone also accepts a result for an earlier attempt than the
  selected one; beside the other summaries and the claims it accepts only the one on file
  (`HarnessTamper.ReplacedResult`, `HarnessTamper.OnlyTheHarnessFilesPass`). The resume check
  compares everything but the findings (`HarnessRepair.ResumeNoticesSummaries`,
  `HarnessRepair.ResumeNoticesResult`).
* A pair's file is named by its axis and not by its variants. Two pairs of a pack with one axis overwrite
  each other: such a block is never resumable and the reducer never accepts it. Neither is a block that a
  crash left with a half recorded attempt, since no later run adds to an attempt that has any record.
  Together these are the exact condition (`HarnessResults.HarnessAndReducerAgree`); every block with two
  variants can get there (`HarnessPartial.CrashSpoilsBlock`, `HarnessPartial.HalfRecordedIsForever`), and
  `HarnessWitness` has a compiled plan for each.
* The call ledger's writer can exit between a look at an empty queue and the close request while a line is
  appended; the line is lost and reported, and `close` raises nothing (`CallLedgerSafety.ExitRacesWithAppend`).
  In a run without a failure the verdict is degraded if and only if the writer left so
  (`CallLedgerSafety.DegradedIffLeftEarly`). The module's own documentation says that loss surfaces as an
  error; here only the health entry shows it.
* The ledger's reader accepts a health file with an empty table of ledgers and the evidence validator does
  not; they agree on every other file (`HealthFileSafety.ValidatorsAgree`).
* A negative number of breakpoints bounds nothing: for each, some request gets any number of markers
  (`CachePlan.NegativeBudgetIsUnbounded`). More markers than the budget, a negative one counting as none,
  are placed if and only if it is negative and there are tools or a markable message among its places
  (`CachePlan.PlanExceedsExactly`, `CachePlan.NegativeBudgetPlaces`).

## Model

| member | source | states |
|---|---|---|
| `BudgetLog.WellFormedMeansConsistent` | benchmarks/rincodebench/budget.py:898-923 | the reader accepts exactly the logs with known kinds in which no id is reserved twice, ended twice, or ended before it was reserved |
| `BudgetLog.ReadLedgerState` | benchmarks/rincodebench/budget.py:898-943 | the loop over the log finds its attempts, charge, open reservations and blocked flag, or the first defective event |
| `BudgetLog.ReadScopedState` | benchmarks/rincodebench/budget.py:946-991 | attempts by logical call, logical calls by trial and additional attempts after the baseline, and exactly when the reader raises |
| `BudgetLog.AttemptConservation` | benchmarks/rincodebench/budget.py:959-991 | reservations after the baseline are the distinct logical calls summed over trials plus the additional attempts |
| `BudgetGrants.ReadableExactly` | benchmarks/rincodebench/budget.py:946-991 | the scoped reader accepts exactly the reservations that name trial and request and whose recorded call, ordinal and repeat flag are what the earlier ones say |
| `BudgetLedger.CostMonotone` | benchmarks/rincodebench/budget.py:121-131 | with non-negative rates more tokens never cost less |
| `BudgetLedger.ProviderBudgetLedger.ScreenRetries` | benchmarks/rincodebench/budget.py:217-253 | the limits on logical calls, attempts for a call and additional attempts |
| `BudgetLedger.ProviderBudgetLedger.ScreenReservation` | benchmarks/rincodebench/budget.py:209-258 | when a reservation is granted, and when it is refused for the cap, the lifetime ceiling or blocked accounting |
| `BudgetLedger.ProviderBudgetLedger.Reserve` | benchmarks/rincodebench/budget.py:167-280 | the durable writes of a reservation, exactly when it succeeds, and exactly when it fails for the hard cap |
| `BudgetGrants.GrantedExactly` | benchmarks/rincodebench/budget.py:167-280 | a reservation changes the log exactly if the ledger opens and explicit inequalities on estimate, ceilings, attempts, calls and money hold, and what it then records |
| `BudgetGrants.EstimatesFitReservations` | benchmarks/rincodebench/budget.py:186-189 | on every run, crashes included, each added reservation was grantable by those inequalities, and its request's estimate is at most the input ceiling it recorded |
| `BudgetLedger.ProviderBudgetLedger.Settle` | benchmarks/rincodebench/budget.py:282-327 | the durable writes of a settlement and exactly when it raises nothing |
| `BudgetLedger.ProviderBudgetLedger.Fail` | benchmarks/rincodebench/budget.py:329-347 | the durable writes of a failure, and none for a reservation that is not open |
| `BudgetLedger.ProviderBudgetLedger.TakeSnapshot` | benchmarks/rincodebench/budget.py:349-377 | a snapshot of the log, taken after opening it |
| `BudgetLedger.ProviderBudgetLedger.Locked` | benchmarks/rincodebench/budget.py:380-389 | opening succeeds exactly on the accepted disks and leaves the record current |
| `BudgetLedger.ProviderBudgetLedger.AppendEvent` | benchmarks/rincodebench/budget.py:391-397 | the event is durable before the high-water record |
| `BudgetLedger.ProviderBudgetLedger.ValidatePrefix` | benchmarks/rincodebench/budget.py:399-420 | the approval prefix check |
| `BudgetLedger.ProviderBudgetLedger.ValidateOrBootstrapHighWater` | benchmarks/rincodebench/budget.py:422-467 | the high-water check, rolling forward, and the first record |
| `BudgetLedger.ProviderBudgetLedger.WriteHighWater` | benchmarks/rincodebench/budget.py:469-515 | the record describes the whole log |
| `BudgetLedger.Completed` | benchmarks/rincodebench/budget.py:380-397 | a completed operation leaves the log extended by its event and the record current |
| `BudgetSafety.CrashesAreInvisible` | benchmarks/rincodebench/budget.py:391-397 | a run cut by crashes leaves exactly the log of its effective operations |
| `BudgetSafety.HighWaterDecides` | benchmarks/rincodebench/budget.py:422-449 | with a record on disk a log is accepted exactly when it is well-formed, matches the approval prefix and extends the recorded sequence |
| `BudgetSafety.CrashRecovery` | benchmarks/rincodebench/budget.py:380-397 | after any crashes the next opening accepts the ledger, keeps every event and rolls the record forward |
| `BudgetSafety.MissingRecordIsFinal` | benchmarks/rincodebench/budget.py:450-453 | under an approval no run loses the high-water record, and a ledger without it is never changed again |
| `BudgetMoney.HardCapHolds` | benchmarks/rincodebench/budget.py:254-258 | on every run from every log, charged money, open reservations and the external reserve stay within the cap, up to what the reservations open at the start lack at the current rates and what violating settlements charged beyond their reservations |
| `BudgetMoney.CapHoldsExactly` | benchmarks/rincodebench/budget.py:292-323 | open reservations are priced at the current rates if and only if every run keeps every cap that the log is within |
| `BudgetMoney.EndingsKeepCapExactly` | benchmarks/rincodebench/budget.py:282-347 | for a fixed cap: every run that only settles and fails keeps it if and only if charges, what open reservations lack, and the reserve are under it |
| `BudgetMoney.CheaperReservationBreaksCap` | benchmarks/rincodebench/budget.py:292-323 | a concrete settlement without violations that crosses the cap |
| `BudgetMoney.MoneyConserved` | benchmarks/rincodebench/budget.py:924-924 | committed money is what ended calls were charged plus what open reservations hold |
| `BudgetSafety.BlockedForever` | benchmarks/rincodebench/budget.py:209-212 | once accounting is blocked no run ever reserves again |
| `BudgetSafety.NegativeUsageBlocks` | benchmarks/rincodebench/budget.py:289-291 | settling negative usage charges the whole reservation, and nothing is ever reserved again |
| `BudgetSafety.ReservationsAreScreened` | benchmarks/rincodebench/budget.py:179-200 | whatever requests arrive, every reservation a run adds has ceilings from one to the campaign's, holds exactly their price, and at most the price of the greatest request |
| `BudgetSafety.CeilingsHold` | benchmarks/rincodebench/budget.py:213-253 | logical calls for a trial, attempts for a call, additional and lifetime attempts stay within their limits in every reachable state |
| `BudgetSafety.ReadersAgree` | benchmarks/rincodebench/budget.py:259-279 | every log a run leaves, and every prefix of it, is accepted; what it records is what the scoped reader recomputes; the scoped reader accepts it exactly when no identity is empty |
| `BudgetSafety.EmptyIdentityIsFinal` | benchmarks/rincodebench/budget.py:960-965 | the scoped reader accepts the log after a granted reservation exactly when neither identity is empty, and otherwise no later reservation is granted |
| `BudgetSafety.EmptyIdentityIsGranted` | benchmarks/rincodebench/budget.py:167-280 | a concrete request with an empty trial id that is granted on a new ledger |
| `BudgetGuard.ReserveBeforeDispatch` | benchmarks/rincodebench/budget.py:672-756 | nothing is dispatched outside a scope, above its output ceiling, or without a granted reservation that is open and holds the scope's ceilings, which the estimate and the call's token limit fit |
| `BudgetGuard.ReadStream` | benchmarks/rincodebench/budget.py:622-638 | a stream counts as its last usage report and any error flag |
| `BudgetGuard.SettleUsage` | benchmarks/rincodebench/budget.py:769-818 | which single ledger operation ends a call, and exactly when it raises for missing usage, for inconsistent usage, or not at all |
| `BudgetGuard.EndingWritesOneTerminal` | benchmarks/rincodebench/budget.py:594-600 | every way a call ends writes one terminal event for its open reservation, with the reported tokens, the charge, and the ceilings they exceed |
| `BudgetGuard.RunIsSound` | benchmarks/rincodebench/budget.py:565-649 | under every interleaving, with deaths of processes at any write, the calls account for all open and ended reservations |
| `BudgetGuard.GuardedCalls` | benchmarks/rincodebench/budget.py:565-649 | the delegate runs only while its own reservation is open, every ended call wrote exactly one terminal event, and open reservations are the pending calls |
| `BudgetGuard.NothingLost` | benchmarks/rincodebench/budget.py:594-648 | while no process dies, every exit path ends its reservation |
| `CostBound.TimesTokens` | benchmarks/rincodebench/campaign.py:590-599 | cost is linear in the tokens: `n` alike calls cost `n` times one |
| `CostEstimate.MostExpensive` | benchmarks/rincodebench/campaign.py:562-565 | no candidate costs more than the chosen one |
| `CostEstimate.ScanTrack` | benchmarks/rincodebench/campaign.py:510-542 | planned totals, one retry candidate for each block and one call candidate for each pack, or the division error |
| `CostEstimate.ScanTracks` | benchmarks/rincodebench/campaign.py:505-549 | totals and chosen retries over all tracks |
| `CostEstimate.EstimateWorstCaseCost` | benchmarks/rincodebench/campaign.py:488-587 | exactly when an estimate exists, and what it adds up |
| `RetryRanking.SortByCostSorts` | benchmarks/rincodebench/campaign.py:544-548 | candidates are ordered by falling cost and stay the same candidates |
| `RetryRanking.TopDominates` | benchmarks/rincodebench/campaign.py:543-549 | the first `k` candidates in that order cost at least as much as any `k` of them, and some `k` cost exactly that |
| `RetryRanking.CoveredBound` | benchmarks/rincodebench/campaign.py:543-549 | repeated retries stay within the first `k` candidates if blocks are attempted at most twice, `k` is at most one, or those candidates cost the same |
| `RetryRanking.Escape` | benchmarks/rincodebench/campaign.py:530-549 | otherwise some permitted retries cost more than the first `k` candidates |
| `CostBound.PlannedIsEveryBlock` | benchmarks/rincodebench/campaign.py:512-532 | the planned totals are those of all blocks together |
| `CostBound.RunCost` | benchmarks/rincodebench/campaign.py:500-567 | a run within the plan whose retries are covered costs at most the campaign totals and its repeated calls at the dearest price |
| `CostBound.EstimateIsUpperBound` | benchmarks/rincodebench/campaign.py:488-587 | with covered retries, every run with at most the planned calls in each trial, any number of attempts of a block the policy permits, at most the capped retries in each track and at most the capped extra attempts costs at most the estimate |
| `CostExact.TotalsBoundExactly` | benchmarks/rincodebench/campaign.py:530-553 | campaign totals and dearest repeats bound every run within the plan if and only if the retries of every track are covered |
| `CostExact.EstimateBoundsExactly` | benchmarks/rincodebench/campaign.py:488-587 | the estimate bounds every run within the plan if and only if the retries of every track are covered |
| `CostExact.ClaimsAreAttained` | benchmarks/rincodebench/campaign.py:512-532 | every permitted choice of retries is used up by some run within the plan |
| `CostExact.ThirdAttemptEscapes` | benchmarks/rincodebench/campaign.py:543-549 | a suite its classes accept, with a run within the plan that costs more than the estimate |
| `CostExact.CountsCoveredExactly` | benchmarks/rincodebench/campaign.py:543-553 | for every track, reported calls, input tokens and output tokens cover every choice of single retries if and only if the chosen blocks come to as much as the first blocks ranked by that count |
| `CostExact.CheaperBlockMakesMoreCalls` | benchmarks/rincodebench/campaign.py:543-553 | a suite its classes accept whose reported calls do not cover retrying the cheaper block |
| `CostAttained.RequestsAreAttained` | benchmarks/rincodebench/campaign.py:555-568 | some run within the plan, with the selected retries and all additional attempts, makes exactly the reported requests, logical calls and additional attempts |
| `CostAttained.TokensAreAttained` | benchmarks/rincodebench/campaign.py:555-577 | some run within the plan uses exactly the reported tokens and costs exactly the reported USD and CNY |
| `CostAttained.TrialsAreCounted` | benchmarks/rincodebench/campaign.py:500-500 | the reported trials are the planned trials, each counted once |
| `CostAttained.RequestsBoundExactly` | benchmarks/rincodebench/campaign.py:543-568 | no run within the plan makes more requests than reported if and only if the selected retries of every track make as many calls as any permitted ones |
| `Admission.InspectLedger` | benchmarks/rincodebench/campaign.py:1230-1283 | exactly when inspection of an existing ledger succeeds, and what it establishes |
| `AdmissionSafety.NewCampaignMaySpend` | benchmarks/rincodebench/campaign.py:1230-1344 | a campaign without an approval may spend exactly on a ledger that opens, holds nothing open or unaccountable, was charged nothing negative, and leaves room for the estimate and two requests at the ceilings: the approval it writes always opens |
| `AdmissionSafety.ApprovedCampaignMaySpend` | benchmarks/rincodebench/campaign.py:1181-1352 | a campaign with a stored approval may spend exactly if the approval was given for its identity, requests and additional attempts, and the ledger still holds the approved events and has kept the ceilings |
| `Admission.OpenApproved` | benchmarks/rincodebench/campaign.py:1306-1344 | exactly when a ledger opens under an approval, and that it then agrees with it |
| `Admission.PrepareBudgetGuard` | benchmarks/rincodebench/campaign.py:1181-1352 | exactly when a campaign may spend, and what then holds, for a stored and for a new approval |
| `AdmissionSafety.ChargesStayReserved` | benchmarks/rincodebench/budget.py:292-323 | as long as accounting is complete, charges since the baseline stay within what was reserved since then |
| `AdmissionSafety.RunIsWithinPlan` | benchmarks/rincodebench/harness.py:275-310 | the ledger's limits keep a campaign's requests within its plan |
| `AdmissionSafety.ReservedFitsEstimate` | benchmarks/rincodebench/campaign.py:1218-1219 | all reservations of a campaign, probes included, fit in the estimate and two requests at the maximum |
| `AdmissionSafety.AdmissionIsSound` | benchmarks/rincodebench/campaign.py:1284-1293 | on every run of an admitted campaign with covered retries, crashes included, no reservation within the trial, claim and retry limits is refused for the hard cap |
| `AdmissionAttempts.CeilingIsExact` | benchmarks/rincodebench/campaign.py:1210-1219 | the ceiling of a new approval leaves exactly the requests of a run with the selected retries and all additional attempts, and two for the probe |
| `AdmissionAttempts.NeverOutOfAttempts` | benchmarks/rincodebench/budget.py:213-216 | on every run of an admitted campaign whose selected retries cover the calls, no request within the other limits is refused because the lifetime ceiling is reached |
| `CampaignRetries.RetriesWithinQuota` | benchmarks/rincodebench/artifacts.py:174-216 | in every store in order, no block was retried more often than its attempts allow, and all together no more often than the quota |
| `CampaignRetries.ClaimsAreValid` | benchmarks/rincodebench/harness.py:121-137 | however a campaign's experiments run and crash, their retry claims are ones the estimate prices |
| `CampaignRetries.CampaignIsNeverStopped` | benchmarks/rincodebench/campaign.py:1284-1293 | an admitted campaign whose experiments run under the harness's quota never has a request within the ledger's limits refused for the hard cap |
| `CampaignRetries.CampaignNeverRunsOut` | benchmarks/rincodebench/budget.py:213-216 | nor, with covered calls, for the lifetime ceiling |
| `Plan.CheckPairs` | benchmarks/rincodebench/plan.py:98-110 | every pair names two variants that differ exactly on its axis |
| `Plan.CompileTasks` | benchmarks/rincodebench/plan.py:112-165 | the nested loops emit the trials, blocks and pairs of every task and repetition in order |
| `Plan.CompileSuites` | benchmarks/rincodebench/plan.py:167-184 | the retrieval cases and query blocks in order |
| `Plan.CompilePlan` | benchmarks/rincodebench/plan.py:91-195 | past the check of its identity, a plan exists exactly when the packs match and all pairs fit, and what it is |
| `CanonicalJson.SortOrders` | benchmarks/rincodebench/plan.py:153-164 | trials are ordered by digest and stay the same trials |
| `PlanShape.KnownBlock` | benchmarks/rincodebench/plan.py:112-165 | what the whole plan says about a block is what its own pack, task and repetition emit, once |
| `PlanShape.EveryBlockIsWellShaped` | benchmarks/rincodebench/plan.py:133-165 | a block's ordered trials are a permutation of exactly its own planned trials, whose memberships are those of the block's pairs |
| `PlanShape.MembershipsAreExact` | benchmarks/rincodebench/plan.py:142-150 | a trial belongs to exactly the pairs that name its variant |
| `PlanShape.TrialKeysAreDistinct` | benchmarks/rincodebench/plan.py:134-151 | no two trials of a plan share a key |
| `PlanShape.TrialCount` | benchmarks/rincodebench/plan.py:97-152 | the trial count is repetitions times the sum over packs of tasks times variants |
| `PlanShape.PairsArePlanned` | benchmarks/rincodebench/plan.py:118-132 | a plan's pairs are exactly the declared ones, control and treatment as declared, for every task and repetition |
| `PlanShape.OrderIsDrawn` | benchmarks/rincodebench/plan.py:153-164 | the trials of a block stand in the order of the digests of experiment, block and variant |
| `PlanShape.RetrievalIsPlanned` | benchmarks/rincodebench/plan.py:167-184 | a plan's cases are exactly the queries of its suites under each configuration, and query blocks list them in order |
| `Manifest.CompileExperiment` | benchmarks/rincodebench/plan.py:78-195 | a plan exists exactly when the packs match, the identity holds no forbidden field name and no absolute path, and all pairs fit; its id is the digest of the identity |
| `CanonicalJson.PlanValueExactly` | benchmarks/rincodebench/canonical.py:76-96 | a value may enter a plan exactly if nothing at any depth inside it has a forbidden key or is an absolute path |
| `Manifest.DeriveManifestPlan` | benchmarks/rincodebench/plan.py:262-456 | exactly when the derivation raises, and what it derives |
| `Manifest.ManifestMatchesIdentity` | benchmarks/rincodebench/plan.py:239-259 | a manifest matches exactly when it derives and carries the derived lists |
| `ManifestAgreement.DerivationsCoincide` | benchmarks/rincodebench/plan.py:97-195 | on a compiled manifest the derivation yields the compiler's trials, ordered blocks, pairs, cases and query blocks |
| `ManifestAgreement.OnlyThePlanPasses` | benchmarks/rincodebench/plan.py:239-259 | a manifest with a compiled identity passes exactly with the compiled lists |
| `Artifacts.ArtifactStore.AppendImmutable` | benchmarks/rincodebench/artifacts.py:82-107 | a record is written once; the same again is a no-op and a different one is refused |
| `Artifacts.ArtifactStore.CountClaims` | benchmarks/rincodebench/artifacts.py:282-304 | the loop counts all claims |
| `Artifacts.ArtifactStore.ClaimRetry` | benchmarks/rincodebench/artifacts.py:174-216 | a claim is granted exactly when it exists or quota is left, and is written once |
| `HarnessRun.RunTrials` | benchmarks/rincodebench/harness.py:168-215 | all trials of an attempt run before any is recorded, and drift makes an infrastructure failure |
| `HarnessRun.RecordTrials` | benchmarks/rincodebench/harness.py:217-232 | every record of the attempt is written in order |
| `HarnessRun.CollectRefs` | benchmarks/rincodebench/harness.py:1022-1041 | the references of recorded attempts, attempt by attempt |
| `HarnessRun.FinishBlock` | benchmarks/rincodebench/harness.py:334-420 | the result, trial and pair summaries in their order |
| `HarnessRun.TakeAttempt` | benchmarks/rincodebench/harness.py:122-237 | one turn of the loop: claim, reuse or execute, and whether the attempt resolves the block |
| `HarnessRun.RunComparisonBlock` | benchmarks/rincodebench/harness.py:105-272 | the whole loop takes exactly the specified steps |
| `HarnessResume.IsResumable` | benchmarks/rincodebench/harness.py:610-730 | the resume check decides exactly the stated agreement of files |
| `HarnessResume.RebuildComparisonBlock` | benchmarks/rincodebench/harness.py:847-938 | when summaries are rewritten, from which attempt, and when that suffices |
| `HarnessResume.RunBlock` | benchmarks/rincodebench/harness.py:59-76 | skip, rebuild or run |
| `HarnessSafety.StepKeepsStore` | benchmarks/rincodebench/harness.py:121-272 | a good step of any block keeps the invariant of the whole store |
| `HarnessCrash.RunIsGood` | benchmarks/rincodebench/harness.py:105-272 | every run, rebuilt or not, takes only good steps |
| `HarnessRuns.CrashAnywhere` | benchmarks/rincodebench/harness.py:105-272 | for every sequence of runs with crashes between any two writes, summaries stay one fixed function of records and claims, and claims stay within the quota |
| `HarnessRuns.SelectedIsFirstResolving` | benchmarks/rincodebench/harness.py:121-137 | a finished block has selected its first resolving attempt, else the last one reached, and its claims are exactly the second to the selected attempt |
| `HarnessRuns.ClaimsAreExact` | benchmarks/rincodebench/artifacts.py:174-216 | when all blocks are finished, claims are exactly the second to the selected attempts, within the quota |
| `HarnessRuns.RecordsNeverChange` | benchmarks/rincodebench/artifacts.py:82-107 | a recorded attempt never changes through runs and crashes |
| `HarnessRuns.NothingRunsTwice` | benchmarks/rincodebench/harness.py:138-166 | no attempt with any record is executed again, and a block with a result is never run again |
| `HarnessWorlds.RecordsSayWhatHappened` | benchmarks/rincodebench/harness.py:168-215 | through all runs and crashes, every record says what one of the runs saw: the status, verification and findings of a trial that ran under its own settings, and an infrastructure failure for one that drifted |
| `HarnessWorlds.SummariesSayWhatHappened` | benchmarks/rincodebench/harness.py:345-392 | the trial summaries of a finished block say what the selected attempts came to |
| `HarnessWorlds.ResolvedExactly` | benchmarks/rincodebench/harness.py:164-166 | a block is resolved exactly if every variant of the selected attempt passed, failed or timed out at its task |
| `HarnessWorlds.RunIsSymmetric` | benchmarks/rincodebench/harness.py:168-237 | a run executes the trials of an attempt together, all of them, in the plan's order, and records none before the last has run |
| `HarnessWorlds.CompletedRunIsAccepted` | benchmarks/rincodebench/harness.py:59-76 | a run that is not cut short, of a block without a half recorded attempt, leaves every attempt complete, and the block accepted unless two pairs share an axis |
| `HarnessPlan.CompiledJobIsOk` | benchmarks/rincodebench/plan.py:97-165 | every block of a compiled plan is one the harness can run |
| `HarnessPlan.SecondRunExecutesNothing` | benchmarks/rincodebench/harness.py:59-76 | after a completed run a second one executes no trial, and does nothing at all when attempts are complete and axes distinct |
| `HarnessResults.RefsCount` | benchmarks/rincodebench/harness.py:1022-1041 | one reference for each variant and attempt exactly when all are recorded, and then those the reducer expects |
| `HarnessResults.HarnessAndReducerAgree` | benchmarks/rincodebench/harness.py:610-730 | resume check and reducer accept a finished block exactly when its attempts are complete and its axes distinct |
| `HarnessPartial.TriedIsFrozen` | benchmarks/rincodebench/harness.py:138-166 | once an attempt has any record, no run of any block, crashes included, adds to it |
| `HarnessPartial.HalfRecordedIsForever` | benchmarks/rincodebench/harness.py:138-237 | a block with a half recorded attempt is never resumable and never accepted, whatever runs follow |
| `HarnessPartial.CrashSpoilsBlock` | benchmarks/rincodebench/harness.py:217-232 | every block with at least two variants gets there by one crash and one completed run |
| `HarnessPartial.SharedAxisSpoilsBlock` | benchmarks/rincodebench/harness.py:393-420 | a block with two pairs on one axis is finished by its first completed run and never accepted |
| `HarnessWitness.SharedAxisIsNeverAccepted` | benchmarks/rincodebench/plan.py:97-165 | a concrete plan that compiles, with such a block |
| `HarnessWitness.CrashedBlockIsNeverAccepted` | benchmarks/rincodebench/harness.py:105-272 | a concrete plan that compiles, with distinct axes, and a crash that leaves its block finished and never accepted |
| `HarnessResults.NoClaimFindings` | benchmarks/rincodebench/reducer.py:797-862 | the reducer has no finding on the claims of finished blocks |
| `HarnessResults.ResolvedPairsAreValid` | benchmarks/rincodebench/harness.py:393-410 | a resolved block has observed settings equal to the declared ones for every arm and only valid pairs |
| `HarnessResults.ResolvedDifference` | benchmarks/rincodebench/harness.py:393-410 | the recorded difference of a resolved pair is the control's and the treatment's setting on the axis |
| `Reducer.CheckBlock` | benchmarks/rincodebench/reducer.py:865-925 | the reducer's check of a block result |
| `Reducer.CheckTrial` | benchmarks/rincodebench/reducer.py:575-640 | the reducer's check of a trial summary |
| `Reducer.ValidateRetryClaims` | benchmarks/rincodebench/reducer.py:797-862 | exactly the missing, altered, unexpected or excess claims are found |
| `HarnessTamper.ReplacedTrial` | benchmarks/rincodebench/reducer.py:575-640 | in place of a trial summary of a finished, complete block the reducer accepts exactly the record the harness wrote |
| `HarnessTamper.ReplacedResult` | benchmarks/rincodebench/reducer.py:865-925 | in place of the result it accepts alone exactly the results for attempts up to the selected one, and beside the other summaries exactly the one on file |
| `HarnessTamper.ReplacedPair` | benchmarks/rincodebench/reducer.py:928-1010 | in place of a pair summary it accepts exactly the one on file |
| `HarnessTamper.OnlyTheHarnessFilesPass` | benchmarks/rincodebench/reducer.py:575-640 | whatever summaries stand beside the same attempts and claims, the reducer accepts them if and only if they are the ones the harness wrote |
| `HarnessTamper.ReplacedClaims` | benchmarks/rincodebench/reducer.py:797-862 | any change of the claims of finished blocks is a finding |
| `HarnessRepair.ResumeNoticesSummaries` | benchmarks/rincodebench/harness.py:610-730 | the resume check notices any changed trial or pair summary, unless only a pair's findings change |
| `HarnessRepair.ResumeNoticesResult` | benchmarks/rincodebench/harness.py:610-730 | the resume check notices any changed result, unless only its findings change |
| `HarnessRepair.RunRepairs` | benchmarks/rincodebench/harness.py:847-938 | whatever is put in place of the summaries of a finished block so that it is not resumable, one run executes, records and claims nothing and puts back exactly what was there |
| `CallLedger.CallLedger.Append` | rincode/call_efficiency/ledger.py:70-84 | what one append does, and exactly when the line enters the queue |
| `CallLedgerSafety.CountsAreAppends` | rincode/call_efficiency/ledger.py:75-78 | on every run the ledger has counted each append made before the first close, whatever became of it, and each line whose batch was counted |
| `CallLedgerSafety.ReportsAreExact` | rincode/call_efficiency/ledger.py:102-106 | every health report of every run states the appends and the persisted lines counted when it was written |
| `CallLedgerSafety.JudgementIsExact` | rincode/call_efficiency/ledger.py:102-103 | a close judges healthy exactly if no failure was noted and every append is counted as persisted |
| `CallLedgerSafety.ClosedStaysClosed` | rincode/call_efficiency/ledger.py:71-90 | once a ledger is closed no run accepts or enqueues another line |
| `CallLedgerSafety.HealthyIsComplete` | rincode/call_efficiency/ledger.py:102-103 | a close judges healthy only if every accepted line is on disk and counted |
| `CallLedgerSafety.GetKeeps` | rincode/call_efficiency/ledger.py:115-137 | taking an item keeps every enqueued line accounted for, in order |
| `CallLedgerSafety.WriteKeeps` | rincode/call_efficiency/ledger.py:138-149 | a batch that is written, or fails half-way, keeps every enqueued line accounted for as on disk or dropped |
| `CallLedgerSafety.StepKeepsInv` | rincode/call_efficiency/ledger.py:70-153 | every atomic step of every thread keeps the account of all lines |
| `CallLedgerSafety.NoSilentLoss` | rincode/call_efficiency/ledger.py:70-153 | lines on disk are a prefix of the enqueued ones in order; a healthy verdict or report means that every accepted line is on disk; reported loss is at least the actual loss |
| `CallLedgerSafety.QueueIsBounded` | rincode/call_efficiency/ledger.py:127-137 | under every interleaving the queue stays within its capacity and a batch within its size |
| `CallLedgerSafety.DegradedIffLeftEarly` | rincode/call_efficiency/ledger.py:119-124 | in a run without a failure whose writer exited, the verdict is degraded, and lines are lost, if and only if the writer left on a close request while a line was queued; every finished close then says so and raises nothing |
| `CallLedgerSafety.ExitRacesWithAppend` | rincode/call_efficiency/ledger.py:119-124 | a clean close does not always drain the queue: a concrete interleaving |
| `HealthFile.CheckHealth` | scripts/verify_turn_evidence.py:123-176 | which files the evidence validator accepts |
| `HealthFileSafety.ValidatorsAgree` | scripts/verify_turn_evidence.py:123-176 | reader and validator accept the same files, except for an empty table |
| `HealthFileSafety.WriteKeepsFile` | rincode/call_efficiency/ledger.py:168-181 | after a write the file is readable, accepted, and differs in one entry |
| `HealthFileSafety.RoundTrip` | rincode/call_efficiency/ledger.py:215-249 | after any writes by any ledgers the file reads back and is accepted; counts never fall and degraded is sticky |
| `HealthFileSafety.EntriesAreExact` | rincode/call_efficiency/ledger.py:159-190 | after any writes an entry holds the greatest counts its ledger ever had or reported, is degraded exactly if it ever was, and names the last error |
| `HealthFileSafety.TotalsAreSums` | rincode/call_efficiency/ledger.py:235-249 | totals are the sums over the entries |
| `HealthFileSafety.LedgerReportsAreHonest` | rincode/call_efficiency/ledger.py:102-106 | every report a call ledger makes, under every interleaving, is one the file accepts |
| `CachePlan.ApplyCachePlan` | rincode/call_efficiency/cache.py:106-134 | the budgeted marking of tools, system message and last other messages |
| `CachePlan.StripCacheControl` | rincode/call_efficiency/cache.py:65-87 | the loop strips every message and tool |
| `CachePlan.PlanIsWithinBudget` | rincode/call_efficiency/cache.py:55-62 | with a budget that is not negative the plan keeps it, and is valid if it marks anything |
| `CachePlan.PlanMarkerCount` | rincode/call_efficiency/cache.py:106-134 | the exact number of markers placed: one for the tools and one for each markable message among its places |
| `CachePlan.PlanMarksTails` | rincode/call_efficiency/cache.py:106-134 | the markers are on the last tool and on the last block of each markable message among the plan's places, and nothing else changes |
| `CachePlan.PlanExceedsExactly` | rincode/call_efficiency/cache.py:106-134 | more markers than the budget, a negative one counting as none, are placed exactly when it is negative and there are tools or a markable message among its places |
| `CachePlan.NegativeBudgetPlaces` | rincode/call_efficiency/cache.py:119-132 | which messages a negative budget marks: the last system message, and all others but as many first ones as the budget is below zero |
| `CachePlan.NegativeBudgetIsUnbounded` | rincode/call_efficiency/cache.py:119-132 | for every negative budget and every number some unmarked request gets that many markers |
| `CachePlan.PlanMarksTheLast` | rincode/call_efficiency/cache.py:119-132 | with a budget for messages exactly the last system message is marked among those, and of the others an unmarked one precedes every marked one |
| `CachePlan.PlanIsIdempotent` | rincode/call_efficiency/cache.py:112-113 | planning again changes nothing |
| `CachePlan.StripRestores` | rincode/call_efficiency/cache.py:65-87 | stripping restores tools and messages, up to a string that became one text block |

## Left out

- File systems, locks, `fsync` and atomic replacement: each is one atomic step; a write of part of a line is not modelled.
- JSON text and hashing: values stand for their text, and digests are their own pre-image or an arbitrary function.
- Floating-point rounding: money is `real`; the tolerance of the approval prefix check is kept.
- Fields of events and records that no rule reads (model names, timestamps, counters of the tokenizer); the runtime and delivery states, metrics and artifact references of a trial are one field.
- BudgetGuard.ReserveBeforeDispatch: the digest of the dispatch options and the token estimate of a request are inputs; transport retry control of the wrapped provider is not modelled.
- Admission.PrepareBudgetGuard: the two ledger objects of the source share one file; here the second is built on the disk the first one left, and a concurrent writer between the two is not modelled. Approval files are parameters, and their text is not validated.
- AdmissionSafety.AdmissionIsSound: needs retries that the estimate covers, since without that the estimate is no bound; it assumes one experiment for each track, so that a trial id names one slot of the plan; it is about refusals for the hard cap, and AdmissionAttempts.NeverOutOfAttempts about the lifetime ceiling.
- Manifest.CompileExperiment: parts of definitions and specifications that only the digest depends on are one field, which the check for forbidden names reads as it is; of Python's lower-casing only what yields ASCII letters is kept.
- Manifest.DeriveManifestPlan: all exceptions are one failure; JSON numbers are integers, and Python's equality of `True` and `1` is not modelled.
- HarnessRun.RunComparisonBlock: works on stores that hold what a harness wrote under the same plan; corrupt or foreign files, which raise in the source, do not occur. The journal is not modelled, since nothing reads it back.
- Packs, timeouts and exceptions of trials: a trial's outcome is any function of its attempt.
- Retrieval-block execution: mirrors the comparison block with weaker resume rules.
- Scorecard arithmetic, bootstrap statistics, claim rules and report text: they read the records modelled here.
- CallLedger: ledgers without persistence, the list of recent records, and the daily file name; reading the counts and writing the health file are one step, and a join may time out at any moment.
- HealthFile: file ids and keys are strings, and the name of an error is any JSON value.
- CostExact.EstimateBoundsExactly: with extra attempts permitted, it asks for a planned trial of the dearest pack, which is what the extra attempts repeat; how often one call may be repeated is not part of the plan a run keeps.
- CachePlan: the decision which provider owns caching; JSON equality is structural.
