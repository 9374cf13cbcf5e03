# SignalEngine: a verified model of its core

SignalEngine turns events about tokens into a signal, a life-cycle state, a route, a risk decision, an execution
and a reconciliation, all persisted. This project models that pipeline and the stores around it in Dafny 4.11 and
proves what they promise over whole runs: with retries, crashes, restarts, late and duplicated events.

Verify with `dafny verify dfyconfig.toml`.

## What is modelled

**Orders, crashes and the book.** `Router`, `RiskEngine`, `PaperExecutors` and `Reconciler` decide, fill and settle one
order. `World` is every durable table as one value; an `Effect` is one committed write or one dispatch to an execution
adapter, and `After(w, es, k)` is what a process that dies after `k` effects leaves behind.
`Repository.StorageRepository` and `PipelineWorker.Worker` are the classes that update tables and snapshots in place;
each of their methods is proved to perform exactly the effects that the functions of `Pipeline` specify, in that order.
The other modules reason about those sequences: `OrderOrigins` about where an order comes from, `RiskRuns` about what
risk lets through, `VenueRuns` about which fill a position comes from, `AuditTrail` about decisions, reports and ledger;
`OrderLifecycle` about every prefix of every step, for the retry bound and the terminal states; `Books`, `CrashRecovery`
and `CrashWindows` about every crash point of a batch and of the recovery after it, for exactly-once; `Lingering` about
batches whose exception is caught, and the orders that they leave to a later recovery; `Lives` about whole runs of
batches that complete, raise or die and recoveries that complete or die; `BookRuns` and `AgreementRuns` about those
runs, for the exposure bounds and for the agreement between positions and portfolio; `Backlogs` and `Repayments` about
recoveries that find any number of orders at once, `RaisedRuns` about what that does to the same bounds, with
`TwiceSpent` as an instance on the default settings. Money is an exact real number, `round(x, n)` is half-even rounding
(`Rounding`), and a report is applied whatever its status, as in `execution/reconciliation.py`.

**The state machine.** `SignalEngine` merges payloads, scores and classifies; `StateEngine` derives and rate-limits;
`FsmRuns` follows the persisted state through the same runs with crashes.

**Features.** `FeatureStore`, `FeatureAggregator`, `RawEvents`, `OnchainSync`, `Cursors` and `FeatureReplay` hold the
stores and services as classes, with `Ordering` for queries with ORDER BY and LIMIT. `WindowRows` and `SlippageRows`
compare the incrementally kept rows with recomputation and `WindowSums` with the trades in them, `IngestionRuns` treats
duplicates and checkpoints, `IngestionCrashes` every prefix of the writes of one record, `ReplayFidelity` relates a
source repository to its replay, and `SlippageCurve` is the interpolation, over the stable sort of `StableSort`.

**Smaller algorithms.** `Allocator`, `WalletScores`, `SeenIds`, `BatchPoll`, `Discovery` and `Notifications`.

## Where the code differs from what one would expect

Each of these is proved, and the exact condition is given where there is one.

- Exactly-once holds only for stated crash points. Normal processing closes the ledger before it writes the book, so a
  crash in between loses the fill or half of it; recovery writes the book before it closes the order, so a crash in
  between applies the fill again, any number of times (`ExactlyOnceWindows`, `CrashDuringRecovery`, `RepeatedDeaths`).
- Recoveries are not checked by risk: one dispatches what it finds with the kill switch on and beyond every limit
  (`RecoveryUnchecked`).
- A batch closes its ledger with the amount that was permitted, a recovery with the amount that was executed
  (`BatchRecorded`, `RecoveryWrites`).
- The comment in `core/router.py` promises up to two percent of the liquidity, and 2,800 USD for a score of 0.7 on
  200,000 USD; the code gives one percent at most, and 800 USD there (`WantedAtMost`, `SuggestedForOne`).
- An order that a venue reports SUBMITTED is dispatched again when its batch dies before the closing ledger entry
  (`CrashAfterFill`).
- A process that dies between the position and the portfolio write, or an exception there, leaves the portfolio's
  counter one off for good; at every other crash point of a batch it survives (`LifeAgreesExactly`).
- `poll_once` catches what `process_events` raises and goes on without a recovery, so an exception between storing a
  report and closing the ledger (a lost connection to the report stream, say) leaves a FILLED order that no later batch
  sees in the portfolio. Any number of purchases can be sized on the same headroom like this, and the next recovery
  enters all of them: the exposure ceiling then holds exactly if together they fit under it, and the counter and the
  maximum exactly if their tokens are different and they fit under the maximum together (`BacklogCeilingExactly`,
  `BacklogAgreesExactly`, `RaisedPurchases`, `TwoRaisedPurchases`; `SpentTwice` is a run with the default limits). Both
  bounds hold over all runs in which no recovery starts with such an order (`ExposureCeiling`, `PositionBookAgreement`),
  and exactly which cuts leave one is `QuiescentExactly`.
- A fill whose report was not stored before the crash is lost if it was the order's first report; if an older report
  is stored and the ledger is open, recovery applies that one instead (`UnstoredFill`).
- A DISTRIBUTION candidate is also confirmed without weak structure when the token is in DISTRIBUTION already
  (`DistributionConfirmedExactly`).
- A minimum interval above 120 seconds freezes every new token in UNKNOWN (`UnknownLeftExactly`). `HANDOFF.md` still
  says that state is not persisted; the code persists it, and the model follows the code.
- A paper fill can be negative for slippage limits from 7694 bps on the DEX and 8697 bps on the CEX
  (`NegativeFillExactly`).
- A FAILED purchase opens a position (`ReportMovesBook`, `FailedBuyOpens`), and no EXIT ever releases exposure
  (`ExposureNeverReleased`, `SaturatedForGood`).
- A trade that arrives after the last trade of a window's last minute is missing from that row for good
  (`RowAgreesExactly`, `LateTradeLeavesStaleRow`); the latest slippage never has this problem
  (`LatestSlippageFresh`).
- The collector keeps a trade before classifying it, so one that does not classify makes every replay raise
  (`ReplayRaisesExactly`); a crash after the raw event leaves a trade without its fact, or with some of its
  rows only, and redelivery does not help (`InterruptedTrade`, `LostExactly`).
- A sell without an explicit side is stored as a sell and announced as an inflow, and a side text other than buy and
  sell is announced as it is (`DirectionAgreesExactly`).
- A cursor text that is not a number can stick for good (`TextCursorKeptExactly`).
- The allocator is not pro rata: each intent takes its weight of what is left (`ProRataExactly`, `UncappedLeftover`),
  and a token without a score sorts last but weighs one half (`UnscoredBeatsScoredExactly`).
- An event without a source id is ingested at every poll (`EmptyIdAlwaysIngested`).
- A flow snapshot of an observe-only source, which is the default, stores its candidate as qualified without announcing
  it, and no later snapshot makes up for that (`RiseAnnounced`, `SilentRiseStaysSilent`).
- Catalyst candidates of one venue share a unique key and evict each other (`SharedVenueAnnouncesAgain`); launch
  candidates never evict one another (`LaunchEdges`).
- A message that Telegram has accepted is sent again if its response is lost or its row cannot be written
  (`SendsExactly`, `CrashedSendExactly`).
- A delivery row marked sent is reopened by a malformed event for the same candidate, or by a missing bot token
  (`QualifiedReopenedExactly`, `MalformedEventSendsAgain`), and failures of cross-dimension snapshots are recorded
  only if they carry their own key as a candidate id (`FailureRecordedExactly`).

## Model

| member | source | states |
|---|---|---|
| Rounding.RoundNear | execution/dex_executor.py:64-79 | `round(x, n)` moves a value by at most half a unit of the last place kept |
| Rounding.RoundMonotone | portfolio/allocator.py:76 | rounding never reverses an order |
| Rounding.RoundComplement | sentinel/wallet_score_aggregator.py:90-91 | two shares that add up to one still do after each is rounded on its own, half to even |
| SignalEngine.MergePayloads | core/signal_engine.py:125-139 | the loop yields the last value given to each field, with the first event's envelope underneath |
| SignalEngine.EnvelopeSurvives | core/signal_engine.py:125-139 | the merged token and chain are the first event's as long as no payload carries its own |
| SignalEngine.MergedLast | core/signal_engine.py:125-139 | the last payload that carries a field decides its merged value |
| SignalEngine.FeaturesCarried | core/signal_engine.py:9-31 | so liquidity, volume, pressure, outflow, slippage and listing of a signal are those that the last payload with the field carries, bounded where the engine bounds them |
| SignalEngine.BuildSignal | core/signal_engine.py:9-123 | scores, candidate state and latest observation time of a batch |
| SignalEngine.ScoresInRange | core/signal_engine.py:9-123 | alpha, structure and behaviour scores lie in [0, 1] for any payload and any logarithm |
| SignalEngine.ScoresAreSums | core/signal_engine.py:33-68 | structure is a weighted sum of four bounded inputs, behaviour the largest of three, and alpha one weighted sum of fifteen whose weights add up to 1.05, cut at one |
| SignalEngine.QualityExactly | core/signal_engine.py:271-282 | quality is the mean weight of the flags, by how often each occurs, and one half without any |
| SignalEngine.CandidateExactly | core/signal_engine.py:142-213 | each candidate state if and only if a condition on the payload and the scores holds |
| SignalEngine.ClassifierVersusStateMachine | core/signal_engine.py:142-213 | for every signal the engine can build, what the state machine makes of its candidate when it is not rate limited |
| SignalEngine.UnknownOnlyThroughOutflow | core/signal_engine.py:285-299 | an UNKNOWN candidate on weak structure shows none of the other distribution symptoms, so only wallet outflow above 0.6 can tip it |
| SignalEngine.DistributionConfirmedExactly | core/state_engine.py:41-85 | a DISTRIBUTION candidate is confirmed if and only if structure is below 0.45, or the token is in DISTRIBUTION already and nothing promotes it |
| StateEngine.StepSpacing | core/state_engine.py:10-38 | one load, transition and save either keeps the state and its timestamp, or moves it at least the interval after the last move |
| StateEngine.StepExactly | core/pipeline.py:475-521 | one load, transition and save persists the state derived from the signal if and only if the seconds since the last transition (120 without one, none if negative) reach the interval or it is the persisted state already, and else keeps that |
| StateEngine.EnteredExactly | core/state_engine.py:41-85 | each state is derived from another one if and only if a condition on the signal holds |
| StateEngine.UnreachableStates | core/state_engine.py:41-85 | TRENDING and DEAD are never persisted, for any signals |
| StateEngine.UnknownNeverReentered | core/state_engine.py:41-85 | once left, UNKNOWN is never persisted again |
| StateEngine.UnknownLeftExactly | core/pipeline.py:475-494 | some signals move a new token out of UNKNOWN if and only if the minimum interval is at most 120 seconds |
| FsmRuns.MoveCheckpoint | core/pipeline.py:496-521 | a processing step changes only its own token's checkpoint, and a crash leaves the old one or the new one; recovery changes none |
| FsmRuns.RateLimitOverRuns | core/state_engine.py:19-38 | over any run with crashes and out-of-order signals, persisted changes of a token are at least the interval apart, hence strictly increasing |
| FsmRuns.MovesExactly | core/pipeline.py:475-521 | in any step, wherever it is cut, the persisted state of a token changes if and only if this is a batch of the token that gets to its checkpoint, the interval has passed since the last transition, and the signal derives another state, which is then persisted |
| FsmRuns.MovesWhenDue | core/state_engine.py:19-38 | so over every run a completed batch adds a change to the token's history if and only if its signal derives another state and the last change, if there was one, is at least the interval ago |
| FsmRuns.ChangesPerInterval | core/state_engine.py:19-38 | any interval [a, b] of signal time holds at most floor((b - a) / interval) + 1 persisted changes |
| Router.RoutedIntents | core/router.py:28-131 | only BUY and EXIT are routed, for the signal's own token; an EXIT asks for nothing and needs an open position |
| Router.RoutedExactly | core/router.py:28-111 | each route, and the action and venue of its order, if and only if a condition on state, position, alpha and the venues' readiness holds |
| OrderOrigins.OrdersCarryState | core/pipeline.py:299-330 | every order that a batch writes or dispatches carries the state that the same batch saves in its checkpoint, which is what the machine has reached |
| OrderOrigins.LimitedOrders | core/state_engine.py:19-38 | within the minimum interval after a transition that is the state persisted already |
| OrderOrigins.PlannedExactly | core/router.py:28-131 | a token in DISTRIBUTION with an open position is sold on the position's venue; one with alpha of at least 0.55 in one of four states is bought, on the CEX if listed there, for two percent of its liquidity for each point above one half, to the cent; nothing else is planned |
| OrderOrigins.DistributionSells | core/router.py:40-46 | so such a position is always sold: the batch writes the EXIT, unless that very order has ended already |
| OrderOrigins.WantedAtMost | core/router.py:140-152 | no score asks for more than one percent of the liquidity |
| OrderOrigins.OrdersWellRouted | core/router.py:28-131 | in every state of every run with crashes, each stored order is an EXIT on DISTRIBUTION or a BUY on one of the four buying states and on the venue of that state |
| RiskEngine.SizeNotional | portfolio/risk_engine.py:169-214 | the size is the smallest of the request, the portfolio headroom and, when live, the cap and the spare balance |
| RiskEngine.OperationalPolicy | portfolio/risk_engine.py:63-133 | of the runtime, position and account violations the list holds each exactly if its condition on settings, order, position, portfolio, balance and clock holds |
| RiskEngine.Evaluate | portfolio/risk_engine.py:29-60 | allowed if and only if a condition on the fields of settings, signal, order, position, portfolio, balance and clock holds; the adjusted notional is the size, or zero, and the violations are those that apply |
| RiskEngine.SizedWithinHeadroom | portfolio/risk_engine.py:169-214 | a sized order exceeds neither its request nor the headroom |
| RiskEngine.SizedIsLargest | portfolio/risk_engine.py:169-214 | the size is the largest amount that the request, both exposure limits and, when live, the cap and the spare balance admit |
| RiskRuns.DispatchesExactly | core/pipeline.py:523-573 | a batch dispatches an order if and only if it plans it, the order has not ended and has attempts left, and every check on the account and, for a purchase, on market, exposure and cooldown admits it |
| RiskRuns.DispatchedOverRuns | portfolio/risk_engine.py:63-133 | over every run, wherever it is cut, no batch dispatches with the kill switch on, at the daily loss limit or without a slot, nor a purchase below the liquidity and volume minima or within the cooldown |
| RiskRuns.CooldownOverRuns | portfolio/risk_engine.py:104-110 | over every clear run, a closed token is bought again only the cooldown after the report of the order that sold it last |
| RiskRuns.RecoveryUnchecked | core/pipeline.py:130-190 | what a recovery does depends on no setting but the number of retries: it dispatches whatever the kill switch, the limits and the balance say |
| PaperExecutors.FillBounds | execution/dex_executor.py:38-92 | for every draw, a paper fill exceeds the request by half a cent at most, and nothing requested executes nothing |
| PaperExecutors.RolledExactly | execution/dex_executor.py:38-92 | a paper order fails, fills in part or fills exactly by the venue's odds, with the venue's share of the request less slippage, to half a cent |
| PaperExecutors.SlippageCeiling | execution/cex_bridge.py:36-88 | up to a limit of 7693 bps on the DEX and 8696 bps on the CEX no draw slips beyond 100 % |
| PaperExecutors.NegativeFillExactly | execution/dex_executor.py:38-92 | a venue can report a negative fill, at some draw and some non-negative request, if and only if the limit exceeds that bound |
| Reconciler.ReconcileExecution | execution/reconciliation.py:17-72 | field by field: a purchase opens the position on the order's venue and adds what was executed, as a fraction of the portfolio, to the exposures; a sale closes it, remembers when and takes that off; whatever status the report has |
| VenueRuns.OpenVenue | execution/reconciliation.py:37-63 | in every state of every clear run from a fresh store, an open position is on the venue of the BUY that opened it last, which is the DEX or the CEX, and has not changed since |
| VenueRuns.ExitVenue | core/router.py:40-46 | so an EXIT routed for it names the venue that bought it |
| VenueRuns.LastExit | execution/reconciliation.py:53-63 | and a remembered exit is the time of the report of the order that sold the token last |
| Repository.StorageRepository.AppendExecutionLedger | infra/repository.py:134-176 | entries are inserted one by one unless an equal one exists |
| Repository.StorageRepository.LoadLatestExecutionReport | infra/repository.py:178-191 | the last report stored for the intent, if any |
| Repository.StorageRepository.IncrementExecutionAttempts | infra/repository.py:302-315 | the stored counter plus one |
| Repository.StorageRepository.LoadRecoverableIntents | infra/repository.py:341-357 | one row for every order that looks unfinished and whose ledger was opened and not closed |
| PipelineWorker.Worker.ExecuteIntent | core/pipeline.py:575-633 | the retry loop performs exactly the specified writes and adapter calls, starting from the stored counter |
| PipelineWorker.Worker.ProcessEvents | core/pipeline.py:267-391 | one batch performs exactly the specified sequence of durable writes, in order |
| PipelineWorker.Worker.RecoverPendingExecutions | core/pipeline.py:130-190 | one recovery pass performs exactly the specified writes for the rows it read and returns the intents it applied |
| OrderLifecycle.ProcessLegal | core/pipeline.py:267-391 | every write of a batch is permitted by the order life cycle in the state it is made in |
| OrderLifecycle.RecoverLegal | core/pipeline.py:130-190 | the same for a recovery pass over any rows |
| OrderLifecycle.LifetimeRetryBound | core/pipeline.py:575-633 | in every state of every run with crashes, dispatches <= stored attempts <= max_retries + 1 |
| OrderLifecycle.TerminalOrdersAbsorbing | core/pipeline.py:314-318 | over every run with crashes, REJECTED and RECONCILED are final, FILLED only becomes RECONCILED, attempts never fall, and a terminal order is never dispatched |
| AuditTrail.ResultExactly | core/pipeline.py:575-633 | an execution ends with the first attempt that reports, and without a report exactly if every attempt left raises |
| AuditTrail.BatchRecorded | core/pipeline.py:755-842 | every decision, order, report and ledger entry that a batch writes, field by field: the signal and the machine's step, the amount permitted, the adapter's own answers and errors, and the times |
| AuditTrail.FilledTrail | core/pipeline.py:755-842 | a batch that fills its order leaves the decision, the report with its context, and all three stages in the ledger |
| AuditTrail.ErrorsListed | core/pipeline.py:591-623 | and of every attempt that raises, what it raised |
| AuditTrail.RecoveryWrites | core/pipeline.py:130-190 | the same of a recovery, which settles what was executed, where a batch settles what was permitted |
| AuditTrail.TrailBacked | infra/repository.py:134-176 | in every state of every run, wherever it is cut: each report that the ledger shows is stored, each settled order has an applied reconciliation, and each refused order and each report with a context has the decision that says so, on the state that the order carries |
| CrashRecovery.RecoveryQuiesces | core/pipeline.py:130-190 | after a complete recovery from any sound state nothing is left for another one to do |
| CrashRecovery.Uninterrupted | core/pipeline.py:267-391 | a batch that runs to its end applies its fill once |
| CrashWindows.CandidateRecovery | core/pipeline.py:130-190 | where recovery can act on one order at most, it applies exactly the stored report of a FILLED order or what a new execution of its adapter returns, leaves the book alone if there is neither, and dispatches the order once for each attempt it makes |
| CrashWindows.CrashAfterFill | infra/repository.py:933-947 | for every crash point after the report is stored and any status, the exact position and portfolio that the next recovery leaves, and when it dispatches the order again |
| CrashWindows.ExactlyOnceWindows | core/pipeline.py:130-190 | crashed and recovered equals uninterrupted if and only if recovery has applied the fill (before the closing ledger entry, or after the portfolio write) or, for a SUBMITTED order, a second execution that leaves the same book |
| CrashWindows.CrashBeforeReport | core/pipeline.py:575-633 | for every crash point before a report is stored: recovery executes again exactly if the order is SUBMITTED or RETRY with its submission in an open ledger, applies the last older report if the order is marked FILLED, and else does nothing |
| CrashWindows.UnstoredFill | core/pipeline.py:617-633 | dying between marking an order FILLED and storing its report loses a first fill for good, and replaces a later one by the last report stored before |
| CrashRecovery.SecondRecoveryIsIdle | core/pipeline.py:130-190 | a second recovery changes neither position nor portfolio |
| Lives.RecoveryDies | core/pipeline.py:165-186 | a recovery that has something to apply, stored or just executed, dies after any of its closing writes: the book it leaves, and exactly what the next recovery applies to that |
| CrashRecovery.CrashDuringRecovery | core/pipeline.py:165-186 | for a FILLED order and every crash point inside its recovery, the final book in terms of one application |
| CrashRecovery.RecoveryPortfolioExact | core/pipeline.py:165-186 | for a BUY, the final portfolio is that of one application unless recovery died between the portfolio write and marking the order |
| CrashRecovery.RepeatedDeaths | core/pipeline.py:165-186 | dying there n times counts one purchase n times over |
| Lives.DeathStep | core/pipeline.py:130-190 | a recovery that dies anywhere but right after writing a position or the portfolio leaves nothing applied and one order to act on, or its answer applied and nothing left to do |
| Lives.RevivalOutcome | core/pipeline.py:130-190 | after any number of such deaths the recovery that completes has applied one answer of one of them, or left the book alone |
| Lives.LifeOutcome | core/pipeline.py:130-190 | a batch that completes, that raises anywhere and is not recovered, or that dies anywhere and is recovered through any such deaths, changes the book by one fill of the order that risk let through, whose report is the batch's own or an answer of a recovery, or not at all; a cut between the position and the portfolio write leaves the position alone. Where the life recovers, it must start with nothing that earlier batches have left |
| Lingering.LiveExactly | core/pipeline.py:239-255 | a batch cut after any number of its effects, from any sound state: exactly which orders a later recovery can act on |
| Lingering.QuiescentExactly | core/pipeline.py:239-255 | from a state with nothing to recover, such a batch leaves something if and only if its ledger was open and it was cut with the order SUBMITTED or RETRY and attempts left, marked FILLED over an older report, or reported and not yet closed in the ledger |
| Lives.LifeSteadyExactly | core/pipeline.py:239-255 | so a life from a state with nothing to recover ends in another one if and only if it is not a batch that raises and leaves such an order |
| Lives.NothingLeftClear | core/pipeline.py:239-255 | a run in which no batch leaves such an order is clear: every recovery of it starts with nothing that earlier batches have left, whatever raises or dies |
| AgreementRuns.LifeAgreesExactly | execution/reconciliation.py:37-63 | with position preflight on, a life from an agreeing state that recovers nothing of earlier batches ends in one if and only if its batch was not cut between the position and the portfolio write |
| AgreementRuns.PositionBookAgreement | execution/reconciliation.py:37-63 | so for any adapter and over every clear run of lives without such a cut: open_positions is the number of open positions, stays within the maximum, and a closed position has no exposure |
| AgreementRuns.TornDisagrees | infra/repository.py:933-938 | such a cut leaves the counter one off, after recovery too |
| AgreementRuns.ReportMovesBook | execution/reconciliation.py:17-72 | a batch that gets a report, with any status and any amount, always changes the book: a BUY opens the position and takes a slot, an EXIT closes an open one |
| AgreementRuns.FailedBuyOpens | execution/dex_executor.py:38-65 | a paper BUY whose draw fails is reported FAILED, and the batch leaves an open position without exposure and one slot taken |
| BookRuns.FillPaper | core/pipeline.py:575-633 | on the paper venues the report that a life applies is one that the venue can give for the size that risk allowed, through crashes and recoveries |
| BookRuns.ExposureCeiling | portfolio/risk_engine.py:155-214 | over every clear run of lives on the paper venues: token and chain exposure are equal and at most the smaller limit plus half a cent's share of the portfolio |
| BookRuns.OldReportCeiling | core/pipeline.py:575-633 | where a process dies between marking a purchase FILLED and storing its report, and recovery applies an older report, the ceiling holds exactly if that report's amount fits under it |
| BookRuns.ExposureFloor | execution/reconciliation.py:37-63 | over the same clear runs, without a cut between the position and the portfolio write, the portfolio's exposure covers the exposures of every set of tokens |
| BookRuns.ExposureNeverReleased | core/router.py:40-46 | over all those clear runs exposure at a later moment is never below an earlier one, because a routed EXIT asks for nothing |
| BookRuns.SaturatedForGood | portfolio/risk_engine.py:155-166 | in such a run, once the smaller limit is reached, risk lets only EXITs through from then on |
| Backlogs.RecoveryFolds | core/pipeline.py:130-190 | from any sound state, with any number of orders to act on, a recovery applies to each its own stored report or what its own new execution returns, once, in the order of the rows, and does nothing else to the book |
| Backlogs.RecoveryDispatches | core/pipeline.py:130-190 | and dispatches each once for every attempt that it has left to make |
| Backlogs.LeftFilledExactly | core/pipeline.py:239-255 | which report a raising batch leaves to recovery, if and only if it leaves its order live and FILLED: its own, or an older one if its own was not stored yet |
| Repayments.OwesDeath | core/pipeline.py:130-190 | a recovery of any number of orders left FILLED that dies anywhere but right after writing a position or the portfolio has applied the first rows, each once, and leaves the fills of the others to the next |
| Repayments.BacklogRevived | core/pipeline.py:130-190 | so however often it dies like that, in the end every one of these orders has been applied exactly once, and nothing is left to recover |
| Repayments.AppliedAtMostOnce | core/pipeline.py:130-190 | from any sound state with any number of orders to act on, executed again or not: after any number of such deaths, the recovery that completes leaves nothing to recover, and together they have applied at most one fill for each order, each an answer that one of them had for it, and nothing else |
| Repayments.BacklogRecovered | core/pipeline.py:239-255 | after any batches that complete or raise, without a recovery in between and with every order they leave FILLED, this recovery applies exactly the fills they have left, each once, on top of what the others have done |
| RaisedRuns.BacklogCeilingExactly | portfolio/risk_engine.py:155-214 | then the exposure ceiling holds if and only if all of these fills fit under it together |
| RaisedRuns.BacklogAgreesExactly | execution/reconciliation.py:37-63 | and if they are purchases, positions and portfolio agree if and only if their tokens are different and were closed, and together they fit under the maximum |
| RaisedRuns.SameHeadroom | core/pipeline.py:275-277 | batches that raise in a row and leave their fills are all decided on the portfolio that the first one saw |
| RaisedRuns.RaisedPurchases | portfolio/risk_engine.py:155-214 | any number of purchases raised in a row, then a recovery: the exact portfolio, and when it keeps the ceiling, the maximum and agreement |
| RaisedRuns.TwoRaisedPurchases | core/pipeline.py:356-385 | two of them: both are sized on a portfolio that neither has entered, and one recovery enters both, with the exact conditions for the ceiling and for agreement |
| TwiceSpent.SpentTwice | core/config.py:46-63 | on the default limits and from an empty database, two listings whose batches raise after their reports are stored leave twice the permitted exposure, and a counter of two for one position if they are of one token |
| Ordering.SelectedSound | infra/feature_store.py:262-309 | a query with ORDER BY and LIMIT returns matching rows once each, in order, and leaves out only later ones |
| FeatureStore.FeatureStore.LoadTradeFacts | infra/feature_store.py:262-309 | the first 5000 facts of a window's span by time and trade id |
| FeatureStore.FeatureStore.LoadQuoteSamples | infra/feature_store.py:445-477 | the newest 100 samples of a pair, newest first |
| FeatureAggregator.WindowEnd | sentinel/feature_aggregator.py:303-308 | the end of the minute that holds an instant; a full minute is its own end |
| FeatureAggregator.OnchainFeatureAggregator.IngestRawTrade | sentinel/feature_aggregator.py:35-52 | the fact is stored, then every configured window and its buy pressure is rebuilt from the facts; an unresolved side stores nothing |
| FeatureAggregator.TradeClassified | sentinel/feature_aggregator.py:270-300 | which trades classify, on which side, and what is kept of them |
| FeatureAggregator.QuoteClassified | sentinel/feature_aggregator.py:325-342 | which quotes classify, and their slippage in basis points of the reference |
| FeatureAggregator.SlippageFeatureAggregator.IngestRawQuote | sentinel/feature_aggregator.py:162-176 | the sample is stored and the published slippage rewritten from the newest samples |
| WindowRows.RowIsLastTouch | sentinel/feature_aggregator.py:74-101 | in any arrival order a stored row is the aggregate over the facts present when the last trade of its last minute came |
| WindowRows.RowPresent | sentinel/feature_aggregator.py:42-49 | a row exists exactly if some trade fell into the window's last minute |
| WindowRows.RowsAgree | sentinel/feature_aggregator.py:35-101 | trades in observation order: every row equals the aggregate over the final facts; one-minute rows do in any order |
| WindowRows.RowAgreesExactly | sentinel/feature_aggregator.py:74-101 | in any order, with at most 5000 facts in the span: a row agrees with recomputation if and only if no new trade of its span arrived after its last rewrite |
| WindowRows.LateTradeLeavesStaleRow | sentinel/feature_aggregator.py:74-101 | two trades, one late, leave a five-minute row that counts one |
| WindowRows.RebuiltIsAggregate | sentinel/feature_aggregator.py:83-101 | within the limit the aggregate is that of any listing of the matching facts, so order does not matter |
| WindowRows.SnapshotsMirrorWindows | sentinel/feature_aggregator.py:103-148 | each buy-pressure row is the pressure of the window row beside it |
| WindowSums.RowIsSplit | sentinel/feature_aggregator.py:83-101 | in any arrival order, a row that no trade has overtaken holds the amounts bought and sold in its span, how many trades that were and by how many named wallets |
| WindowSums.PressureIsSplit | sentinel/feature_aggregator.py:103-148 | and the pressure beside it is the bought part of both |
| WindowSums.OneSidedPressure | sentinel/feature_aggregator.py:103-148 | so a span with nothing sold has pressure one, and one with nothing bought zero |
| WindowSums.OneMoreTrade | sentinel/feature_aggregator.py:35-52 | one more trade adds its amount to its own side of the row and leaves the other |
| SlippageRows.PublishedIsEstimate | sentinel/feature_aggregator.py:199-215 | with the fallback allowed, the exact sample chosen for publication is what the curve gives there, so the published value is the estimate either way |
| SlippageRows.LatestSlippageFresh | sentinel/feature_aggregator.py:162-176 | in any arrival order the latest published slippage is computed from the samples now stored |
| SlippageRows.PublishedExactly | sentinel/feature_aggregator.py:198-235 | over any run of quotes the latest row gives the newest sample at the published notional; without one the curve's estimate, or zero if that is switched off |
| StableSort.SortSound | sentinel/feature_aggregator.py:346 | `sorted` is an ordered permutation that keeps equal keys in their order |
| SlippageCurve.EstimateFromCurve | sentinel/feature_aggregator.py:365-388 | the search over the sorted points finds the neighbours of the target and interpolates between them |
| SlippageCurve.EstimateBetween | sentinel/feature_aggregator.py:365-388 | the estimate lies between any bounds on the sampled slippage |
| SlippageCurve.EstimateAtKnot | sentinel/feature_aggregator.py:374-386 | at a sampled notional the estimate is that sample, the first one on ties |
| SlippageCurve.EstimateIsLinear | sentinel/feature_aggregator.py:374-388 | between two neighbouring samples it is on the straight line through them |
| SlippageCurve.ClampedBelow | sentinel/feature_aggregator.py:372-386 | below the range it is the first sample of the smallest notional |
| SlippageCurve.ClampedAbove | sentinel/feature_aggregator.py:372-386 | above the range it is the last sample of the largest notional |
| SlippageCurve.EstimateMonotone | sentinel/feature_aggregator.py:365-388 | if slippage rises along the sorted samples, so does the estimate |
| SlippageCurve.CurveEstimate | sentinel/feature_aggregator.py:345-366 | sorting the stored curve once more changes nothing |
| RawEvents.RawEventStore.Save | infra/raw_event_store.py:18-50 | the first event of a source and id is kept and returned ever after |
| RawEvents.RawEventStore.ReadEvents | infra/raw_event_store.py:69-106 | the requested events, ordered by observation, ingestion, source and id, up to the limit |
| RawEvents.ReadExactly | infra/raw_event_store.py:69-106 | these are stored events of the chain and token asked for, all of them below the limit, in the order of their times |
| Cursors.MaxCursorOfNumbers | sentinel/onchain_collector.py:218-224 | two integer cursors compare as numbers |
| Cursors.TextCursorSticksExactly | sentinel/onchain_collector.py:218-224 | a cursor that is not a number is never replaced by a slot if and only if its first character other than a nine sorts after it |
| OnchainSync.OnchainFeatureSyncService.IngestTrade | sentinel/onchain_feature_sync.py:58-73 | raw event, checkpoint, message, facts, windows and features message of one trade, including what an exception leaves behind |
| OnchainSync.OnchainFeatureSyncService.IngestQuote | sentinel/onchain_feature_sync.py:75-90 | the same for a quote |
| IngestionRuns.DuplicatesChangeNothing | sentinel/onchain_feature_sync.py:129-179 | any list with duplicates leaves the raw events, facts, samples, rows and messages of its first occurrences |
| IngestionRuns.RepeatedRun | sentinel/onchain_collector.py:54-112 | ingesting a whole list a second time changes nothing but checkpoints |
| IngestionRuns.CursorIsHighest | sentinel/onchain_collector.py:150-172 | an integer cursor is the largest slot seen, duplicates included |
| IngestionRuns.CursorNeverFalls | sentinel/onchain_collector.py:150-172 | an integer cursor never decreases |
| IngestionRuns.QuoteSavesId | sentinel/dex_quote_collector.py:81-92 | a quote saves its id as the cursor, whatever was there |
| IngestionRuns.TextCursorKeptExactly | sentinel/onchain_collector.py:150-172 | such a checkpoint survives every run of trades under the same condition, and only then |
| IngestionCrashes.WritesComplete | sentinel/onchain_feature_sync.py:129-179 | the writes of one record, in order, make the whole step: raw event, cursor, message, fact, row and pressure of each window, features message |
| IngestionCrashes.InterruptedTrade | sentinel/onchain_feature_sync.py:138-168 | for every number of writes after which ingesting a trade dies: no fact yet, or the fact and the rows of the first windows, the others as before; redelivery changes nothing |
| IngestionCrashes.LostExactly | sentinel/onchain_collector.py:54-112 | a record that dies and is redelivered ends up as if it had not died, checkpoints apart, if and only if it died before its first write or had only its cursor left to write |
| IngestionRuns.DirectionAgreesExactly | sentinel/onchain_feature_sync.py:225-231 | the announced direction of a classified trade is that of its stored side exactly for the sides buy and sell, for inflow with a positive token amount, outflow with a negative one, and no side with a positive one |
| IngestionRuns.MessagesExactly | sentinel/onchain_feature_sync.py:130-205 | a new record puts on the stream itself, if it is a trade of the minimum or more, and then the latest pressure of the primary window and the latest slippage of its pair, if it classifies |
| IngestionRuns.RunTables | sentinel/onchain_feature_sync.py:129-179 | after any run the raw table holds the first occurrences and the feature tables are what feeding them in that order gives |
| FeatureReplay.ReplayFeatureEvents | replay/feature_replay.py:56-96 | the events read are saved and fed in order, up to the first that does not classify, and counted |
| FeatureReplay.TallyAddsUp | replay/feature_replay.py:90-96 | trade, quote and ignored counts are the facts, samples and rest of the events read, and add up |
| ReplayFidelity.ReplayRaisesExactly | replay/feature_replay.py:71-80 | a replay raises exactly if it reads an event that does not classify |
| ReplayFidelity.ReplayKeepsFacts | replay/feature_replay.py:56-80 | a replay stores the source's facts that the filter lets through, for any source order |
| ReplayFidelity.ReplayRebuilds | replay/feature_replay.py:56-80 | for any source order a replay has the same rows, each the aggregate over the source's facts |
| ReplayFidelity.ReplayFaithful | replay/feature_replay.py:56-80 | for a source fed in observation order every row is equal; one-minute rows are for any order |
| ReplayFidelity.ReplayExact | replay/feature_replay.py:56-80 | a row is reproduced if and only if the source's row was not overtaken by a late trade |
| ReplayFidelity.ReplayReportsMatch | replay/feature_replay.py:99-167 | for one pair the report shows a match or nothing on both sides, never a delta |
| FeatureReplay.Compared | replay/feature_replay.py:129-145 | two rows match if and only if they differ by at most half a millionth, and the other answers say which of them is missing |
| Allocator.Allocate | portfolio/allocator.py:34-85 | no intent, one intent, and several in score order, each given its share rounded to cents |
| Allocator.SingleIntent | portfolio/allocator.py:43-52 | one intent gets as much as its target and the capital allow |
| Allocator.ShareIsLargest | portfolio/allocator.py:66-84 | of several, each gets as much as its target and its weight of what is left allow, to half a cent |
| Allocator.WeightsComplete | portfolio/allocator.py:54-72 | weights are in proportion to the scores and add up to one, unless the scores add up to nothing |
| Allocator.AllocationConserves | portfolio/allocator.py:54-85 | the allocation is a permutation of the intents; unrounded shares and the rest add up to the capital, nothing is overdrawn, no share exceeds its target, and the rounded total exceeds the capital by half a cent per intent at most |
| Allocator.SharesDescend | portfolio/allocator.py:66-84 | with every token scored and equal targets, shares do not increase along the scores |
| Allocator.UncappedLeftover | portfolio/allocator.py:71-84 | while no target binds, the rest is the capital times the product of one minus each weight |
| Allocator.ProRataExactly | portfolio/allocator.py:1-10 | while no target binds an intent gets its pro-rata share if and only if the capital, its weight or every earlier weight is zero |
| Allocator.UnscoredBeatsScoredExactly | portfolio/allocator.py:66-72 | of one scored and one unscored token without binding targets, the unscored one, which comes last, gets more if and only if 4 s (s + 1/2) < 1 for the score s |
| WalletScores.BuildSnapshot | sentinel/wallet_score_aggregator.py:46-119 | scores, counts, quality and freshness of the flows that count in the window |
| WalletScores.FlowMoves | sentinel/wallet_score_aggregator.py:69-80 | one more flow moves its own direction by its notional times its wallet's weight, if both are positive |
| WalletScores.CountedExactly | sentinel/wallet_score_aggregator.py:54-68 | a flow counts if and only if it is of the pair, within the window, and by a wallet with an active entry on the chain |
| WalletScores.SnapshotExactly | sentinel/wallet_score_aggregator.py:85-119 | scores are the shares of both sums in their total to half a millionth; quality and age by registry, samples and latest flow |
| WalletScores.ScoresComplement | sentinel/wallet_score_aggregator.py:85-91 | both scores lie in [0, 1] and sum to exactly 1 when the weighted notional is positive, else both are 0 |
| WalletScores.SnapshotOrderFree | sentinel/wallet_score_aggregator.py:61-119 | reordering the flows changes nothing in the snapshot |
| SeenIds.LiveSync.Poll | core/worker.py:491-523 | a completed poll ingests what it does not know and stores the last 200 ids it knows |
| SeenIds.AddedMore | core/worker.py:491-523 | what a poll ingests of a list is what it ingests of a first part, and then of the rest on top of that |
| SeenIds.WindowHoldsLast | core/worker.py:895-920 | after any completed polls the stored list is duplicate-free, has at most 200 entries, and its named ids are the last named ones ingested, back to the 200th ingestion at least |
| SeenIds.NamedWindow | core/worker.py:895-920 | if every ingested event had an id, the stored list is the last 200 ingested |
| SeenIds.ReingestedLate | core/worker.py:451-469 | over any polls a non-empty id is ingested again only after at least 200 other ingestions |
| SeenIds.EmptyIdAlwaysIngested | core/worker.py:895-905 | an event without an id is ingested at every poll that fetches it |
| SeenIds.DiedPollRepeats | core/worker.py:451-469 | what a poll ingested before it died is ingested again |
| BatchPoll.Consumer.PollOnce | core/pipeline.py:192-265 | acknowledgements, dead letters and processed event lists of one batch, in order, whichever groups raise |
| BatchPoll.GroupedPartitions | core/pipeline.py:211-241 | the groups partition the signal messages by token and keep their order |
| BatchPoll.GroupedInOrder | core/pipeline.py:211-237 | and come in the order in which their tokens first appear |
| BatchPoll.DroppedExactly | core/pipeline.py:219-236 | a message is dropped if and only if it is no liquidity, wallet cluster or social snapshot, or a social one from discovery |
| BatchPoll.EachAcknowledgedOnce | core/pipeline.py:214-263 | every message read is acknowledged exactly once |
| BatchPoll.DeadLetteredExactly | core/pipeline.py:239-255 | a message is dead-lettered exactly if it is a signal message whose token's group raised |
| BatchPoll.DeadLettersRead | core/pipeline.py:245-255 | and no more often than it was read |
| Discovery.AlphaSyncService.IngestSnapshot | discovery/service.py:373-476 | the previous row is read before it is overwritten, and a newly qualified candidate is announced if the snapshot is published |
| Discovery.AnnouncedExactly | discovery/service.py:422-457 | over any run of snapshots, observe-only ones included, a candidate is announced once for each published snapshot that lifts it into QUALIFIED or finds it qualified but evicted |
| Discovery.OwnPoolEdges | discovery/service.py:640-686 | in any run of any candidates, one that shares its pool with no other is announced once for each rise into QUALIFIED whose snapshot is published |
| Discovery.RiseAnnounced | discovery/service.py:422-457 | a rise is announced if and only if its snapshot is published |
| Discovery.SilentRiseStaysSilent | discovery/service.py:650-653 | a rise that is not published is never made up for: while the candidate stays QUALIFIED in a pool of its own, no later snapshot announces it |
| Discovery.LaunchEdges | discovery/service.py:650-653 | launches are always published, so every rise of one is announced once unless a candidate of another kind sits in its pool |
| Discovery.SharedVenueAnnouncesAgain | discovery/repository.py:23-72 | two qualified catalysts of one venue evict each other, and the first is announced twice |
| Notifications.TelegramPublisher.ProcessOnce | notifications/telegram_publisher.py:45-82 | rows, accepted messages and acknowledgements of one batch, effect by effect in order, exceptions included |
| Notifications.RunIsItsEffects | notifications/telegram_publisher.py:45-82 | what a batch leaves is what its effects leave one after another, so every prefix of them is a point at which the process can die |
| Notifications.CompletedTurns | notifications/telegram_publisher.py:45-82 | a run of turns none of which is cut short is a batch |
| Notifications.SentExactly | notifications/telegram_publisher.py:84-152 | an event is told if and only if it is of a known kind and well formed, its key is not sent or skipped, its type is wanted, its score high enough and the transport takes it; and skipped exactly if only type or score are against it |
| Notifications.QualifiedReopenedExactly | notifications/telegram_publisher.py:84-109 | a sent or skipped row of a qualified candidate changes if and only if an event for it is malformed or comes without a bot token |
| Notifications.ReopenedExactly | notifications/telegram_publisher.py:216-232 | for any event, in its own fields: exactly if it carries that row's candidate id and lacks credentials or a score, or is a snapshot with another key of its own whose delivery raises |
| Notifications.FailureRecordedExactly | notifications/telegram_publisher.py:216-232 | an event that raises leaves a failed row under its own key exactly if there was one, or it carries a candidate id that is its key and a chat is configured |
| Notifications.ClosedForGood | infra/repository.py:859-917 | over every run of well-formed events, wherever the process dies, sent and skipped never change |
| Notifications.SendsExactly | notifications/telegram_publisher.py:102-152 | over every such run the messages accepted under a key are one if its row says sent, plus one for each that was accepted before a death, a lost response or a failed row write |
| Notifications.AtMostOneSend | notifications/telegram_publisher.py:102-152 | so without these a key has at most one accepted message, one exactly when its row says sent |
| Notifications.MalformedEventSendsAgain | notifications/telegram_publisher.py:98 | a malformed event for a candidate already told about makes the next good one tell again |
| Notifications.CrashedSendExactly | notifications/telegram_publisher.py:137-151 | after a death at any effect of an event whose message is accepted, or an exception after that, the next event that would be sent under the same key makes two messages exactly if the first was accepted and its row does not say so, else one |

## Left out

- Redis, the SQL engine, HTTP, web sockets, chain clients and Telegram itself: streams are sequences, tables are maps
  and sequences, one committed statement is one effect, and adapter and transport results are inputs.
- `core/alpha_pipeline.py` and `core/alpha_collector.py`: the risk call of the former does not match the engine's
  signature, so that path cannot run.
- Live sources, parsers and language-model analysis of `discovery/` and `sentinel/`; the scanners' scores are inputs of
  `Discovery`.
- Metrics, logging, alerts, heartbeats, command lines and signal handlers.
- Several workers on one database: the code reads and then writes without locks, and the model has one worker.
- Clocks and uuids are inputs; two different intents never share the hashed id, and ids joined by colons are not taken
  apart.
- Floating-point error; `log10(v + 1) / 6` is an arbitrary function, and a liquidity of -1 or less, on which it raises,
  is not excluded from the payloads but given some value.
- Texts of ledger, risk and report messages are shortened to fixed ones; `publish_decision_bundle` and the social
  confirmation request of `process_events` write only to streams and are not steps of the model.
- The worker without a repository (`--no-db`).
- Feature fields that nothing modelled reads later: feature quality rows, freshness in seconds, quality flags, pool
  addresses and token amounts of facts, the stored slippage curve apart from its points.
- Raw events without a chain or token, and a window name that is not a whole number of minutes.
- `publish_dead_letter` itself failing, which would leave the remaining groups of a batch pending.
- Upper case of letters other than a to z in a candidate status; modes and sides that the code turns into lower case
  are inputs in lower case.
- Cursor texts that Python's `int` reads and the model does not: a plus sign, spaces, underscores, digits of other
  scripts.
- A skipped delivery whose row cannot be written, which is recorded as failed.
- Candidates on PostgreSQL: `Discovery` has SQLite's INSERT OR REPLACE, under which a row gives way to one with its id
  or its pool; on PostgreSQL only the pool is a conflict target, and a known id in another pool raises.
- Messages that a dead publisher had read and not acknowledged are not delivered to it again, since it reads new ones
  only; the runs of `Notifications` go on with later events.
- `recover_pending_on_startup = False` (`core/config.py:65`): a restart then recovers nothing, which leaves the same
  state as a batch that raises, and the runs of `Lives` have those.
- LifeOutcome: its recoveries do not die right after writing a position or the portfolio; RecoveryDies gives what that
  leaves and what the next recovery makes of it. A recovery of orders that earlier batches have left is not one of its
  lives; RecoveryFolds, BacklogRevived and AppliedAtMostOnce say what that does.
- PositionBookAgreement: its runs leave out the cuts that LifeAgreesExactly shows to break it, and recoveries of orders
  that earlier batches have left; BacklogAgreesExactly has the exact condition for those.
- ExposureCeiling: its runs leave out recoveries of orders that earlier batches have left, for which
  BacklogCeilingExactly has the exact condition; it assumes a live cap that is not negative, because the risk decision
  would reject the notional, and that no process dies between marking an order FILLED and storing its report when an
  older report of that order is stored; OldReportCeiling has the exact condition there.
- BacklogRevived: orders left FILLED. One left SUBMITTED or RETRY is executed again by the recovery, so what is applied
  to it is not known beforehand; RecoveryFolds and AppliedAtMostOnce cover it.
- BacklogAgreesExactly: purchases only; in which order a purchase and a sale of one token are recovered decides their
  result, and RecoveryFolds gives it for any order.
- ExposureFloor: assumes also a slippage limit of at most 7693 bps, because beyond it a paper fill can be negative.
- InterruptedTrade: says what happens to window rows; the pressure rows beside them are written in the same pairs, and
  quotes have only LostExactly.
- DuplicatesChangeNothing: says nothing about checkpoints, because a duplicate saves one too; CursorIsHighest does.
