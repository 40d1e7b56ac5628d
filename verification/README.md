# Verified models of the trading system

Dafny models of the parts of this repository where a mistake costs money or
identity, and proofs of what those parts promise. Everything is proved for all
inputs, all runs and all reachable states; nothing was executed.

Two styles run side by side. Code that changes things step by step is a class or a
method with loops, proved against specification functions. Code that runs
concurrently is a system of atomic steps, one step per database statement or
exchange call, in which any actor can stop between any two steps; its results are
about every run. Where both exist, the program is proved to take the steps of the
system, so what holds of every run holds of the program.

## What is here

**The trade pipeline** (`Trade*.dfy`, `Reconciler*.dfy`). `TradeStore` holds the
tables and the statements run on them as methods of a class. `TradeProtocol` is the
step system: any number of workers and resolvers, a queue that delivers again, an
approval desk, the webhook and its sweeper, an exchange that answers as it likes.
`TradeEffects` says what a step can do to each table. On top of them:

- `TradeOnce`: at most one order per signal, and a row behind every order.
- `TradeApproval`: no order without an approval, none after a refusal.
- `TradeTiming`: a settled trade never changes again, under a timing rule.
- `TradeTimingNeeded`: that rule is exact; without it there is a run that breaks it.
- `TradeCap`: the daily notional cap; `TradeCapNeeded`: it needs the timing rule.
- `TradeTruth`: settled statuses agree with the exchange.
- `TradeUnknown`: at most one unknown trade per bot, with one worker.
- `TradeJobs`: which unknown trades have a reconciliation job.
- `TradeResolver`: one terminal transition and one audit row per trade.
- `TradeProgram`: the pipeline, the approval functions and the sweepers as programs.
- `TradeGates`: behind every trade and every order, the bot's row as it was read.
- `TradePlans`, `TradeOutcomes`: what the pipeline makes of a message and what it leaves, column by column.
- `Reconciler`, `ReconcilerSteps`: the resolver, its batch and the runtime scan.

`TradeScenario` holds the pieces the concrete runs are built from.

**The execution service** (`Exec*.dfy`). `ExecQueue` is the leased queue as a class,
`ExecService` the step system of queue, workers, gate and kill switch. `ExecClaims`,
`ExecOrders`, `ExecUnfilled`, `ExecCaps`, `ExecCapReached` and `ExecKillSwitch` hold the
results about runs (`ExecScenario` builds the concrete ones), `ExecProgram` the worker
and the switch as programs. `ExecGate` says what every submission's gate looked like,
`ExecPlans` what an item comes to, column by column.

**The Gaussian channel** (`Gaussian*.dfy`). The n-pole recurrence equals n one-pole
averages in a row; bounds, monotonicity and the order of the bands follow.

**The replay engines** (`Mr*.dfy`, `Dr*.dfy`, `Ranking.dfy`, `ReplayCalendar.dfy`). Each
engine is a specification (`MrReplay`, `DrReplay`), proofs about it (`MrBounds`;
`DrLedger`, `DrCausality`, `DrEntrySize`, `DrLookAhead`, `DrLookAheadHappens`), the prices,
sizes, marks and signals read off the bars (`MrFills`; `DrSignals`, `DrFills`) and the day
loop proved against it (`MrProgram`, `DrProgram`).

**Sizing** (`SizingRisk.dfy`, `OrderSizing.dfy`, `StepPrecision.dfy`) and **identity provisioning**
(`Base64Url.dfy`, `ProvisionTicket.dfy`, `ProvisionStore.dfy`, `ProvisionProtocol.dfy`,
`ProvisionSteps.dfy`).

`Basics.dfy` is the shared vocabulary.

## Assumptions

- Numbers are exact reals and integers. IEEE rounding is not modelled; where the
  code tests for a number that is not finite, the model has an option type.
- Each database statement is atomic, and UNIQUE constraints hold. A statement that
  answers with an error was not applied, unless the configuration flag `lossyWrites`
  is set; a crash right after a statement models a lost answer everywhere else.
- The exchange's final answers are true; an answer that is not final may be out of
  date. An authentication error or a rejection means the request was not accepted.
  An accepted order is visible `lag` seconds after its row was created.
- The pipeline's work on a row ends within the visibility timeout of the row's
  creation (`InTime`), which is the configuration's promise, not the code's.
- Client order ids are arbitrary; a collision is refused by the UNIQUE constraint.
- HMAC-SHA256 is an unknown function verified by equality. Where a lemma needs it, JSON
  parsing undoes stringifying for the payload at hand (`ProvisionTicket.Carries`); one
  platform that does so for all payloads expiring on a whole second is exhibited.
- In the channel, alpha is any number in (0, 1); that the code's square root gives
  one is `AlphaInUnit`.
- Rows of `bots` change arbitrarily, which covers operators, pauses, the circuit
  breaker and credential failures; but each bot's order limits and sizing policy are
  fixed for a run.

## What the proofs found

- The boot resolver (`worker/src/index.ts:1881-1886`) uses the plain threshold of 60
  seconds; only the runtime scan clamps it above the visibility timeout
  (`worker/src/reconciliationScan.ts:89-92`). With a visibility timeout above 60 seconds
  a boot can fail a trade whose worker is still allowed to write it, and the trade
  comes back. `TradeTimingNeeded.TimingRuleIsExact` states this as an equivalence.
- The daily cap depends on that rule: without it, a settled buy gives its share of the
  cap back, others take it, and the buy returns (`TradeCapNeeded.CapNeedsTheRule`).
- `TradeTimingNeeded.TimingRuleIsExact` also covers the fallback at
  `worker/src/index.ts:1368-1375`: if the status update was applied and only its answer
  was lost, a cancelled trade returns to unknown.
- The lookup for an existing trade drops its error (`worker/src/index.ts:791-796`), so a
  failed query reads as "no trade yet". The UNIQUE constraint at the reservation still
  keeps the order from being sent twice (`TradeProgram.SecondDeliveryPlacesNothing`).
- An order found by the inline lookup with status unknown gets no reconciliation job
  (`worker/src/index.ts:1617-1648`). Apart from crashes and failed inserts of jobs it is
  the only way a trade stays unknown without one once nobody works on it
  (`TradeJobs.OnlyTheLookupForgets`, `TradeJobs.FoundUnknownIsForgotten`).
- The execution worker writes only terminal rows, so its open-positions cap never
  refuses an order (`ExecOrders.PositionsCapNeverBinds`).
- With W execution workers the most a bot can use on a day is, exactly, the orders that
  fit under its cap and W - 1 more (`ExecCapReached.NeverMore`, `ExecCapReached.Reached`);
  so the cap holds exactly with one worker (`ExecCapReached.CapBrokenIff`).
- A submission can end up without a filled row: its signal was then claimed at least
  twice, or has no row at all, and the usage never counts it
  (`ExecUnfilled.SubmittedComesTo`, `ExecUnfilled.SubmittedNotCounted`).
- The decimals derived from an order step (`worker/src/BinanceAdapter.ts:268-272`) serve a
  step below one exactly if its digits are 1, 2 or 3: 0.001 and 0.02, but not 0.5, 0.25
  or 0.05 (`StepPrecision.QuantitiesStayIff`). With a step of 0.5 a quantity of 0.5 is sent
  as 1 (`SizingRisk.HalfStepOverspends`).
- The trend replay sizes a day's entries at the open from the same day's closes
  (`strateteach/python-backend/scripts/dr_crypto_modes_gen.py:90-107`). Without volatility
  targeting it does so exactly if an entry can be filled, a held position is quoted that
  day, and the size sways with the equity, all of which is known at the open
  (`DrLookAhead.LookAheadIff`); `DrLookAheadHappens.LookAheadHappens` gives the data.
- The channel's bands need only the first bar's high not to be below its low.

## Model

| member | source | states |
|---|---|---|
| GaussianFilter.CombIsBinomial | strateteach/python-backend/scripts/pilot_strategy_backtest.py:24 | The coefficient table holds n! / (k! (n-k)!), by Pascal's identity |
| GaussianFilter.DiffIsBinomial | strateteach/python-backend/scripts/pilot_strategy_backtest.py:24-29 | The n-fold difference of a series is its alternating sum with binomial coefficients |
| GaussianFilter.CascadeRecurs | strateteach/python-backend/scripts/pilot_strategy_backtest.py:22-31 | n one-pole averages in a row, started from zero, solve the n-pole recurrence |
| GaussianFilter.RecurrenceIsCascade | strateteach/python-backend/scripts/pilot_strategy_backtest.py:22-31 | A series solves the recurrence exactly when it is the cascade of n one-pole averages |
| GaussianFilter.Pole | strateteach/python-backend/scripts/pilot_strategy_backtest.py:22-31 | The nested loops over coefficient tables compute the cascade, missing bars counting as zero input |
| GaussianChannel.AlphaInUnit | strateteach/python-backend/scripts/pilot_strategy_backtest.py:37-38 | The channel's smoothing weight lies strictly between 0 and 1 for positive beta |
| GaussianChannel.FilterWithin | strateteach/python-backend/scripts/pilot_strategy_backtest.py:22-31 | No output leaves the range from zero to the largest input so far, despite negative coefficients |
| GaussianChannel.FilterMonotone | strateteach/python-backend/scripts/pilot_strategy_backtest.py:22-31 | Raising inputs up to a bar never lowers the outputs up to that bar |
| GaussianChannel.FirstOutput | strateteach/python-backend/scripts/pilot_strategy_backtest.py:26-30 | The first output is alpha to the n times the first input |
| GaussianChannel.Channel | strateteach/python-backend/scripts/pilot_strategy_backtest.py:32-40 | The loop computes the filter and both bands of a bar series |
| GaussianChannel.BandsOrderedIff | strateteach/python-backend/scripts/pilot_strategy_backtest.py:35-40 | Lower band, filter and upper band are in order at every bar exactly when the first bar's high is not below its low |
| GaussianChannel.RangeIsSpreadIff | strateteach/python-backend/scripts/pilot_strategy_backtest.py:35-36 | The true range is the spread of high, low and the close before, exactly if that close is not strictly between a low above a high |
| GaussianChannel.SourcesAreMeans | strateteach/python-backend/scripts/pilot_strategy_backtest.py:34 | The two sources are the means of three and of four prices of the bar |
| GaussianChannel.BandsAreApart | strateteach/python-backend/scripts/pilot_strategy_backtest.py:40 | The bands lie the multiple of the filtered range on either side |
| ExecQueue.StatusesPartition | strateteach/execution-service/exec_service/queue.py:223-229 | The five counters add up to the number of rows |
| ExecQueue.HoldThenRelease | strateteach/execution-service/exec_service/queue.py:186-220 | Holding and releasing restores every status; only the time a row becomes visible can differ |
| ExecQueue.ClaimLeases | strateteach/execution-service/exec_service/queue.py:73-102 | A claim leases a queued, visible row from now and changes no other |
| ExecQueue.SweepFailsExpired | strateteach/execution-service/exec_service/queue.py:154-183 | A live lease and every row without a lease survive a sweep; an expired lease counts as one failure |
| ExecQueue.RetryWaits | strateteach/execution-service/exec_service/queue.py:122-151 | A failed row can be claimed again exactly from its delay on and below its limit, else it is dead |
| ExecQueue.AckEnds | strateteach/execution-service/exec_service/queue.py:105-119 | An acknowledged row is never claimed, swept, held or released again |
| ExecQueue.DeadAtTheFifth | strateteach/execution-service/exec_service/queue.py:54-70 | A new row can be claimed at once and is dead from its fifth failure on |
| ExecQueue.Queue.Enqueue | strateteach/execution-service/exec_service/queue.py:54-70 | One row per signal; a second enqueue changes nothing |
| ExecQueue.Queue.Dequeue | strateteach/execution-service/exec_service/queue.py:73-102 | Claims the oldest claimable row for this worker, and None only if there is none |
| ExecQueue.Queue.AckItem | strateteach/execution-service/exec_service/queue.py:105-119 | Done exactly if this worker still holds the lease |
| ExecQueue.Queue.NackItem | strateteach/execution-service/exec_service/queue.py:122-151 | One attempt used up; retry below the limit, dead at it, nothing without the lease |
| ExecQueue.Queue.SweepAll | strateteach/execution-service/exec_service/queue.py:154-183 | Exactly the rows with an expired lease are failed, and their number is returned |
| ExecQueue.Queue.HoldAll | strateteach/execution-service/exec_service/queue.py:186-202 | Exactly the queued rows are held, and counted |
| ExecQueue.Queue.ReleaseHeld | strateteach/execution-service/exec_service/queue.py:205-220 | Exactly the held rows are queued and visible now, and counted |
| ExecQueue.Queue.Depth | strateteach/execution-service/exec_service/queue.py:223-229 | The counters are the numbers of rows per status and add up |
| ExecClaims.SubmissionsBounded | strateteach/execution-service/exec_service/worker.py:132-219 | In every run, claims of a row are its attempts plus one if in progress or done; submissions never exceed claims, claims never the limit; all carry the signal's client order id |
| ExecClaims.ClaimsTotalBounded | strateteach/execution-service/exec_service/queue.py:73-183 | All claims ever made fit in the sum of the rows' attempt limits |
| ExecClaims.ClaimInvAlways | strateteach/execution-service/exec_service/queue.py:54-220 | The accounting of claims, leases and submissions holds in every state of every run |
| ExecOrders.DoneMeansOneRow | strateteach/execution-service/exec_service/worker.py:153-214 | A done item has exactly one order row for its signal |
| ExecOrders.RowsNeverRewritten | strateteach/execution-service/exec_service/worker.py:103-129 | Order rows are never rewritten or removed, across sweeps, lost acknowledgements and re-claims |
| ExecOrders.FilledRowsWereSubmitted | strateteach/execution-service/exec_service/worker.py:193-214 | A filled row stands for a call the adapter received with the same key, bot and notional |
| ExecOrders.PositionsCapNeverBinds | strateteach/execution-service/exec_service/worker.py:82-129 | No row a worker writes counts as open, so the open-positions cap never refuses |
| ExecUnfilled.SubmittedComesTo | strateteach/execution-service/exec_service/worker.py:153-214 | A submitted signal has a filled row; or a no-op or rejected one, and then at least two claims; or none, and then its item is not done |
| ExecUnfilled.SubmittedNotCounted | strateteach/execution-service/exec_service/worker.py:193-214 | A run in which a submission ends with a no-op row and no usage |
| ExecCaps.DailyUsageBounded | strateteach/execution-service/exec_service/worker.py:82-100 | With W workers a bot's counted notional of a day is at most its cap plus W - 1 orders, also across midnight |
| ExecCaps.OneWorkerKeepsTheCap | strateteach/execution-service/exec_service/sizing.py:29-60 | With one worker a bot's counted notional of a day never exceeds its cap |
| ExecCapReached.NeverMore | strateteach/execution-service/exec_service/worker.py:82-129 | No run uses more on a day than the orders that fit under the cap and one more for each further worker |
| ExecCapReached.Reached | strateteach/execution-service/exec_service/worker.py:165-214 | For every number of workers some run, without a fault, uses exactly that |
| ExecCapReached.CapBrokenIff | strateteach/execution-service/exec_service/worker.py:165-199 | Some run exceeds a bot's daily cap exactly with two workers or more |
| ExecCapReached.OvershootIs | strateteach/execution-service/exec_service/sizing.py:29-60 | If the fixed order divides the cap, the most is the cap and W - 1 orders |
| ExecKillSwitch.KillSwitchHolds | strateteach/execution-service/exec_service/state.py:131-217 | After the switch commits, until the bot is enabled again, each worker submits at most once for it, and only with a context loaded before |
| ExecKillSwitch.KillSwitchSameItem | strateteach/execution-service/exec_service/worker.py:147-163 | That one submission is of the item the worker held when the switch committed |
| ExecKillSwitch.KillSwitchStopsAll | strateteach/execution-service/exec_service/state.py:131-217 | After the switch commits, until any bot is enabled, each worker submits at most once in all |
| ExecKillSwitch.EngagedMeansGateShut | strateteach/execution-service/exec_service/state.py:58-117 | While the switch stays on, only a worker already past the gate can still submit, once |
| ExecGate.SubmissionsWereArmed | strateteach/execution-service/exec_service/state.py:58-117 | Behind every submission of every run, its worker loaded the context while the bot was enabled, then read a gate armed in the environment and in the database, kill switch off, on testnet, environments agreeing |
| ExecGate.NotArmedMeansNothing | strateteach/execution-service/exec_service/state.py:94-107 | Not armed in the environment, not on testnet or with disagreeing environments, no run submits anything |
| ExecPlans.AcceptedIff | strateteach/execution-service/exec_service/sizing.py:29-60 | The configured order, never resized, exactly if it fits every cap with the usage of the day; else the first cap it breaks |
| ExecPlans.UsageCounts | strateteach/execution-service/exec_service/worker.py:82-100 | A row counts for its bot and day exactly if pending, submitted, partially filled or filled |
| ExecPlans.OpenCounts | strateteach/execution-service/exec_service/worker.py:82-100 | A row is open exactly if it is in none of the five final statuses |
| ExecPlans.ItemComesTo | strateteach/execution-service/exec_service/worker.py:147-189 | Sent, a no-op or rejected, each exactly under its conditions on the columns read |
| ExecPlans.ItemFailsIf | strateteach/execution-service/exec_service/worker.py:140-219 | A plan fails exactly for missing rows and for what raises on its way |
| ExecPlans.AttemptComesTo | strateteach/execution-service/exec_service/worker.py:132-219 | What one call leaves: a retried item and no row, or a finished item and exactly one row with its status and notional; and the report |
| ExecPlans.TakesTheFirst | strateteach/execution-service/exec_service/queue.py:73-102 | The worker takes the first queued and visible item, or there is none |
| ExecProgram.Service.ProcessOne | strateteach/execution-service/exec_service/worker.py:132-219 | Works off the oldest claimable item; rows, lease, submissions and report are as its plan says; every statement is a step of the system |
| ExecProgram.Service.WorkOff | strateteach/execution-service/exec_service/worker.py:147-219 | From a claim to its end: missing rows, closed gate, caps, adapter and duplicate are told apart |
| ExecProgram.Service.SizeAndSend | strateteach/execution-service/exec_service/worker.py:165-214 | Past the gate: rejected, submitted or failed, with the row and the lease that go with it |
| ExecProgram.Service.LoadContext | strateteach/execution-service/exec_service/worker.py:50-63 | The joined signal and bot rows, or the item failed |
| ExecProgram.Service.PassGate | strateteach/execution-service/exec_service/worker.py:153-158 | Open exactly if the gate is readable and armed, the bot is enabled and an adapter is wired |
| ExecProgram.Service.PassCaps | strateteach/execution-service/exec_service/worker.py:165-189 | The decision of the caps on today's usage, or the item failed |
| ExecProgram.Service.SubmitIntent | strateteach/execution-service/exec_service/worker.py:193-196 | One adapter call under the signal's key; without an answer the item fails |
| ExecProgram.Service.WriteOrder | strateteach/execution-service/exec_service/worker.py:103-129 | Insert unless a row with the key exists, and tell which |
| ExecProgram.Service.RunWorker | strateteach/execution-service/exec_service/worker.py:222-232 | Item after item, each as one call would; at least one, at most the limit, early only when nothing is claimable |
| ExecProgram.Service.EngageKillSwitch | strateteach/execution-service/exec_service/state.py:131-174 | Switch on, every bot off, gate shut; the queue held unless that fails |
| ExecProgram.Service.ReleaseKillSwitch | strateteach/execution-service/exec_service/state.py:177-217 | Switch off and queue released; no bot enabled, nothing armed |
| ExecProgram.Service.SetExecutionArmed | strateteach/execution-service/exec_service/state.py:220-253 | Only the database half of the gate changes |
| ExecProgram.Service.SweepLeases | strateteach/execution-service/exec_service/queue.py:154-183 | The sweep as a step of the system |
| TradeStore.Database.FindTrade | worker/src/index.ts:791-797 | Finds the trade of a signal exactly if there is one |
| TradeStore.Database.InsertPendingTradeAtomic | supabase/migrations/029_h2_atomic_notional_cap.sql:24-93 | Invalid input, per-order limit, daily sum, then the UNIQUE constraints, in this order; a pending row only if all pass |
| TradeStore.Database.InsertTrade | worker/src/index.ts:1276-1306 | A row, or None on a UNIQUE conflict; uniqueness kept |
| TradeStore.Database.UpdateTrade | worker/src/index.ts:1357-1366 | The status by id, whatever it was |
| TradeStore.Database.UpdateStuckTrade | worker/src/reconciliation.ts:89-99 | The status only of a pending or unknown row, and how many rows changed |
| TradeStore.Database.CountUnresolved | worker/src/index.ts:844-853 | The number of the bot's trades that are unknown, or pending since before the cutoff |
| TradeStore.Database.UpdateJob | worker/src/reconciliation.ts:108-120 | Only a pending job, and how many rows changed |
| TradeStore.Database.DecideProposal | supabase/functions/approve-order/index.ts:41-48 | Only the owner's undecided proposal, and its side |
| TradeStore.Database.ExpireProposals | worker/src/proposalSweeper.ts:45-61 | Exactly the overdue undecided proposals expire |
| TradeStore.Database.Read | worker/src/index.ts:1783-1802 | One visible message, hidden for the visibility timeout, or none is visible |
| TradeEffects.WorkEffectFacts | worker/src/index.ts:1205-1306 | A worker rewrites only the row it owns, in time, and appends only a row that breaks no UNIQUE constraint |
| TradeEffects.ExchangeAfter | worker/src/index.ts:1346-1353 | Requests leave in createOrder only; orders appear only out of requests that left |
| TradeEffects.RowsKeptAlways | worker/src/index.ts:1357-1366 | Rows are appended, and later only their status changes |
| TradeOnce.OneOrderPerSignal | worker/src/index.ts:786-830 | In every run createOrder is called at most once per (bot, signal), with the side and client order id of its row |
| TradeOnce.EveryOrderHasARow | worker/src/index.ts:1205-1353 | Every order on the exchange has exactly one row with its client order id, and not a simulated one |
| TradeApproval.OrdersAreApproved | worker/src/index.ts:1186-1203 | Every order belongs to an approved proposal and has its side |
| TradeApproval.RefusedMeansNoOrder | supabase/functions/reject-order/index.ts:39-44 | A rejected or expired proposal has led, and will lead, to no order in any state of the run |
| TradeApproval.DecisionsStandAlways | worker/src/proposalSweeper.ts:45-61 | A decided proposal never changes again; nothing but the decision of a proposal ever changes |
| TradeGates.TradesWereAllowed | worker/src/index.ts:735-785 | Behind every trade row of every run, its worker read a bot that was active, had a credential, was switched on, opted in to exits for a sell, with both caps for a buy; simulated for a simulated row, live and approved for a real one |
| TradeGates.CallsWereAllowed | worker/src/index.ts:1033-1073 | The same behind every call of createOrder |
| TradeTiming.SettledForEver | worker/src/reconciliationScan.ts:87-92 | Under the timing rule a row that is no longer pending or unknown never changes again |
| TradeTiming.RewritesStuck | worker/src/index.ts:1357-1366 | Under the rule even the unguarded update finds its row pending or unknown |
| TradeTimingNeeded.TimingRuleIsExact | worker/src/index.ts:1368-1375 | Settled rows stay settled in every run exactly if no applied update is answered with an error and the visibility timeout is not above the youngest age a resolver looks at |
| TradeTimingNeeded.CutoffIs | worker/src/reconciliationScan.ts:87-92 | The youngest age a resolver looks at: a minute, or with the runtime scan alone at least the visibility timeout and a quarter of a minute |
| TradeTimingNeeded.SlowWorkerComesBack | worker/src/index.ts:1881-1886 | A run with boot resolver and a visibility timeout above 60 seconds in which a failed trade returns to unknown |
| TradeTimingNeeded.LostAnswerComesBack | worker/src/index.ts:1368-1375 | A run in which an applied but unanswered update takes a cancelled trade back to unknown |
| TradeTimingNeeded.VisibilityIsExact | worker/src/reconciliation.ts:210-213 | Under the timing rule no trade is falsely failed in any run exactly if an accepted order is visible by the resolvers' youngest age |
| TradeCap.DailyCapHolds | supabase/migrations/029_h2_atomic_notional_cap.sql:63-74 | Under the timing rule, with any number of workers and resolvers, a bot's real buys of any UTC day that are pending, submitted, unknown or filled never exceed its cap |
| TradeCap.SumCoversExposure | worker/src/index.ts:1205-1262 | The reservation's own sum is never below the day's real exposure |
| TradeCapNeeded.CapNeedsTheRule | worker/src/index.ts:1357-1375 | For every bot that can buy, the daily cap holds in all runs exactly under the timing rule |
| TradeTruth.NoFalseFailure | worker/src/reconciliation.ts:176-248 | No trade is failed while the exchange holds an order for it that did not itself fail |
| TradeTruth.FilledMeansFilled | worker/src/reconciliation.ts:215-229 | A filled row that is not simulated stands for an order the exchange filled |
| TradeTruth.InlineNotFoundIsNotFailure | worker/src/index.ts:1605-1726 | The pipeline fails a trade only on a refusal or on the exchange's own word, never because an inline lookup found nothing |
| TradeUnknown.AtMostOneUnknown | worker/src/index.ts:832-863 | With one worker, crashes included, a bot never has two unknown trades |
| TradeUnknown.NoOrderBesideAnUnknown | worker/src/index.ts:832-863 | With one worker, no order is sent for a bot while another of its trades is unknown |
| TradeJobs.UnknownHasAJob | worker/src/index.ts:1602-1726 | Without crashes, failed inserts and orders found unknown, an unknown trade has a job or a worker about to add it |
| TradeJobs.OnlyTheLookupForgets | worker/src/index.ts:1617-1648 | Without crashes and failed inserts, only the lookup that finds its order unknown leaves a trade unknown, without a job, a message or a worker |
| TradeJobs.FoundUnknownIsForgotten | worker/src/index.ts:1617-1648 | Whatever the configuration, some run without crash or failed insert ends so |
| TradeResolver.OneAuditPerTrade | worker/src/reconciliation.ts:142-170 | Concurrent resolvers write at most one audit row per trade, and only for a settled one |
| TradeResolver.ResolvedJobIsSettled | worker/src/reconciliation.ts:142-170 | A resolved job's trade is settled and stays as it is |
| TradeResolver.OneTerminalTransition | worker/src/reconciliation.ts:71-100 | After its first terminal transition a trade is never written again, by anyone |
| TradeProgram.Site.ProcessMessage | worker/src/index.ts:688-1727 | Tables, acknowledgement and number of orders are as the message's plan says, for every combination of failing statements and exchange answers; every statement is a step of the system |
| TradeProgram.Site.HandleTheSignal | worker/src/index.ts:737-1727 | The same for a message of the frozen shape, from reading the bot on |
| TradeProgram.Site.ScreenTheSignal | worker/src/index.ts:786-830 | An earlier trade ends the work, with a job if it is unknown |
| TradeProgram.Site.CheckTheTrade | worker/src/index.ts:791-830 | Found exactly if the query answers and the signal has a trade; then it is the only one |
| TradeProgram.Site.CheckTheUnresolved | worker/src/index.ts:844-863 | Blocked exactly if the query fails or some trade of the bot is unresolved |
| TradeProgram.Site.PrepareTheOrder | worker/src/index.ts:865-1180 | Retry, block or a size: transient faults retry, closed gates and sizing errors block |
| TradeProgram.Site.RecordSimulatedFill | worker/src/index.ts:587-600 | A simulated filled row if the insert goes through, and no order |
| TradeProgram.Site.ProposeTheOrder | worker/src/index.ts:605-616 | An undecided proposal unless the signal has one, and no order |
| TradeProgram.Site.ReserveTheTrade | worker/src/index.ts:1205-1306 | A pending row exactly if the reservation goes through; acknowledged unless the call itself failed |
| TradeProgram.Site.AuditTheTrade | worker/src/index.ts:1318-1342 | Without the audit row, and failing closed, the trade is cancelled and no order is sent |
| TradeProgram.Site.WriteTheStatus | worker/src/index.ts:1356-1491 | The reported status, else unknown, else the row as it was; a job whenever it may be unknown |
| TradeProgram.Site.FailTheTrade | worker/src/index.ts:1509-1600 | A refused order fails its trade if the update goes through |
| TradeProgram.Site.FetchInline | worker/src/index.ts:1602-1726 | Found: the reported status; not found or no answer: unknown and a job |
| TradeProgram.Site.PollOnce | worker/src/index.ts:1783-1853 | The message read, the tables it leaves, and deleted exactly if acknowledged and the delete succeeds |
| TradeProgram.Site.ApproveOrder | supabase/functions/approve-order/index.ts:38-58 | Spends the ticket, then approves exactly a decidable proposal; the approved message with its side follows unless the send fails |
| TradeProgram.Site.RejectOrder | supabase/functions/reject-order/index.ts:36-46 | Spends the ticket, then declines exactly a decidable proposal |
| TradeProgram.Site.ExpireProposals | worker/src/proposalSweeper.ts:45-67 | Exactly the overdue undecided proposals expire, and none is left |
| TradeProgram.Site.RequeueSignals | worker/src/webhookRequeueSweeper.ts:112-149 | One unapproved message per claimed signal whose send goes through, with the logged side, and both counters |
| TradeProgram.LeftMeansUntouched | worker/src/index.ts:854-863 | A message left for redelivery has changed no table and sent no order |
| TradeProgram.SecondDeliveryPlacesNothing | worker/src/index.ts:786-830 | Once a signal has a trade, no later delivery adds a trade or sends an order, even if the query for that trade fails |
| TradeProgram.UnknownGetsAJobIff | worker/src/index.ts:1602-1726 | A trade left unknown gets a job exactly if the insert goes through and the inline lookup did not find its order |
| TradeProgram.FoundUnknownGetsNone | worker/src/index.ts:1617-1648 | With every statement applied, a trade can be left unknown without a job |
| TradePlans.ActsExactlyIf | worker/src/index.ts:1033-1073 | A message is filled or placed exactly under these conditions on the tables, the bot, its configuration and its sizing |
| TradePlans.OtherwiseItIs | worker/src/index.ts:735-1180 | Offered, repeated or left for later, each exactly when; everything else is dropped |
| TradePlans.SwitchedOffMeansNothing | worker/src/index.ts:1033-1045 | A bot that is switched off gets no trade, no proposal and no order |
| TradeOutcomes.ReservationIs | supabase/migrations/029_h2_atomic_notional_cap.sql:24-93 | A reservation and each of its refusals, exactly when |
| TradeOutcomes.DaySumCounts | supabase/migrations/029_h2_atomic_notional_cap.sql:63-74 | A row adds its notional to its bot and day exactly while it is not cancelled or failed |
| TradeOutcomes.StatusIs | worker/src/index.ts:1318-1726 | The status and the job of a reserved trade for every answer of the exchange and every update that fails |
| TradeOutcomes.PlacingComesTo | worker/src/index.ts:1205-1727 | A message that is placed: its row, at most one order, its job and its acknowledgement, or nothing |
| TradeOutcomes.OthersComeTo | worker/src/index.ts:587-863 | Every other message sends no order; a fill adds its row, an offer its proposal, a repeat its job |
| TradeOutcomes.DecidingIs | supabase/functions/approve-order/index.ts:41-48 | Only the owner decides, only once, and nothing else of the proposal changes |
| TradeOutcomes.ExpiringIs | worker/src/proposalSweeper.ts:45-61 | Exactly the undecided proposals past their time expire |
| TradeOutcomes.MessagesStay | worker/src/index.ts:1783-1853 | A message leaves the queue only when a worker done with it deletes it; reading hides it and nothing rewrites it |
| TradeOutcomes.LeftForLaterIff | worker/src/index.ts:854-863 | A worker leaves a message for redelivery exactly for a passing fault, an ambiguous trade or an unanswered reservation |
| TradeOutcomes.LookupIs | worker/src/index.ts:791-830 | The lookup of an earlier trade goes on exactly if it fails or there is none |
| Reconciler.Resolver.UpdateTradeStatus | worker/src/reconciliation.ts:71-100 | Guarded update; zero rows on an error |
| Reconciler.Resolver.FinalizeTerminal | worker/src/reconciliation.ts:142-170 | Trade, job and audit row in this order, and the action that results |
| Reconciler.Resolver.ResolveStuckTrade | worker/src/reconciliation.ts:176-248 | The tables and the action for every answer, on a row that may have moved since it was read |
| Reconciler.Resolver.ResolvePending | worker/src/reconciliation.ts:328-389 | The first cap eligible trades one after the other, with one result each |
| Reconciler.Scanner.ScanOnce | worker/src/reconciliationScan.ts:87-134 | No overlap, first failure and recovery logged, and no trade younger than the visibility timeout plus the margin changes |
| Reconciler.ResolvedMeansOneJobMoved | worker/src/reconciliation.ts:151-170 | A resolved answer: exactly one pending job moved and exactly this trade moved; every other answer says what stayed |
| Reconciler.AuthErrorFailsTheJob | worker/src/reconciliation.ts:190-205 | An auth error fails the open job of a trade seen stuck and touches nothing else |
| Reconciler.FinalAnswerSettles | worker/src/reconciliation.ts:142-232 | Not found or final: a trade still stuck takes that status, its open job is resolved and an audit row written, each if its write goes through |
| Reconciler.OtherAnswersWait | worker/src/reconciliation.ts:206-247 | Every other answer changes no table |
| Reconciler.BatchIs | worker/src/reconciliation.ts:336-352 | The batch is the first cap of the rows that are pending or unknown and older than the cutoff |
| Reconciler.ResultsCountJobs | worker/src/reconciliation.ts:328-389 | Over a batch, resolved jobs grow by the number of resolved results, and pending ones shrink by them and the failed ones |
| Reconciler.BatchShrinks | worker/src/reconciliation.ts:336-355 | If every trade gets an adapter and a final answer, n eligible trades shrink by min(cap, n) |
| Reconciler.SweepLeavesOthers | worker/src/reconciliation.ts:354-386 | A batch changes no trade outside it |
| ReconcilerSteps.ProgramTakesSteps | worker/src/reconciliation.ts:176-248 | The program's resolution of a trade is a sequence of steps of the system with the same tables in the end |
| SizingRisk.FormatKeepsStepsIff | worker/src/sizingRisk.ts:142 | Formatting leaves all multiples of the step alone exactly if the step is a whole number of units of the last decimal |
| SizingRisk.QuantityBounds | worker/src/sizingRisk.ts:34-39 | A quantity is a multiple of the step, less than a step below the value, and above it by the tolerance at most |
| SizingRisk.BuyIsSized | worker/src/sizingRisk.ts:105-152 | A buy costs at most the requested notional plus the tolerance, is affordable and not below either minimum |
| OrderSizing.MissingFields | worker/src/sizingRisk.ts:60-80 | Names exactly the missing fields; none is missing exactly if the configuration is ready |
| OrderSizing.RequestedIs | worker/src/sizingRisk.ts:105-117 | The notional is the percentage of the free balance, or the fixed amount |
| OrderSizing.BuyOkIff | worker/src/sizingRisk.ts:105-152 | A buy succeeds exactly if priced, affordable, on a usable step and above both minima |
| OrderSizing.BuyErrors | worker/src/sizingRisk.ts:105-152 | Which error is given, exactly when |
| OrderSizing.PercentBuy | worker/src/sizingRisk.ts:105-152 | A percent buy costs at most that percentage of the balance plus the tolerance, and is less than a step short of it |
| OrderSizing.FixedBuy | worker/src/sizingRisk.ts:105-152 | A fixed buy, likewise, against the fixed notional |
| SizingRisk.RoundDownIs | worker/src/sizingRisk.ts:34-39 | The most steps that fit the value, with one part in 10^12 of their number forgiven |
| SizingRisk.FormatIs | worker/src/sizingRisk.ts:142 | Formatting gives the nearest number with so many decimals, halves away from zero |
| SizingRisk.SellIsSized | worker/src/sizingRisk.ts:160-172 | A sale is at most the configured share plus the tolerance, a multiple of the step, not below the minimum |
| OrderSizing.SellOkIff | worker/src/sizingRisk.ts:160-172 | A sale succeeds exactly if enabled, configured and the balance known; the errors, exactly when |
| OrderSizing.PercentSale | worker/src/sizingRisk.ts:160-172 | A sale is at most the percentage of the balance plus the tolerance, and less than a step short of it |
| SizingRisk.HalfStepOverspends | worker/src/BinanceAdapter.ts:268-272 | With a step of one half and no decimals a buy exceeds its notional |
| StepPrecision.DecimalsServeIff | worker/src/BinanceAdapter.ts:268-272 | A step is a whole number of units of its derived last decimal exactly if below one its digits are 1, 2 or 3, and from one on its decimals are at most the step rounded |
| StepPrecision.QuantitiesStayIff | worker/src/sizingRisk.ts:142 | Formatting leaves the multiples of a step alone exactly for those steps |
| SizingRisk.ReservationEnforces | worker/src/sizingRisk.ts:194-211 | The reservation checks the same limits in the same order as the helper |
| Ranking.BestAre | strateteach/python-backend/scripts/mr_paper_sim.py:185-187 | A stable ranking of which the first few are taken: as many as wanted, in order, each before every candidate left out |
| MrReplay.ChosenAreBest | strateteach/python-backend/scripts/mr_paper_sim.py:177-187 | Tomorrow's entries are as many as fit the free slots, in rank order, equals in asset order, each before every candidate left out |
| MrBounds.CapAndQueues | strateteach/python-backend/scripts/mr_paper_sim.py:146-187 | Never more than eight positions; queued entries meet neither the cap break nor the already-open skip |
| MrBounds.MoneyIsConserved | strateteach/python-backend/scripts/mr_paper_sim.py:126-163 | Cash and the open positions' cost with fees are the starting value and the closed profit |
| MrBounds.CashHasAFloor | strateteach/python-backend/scripts/mr_paper_sim.py:156-160 | With positive closes, cash is never below the fee on one full slice |
| MrBounds.NoLookAhead | strateteach/python-backend/scripts/mr_paper_sim.py:147-187 | Every position was signalled on the close of the day before its fill and is held overnight at least |
| MrFills.FillsArePriced | strateteach/python-backend/scripts/mr_paper_sim.py:126-163 | Every position and trade was bought at the open of its day with slippage and sold at the open of its day, or at what stands in for a missing price; return and profit from the two fills and the fee |
| MrFills.EntryIs | strateteach/python-backend/scripts/mr_paper_sim.py:147-163 | An entry fills exactly if not held, with a positive open and money, for the smaller of a full slice and the cash, the fee on top |
| MrFills.CurveIs | strateteach/python-backend/scripts/mr_paper_sim.py:164-170 | The curve is, day by day, the cash and each position at its close, or at what was paid without a bar |
| MrFills.ExitQueuedIff | strateteach/python-backend/scripts/mr_paper_sim.py:171-176 | An exit is queued exactly for the held assets whose bar, past the warm-up, meets the exit rule |
| MrFills.CandidateIff | strateteach/python-backend/scripts/mr_paper_sim.py:177-184 | A candidate is exactly an asset not held whose bar, past the warm-up, meets the entry rule |
| MrFills.ChosenAre | strateteach/python-backend/scripts/mr_paper_sim.py:177-187 | As many entries as eight positions leave room for, best-ranked first |
| MrProgram.Replay | strateteach/python-backend/scripts/mr_paper_sim.py:109-188 | The day loop computes the specified trades and equity curve; every trade ends after it began |
| MrProgram.FillQueuedExits | strateteach/python-backend/scripts/mr_paper_sim.py:128-146 | Exits filled at the open with slippage and fee, one after the other |
| MrProgram.FillQueuedEntries | strateteach/python-backend/scripts/mr_paper_sim.py:147-163 | Entries filled in rank order until the cap |
| MrProgram.MarkToMarket | strateteach/python-backend/scripts/mr_paper_sim.py:164-170 | Cash plus the marked positions |
| MrProgram.QueueEntries | strateteach/python-backend/scripts/mr_paper_sim.py:177-187 | The best-ranked candidates that fit the free slots |
| ReplayCalendar.CalendarIs | strateteach/python-backend/scripts/dr_crypto_modes_gen.py:66 | The calendar is increasing and holds exactly the days on which some asset has a bar |
| DrLedger.MoneyIsConserved | strateteach/python-backend/scripts/dr_crypto_modes_gen.py:76-120 | At every day boundary cash and open cost with fees are the starting value and the exact profit |
| DrLedger.FinalCash | strateteach/python-backend/scripts/dr_crypto_modes_gen.py:134-141 | After the final liquidation all money is cash |
| DrLedger.RunningEquity | strateteach/python-backend/scripts/dr_crypto_modes_gen.py:145-147 | The rounded running sum is exact in cents, at every trade |
| DrLedger.LogEndsNearCash | strateteach/python-backend/scripts/dr_crypto_modes_gen.py:134-147 | The last running equity is within half a cent per trade of the cash, whatever order the trades are sorted in |
| DrCausality.IndicatorsAreCausal | strateteach/python-backend/scripts/dr_crypto_modes_gen.py:54-64 | No indicator of a bar looks at a later bar |
| DrCausality.SameDay | strateteach/python-backend/scripts/dr_crypto_modes_gen.py:66 | Data sets that agree up to a date have the same calendar up to it |
| DrCausality.CausalByDay | strateteach/python-backend/scripts/dr_crypto_modes_gen.py:57-133 | Data sets that agree on all bars up to a date give the same cash, positions, pending lists, closed trades and equity curve through it |
| DrReplay.BestAreStrongest | strateteach/python-backend/scripts/dr_crypto_modes_gen.py:125-133 | Tomorrow's entries are as many as fit the free slots, strongest first, equals in asset order, each before every candidate left out |
| DrSignals.TrueRangeIs | strateteach/python-backend/scripts/dr_crypto_modes_gen.py:54-56 | The true range is the largest distance between high, low and the close before |
| DrSignals.AtrIs | strateteach/python-backend/scripts/dr_crypto_modes_gen.py:54-56 | The average range starts with the first true range; then one p-th is new and the rest old |
| DrSignals.HighestIs | strateteach/python-backend/scripts/dr_crypto_modes_gen.py:61-63 | The high of a window is one of its highs and not below any |
| DrSignals.CloseSumIs | strateteach/python-backend/scripts/dr_crypto_modes_gen.py:62 | The sum of the closes of a window, told from its other end |
| DrSignals.ExitQueuedIff | strateteach/python-backend/scripts/dr_crypto_modes_gen.py:112-124 | Told to leave are exactly the held assets with a bar today, past the warm-up, below the high of 22 bars less three average ranges, or below the mean of 200 closes |
| DrSignals.ForcedCloses | strateteach/python-backend/scripts/dr_crypto_modes_gen.py:112-121 | Exactly the positions without a bar for more than 45 days are closed, at their last close; the others stay, their last close updated |
| DrSignals.CandidateIff | strateteach/python-backend/scripts/dr_crypto_modes_gen.py:125-132 | A candidate is exactly an asset not held whose bar, past the warm-up, closes above the high of the 20 bars before and above the mean of 200 closes, ranked by how far |
| DrSignals.ChosenAre | strateteach/python-backend/scripts/dr_crypto_modes_gen.py:125-133 | As many entries as eight positions leave room for, strongest first |
| DrFills.FillsAreFair | strateteach/python-backend/scripts/dr_crypto_modes_gen.py:76-121 | Every position and trade was bought at the open of its day with slippage and sold at the open of its day, at what was paid, or after a long gap at the last close; quantity, size and profit from the fills and the fees, the log to the nearest cent |
| DrFills.EntryIs | strateteach/python-backend/scripts/dr_crypto_modes_gen.py:96-108 | An entry fills exactly if not held, with a positive open, and for a cent or more: the least of its share of the equity, the room under the exposure cap and the cash |
| DrFills.DaysGo | strateteach/python-backend/scripts/dr_crypto_modes_gen.py:76-133 | Each day: exits, then the equity at the closes sets peak and risk, entries, the curve, and the evening |
| DrFills.FinalTrades | strateteach/python-backend/scripts/dr_crypto_modes_gen.py:134-141 | What is open at the end is closed at the last close, one trade for each position |
| DrEntrySize.SwayingDiffers | strateteach/python-backend/scripts/dr_crypto_modes_gen.py:102-108 | If the size sways, two equities not below the known one give different sizes |
| DrEntrySize.SteadyOtherwise | strateteach/python-backend/scripts/dr_crypto_modes_gen.py:102-108 | If not, every such equity gives the same size, nothing or all cash |
| DrLookAhead.NothingToFill | strateteach/python-backend/scripts/dr_crypto_modes_gen.py:96-108 | In every mode: if no entry can be filled, the day's prices do not change the book of the fills |
| DrLookAhead.LookAheadIff | strateteach/python-backend/scripts/dr_crypto_modes_gen.py:90-110 | Without volatility targeting, all data that agree before a day and at its open give the same fills exactly if no entry can be filled, no held position is quoted or the size does not sway |
| DrLookAheadHappens.LookAheadHappens | strateteach/python-backend/scripts/dr_crypto_modes_gen.py:90-110 | Two data sets that agree before a day and at its open, and spend different amounts on the same entry |
| DrProgram.Run | strateteach/python-backend/scripts/dr_crypto_modes_gen.py:65-147 | The day loop and the liquidation compute the specified cash, log and curve, with all money accounted for |
| DrProgram.FillPendingExits | strateteach/python-backend/scripts/dr_crypto_modes_gen.py:77-89 | Exits filled at the open, one after the other |
| DrProgram.FillPendingEntries | strateteach/python-backend/scripts/dr_crypto_modes_gen.py:96-110 | Entries sized by equity, guard, volatility, exposure cap and cash, until the cap |
| DrProgram.GoOverPositions | strateteach/python-backend/scripts/dr_crypto_modes_gen.py:112-124 | Forced closes after the gap, and exit signals for the rest |
| DrProgram.QueueEntries | strateteach/python-backend/scripts/dr_crypto_modes_gen.py:125-133 | The strongest breakouts that fit the free slots |
| DrProgram.Liquidate | strateteach/python-backend/scripts/dr_crypto_modes_gen.py:134-141 | Every open position closed at its last close |
| Base64Url.DecodeB64url | supabase/functions/_shared/webhook-hash.ts:14-21 | The loop fills the decoded bytes; fails exactly where the platform throws |
| Base64Url.BytesToHex | supabase/functions/_shared/webhook-hash.ts:31-36 | Two lower-case digits per byte |
| Base64Url.HexToBytes | supabase/functions/_shared/webhook-hash.ts:23-29 | One byte per pair of digits |
| Base64Url.DecodeEncode | supabase/functions/_shared/provision-ticket.ts:47-52 | Decoding undoes encoding on all bytes (RFC 4648, section 5) |
| Base64Url.GroupIsNumber | supabase/functions/_shared/provision-ticket.ts:47-52 | Three bytes are four digits of the url alphabet with the same value; what follows is encoded on its own (RFC 4648, sections 4 and 5) |
| Base64Url.TailIsNumber | supabase/functions/_shared/provision-ticket.ts:47-52 | One or two bytes left over are two or three digits, filled up with zero bits |
| Base64Url.AtobSkipsSpaces | supabase/functions/_shared/webhook-hash.ts:14-21 | The platform decoder skips white space |
| Base64Url.AtobRejects | supabase/functions/_shared/webhook-hash.ts:14-21 | It throws on every other character outside the alphabet |
| Base64Url.CanonicalIff | supabase/functions/_shared/provision-ticket.ts:98-102 | Encoding undoes decoding exactly on url strings whose unused trailing bits are zero (RFC 4648, section 3.5) |
| Base64Url.WithoutTheCheck | supabase/functions/_shared/provision-ticket.ts:99-102 | Without the canonical check two handles stand for the same 32 bytes |
| Base64Url.UnhexHex | supabase/functions/_shared/webhook-hash.ts:23-36 | Reading hexadecimal undoes writing it |
| Base64Url.HexDigitsAre | supabase/functions/_shared/webhook-hash.ts:31-36 | Each byte is two lower-case digits, the high one first |
| Base64Url.HexUnhex | supabase/functions/_shared/webhook-hash.ts:23-36 | Writing undoes reading up to letter case on even lengths |
| ProvisionTicket.SignThenVerify | supabase/functions/_shared/provision-ticket.ts:64-117 | Verification returns exactly the signed payload, exactly if it is fresh, bound to the action and complete |
| ProvisionTicket.VerifiedIsComplete | supabase/functions/_shared/provision-ticket.ts:91-117 | A verified ticket carries every field its action needs, spelled out action by action |
| ProvisionTicket.CompleteVerifies | supabase/functions/_shared/provision-ticket.ts:64-117 | A signed payload that carries them verifies |
| ProvisionTicket.AcceptedRefIff | supabase/functions/_shared/provision-ticket.ts:98-102 | The handles accepted are exactly the encodings of 32 bytes |
| ProvisionTicket.VerifiedMeansSigned | supabase/functions/_shared/provision-ticket.ts:76-91 | A ticket that verifies carries its body's MAC; if that body was signed, it yields the payload signed |
| ProvisionTicket.BoundToOneAction | supabase/functions/_shared/provision-ticket.ts:91-93 | One ticket serves one action, for at most five minutes |
| ProvisionTicket.ProvisionTicketHasRef | supabase/functions/_shared/provision-ticket.ts:95-102 | A verified provisioning ticket has a canonical handle of 32 bytes |
| ProvisionTicket.APlatformCarriesAll | supabase/functions/_shared/provision-ticket.ts:64-71 | One platform meets the hypothesis of the ticket lemmas for all payloads that expire on a whole second |
| ProvisionStore.EmailIsInjective | supabase/functions/provision-user/index.ts:40-42 | Two accepted handles never share a synthetic email |
| ProvisionStore.Directory.CreateUser | supabase/functions/provision-user/index.ts:88-99 | A user exactly if the request arrives and the email is free |
| ProvisionStore.Directory.FindByEmail | supabase/migrations/040_strateteach_user_link.sql:50-57 | A user to adopt only if email and handle both match |
| ProvisionStore.Directory.UpsertLink | supabase/functions/provision-user/index.ts:109-113 | A link only if the handle has none and the user is in none |
| ProvisionStore.Directory.Provision | supabase/functions/provision-user/index.ts:73-120 | Tables and response after one call, for every combination of lost requests and answers |
| ProvisionStore.ClaimComesTo | supabase/functions/provision-user/index.ts:73-75 | When a ticket is taken and when a call ends at its claim |
| ProvisionStore.LinkedComesTo | supabase/functions/provision-user/index.ts:77-86 | A linked handle gets its user or is told the link is disabled, and nothing is written |
| ProvisionStore.NewComesTo | supabase/functions/provision-user/index.ts:88-120 | When a user and a link appear, and the answer that follows |
| ProvisionProtocol.OneUserPerHandle | supabase/functions/provision-user/index.ts:73-120 | Under concurrent calls and crashes, granted answers name the same user exactly when they are for the same handle |
| ProvisionProtocol.LinkNeverConflicts | supabase/migrations/040_strateteach_user_link.sql:15-20 | The UNIQUE constraint on linked users never refuses a link |
| ProvisionProtocol.NobodyIsLockedOut | supabase/functions/provision-user/index.ts:77-120 | In any reachable state a call without faults is granted a user or told the link is disabled |
| ProvisionProtocol.OneGrantPerTicket | supabase/functions/provision-user/index.ts:73-75 | A ticket is granted at most once |
| ProvisionSteps.ProgramTakesSteps | supabase/functions/provision-user/index.ts:73-120 | An uninterrupted call of the program is a sequence of steps of the system with the same tables and answer |

## Left out

- TradeProgram.Site.ProcessMessage: one message's processing is uninterrupted there; crashes and interleavings are in the step system.
- TradeProgram.Site.HandleTheSignal: uninterrupted in the same way.
- TradeProgram.Site.PrepareTheOrder: the credential, owner, venue, environment, egress and account-type checks are one three-way input.
- TradeProgram.Site.PollOnce: any visible message may be read; the queue's order is not modelled.
- TradeCap.DailyCapHolds: simulated fills are not checked against the cap and not counted; the code lets them consume it only.
- TradeOnce.OneOrderPerSignal: an order placed outside the pipeline (`worker/src/flatten.ts`) is not covered.
- TradeTruth.NoFalseFailure: rests on the assumptions about the exchange listed above.
- Reconciler.Resolver.ResolvePending: trades are taken in the order of their ids; the query names no order.
- Reconciler.Scanner.ScanOnce: a resolver that throws has done nothing; the code's resolver never throws.
- StepPrecision.DecimalsServeIff: the price precision, derived by the same rule, is not used by the sizing.
- MrBounds.CashHasAFloor: closes are finite; a missing close is not modelled.
- DrCausality.CausalByDay: by day only, end-of-data liquidation excluded, because same-day closes size same-day entries.
- DrLookAhead.LookAheadIff: with volatility targeting the size also depends on the day's range through the indicator; for those modes only the case without a fillable entry is stated (`DrLookAhead.NothingToFill`).
- DrLookAheadHappens.LookAheadHappens: one data set in the engine's first mode; the other modes are covered by the same caveat.
- DrProgram.Run: the summary statistics, the percentage profit and the rounding of the log's prices and quantities are not modelled; the sort by date is any reordering.
- ProvisionProtocol.NobodyIsLockedOut: people who sign up elsewhere carry no provisioning metadata, and the handle's email is not taken by one of them.
- ProvisionStore.Directory.UpsertLink: re-linking a disabled handle and deleting users are not modelled.
- No liveness is claimed where the code gives none: approve-order can approve and then fail to send, and ingress can accept a signal and fail to enqueue it.
- Price, quantity, order id, fee and error columns of trades, the dead-letter table and all audit rows but the resolver's.
- Rows deleted by their soft-delete column.
- The exchange library, vault clients, HTTP, CORS, alerts, heartbeats, logging and status writers.
- The circuit breaker and credential disabling as such; they are arbitrary changes of bot rows.
- The webhook's own log statuses and retry times; only the messages it and its sweeper send.
- SQL beyond the guarantees the code relies on: unique keys, conditional updates, one statement at a time.
- `assertExchangeEnvironment`, `reconcile.classify`, access and configuration helpers: easy members.
- The optimizer's copy of the filter in `pilot_strategy_optimize.py`, and the strategy rules behind the replay's entry and exit functions, which are parameters.
