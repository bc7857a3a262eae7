# Agent Hub: a Dafny model

The Agent Hub (`src/qt/agent_hub`) is a small durable-execution engine with a trading ledger on top. This project
models it in Dafny 4.11 and proves what its protocols keep over every run. `dafny verify dfyconfig.toml` covers the
whole project.

**Trading ledger.** `Ledger` gives the tables of one tenant in one mode as values and what each transaction of
`TradingService` computes: the risk check, the reservation, the save before the send, `_finish`, the two exception
handlers and `reconcile`. `Trading` is the class with those tables as fields, proved against these functions.
`LedgerLaws` holds the ledger invariant (solvency, conservation, agreement of cash and inventory with the accounted
orders) and `PaperLaws` the paper reservations. `Execution` is a step system of any number of workers, submitters and
reconcilers: each step is one transaction or one exchange call, each actor keeps the record it holds in memory, and an
actor may stop between any two steps. Lease guards, clocks, risk modes and exchange answers are inputs of the steps,
so a worker whose lease has gone is an actor like any other. `AtMostOnce` and `ExactlyOnce` are the theorems over its
runs, and `OrdersGoThrough` shows that orders do get through. `Executor` is `execute` of the runtime over a paper
ledger, with its crash points. `RiskModes` is what the risk modes stop, `BasisRuns` when a holding is empty exactly
when its cost is zero, and `WitnessRuns` the runs at which a property fails. `Admission` says which orders and which
exchange results are accepted, by their fields; `PaperOutcomes` what a paper order fills and moves; and
`SalesGoThrough` that sales get through under the modes that let them pass. `Outcomes` and `Guards` say what becomes
of an order after an answer, a lookup, a lost lease or no answer at all.

**Job store.** `Jobs` gives the queue, its events, cancellations and schedules as values and each transaction of
`HubStore` as a function; `Hub` is the class. `JobHistory` holds the invariant that every transaction keeps and what
no transaction undoes, `Fencing` the consequences for whole runs, `Schedules` the bucket arithmetic, `HeldTicks` what
a tick, and a second one at the same time, enqueues, `Leases` how long a lease protects an attempt, and `JobRules`
which job a claim takes, from when a job can start and where a result comes from.

**Workflow.** `Workflow` adds the next-step rule of `handle` and `run_once`, `PipelineShape` the chains it builds,
`AutoExecute` when a reviewed order goes out, `AutoExecute` when a reviewed order goes out, `AutoExecute` when a reviewed order goes out, `Termination` the claim bound and a decreasing measure, and `Runtime`
the class `HubRuntime` with `_ancestors` and a worker's turn.

**Self-contained algorithms.** `Backtest`, `Sandbox`, `BacktestLaws` and `StrategyLaws` (the moving-average
experiment: its arithmetic, its methods, its laws and its trading rule), `OrderBook` and `OrderBookLaws` (the walk
over the asks), `Forecasts`, `ForecastLaws` and `ForecastRules` (resolutions and cohort selection), `Evidence`,
`EvidenceLaws` and `EvidenceRules` (versioned evidence and memories), `ContextBudget` and `ContextRules` (the bounded
assembler with the JSON text it measures). `Core` and `Sums` are helpers: results and options, and sums over the rows
of a table.

Conventions: amounts are exact reals; hashes are injective, so a fingerprint is the thing itself; a JSON record is a
datatype; the clock, drawn identifiers and row orders of unordered queries are inputs of each step; a transaction
that raises leaves the tables as they were. Each model is of one tenant (and one trading mode), since every query
filters on it.

## Where the code does less than its description

- Reconciliation window: `orders` sorts by creation time descending and then by key ascending, so rows that share
  the open order's creation time under smaller keys come first. Non-decreasing creation times alone do not put the
  open order in the window: `ExactlyOnce.WindowHoldsOpenOrderExactly` has the condition and
  `WitnessRuns.TiesHideOpenOrder` a run.
- Empty holding, non-zero cost: a purchase from flat whose base fee equals the fill leaves cost without inventory:
  `BasisRuns.SmallFeesKeepBasis`, `LedgerLaws.BasisMatchedExactly`, and `BasisRuns.WholeFeeLeavesCost` for the runs.
- The save before the send writes the copy held in memory without reading the row. It is safe only because a lookup
  finds nothing for an order that was not sent: `ExactlyOnce.MarkKeepsOrdersExactly`, and
  `WitnessRuns.DishonestLookupPaysTwice` for a run in which one lookup says otherwise.
- Cancelling through a job whose payload has `"pipeline_id": null` records the run id `"None"` and stops nothing,
  while every other check reads the null; `Fencing.CancelStopsExactly`.
- Forecast selection sorts by the caller's `decision_time`, so a later, backdated forecast displaces the scored one;
  `ForecastLaws.OccupiedCohortIsKeptExactly`.
- `ingest` reads its clock before its transaction begins, so a commit can appear in a view whose `known_at` has
  already passed; `EvidenceLaws.ViewKeptExactly`.
- A schedule held back by `buffer_one` is enqueued by a later tick with the same time if its job finished in
  between: `HeldTicks.LaterTickEnqueuesExactly` has the condition and `HeldTicks.SecondTickCanEnqueue` a run. A tick
  repeated with nothing in between changes nothing (`Schedules.RepeatedTickIsIdle`), and a bucket never gets a second
  job (`Schedules.ScheduleCoalesces` with a = b).

## Model

| member | source | states |
|---|---|---|
| AtMostOnce.ExecutedAtMostOnce | src/qt/agent_hub/trading.py:1238-1403 | Over every interleaving of workers, other callers, crashes between any two transactions, lost leases, retries and reconcilers, and with no assumption about the exchange: every key has one order whose intent never changes, and it is sent at most once; a key that no other caller of submit uses carries the first intent ever stored under it. |
| AtMostOnce.RunKept | src/qt/agent_hub/trading.py:1128-1170 | From any point of a run to any later one no order disappears or changes its intent, a stored intent is never replaced, and send counts never fall. |
| AtMostOnce.StepStages | src/qt/agent_hub/runtime.py:985-1057 | Each actor that may send owns an unsent order which no other actor may send; every step keeps this. |
| ExactlyOnce.LedgerMatchesHistory | src/qt/agent_hub/trading.py:1516-1604 | In every reachable state cash is the funding plus the net cash of the accounted orders, held quantity is the sum of their net fills, cash plus cost less realized profit is the funding, and none of cash, quantity and cost is negative. |
| ExactlyOnce.SingleOpenOrder | src/qt/agent_hub/trading.py:1443-1447 | At most one order is open at any time, and a terminal row never changes again. |
| AtMostOnce.BlockedWasNeverSent | src/qt/agent_hub/trading.py:1373-1386 | A guard failure that rejects an order only ever meets an order that was not sent, whatever lookups answer. |
| RiskModes.BlockedSideGainsNothing | src/qt/agent_hub/trading.py:1652-1677 | While every check reads reduce-only or the kill switch, no purchase is added or sent, over any run; under the kill switch without protective exits no sale is either. |
| SalesGoThrough.CoveredSalesGoThrough | src/qt/agent_hub/trading.py:1652-1677 | The converse: from any reachable state a covered sale is reserved, sent once and accounted with its proceeds under active, under reduce-only, and under the kill switch with protective exits. |
| SalesGoThrough.BoughtCanBeSold | src/qt/agent_hub/trading.py:1502-1507 | Such states exist: what any affordable purchase bought can be sold again, in part or whole, under each of these modes. |
| ExactlyOnce.MarkKeepsOrdersExactly | src/qt/agent_hub/trading.py:1339-1350 | The save before the send overwrites the row from the copy in memory: accounted rows survive it if and only if this row was not accounted in between. |
| WitnessRuns.DishonestLookupPaysTwice | src/qt/agent_hub/trading.py:1747-1777 | A run in which every step but one lookup is honest: told that an unsent order is filled, reconcile accounts it, the submitter saves its own copy over the row, sends and accounts again; cash is paid twice for one order and no longer agrees with the orders. |
| ExactlyOnce.WindowHoldsOpenOrderExactly | src/qt/agent_hub/trading.py:1606-1617 | With creation times that do not decrease, the 1000-row window of reconcile holds the open order if and only if fewer than 1000 rows share its creation time under smaller keys. |
| WitnessRuns.TiesHideOpenOrder | src/qt/agent_hub/trading.py:1747-1752 | A run with honest lookups and non-decreasing creation times, in which 1000 orders are rejected and one is announced at one instant, and the open order lies outside the window. |
| WitnessRuns.CrowdPrecedes | src/qt/agent_hub/trading.py:1606-1617 | For every n a run exists in which n orders of the open one's instant come before it in the row order of the window. |
| OrdersGoThrough.AffordableOrdersGoThrough | src/qt/agent_hub/trading.py:1238-1372 | For every affordable purchase of a workflow there is a run in which it is sent exactly once and accounted, after which it is held at its cost and nobody is at work. |
| Execution.StepInv | src/qt/agent_hub/trading.py:1299-1403 | Every step of the protocol keeps the joint invariant of tables, intents, send counts and the actors' in-memory records. |
| Execution.ReconcileOrderInv | src/qt/agent_hub/trading.py:1758-1777 | Applying a lookup to the current row keeps the ledger invariant whether the result is accepted, refused or missing. |
| Execution.HandlersInv | src/qt/agent_hub/trading.py:1373-1403 | Both exception handlers of submit keep the ledger invariant and leave accounted rows alone. |
| LedgerLaws.FinishInv | src/qt/agent_hub/trading.py:1539-1604 | An outcome is applied to a pending order once: cash, positions and exactly that row change, all ledger laws hold afterwards, and the record is accounted exactly when the status is terminal. |
| LedgerLaws.AccountLaws | src/qt/agent_hub/trading.py:1561-1575 | A terminal fill moves cash, quantity and cost by the order's net amounts, conserves cash plus cost less profit, and leaves nothing negative, with the cost basis prorated by a real division. |
| LedgerLaws.Prorate | src/qt/agent_hub/trading.py:1566-1573 | The basis removed by a sale is between zero and the whole cost; it is the whole cost when the whole holding leaves, and leaves cost behind when inventory stays. |
| LedgerLaws.RejectionAccepted | src/qt/agent_hub/trading.py:1345-1348 | A rejection of a pending order is always accepted and moves no cash and no inventory. |
| BasisRuns.SmallFeesKeepBasis | src/qt/agent_hub/trading.py:1550-1583 | After any sequence of BUY, SELL, partial, expired and rejected results, however they interleave, quantity is zero exactly when cost is zero, if the exchange reports base fees smaller than fills. |
| BasisRuns.EmptyExactlyWhenCostless | src/qt/agent_hub/trading.py:1550-1583 | The same from the ledger alone: in every reachable state whose accounted purchases kept some of their fill. |
| BasisRuns.WholeFeeLeavesCost | src/qt/agent_hub/trading.py:1561-1575 | For every affordable purchase a run exists in which the exchange reports a base fee of the whole fill and which ends with a cost and no holding. |
| LedgerLaws.BasisMatchedExactly | src/qt/agent_hub/trading.py:1561-1575 | One accepted terminal fill keeps quantity zero exactly when cost is zero if and only if it is not a purchase from flat whose base fee takes all of it. |
| LedgerLaws.SaveInv | src/qt/agent_hub/trading.py:1509-1514 | Saving an open record over an unaccounted row keeps the ledger invariant. |
| LedgerLaws.InsertInv | src/qt/agent_hub/trading.py:1305-1320 | Inserting the reserved row keeps the ledger invariant and every earlier order. |
| LedgerLaws.OpenAccountInv | src/qt/agent_hub/trading.py:1464-1468 | Creating a venue account, in paper mode or by binding an adapter, keeps the ledger invariant and every order. |
| Execution.BindInv | src/qt/agent_hub/trading.py:800-851 | Binding a venue between any two steps keeps the joint invariant; no order, intent or send is changed. |
| PaperLaws.UnitCostIncreases | src/qt/agent_hub/trading.py:1405-1411 | Price plus fee per share increases strictly with the price on both venues, for Polymarket on prices between zero and one. |
| PaperLaws.FillWithinReservation | src/qt/agent_hub/trading.py:1275-1276 | A fill of at most the ordered quantity at a price no higher than the limit costs at most the reservation, fee included. |
| PaperLaws.FeeWithinProceeds | src/qt/agent_hub/trading.py:1405-1411 | The fee of a sale never exceeds its proceeds. |
| PaperLaws.PaperFillIsClean | src/qt/agent_hub/trading.py:1321-1335 | The simulated fill passes every validation of the accounting and stays within reservation or limit. |
| PaperLaws.PaperNeverRefused | src/qt/agent_hub/trading.py:1321-1336 | The accounting never refuses a paper order that the risk check admitted. |
| PaperLaws.BudgetsKept | src/qt/agent_hub/trading.py:1595-1603 | After the order is accounted total cost is within the position limit and every day's purchases are within the daily limit. |
| PaperLaws.PaperSubmitInv | src/qt/agent_hub/trading.py:1238-1336 | Whatever its arguments, a paper submission keeps every ledger law and both budgets, and an admitted order is accounted in the same call. |
| PaperLaws.PaperRunWithinBudgets | src/qt/agent_hub/trading.py:1461-1501 | Every run of paper submissions at any times and under any risk modes keeps total cost within max_position_quote and each UTC day's purchases within max_daily_quote. |
| PaperOutcomes.PaperFillsExactly | src/qt/agent_hub/trading.py:1321-1335 | A new paper order fills the smaller of its quantity and the displayed size of the other side if the displayed price is within its limit, else nothing; amount and venue fee are at the displayed price; it is filled exactly when nothing is missing and expired otherwise; cash and holding move by exactly that. |
| PaperOutcomes.EachDayWithinLimit | src/qt/agent_hub/trading.py:1450-1460 | Over every run of paper submissions, what was spent on purchases between two UTC midnights, 86400 seconds apart, is within the daily limit. |
| PaperOutcomes.DayBounds | src/qt/agent_hub/trading.py:1451-1451 | Two moments share a day exactly when they lie between the same multiples of 86400 seconds. |
| Admission.ReservedExactly | src/qt/agent_hub/trading.py:1432-1507 | An order is reserved if and only if the lease is held, the mode lets its side pass, no order is open, its cost is within the order limit, the day's purchases and the exposure stay within theirs, and the cash or the holding covers it here and at the exchange; the reserved row is stated by its fields. |
| Admission.PaperAcceptedExactly | src/qt/agent_hub/trading.py:1238-1336 | A new paper order is accepted if and only if the intent is valid, the quote is two-sided, at most 15% wide and within 3% of the limit, and the order may be reserved: the accounting adds no refusal. |
| Admission.AcceptedExactly | src/qt/agent_hub/trading.py:1516-1583 | A result of a pending order is accepted if and only if it is of the right side, of a known status, no more than was ordered, not beyond the limit, with fees only on a fill, and, when terminal, borne by cash and holding. |
| Admission.EveryOrderWithinLimits | src/qt/agent_hub/trading.py:1448-1449 | In every reachable state, whatever the exchange answers: each order's cost is within the order limit, its record is of the order made, and what was accounted under it kept quantity, limit, fees and status consistent. |
| Outcomes.RepeatedExactly | src/qt/agent_hub/trading.py:1225-1236 | A submission under a key in use is answered by the stored order if and only if it makes the same order again; the ledger stays as it is. |
| Outcomes.AnswerWritten | src/qt/agent_hub/trading.py:1539-1604 | What an accepted answer writes into the row, field by field: amounts and no error once the order is at its end, only status and number before; the order then counts for what it spent and the base fee at the limit. |
| Outcomes.LookedUpExactly | src/qt/agent_hub/trading.py:1758-1777 | A lookup leaves an accounted order alone, writes an answer if and only if it can be accepted, and leaves any other order unknown without moving cash or holding. |
| Outcomes.BlockedExactly | src/qt/agent_hub/trading.py:1373-1386 | After a refused guard an order not settled yet is rejected with the reason, at no cost, and counts for nothing. |
| Guards.WorkflowOrderPassedTheGates | src/qt/agent_hub/runtime.py:801-983 | Over every run, whatever a workflow ordered was built by a worker that began with the lease and passed the gates with exactly that order. |
| Guards.LeaselessGainsNothing | src/qt/agent_hub/trading.py:1299-1372 | A step that finds the lease gone adds no order, stores no intent and sends nothing. |
| Guards.NoAnswerLeavesUnknown | src/qt/agent_hub/trading.py:1353-1403 | A request not posted, or posted and not answered, leaves the order of unknown outcome, counted as sent exactly if posted. |
| Guards.RefusedAnswerLeavesUnknown | src/qt/agent_hub/trading.py:1366-1403 | An answer that the ledger does not accept leaves the order of unknown outcome and moves nothing. |
| Trading.TradingService.CheckRiskMode | src/qt/agent_hub/trading.py:1667-1677 | The frozen and reduce-only rules, with the protective exit, as the function that RiskModes and SalesGoThrough pin down side by side. |
| Trading.TradingService.UsedToday | src/qt/agent_hub/trading.py:1450-1460 | The loop over rows gives the day's reserved purchases, in whatever order rows come. |
| Trading.TradingService.ExposureWith | src/qt/agent_hub/trading.py:1485-1499 | The loop over positions gives total exposure with the order's own slot valued at the limit when that is higher. |
| Trading.TradingService.Risk | src/qt/agent_hub/trading.py:1432-1507 | The checks in their order, each with its error; only the paper account may be created. |
| Trading.TradingService.ReserveOrder | src/qt/agent_hub/trading.py:1299-1320 | Existing order, conflict, refusal, lost lease, or the one new row. |
| Trading.TradingService.AccountFill | src/qt/agent_hub/trading.py:1550-1575 | Cash, quantity, cost and profit after a terminal fill, or the drift that refuses it. |
| Trading.TradingService.Finish | src/qt/agent_hub/trading.py:1516-1604 | The whole new ledger after an outcome; an error leaves every table as it was. |
| Trading.TradingService.Mark | src/qt/agent_hub/trading.py:1339-1350 | Announces the send, or rejects under a changed risk mode. |
| Trading.TradingService.SettleBlocked | src/qt/agent_hub/trading.py:1373-1386 | Rejects an unsent order unless its row is already settled. |
| Trading.TradingService.SettleUnknown | src/qt/agent_hub/trading.py:1387-1403 | Marks the outcome unknown unless the row is already settled. |
| Trading.TradingService.ReconcileOrder | src/qt/agent_hub/trading.py:1758-1776 | Applies a lookup result to the current row, never to a stale copy. |
| Trading.TradingService.SubmitPaper | src/qt/agent_hub/trading.py:1238-1336 | The whole paper submission in one transaction; a new order's fill, amount, fee and status are those of the displayed top of the book, cash and holding move by exactly that, and all laws and both budgets hold again. |
| Trading.TradingService.PersistIntent | src/qt/agent_hub/trading.py:1128-1170 | First write wins: a stored intent is returned and never changed, an invalid new one is refused, a valid one is stored. |
| Trading.TradingService.BindExecution | src/qt/agent_hub/trading.py:800-851 | Succeeds exactly for a matching configuration whose account is the one bound before and held by no other tenant; then the venue is bound to it for good and has a budget of at most a day's, allotted once; else nothing changes. |
| Fencing.JournalReplay | src/qt/agent_hub/store.py:164-458 | Folding a job's events gives its status, attempts and lease token in every reachable state; the token is claims plus cancellations, and attempts are claims less defers since the last requeue. |
| Fencing.TokenSpentOnce | src/qt/agent_hub/store.py:219-337 | A token accepted by complete, fail or defer is never accepted again by anything, whoever presents it. |
| Fencing.SupersededForever | src/qt/agent_hub/store.py:219-240 | Once a later token was issued, or the attempt ended, the old token can never again heartbeat, complete, fail or defer. |
| Fencing.EndsSupersedes | src/qt/agent_hub/store.py:252-337 | Accepting complete, fail or defer supersedes the token it was called with. |
| Fencing.OneWorkerPerToken | src/qt/agent_hub/store.py:189-203 | No two workers ever hold a lease with the same token. |
| Fencing.TokensNeverDecrease | src/qt/agent_hub/store.py:198-203 | Tokens never decrease and a job's kind, payload and key never change. |
| Fencing.SucceededIsFinal | src/qt/agent_hub/store.py:275-284 | A succeeded job's whole row, result included, never changes again. |
| Fencing.AttemptEndsExactly | src/qt/agent_hub/store.py:189-337 | A running attempt ends if and only if its own token completes, fails or defers it, a claim comes at or after the end of its lease, or its run is cancelled: until then no other worker can take the job. |
| Fencing.RetryWaits | src/qt/agent_hub/store.py:368-458 | After a failure or a defer no attempt of the job starts before its delay is over, over any commands but an operator's requeue of it. |
| Fencing.AttemptBudget | src/qt/agent_hub/store.py:433-446 | Queued implies attempts below the maximum; running implies between one and the maximum. |
| Fencing.NoStrandedJob | src/qt/agent_hub/store.py:189-203 | While a queued job is due, a claim of any kind starts an attempt of some job that was due no later. |
| Fencing.FirstOfFinds | src/qt/agent_hub/store.py:189-197 | A claim takes a row exactly when one qualifies, and takes the first one in claim order. |
| Fencing.FirstUnique | src/qt/agent_hub/store.py:195-195 | The row a claim takes is determined: the row number settles every tie. |
| JobRules.CompletedExactly | src/qt/agent_hub/store.py:252-337 | A completion with a next step is accepted if and only if its token holds and the step can be stored, or is there as another job asked for in the same way; otherwise nothing is stored, the result included. |
| JobRules.EventAdded | src/qt/agent_hub/store.py:515-534 | A caller's event is appended as it is unless it names a job that is not there. |
| JobRules.ClaimTakesSoonest | src/qt/agent_hub/store.py:189-197 | A claim takes the job that is queued, due, of a wanted kind and with attempts left, and comes before every other such job by due time, then creation time, then row; none exactly when there is none. |
| JobRules.StartsAgainExactly | src/qt/agent_hub/store.py:339-458 | A job that failed with attempts left, was given back or was requeued can be claimed from then on plus its delay, and not before, with its attempts kept, one less, or none. |
| JobRules.ExpiredStartsAgainExactly | src/qt/agent_hub/store.py:900-939 | A job whose lease ran out can be claimed at once while attempts are left and is dead otherwise. |
| JobRules.CancelledExactly | src/qt/agent_hub/store.py:810-842 | Cancelling kills exactly the queued and running jobs of the run, each under a new token and without a lease. |
| JobRules.EnqueuedExactly | src/qt/agent_hub/store.py:852-898 | A new key stores one queued job as it was asked for, claimable from the time asked for, unless its run is cancelled or its identifier taken. |
| JobRules.RepeatedExactly | src/qt/agent_hub/store.py:852-898 | A key in use stores nothing; it answers with its job exactly when kind, payload, start and attempts asked for are the same. |
| JobRules.ResultWasReported | src/qt/agent_hub/store.py:252-284 | In every reachable state the result of a succeeded job is the one some completion of the run reported under a token that held at that moment. |
| JobRules.SavedExactly | src/qt/agent_hub/store.py:561-673 | Saving a schedule touches nothing else; it becomes due now exactly when it is new, has another interval or is switched on, and stays due when it was otherwise. |
| Leases.BeatGrantsExactly | src/qt/agent_hub/store.py:219-240 | After an accepted heartbeat the token holds at exactly the times at which it held before and all times before now + lease. |
| Leases.ClaimGrantsExactly | src/qt/agent_hub/store.py:198-206 | A claim that starts an attempt gives its new token to the claiming worker until exactly now + lease. |
| Leases.GrantLasts | src/qt/agent_hub/store.py:189-240 | Over runs: after an accepted claim or heartbeat the token holds for its worker until now + lease, unless the token itself ended the attempt or its run was cancelled, as long as no claim's clock has passed that time. |
| Fencing.CancellationIsPermanent | src/qt/agent_hub/store.py:843-850 | Once a run is cancelled none of its jobs is ever queued or running again, whatever enqueue, follow-up, requeue or claim comes later. |
| Fencing.CancelStopsExactly | src/qt/agent_hub/store.py:810-842 | Cancelling through an active job stops that job if and only if its pipeline_id is not JSON null, or its own id is the text that null becomes. |
| Fencing.NullRunSurvives | src/qt/agent_hub/store.py:820-834 | A queued job with a null pipeline_id stays queued through its own cancellation. |
| JobHistory.StepInv | src/qt/agent_hub/store.py:139-458 | Every transaction of the store, with any arguments, keeps the invariant and undoes nothing that is final. |
| JobHistory.RunGrows | src/qt/agent_hub/store.py:139-458 | Between any two points of a run tokens, events and cancellations only grow, and released tokens and succeeded jobs stay as they are. |
| JobHistory.ExpireInv | src/qt/agent_hub/store.py:900-939 | Expiring leases in any order keeps the journal, the budgets and the fences. |
| JobHistory.CompleteInv | src/qt/agent_hub/store.py:252-337 | Completion with its follow-up keeps the invariant, also when the follow-up key exists already. |
| JobHistory.CancelInv | src/qt/agent_hub/store.py:810-842 | Cancelling re-establishes that no job of any cancelled run is active. |
| JobHistory.TickInv | src/qt/agent_hub/store.py:675-751 | A whole tick keeps the invariant. |
| Hub.HubStore.Expire | src/qt/agent_hub/store.py:900-939 | The loop over expired rows does what the specification does in the order the rows came, and misses none. |
| Hub.HubStore.First | src/qt/agent_hub/store.py:189-198 | The row the claim query returns first. |
| Hub.HubStore.Claim | src/qt/agent_hub/store.py:164-216 | Expiry, choice and lease in one transaction; the returned job is the stored row and its token holds at every time before now + lease. |
| Hub.HubStore.Heartbeat | src/qt/agent_hub/store.py:219-240 | True exactly for the fenced holder; then the token holds at every time before now + lease. |
| Hub.HubStore.EnqueueRow | src/qt/agent_hub/store.py:852-898 | The same request returns its row, a different one conflicts, a cancelled run refuses; otherwise one queued row. |
| Hub.HubStore.Enqueue | src/qt/agent_hub/store.py:139-162 | The same, with schedule keys reserved. |
| Hub.HubStore.Complete | src/qt/agent_hub/store.py:252-337 | Result and next step together or not at all: any enqueue error undoes the completion. |
| Hub.HubStore.Requeue | src/qt/agent_hub/store.py:339-366 | A fresh budget for a dead job of a live run, keeping the token. |
| Hub.HubStore.Defer | src/qt/agent_hub/store.py:368-409 | Gives the attempt back to the fenced holder only. |
| Hub.HubStore.Fail | src/qt/agent_hub/store.py:411-458 | Retries or buries by the budget, for the fenced holder only. |
| Hub.HubStore.CancelRun | src/qt/agent_hub/store.py:810-842 | Every active job of the run is dead with a higher token, in one transaction. |
| Hub.HubStore.TickOne | src/qt/agent_hub/store.py:684-750 | One due schedule: held, missed, already enqueued, or enqueued and advanced. |
| Hub.HubStore.TickSchedules | src/qt/agent_hub/store.py:675-751 | Every due schedule is handled once, in the order of next_run_at and id, or nothing changes at all. |
| Hub.HubStore.PutSchedule | src/qt/agent_hub/store.py:561-673 | A new schedule is due at once; an edit keeps its due time unless the interval changed or it was switched on. |
| Hub.HubStore.AddEvent | src/qt/agent_hub/store.py:515-534 | Callers may append events of their own to existing jobs. |
| Schedules.ScheduleCoalesces | src/qt/agent_hub/store.py:675-751 | Any number of ticks at times in [a,b], in any order and between any other commands, give a schedule of fixed interval i at most floor(b/i) - floor(a/i) + 1 jobs. |
| Schedules.StepBuckets | src/qt/agent_hub/store.py:689-728 | Only ticks create rows with a schedule's key: queued, due at the tick, with the schedule's kind and payload and three attempts; the key names that schedule, its interval and the bucket of the tick. |
| Schedules.TickLeavesDueLater | src/qt/agent_hub/store.py:697-750 | A due schedule is left due at the first multiple of its interval after the tick, unless buffer_one held it behind a job that is still active. |
| HeldTicks.LaterTickEnqueuesExactly | src/qt/agent_hub/store.py:675-751 | Two ticks at one time with any commands but ticks and edits of the schedule in between: the second enqueues a job for it if and only if the first had to hold it back behind an active job (buffer_one), no job of it is active any more, and the bucket has no job yet. |
| HeldTicks.TickEnqueuesExactly | src/qt/agent_hub/store.py:684-729 | A tick enqueues a schedule's job if and only if the schedule is enabled and due, not later than its catch-up window, not behind an active job of its own under skip_if_running or buffer_one, and its bucket is free; it logs a miss if and only if it is too late or skips; the other schedules do not matter. |
| HeldTicks.SecondTickCanEnqueue | src/qt/agent_hub/store.py:704-712 | A run in which buffer_one holds a schedule back at time 10, its job is claimed and completed, and a second tick at time 10 enqueues. |
| Schedules.RepeatedTickIsIdle | src/qt/agent_hub/store.py:675-751 | A tick repeated at the same time with nothing in between enqueues nothing and changes nothing. |
| Schedules.NextRunAfter | src/qt/agent_hub/store.py:738-750 | The next due time is the first multiple of the interval after the tick. |
| PipelineShape.EveryPipelineIsAChain | src/qt/agent_hub/runtime.py:743-751 | In every run the jobs of a pipeline form one parent chain in FLOW order, every step but the last has succeeded, and there is at most one job of each kind. |
| PipelineShape.ExecuteNeedsEveryStage | src/qt/agent_hub/runtime.py:35-44 | An execute job of a pipeline exists only if the pipeline and every stage from discover to risk_review succeeded in it and the request asked for execution. |
| AutoExecute.SwitchOffExecutesNothing | src/qt/agent_hub/config.py:43-43 | While the operator's switch is off, as by default, no run contains an execute job of a pipeline. |
| AutoExecute.ExecuteNeedsTheSwitch | src/qt/agent_hub/runtime.py:743-751 | Over runs in which the switch may change, every execute job was created by the accepted answer to a risk review, given while the switch was on, whose payload asks for execution. |
| AutoExecute.AcceptedStepContinues | src/qt/agent_hub/runtime.py:1110-1121 | Over runs, an accepted completion of a pipeline step leaves exactly one child, now and later: the next kind of discover, research, analysis, backtest, forecast, risk_review, then execute exactly when switch and payload both ask for it, else log_review. |
| PipelineShape.ChainShape | src/qt/agent_hub/runtime.py:1107-1121 | From any job back to its root: succeeded parents, kinds in FLOW order, the root as run id, the root's request; nine jobs at most. |
| PipelineShape.OneChain | src/qt/agent_hub/runtime.py:323-347 | Of two jobs of a pipeline the shallower lies on the way to the deeper. |
| PipelineShape.OneJobPerKind | src/qt/agent_hub/runtime.py:35-44 | A pipeline has at most one job of each kind. |
| Workflow.StepFlow | src/qt/agent_hub/runtime.py:743-751 | Every step of clients, schedules, operators and workers keeps the links between jobs: succeeded parent, one child, valid FLOW edge. |
| Workflow.CompleteRows | src/qt/agent_hub/store.py:252-337 | A completion adds at most the one follow-up row, which was not there before. |
| Runtime.AncestorsComplete | src/qt/agent_hub/runtime.py:217-228 | The walk up from any job finds every earlier step of its pipeline with its result: twelve steps never truncate, and no parent is missing or unsucceeded. |
| Runtime.NearestWins | src/qt/agent_hub/runtime.py:217-228 | Whatever the links between jobs, of several earlier steps of one kind the result is that of the nearest. |
| Runtime.HubRuntime.Ancestors | src/qt/agent_hub/runtime.py:217-228 | The bounded loop, with the nearest step of a kind winning and an unavailable parent reported. |
| Runtime.HubRuntime.Report | src/qt/agent_hub/runtime.py:1107-1204 | What a worker reports at the end of its turn, whatever others did since its claim: a completion, lawful under the configured switch, with the next step for its own copy of the job, a defer, a failure or nothing; a refused completion counts as a failure. |
| Runtime.HubRuntime.KeepLease | src/qt/agent_hub/runtime.py:1072-1092 | The renewals of the lease: one heartbeat after another, up to the first refusal. |
| Runtime.HubRuntime.RunOnce | src/qt/agent_hub/runtime.py:1059-1209 | A worker turn is a sequence of store commands lawful under the configured switch: claim, renewals, report. |
| Termination.PipelineClaimsBounded | src/qt/agent_hub/store.py:189-203 | Without defers and requeues the jobs of a pipeline are claimed at most root budget + 24 times: 27 with the default budget of three. |
| Termination.WorkEnds | src/qt/agent_hub/store.py:164-458 | From any reachable state the number of worker and cancellation steps that change a job is at most the drop of the measure. |
| Termination.WorkLowersMeasure | src/qt/agent_hub/store.py:252-337 | Each claim, expiry, failure, completion with its follow-up, and cancellation lowers the measure by at least one. |
| Executor.RetryIsSafe | src/qt/agent_hub/runtime.py:811-822 | Crash recovery: whatever a first execute came to, wherever it stopped, and whatever others did to the ledger in between, a later one never places a second order; it returns the order that is there and changes nothing, or submits the intent stored first and not its own. |
| Executor.AnsweredExactly | src/qt/agent_hub/runtime.py:985-1057 | An attempt answers with an order if and only if it holds the lease and the order is there at the end, unless the process stopped after adding it; it answers with the stored record. |
| Executor.OrderedExactly | src/qt/agent_hub/runtime.py:801-1057 | An attempt adds an order if and only if it holds the lease, no order is there, its intent is stored or the gates pass, no approval is outstanding, no crash comes first and the ledger admits the intent at the quote; an intent is stored exactly when it gets that far. |
| Executor.HubExecutor.Execute | src/qt/agent_hub/runtime.py:801-983 | Lease, stored order, stored intent, gates, first intent stored, submission: the whole new ledger and intents and the outcome, at every crash point. |
| Executor.HubExecutor.SubmitPersisted | src/qt/agent_hub/runtime.py:985-1057 | The stored intent is submitted once, or waits for approval, or the process stops before or after. |
| Sandbox.Experiment | src/qt/agent_hub/sandbox_service.py:27-94 | Refuses exactly the requests out of bounds or with too few or non-positive prices; otherwise the report follows the moving-average rule: purchases exactly where cash meets a previous close above the average of the closes before it, sales exactly where a holding meets one below, alternating, at the slipped price and with the fee. |
| Sandbox.Trial | src/qt/agent_hub/sandbox_service.py:50-77 | The loop over prices computes the simulated account and one equity point for each price. |
| StrategyLaws.ExperimentFollowsRule | src/qt/agent_hub/sandbox_service.py:50-77 | The rule of Experiment about the simulated account: which indices trade and which do not, side, price, fee, and cash or holding at every index. |
| StrategyLaws.SimulationFollows | src/qt/agent_hub/sandbox_service.py:53-77 | The same of every prefix of the prices. |
| BacktestLaws.PrefixOfPrices | src/qt/agent_hub/sandbox_service.py:53-77 | On a prefix of the prices the experiment gives exactly the prefix of the equity curve and exactly the fills before it ends. |
| BacktestLaws.NoLookAhead | src/qt/agent_hub/sandbox_service.py:54-59 | Two price series that agree up to an index give the same account up to it. |
| BacktestLaws.CostsNeverHelp | src/qt/agent_hub/sandbox_service.py:58-73 | Higher fee or slippage keeps the index and side of every fill and never raises any equity point. |
| BacktestLaws.LinearInCash | src/qt/agent_hub/sandbox_service.py:50-77 | Multiplying the initial cash multiplies every amount and equity point and leaves fills' indices, sides, prices and the drawdown as they are. |
| BacktestLaws.AlwaysWhole | src/qt/agent_hub/sandbox_service.py:58-77 | The account is always wholly in cash or wholly invested, and every equity point is positive. |
| BacktestLaws.DrawdownIsMaxFall | src/qt/agent_hub/sandbox_service.py:74-76 | The running drawdown is the largest relative fall from any earlier point, the start included, to any later one, and lies in [0,1). |
| BacktestLaws.NothingIsLost | src/qt/agent_hub/sandbox_service.py:58-74 | Equity plus fees plus slippage is the initial cash plus the price gains on what was held. |
| OrderBook.Levels | src/qt/agent_hub/opportunities.py:67-83 | Accepts exactly the valid listings and returns their non-empty rows sorted; sorting loses and invents nothing. |
| OrderBook.RowOrderIsIrrelevant | src/qt/agent_hub/opportunities.py:67-83 | The order in which the exchange lists its rows does not matter. |
| OrderBook.TopIsBest | src/qt/agent_hub/opportunities.py:94-98 | The bid is the highest price at which anything is bid for, and the ask the lowest at which anything is offered. |
| OrderBook.LevelOrder | src/qt/agent_hub/opportunities.py:83-83 | Bids run from the highest price down and asks from the lowest up, and sizes at one price alike. |
| OrderBook.BookLiquidity | src/qt/agent_hub/opportunities.py:86-120 | The best prices on both sides, spread, depths, and the result of the walk, with an average price exactly when depth is sufficient; everything else is refused. |
| OrderBook.Spend | src/qt/agent_hub/opportunities.py:101-107 | The loop over the asks computes the greedy walk. |
| OrderBookLaws.DepthExactly | src/qt/agent_hub/opportunities.py:101-108 | The walk spends at most the budget, and depth is sufficient if and only if all asks together are worth the budget within the tolerance. |
| OrderBookLaws.VwapBetweenTouchedPrices | src/qt/agent_hub/opportunities.py:117-117 | The average price lies between the best ask and the worst ask touched. |
| OrderBookLaws.WalkIsOptimal | src/qt/agent_hub/opportunities.py:101-107 | No plan from the same levels within the budget gets more shares beyond what the tolerance buys at the last touched price; none gets more when depth is insufficient; and none gets as many for less. |
| Forecasts.ForecastLedger.RecordForecast | src/qt/agent_hub/forecast_ledger.py:164-228 | Appends the validated forecast, returns the identical one, or refuses without a change. |
| Forecasts.ForecastLedger.ResolveForecast | src/qt/agent_hub/forecast_ledger.py:273-314 | Appends the next revision, returns the row of a retry, or refuses without a change. |
| Forecasts.ForecastLedger.Score | src/qt/agent_hub/forecast_ledger.py:340-379 | The loop selects the first forecast with a probability of every cohort; total = missing + duplicates + selected; each status count is the number of rows of that class. |
| ForecastRules.SelectedExactly | src/qt/agent_hub/forecast_ledger.py:332-379 | A forecast is scored if and only if it has a model probability and every other one of its tenant for the same event or market, round, outcome or token, and horizon was decided later, or at the same time under a larger id. |
| ForecastRules.CountedExactly | src/qt/agent_hub/forecast_ledger.py:346-368 | How a forecast is counted is decided by its last resolution alone, condition by condition. |
| ForecastRules.RecordedExactly | src/qt/agent_hub/forecast_ledger.py:164-228 | A new forecast is recorded if and only if times, probabilities, quotes, horizon, round and aliases are in order; the row carries exactly what was asked for. |
| ForecastRules.KnownAnsweredExactly | src/qt/agent_hub/forecast_ledger.py:222-228 | A known id is answered if and only if the request is in order and asks for the stored row. |
| ForecastRules.ResolvedExactly | src/qt/agent_hub/forecast_ledger.py:231-314 | A new resolution is appended if and only if outcome, payout, status and times agree and follow the forecast; it is the next revision with the status and the settlement it means. |
| ForecastRules.UnnamedResolvedExactly | src/qt/agent_hub/forecast_ledger.py:286-314 | Without a resolution id the last row of the forecast answers if and only if it says the same; otherwise the next revision is appended. |
| ForecastLaws.EveryRunIsAppendOnly | src/qt/agent_hub/forecast_ledger.py:273-314 | After any requests the revisions of every forecast are exactly 1..n and everything recorded before is unchanged. |
| ForecastLaws.ResolveInv | src/qt/agent_hub/forecast_ledger.py:298-314 | A resolution appends at most one event and keeps revisions consecutive, ids unique and settlements after forecasts. |
| ForecastLaws.RetryReturnsTheRow | src/qt/agent_hub/forecast_ledger.py:286-297 | Repeating a request with its resolution id later returns the row of the first call and adds nothing, whatever was recorded in between. |
| ForecastLaws.KnownIdAddsNothing | src/qt/agent_hub/forecast_ledger.py:291-297 | A known resolution id never adds a row and never answers for another forecast. |
| ForecastLaws.RecordRetry | src/qt/agent_hub/forecast_ledger.py:222-225 | Recording the same forecast again later returns the row that is there. |
| ForecastLaws.SelectionAfter | src/qt/agent_hub/forecast_ledger.py:369-379 | How one more forecast changes the selection, in all cases. |
| ForecastLaws.OccupiedCohortIsKeptExactly | src/qt/agent_hub/forecast_ledger.py:369-379 | A forecast for a cohort already scored leaves the scored set unchanged if and only if it comes later in (decision_time, forecast_id). |
| ForecastLaws.BackdatedForecastDisplaces | src/qt/agent_hub/forecast_ledger.py:177-180 | A forecast recorded second with an earlier decision time takes the place of the first. |
| ForecastLaws.LiveForecastsCannotDisplace | src/qt/agent_hub/forecast_ledger.py:177-180 | A forecast decided when it is recorded never displaces one that is scored. |
| ForecastLaws.OneSelected | src/qt/agent_hub/forecast_ledger.py:332-338 | Every forecast with a probability has exactly one selected forecast in its cohort, itself or an earlier one. |
| Evidence.ContextStore.IngestDocument | src/qt/agent_hub/context.py:209-319 | Appends the next revision, returns the identical latest one, or refuses. |
| Evidence.ContextStore.Look | src/qt/agent_hub/context.py:321-347 | The rows the visibility clause selects. |
| Evidence.ContextStore.RememberValue | src/qt/agent_hub/context.py:716-774 | Appends a version and updates the current row together, or refuses when the clock moved backwards. |
| Evidence.ContextStore.ForgetKey | src/qt/agent_hub/context.py:817-832 | Removes every version and the current row of the key and nothing else. |
| EvidenceLaws.SeenIsTop | src/qt/agent_hub/context.py:321-347 | A query sees a document if and only if it is the highest eligible revision of its source and kind and has not expired; so at most one revision each, and none available after as_of or observed after known_at. |
| EvidenceLaws.ExpiryRevivesNothing | src/qt/agent_hub/context.py:325-329 | When the highest eligible revision has expired the source shows nothing. |
| EvidenceLaws.ViewKeptExactly | src/qt/agent_hub/context.py:251-297 | A view is unchanged by an ingest if and only if the new document is stamped after known_at, not yet valid or available, or expired and replacing nothing seen. |
| EvidenceLaws.PastViewUnchanged | src/qt/agent_hub/context.py:330-347 | A view with a past known_at is unchanged by any number of ingests stamped after it. |
| EvidenceLaws.LateCommitChangesPastView | src/qt/agent_hub/context.py:241-253 | An ingest that read its clock before a view and commits after it changes that view. |
| EvidenceLaws.NoBackdatingWithoutProvenance | src/qt/agent_hub/context.py:245-249 | Without provenance a document is never seen at a time before its ingestion, whatever validity it claims. |
| EvidenceLaws.IngestInv | src/qt/agent_hub/context.py:253-297 | Revisions of each source and kind are 1, 2, 3, ... and the table is append-only. |
| EvidenceRules.IngestedExactly | src/qt/agent_hub/context.py:209-319 | A submission in order is answered by the last revision when that says the same and is stored as the next one otherwise, field by field; it is refused otherwise. |
| EvidenceRules.ShownExactly | src/qt/agent_hub/context.py:321-347 | A row is shown if and only if it was begun, available and observed by the times asked about, has not run out, and every later revision of its source and kind was not. |
| EvidenceRules.RememberedExactly | src/qt/agent_hub/context.py:716-774 | A value is remembered if and only if its time to live is not negative and the clock has not gone back; the version and the current row say what was asked for. |
| EvidenceRules.RecalledExactly | src/qt/agent_hub/context.py:776-815 | A version is recalled if and only if it was recorded by both times, has not run out, is in scope, and every later version of its key was recorded after either. |
| EvidenceLaws.RememberInv | src/qt/agent_hub/context.py:742-763 | The current-memory table holds the last version of every key, its creation time included. |
| EvidenceLaws.ForgetInv | src/qt/agent_hub/context.py:817-832 | Forgetting keeps the current table and the numbering of every other key. |
| EvidenceLaws.ForgetErases | src/qt/agent_hub/context.py:817-832 | After forget no query at any time recalls the key, and other keys are recalled as before. |
| EvidenceLaws.RecallAfterRemember | src/qt/agent_hub/context.py:776-815 | After a remember an earlier version is still recalled if and only if it was before and no new version of its key was recorded by the cutoff, even one that has expired; the new version is recalled if and only if it was recorded by the cutoff, is in scope and has not expired. |
| EvidenceLaws.PastRecallUnchanged | src/qt/agent_hub/context.py:776-815 | A memory query with a past cutoff is unchanged by any number of later remembers. |
| EvidenceLaws.OneRecalled | src/qt/agent_hub/context.py:790-804 | At most one version of each key is recalled: the last recorded by the cutoff. |
| ContextBudget.Assemble | src/qt/agent_hub/context.py:834-909 | The loops compute the greedy filling for the memories of the run; budgets outside 256..65536 are refused. |
| ContextBudget.WithinBudget | src/qt/agent_hub/context.py:864-909 | For every set of documents and memories the JSON text of the result is within the budget. |
| ContextBudget.KnowledgeIsReferenced | src/qt/agent_hub/context.py:867-891 | Every piece of knowledge is a non-empty prefix of the text of a document whose reference is in the result. |
| ContextBudget.TruncatedExactly | src/qt/agent_hub/context.py:877-908 | The result is marked truncated if and only if characters of a document, a memory or part of the query is missing from it. |
| ContextRules.WhatFitsIsIn | src/qt/agent_hub/context.py:867-909 | The result comes from stages, one for each document and memory in order: a reference is in exactly when it fits, its text is the first of its halvings that fits, a memory is in exactly when it fits, and the query is the first of its halvings that fits. |
| ContextRules.EverythingFits | src/qt/agent_hub/context.py:867-909 | If everything found fits with eight characters to spare, nothing is cut, dropped or marked. |
| ContextRules.CostsExactly | src/qt/agent_hub/context.py:856-865 | What the query, an excerpt, a reference and a memory each cost in characters of the JSON text. |
| ContextRules.EveryTextReadsBack | src/qt/agent_hub/context.py:864-865 | Whatever a text holds, a reader of the JSON that is measured gets it back. |
| ContextRules.ForRunOffers | src/qt/agent_hub/context.py:845-852 | The memories offered to a run are those of long scope and those whose source begins with run: or job: and its id. |

## Left out

- Decimal rounding to 28 digits and the 1e-18..1e18 range check of `_decimal`; float rounding in the backtest, the
  book walk and the schedules: all arithmetic is over exact reals.
- HTTP, exchange SDKs, signing, subprocesses and files: an exchange call is a step with an arbitrary answer. The one
  assumption, used where a theorem says `HonestRun`, is that a lookup finds nothing for an order never sent.
- SQL text, SQLite locking, JSON parsing and schema migrations: tables are maps and sequences with atomic steps.
- The proposal, release and approval gates of `execute`: one boolean of the `ReadIntent` step.
- Quote age checks before the first transaction of `submit`, and the effects table: they do not touch the ledger.
- `BinanceSpotAdapter._prepare` and the adapters' parsing of fills: `_finish` is proved for any parsed fill.
- `quote`, `portfolio`, `status`, market discovery and the other read-only reports.
- Text order of keys: `OrderKey` and identifiers are ordered by their numbers where the source sorts by text.
- Non-text `pipeline_id` values other than null (numbers, lists): payloads carry a text, null or nothing.
- Search ranking, matching and row limits (`search`, and the 200 rows of `memories`): the views proved about are the
  sets of rows that the visibility clauses admit.
- Evidence validation, chunk retrieval and `read_chunk` paging.
- Skill, planner, tracing, governance, MCP, API and UI code, sources, deployment and scripts.
- The native research engine, the lab, the platform and the capitulation backtest.
- `evaluate_forecasts` and `invalid_observations`: the scored set is stated, its statistics are not.
- Hub.HubStore.TickSchedules: identifiers for new jobs come from a map given by the caller, one for each schedule, as the UUIDs that the source draws.
- Hub.HubStore.PutSchedule: the debounce, priority and notification columns are not modelled, since no transaction of the queue reads them.
- Runtime.HubRuntime.RunOnce: states one turn with no other worker in between; `Runtime.HubRuntime.Report` holds after any work of others, and all interleavings are runs of `PipelineShape` and `Fencing`.
- Executor.HubExecutor.Execute: the class drives a paper ledger, and the gates are one boolean; live orders and interleavings are the steps of `Execution`.
- Executor.HubExecutor.SubmitPersisted: submits to a paper ledger, and the approval store is one boolean.
- Executor.RetryIsSafe: is about a paper ledger; for live orders `AtMostOnce.ExecutedAtMostOnce` covers every retry.
- PipelineShape.EveryPipelineIsAChain: assumes that clients and schedules submit payloads without `pipeline_id` and `parent_id`, as the request schema of the API does; their keys are arbitrary.
- ContextBudget.Assemble: numbers and remembered values enter as the JSON text written for them, and the search and the memory query are inputs.
- Forecasts.ForecastLedger.RecordForecast: the emptiness and length checks of identifiers are not modelled.
- Evidence.ContextStore.IngestDocument: writing the reference file and the search index is not modelled.
