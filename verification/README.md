# Verification model

The repository follows one rule: the model proposes, the EVM proves. This project models the
deterministic machinery around the chain in Dafny and proves what it promises. `dafny verify
dfyconfig.toml` checks all of it.

| modules | what they model |
|---|---|
| `RiskPolicy`, `Feasibility`, `FeasibilityChoice`, `Plans`, `BinarySearch` | the arithmetic and the building blocks of a rescue: policy, bounds and which asset they choose, transaction plans, budgeted binary search |
| `AnvilFork`, `StrategySpec`, `StrategySearch`, `StrategyTheorems` | the search for a rescue on a forked chain. `Anvil` is a ledger with snapshots under arbitrary deterministic rules; `Session` and `Prober` run the search on it in place; `StrategySpec` says what it computes from the initial ledger; `StrategyTheorems` says what that means |
| `TokenLedger`, `LeastRepayment` | one concrete ledger, an EIP-20 token with a lending market, on which plans are followed to the last unit, and the repay search on it from end to end |
| `JsonText`, `JsonReader`, `CanonicalJson`, `CanonicalText`, `Receipts`, `ReceiptText` | the JSON printer and a reader to say what is printed, the canonical form and how it reads, the projection of a receipt that is hashed and how it reads, and the comparison of receipts |
| `RunStore`, `RunProtocol`, `RunStatuses`, `WorkerLog`, `ImpactWorker`, `Producers` | simulation runs in a document store, everything that writes to them, and the bounded job queue; each database or queue call is one atomic step and all interleavings are covered |
| `DuplicateKey`, `EventStream` | the search through cyclic error graphs, and the resumable event stream |
| `GovernanceCursor`, `GovernanceIndex`, `GovernanceMeaning`, `FileStore`, `FileRoundTrip` | the proposal index: cursor and rollback, status refresh, the monitor's tick, what the statuses mean on the chains, and the JSON file that survives a restart |
| `AgentLoop`, `TxRegistration`, `RateLimiter` | the agent's tool loop, transaction registration, and the fixed-window rate limiter |
| `Wrappers`, `LowerCase` | option and result types, and lower-case letters |

Code that changes things step by step is modelled by classes and methods proved against
specification functions; what the code promises is proved about those functions, for all inputs,
all runs or all reachable states.

## Assumptions

- The chain is deterministic: a call's effect is a function of the ledger and the call. Reverting to a snapshot restores the ledger.
- The document store and the queue are linearisable, and no document is deleted.
- Within one governance tick all reads of a chain see one view of it; reads may fail.
- Calls are data: decoding the calldata of a call that was built here gives the call back.
- A receipt hash is a function of the receipt. No claim needs it to be collision-free: receipts are compared by their canonical text.
- Hashes of blocks of different heights differ. This is a stated hypothesis of the cursor lemmas only.
- Amount-monotonicity of a ledger is a hypothesis of the two lemmas that name it, and of nothing else.

## Where the code differs from what one would first claim

- COMPLETED does not imply a receipt. `RaceLosesReceipt` is an interleaving that loses the receipt; `CompletedWithoutReceipt` says exactly when it is lost.
- A worker without a URL for the fork leaves its run RUNNING (`WithoutRpcUrl`).
- Terminal statuses are not final: `FinalIffCompletedAndReleased` says exactly when one is.
- A job in flight can belong to another run whose key differs in colons and dashes only (`JobIsOwnIff`, `CollisionLeavesRunWithoutJob`).
- A search with no probe budget reports that it is complete. `NullMeansTopFailedIffBudget`, `NoBudgetNeverRescues` and `RescueIsMissed` state what follows.
- The allowlist does not check where an enterMarkets call goes (`EnterTargetIsFree`, `TargetsMeantIff`).
- After a hash mismatch the cursor gets the hash of the safe block with a rewound number, and every later tick mismatches (`MismatchNeverHeals`).
- A refresh of statuses takes source calls for destination calls (`RefreshRightIff`, `SourceOnlyStaysPending`).
- A second tick on an unchanged chain can report a transition (`SecondTickQuietIff`, `CountMovedBackTransitions`).
- Hydrating after persisting does not give every record back (`ComesBackIff`): evidence's block numbers become big integers (`EvidenceComesBackAsBigint`).
- Polls answered out of order are delivered twice (`StalePollRepeatsIff`).
- A minimum safety buffer makes every fully confirmed plan a MISMATCH (`PositiveBufferNeverVerified`), and VERIFIED can mean a worse state (`WorseVerifiedIff`).
- The agent's block on repeated calls never fires (`FingerprintsDiffer`).
- The bound on accepted requests in any window's length is one lower than twice the limit (`AtMostTwiceTheLimit`, `BoundIsReached`).

## Model

| member | source | states |
|---|---|---|
| RiskPolicy.ReadBorrowValueRaw | packages/protocol-moonwell/src/strategy/oracle.ts:38-67 | The loop returns the floor-sum over the borrows that have a positive amount and a positive price |
| RiskPolicy.BorrowValueRounding | packages/protocol-moonwell/src/strategy/oracle.ts:53-67 | The floor-sum never over-counts the exact value, and misses less than one unit per priced borrow |
| RiskPolicy.ComputeSafetyBufferBps | packages/risk-engine/src/buffer.ts:1-12 | A buffer, when there is debt, lies between 0 and the cap of 1000000 |
| RiskPolicy.PassesIffSolvent | packages/risk-engine/src/policy.ts:48-75 | A Comptroller read with a derived buffer passes the policy iff there is no error and no shortfall and (no minimum, or no debt, or the minimum is within the cap and 10000 * liquidity >= minimum * borrow value), despite floor and cap |
| RiskPolicy.ReportsShortcomings | packages/risk-engine/src/policy.ts:48-71 | The reasons of an evaluation are exactly what is wrong in exact arithmetic, error before shortfall before buffer, or that the policy passed |
| RiskPolicy.PassingIsMonotone | packages/risk-engine/src/policy.ts:48-71 | More liquidity and less debt never turn a passing state into a failing one |
| Feasibility.MinBound | packages/strategy-engine/src/amounts.ts:3-6 | The least of the values, 0 for none |
| Feasibility.RemainingSupplyRespectsCap | packages/protocol-moonwell/src/strategy/feasibility.ts:22-64 | Supplying at most the remaining supply keeps the market's underlying within its cap |
| Feasibility.SortPutsFirstBestFirst | packages/protocol-moonwell/src/strategy/feasibility.ts:102-145 | Sorting puts first the earliest of the candidates with the highest USD value |
| Feasibility.AssessAddCollateralFeasibility | packages/protocol-moonwell/src/strategy/feasibility.ts:147-205 | The loop over the markets builds exactly the candidates of the specification |
| Feasibility.RepayFeasibilitySound | packages/protocol-moonwell/src/strategy/feasibility.ts:102-145 | A feasible repayment is allowed, positive and fits a word, is at most the wallet's balance, the debt and the user's maximum of one borrowed position and reaches one of them, and no candidate has a higher USD value |
| FeasibilityChoice.RepayChoice | packages/protocol-moonwell/src/strategy/feasibility.ts:102-145 | Over positions, balances and prices alone: when it does not throw, repaying is infeasible iff it is not allowed or no position admits a positive amount, with the reason that applies; it throws iff it is allowed and the maximum for an open debt is not a number; otherwise the position chosen admits the amount returned, and it is the first of those whose amount has the highest value |
| Feasibility.CollateralFeasibilitySound | packages/protocol-moonwell/src/strategy/feasibility.ts:147-205 | A feasible supply is allowed, positive and fits a word, is at most the balance, the remaining supply and the user's maximum of one listed, unpaused market and reaches one of them, and no candidate has a higher USD value |
| FeasibilityChoice.CollateralChoice | packages/protocol-moonwell/src/strategy/feasibility.ts:147-205 | Over markets, positions, balances, constraints and prices alone: it throws iff it is allowed and the maximum for a mintable market is not a number; when it does not, supplying is infeasible iff it is not allowed or no market admits a positive amount; otherwise the market chosen admits the amount returned, and it is the first of those whose amount has the highest value |
| Plans.PlanBuiltIff | packages/protocol-moonwell/src/strategy/plans.ts:34-140 | A plan is built iff the amount is from 1 to the bound and fits a word |
| Plans.BuiltPlanCarries | packages/protocol-moonwell/src/strategy/plans.ts:34-140 | A plan carries Base's chain id, the type, amount, market and token it is built for, no shortfall, and the policy's minimum buffer |
| Plans.BuiltPlanAcceptedIff | apps/api/src/execution/allowlist.ts:46-176 | A built plan passes the allowlist iff its amount is not the greatest word, which stands for an unlimited approval |
| Plans.AcceptedCallsBounded | apps/api/src/execution/allowlist.ts:46-176 | In an accepted plan, whoever built it, the chain is Base, every call sends no value, approves 0 or the plan's amount to the plan's market on its token, moves that amount into the market, or enters that market alone |
| Plans.EnterTargetIsFree | apps/api/src/execution/allowlist.ts:142-159 | The target of an enterMarkets call is not checked: a plan with one such call to any address is accepted |
| Plans.TargetsMeantIff | apps/api/src/execution/allowlist.ts:46-176 | An accepted plan calls only the contracts its rules are meant for iff its enterMarkets calls go to the comptroller, and only the token, the market and the comptroller iff its enterMarkets calls do |
| Plans.BuiltPlanTargetsMeant | packages/protocol-moonwell/src/strategy/plans.ts:34-140 | Every plan built here calls only the contracts its rules are meant for |
| AnvilFork.Anvil.Revert | packages/protocol-moonwell/src/strategy/search.ts:228-261 | Reverting to a live snapshot restores its ledger and drops it and every later one |
| BinarySearch.ProbesDistinctAndInRange | packages/strategy-engine/src/search.ts:14-42 | No amount is probed twice and every probe lies in the range |
| BinarySearch.ProbesWithinBudget | packages/strategy-engine/src/search.ts:18-28 | Probes stay within the budget, and an incomplete search has used all of it |
| BinarySearch.AnswerPasses | packages/strategy-engine/src/search.ts:26-36 | An answer was probed and passed |
| BinarySearch.BelowAnswerFailed | packages/strategy-engine/src/search.ts:26-36 | One below a complete answer failed, monotone test or not, unless the answer is the low end |
| BinarySearch.CompleteNullProbedHigh | packages/strategy-engine/src/search.ts:26-42 | With a positive budget, a complete search without an answer probed the high end and it failed |
| BinarySearch.NullMeansTopFailedIffBudget | packages/strategy-engine/src/search.ts:18-20 | That conclusion holds for every test iff the budget is positive: with none the search reports complete without a probe |
| BinarySearch.WindowHalves | packages/strategy-engine/src/search.ts:26-36 | After k probes the window is at most its first width divided by 2^k |
| BinarySearch.BudgetSuffices | packages/strategy-engine/src/search.ts:26-42 | A budget with 2^budget > hi - lo + 1 is always enough to complete |
| BinarySearch.MonotoneAnswerIsGlobalMinimum | packages/strategy-engine/src/search.ts:14-42 | For a monotone test a complete answer is the global minimum, no answer means none passes, and an incomplete answer bounds it from above |
| StrategySearch.Session.ExecutePlanCalls | packages/protocol-moonwell/src/strategy/execute.ts:48-80 | Calls run in order and the first blocked or reverted one ends the run, as the specification runs them |
| StrategySearch.Session.VerifyExecutedPlan | packages/protocol-moonwell/src/strategy/execute.ts:102-178 | The branch reported for a plan is that of the specification, on the ledger the plan and the change leave |
| StrategySearch.Session.EvaluateChangeOnly | packages/protocol-moonwell/src/strategy/search.ts:103-145 | The change on its own is judged as specified, and the ledger is as before |
| StrategySearch.Session.CollectBalances | packages/protocol-moonwell/src/strategy/search.ts:39-60 | The map filled by the loop holds every token's balance at the anchor |
| StrategySearch.Prober.TestAmount | packages/protocol-moonwell/src/strategy/search.ts:228-261 | One probe, passing, failing or throwing, gives the verdict of the specification from the initial ledger, records its evidence, and leaves the ledger as it found it |
| StrategySearch.FindMinimumPassingAmount | packages/strategy-engine/src/search.ts:14-42 | The while loop over a stateful test computes the specified search, for any test that leaves the chain as it was |
| StrategySearch.LoopFindsMinimum | packages/strategy-engine/src/search.ts:26-42 | A history of loop turns that ends is a run of the recursive search |
| StrategySearch.Session.SearchMoonwellStrategy | packages/protocol-moonwell/src/strategy/search.ts:147-291 | The search, in which every read may throw, returns the specified result of the initial ledger and restores that ledger |
| StrategySearch.Session.Compare | packages/protocol-moonwell/src/strategy/run.ts:167-183 | Both searches meet the same ledger, so neither order nor the other's probes change a result |
| StrategyTheorems.CleanRunIffTrace | packages/protocol-moonwell/src/strategy/execute.ts:48-80 | A run is without failures iff there is a chain of ledgers along which every call of the wallet is passed by its preview and succeeds when sent |
| StrategyTheorems.PreviewBlocksIff | packages/protocol-moonwell/src/strategy/execute.ts:195-233 | Which previews let a call pass under its rule, and what is reported of the others |
| StrategyTheorems.RunStopsAtFailure | packages/protocol-moonwell/src/strategy/execute.ts:48-80 | A run with a failure stops at the first call that its preview blocks or that reverts: the calls before it succeed one after the other, it is the last one recorded, and its reason is the only one reported |
| StrategyTheorems.RiskReadIff | packages/protocol-moonwell/src/strategy/execute.ts:82-100 | A risk read at the head works iff there is a head block and each of its three reads works |
| StrategyTheorems.ProbeVerifiedIffRescues | packages/protocol-moonwell/src/strategy/search.ts:228-261 | A probe is verified iff running its plan and then the governance call succeeds at every call and leaves the wallet solvent |
| StrategyTheorems.PlanExistsWithinBound | packages/protocol-moonwell/src/strategy/search.ts:293-316 | Building the plan never throws on an amount from 1 to the feasible bound |
| StrategyTheorems.VerifiedReportsPolicyPassed | packages/protocol-moonwell/src/strategy/execute.ts:150-178 | A verified branch has shortfall 0 and reports exactly POLICY_PASSED |
| StrategyTheorems.ProbeReports | packages/protocol-moonwell/src/strategy/execute.ts:102-178 | What a probe reports of the calls made, of the ledger they leave, and of the call that failed or what is wrong with that ledger |
| StrategyTheorems.ResultIsVerified | packages/protocol-moonwell/src/strategy/search.ts:318-364 | A finished search with an answer is VERIFIED with that answer's plan; REJECTED is never returned |
| StrategyTheorems.VerifiedPlanRescues | packages/protocol-moonwell/src/strategy/search.ts:147-364 | VERIFIED with amount a: the returned plan, run from the initial ledger and followed by the change, rescues the wallet; under a minimising goal the plan for a - 1 does not, on any ledger |
| StrategyTheorems.CollateralEnabledIff | packages/protocol-moonwell/src/strategy/search.ts:186-226 | The collateral flag of a search is that of the first position in its market |
| StrategyTheorems.ChangePassesIffSolvent | packages/protocol-moonwell/src/strategy/search.ts:103-145 | The change on its own passes iff it leaves the wallet solvent under its policy |
| StrategyTheorems.StatusMeaning | packages/protocol-moonwell/src/strategy/search.ts:147-364 | When each status is returned: REJECTED never, NOT_REQUIRED iff feasible and the change alone leaves the wallet solvent, a plan iff VERIFIED, INCOMPLETE only with the budget used up |
| StrategyTheorems.ReportsByStatus | packages/protocol-moonwell/src/strategy/search.ts:147-364 | The type, bound, amount and reasons that each status is reported with |
| StrategyTheorems.SearchThrows | packages/protocol-moonwell/src/strategy/search.ts:147-226 | Which read's error a search throws: of the anchor, then of the change, then of the allowance |
| StrategyTheorems.InfeasibleMeansBoundFails | packages/protocol-moonwell/src/strategy/search.ts:263-291 | INFEASIBLE after a search with a budget means that the whole bound does not rescue the wallet |
| StrategyTheorems.NoBudgetNeverRescues | packages/strategy-engine/src/search.ts:18-20 | Without a budget a minimising search that gets to its first probe answers INFEASIBLE |
| StrategyTheorems.MonotoneSearchIsOptimal | packages/protocol-moonwell/src/strategy/search.ts:147-291 | On an amount-monotone ledger an amount rescues iff it is at least the verified one, and INFEASIBLE means that none does |
| StrategyTheorems.RaisedBufferForcesSearchIffDebt | packages/protocol-moonwell/src/strategy/run.ts:168-179 | Raising the buffer above the measured one makes the change alone fail iff it leaves debt |
| StrategyTheorems.ComparesBoth | packages/protocol-moonwell/src/strategy/run.ts:167-189 | A comparison is the change alone, then a repay search, then a collateral search, of one world whose minimum buffer is one above the measured one iff that was asked for and the change passes |
| StrategyTheorems.RaisedComparisonSearches | packages/protocol-moonwell/src/strategy/run.ts:168-189 | A comparison that raises the buffer finds neither strategy unneeded whenever the change leaves debt |
| TokenLedger.PlanPaysExactly | packages/protocol-moonwell/src/strategy/plans.ts:34-140 | On an EIP-20 ledger a built plan runs from the allowance it was built with without a failure, never approves non-zero over non-zero, moves exactly its amount, and leaves the allowance max(0, initial - amount) |
| TokenLedger.BoundIsPayable | packages/protocol-moonwell/src/strategy/feasibility.ts:102-205 | On that ledger a feasible bound is covered by the wallet's balance and, for a repayment, by the debt |
| TokenLedger.EveryProbePays | packages/protocol-moonwell/src/strategy/search.ts:228-261 | Whatever was probed before, every amount up to the bound that the market's balance can take in a word is paid exactly: no call of its plan fails, and balance and allowance end as they should |
| LeastRepayment.VerdictOnRepayment | packages/protocol-moonwell/src/strategy/search.ts:228-261 | On the token ledger with a change that limits the debt, a probe is verified iff the repayment brings the debt down to the limit |
| LeastRepayment.RepaySearchFindsTheExcess | packages/protocol-moonwell/src/strategy/search.ts:147-364 | There, with more probes than log2 of the bound, the repay search returns VERIFIED with exactly the debt above the limit when the wallet can pay it, and INFEASIBLE when it cannot |
| LeastRepayment.NoBudgetMissesRescue | packages/strategy-engine/src/search.ts:18-20 | There, without a budget, the search answers INFEASIBLE while a repayment rescues the wallet iff it is at least the debt above the limit |
| LeastRepayment.RescueIsMissed | packages/strategy-engine/src/search.ts:18-20 | A concrete session without a budget: INFEASIBLE, although repaying 2 rescues the wallet |
| LeastRepayment.SuchASessionExists | packages/protocol-moonwell/src/strategy/search.ts:147-364 | A concrete session on which the search is VERIFIED, so the hypotheses of these results can be met |
| JsonReader.PrintedIsRead | packages/blockchain/src/serialize.ts:48-50 | A JSON reader, defined on text alone (RFC 8259: literals, numerals, strings with their escapes, arrays, objects), reads the printed form of every tree as that tree |
| JsonReader.ValueRead | packages/blockchain/src/serialize.ts:48-50 | It does so inside any text, up to what may follow a value |
| JsonReader.EscapeIs | packages/blockchain/src/serialize.ts:48-50 | Which characters are escaped, and how |
| JsonReader.NumeralReadable | packages/blockchain/src/serialize.ts:1-3 | A printed integer followed by what may follow a value determines the integer and the rest |
| JsonReader.QuoteReadable | packages/blockchain/src/serialize.ts:48-50 | An escaped string is read back up to its closing quote, escapes included |
| JsonReader.PrintReadable | packages/blockchain/src/serialize.ts:48-50 | A printed value followed by what may follow a value determines the value and the rest |
| JsonReader.PrintInjective | packages/blockchain/src/serialize.ts:48-50 | Two trees print alike iff they are equal |
| CanonicalJson.BigintRoundTrip | packages/blockchain/src/serialize.ts:1-10 | Parsing a serialised big integer gives it back |
| CanonicalJson.ToJsonSafe | packages/blockchain/src/serialize.ts:12-30 | The recursive loops compute the specified conversion |
| CanonicalJson.SortJsonValue | packages/blockchain/src/serialize.ts:32-46 | The loop over the sorted keys computes the specified sorting |
| CanonicalJson.CanonicalizeJson | packages/blockchain/src/serialize.ts:48-50 | The composition computes the specified canonical text |
| CanonicalJson.JsonSafeMeans | packages/blockchain/src/serialize.ts:12-30 | The conversion keeps the meaning of every value |
| CanonicalJson.SortedMeans | packages/blockchain/src/serialize.ts:32-46 | Sorting keeps the meaning, and puts the members of every object in one order that depends on their keys only |
| CanonicalText.SortedByUnits | packages/blockchain/src/serialize.ts:32-46 | Of two keys the first is the one with the smaller UTF-16 unit at the first difference, or a prefix of the other |
| CanonicalText.CanonicalReads | packages/blockchain/src/serialize.ts:12-50 | The canonical text of a value is read as a tree that means that value, member by member, and in every object of it the index keys come first in numeric order and the others in the order of their UTF-16 units |
| CanonicalJson.CanonicalIffSameMeaning | packages/blockchain/src/serialize.ts:12-50 | Two values have the same canonical text iff they agree up to key order, dropped undefined members, and big integers or dates against their strings |
| Receipts.SameTextIffSameEconomics | packages/simulation-core/src/receipt.ts:92-166 | Two receipts have the same canonical text iff every hashed field agrees, up to the case of addresses and hashes and the order of matches and reasons |
| ReceiptText.ReceiptReads | packages/simulation-core/src/receipt.ts:92-166 | The canonical text of a receipt is read as an object that has, under its own name and with its own value, each hashed field: addresses and hashes in lower case, lists of reasons and matches sorted, big integers as their numerals |
| Receipts.CompareFields | packages/simulation-core/src/receipt.ts:276-285 | The loop over the paths finds the specified differences |
| Receipts.CompareEconomicReceipts | packages/simulation-core/src/receipt.ts:267-303 | The comparison computes the specified differences, or throws where it reads a member of null |
| Receipts.NoDiffsIffSameFields | packages/simulation-core/src/receipt.ts:202-303 | Comparing two receipts never throws, and finds nothing iff all compared fields and the lines of the calls agree |
| Receipts.AsStringIs | packages/simulation-core/src/receipt.ts:195-200 | Which values are compared by their texts, and that an integer is read back from its text |
| Receipts.SameTextNoDiffs | packages/simulation-core/src/receipt.ts:92-303 | Receipts with the same canonical text show no differences, in either argument order |
| Receipts.TextSeesTheEngine | packages/simulation-core/src/receipt.ts:92-97 | The comparison is strictly coarser than the text: it does not see the engine version |
| RunStore.Models.AppendRunEvent | packages/persistence/src/runs.ts:169-183 | Pushes one event and sets the patched fields of one run, field by field, and returns the run as it then is |
| RunStore.Models.RequeueSimulationRun | packages/persistence/src/runs.ts:137-167 | Queues the run again with its receipt, before, after and error code removed, and pushes the event |
| RunStore.Models.SaveReceipt | packages/persistence/src/runs.ts:185-205 | Inserts a receipt, and leaves one that is stored already as it is |
| RunStore.Models.InsertSimulationRun | packages/persistence/src/runs.ts:71-80 | Appends the run, or fails with a duplicate key and changes nothing when the index holds the key |
| RunStore.Models.MarkOpenRunsForChange | apps/indexer/src/stale.ts:9-32 | Marks exactly the runs of the change that are open, in order, one event each, and counts them |
| RunStore.MarkingClosesTheChange | apps/indexer/src/stale.ts:9-32 | After a pass that no other writer interleaves with, each run of the change that was queued or running is closed by one event, cancelled or stale by the next status and with the code of either, and every other run is as it was |
| RunProtocol.StepsExtend | packages/persistence/src/runs.ts:137-205 | Along every interleaving of workers, tracers, markers and producers, event logs only grow at the end and stored receipts stay as they are |
| RunProtocol.StepKeeps | apps/simulator/src/process-impact.ts:47-231 | Every single database step of every process keeps the invariant |
| RunProtocol.StartsTracer | apps/simulator/src/process-impact.ts:127-192 | A worker starts a tracer of its own run when, and only when, its agent has started |
| RunProtocol.RequeuesOnce | packages/persistence/src/runs.ts:137-167 | A producer that has queued its run again does nothing more |
| RunProtocol.MarksEachOnce | apps/indexer/src/stale.ts:9-32 | A marker takes the runs it has found one by one, each once |
| RunProtocol.ReachableOk | packages/persistence/src/runs.ts:137-205 | In every reachable state, for every run: the status is the one its log gives last; receiptHash, before and after are all set or all unset; they are set iff a risk was measured after the run was last queued; the hash names a stored receipt; event ids are unique; every proof follows the replay and measurement of the receipt it names |
| RunProtocol.CompletedHasProof | apps/simulator/src/process-impact.ts:216-220 | In the log of a completed run stand, in this order, the completed replay, a measured risk and the proof, and replay and proof name the same receipt |
| RunProtocol.CompletedWithoutReceipt | packages/persistence/src/runs.ts:137-167 | COMPLETED comes without a receipt iff the run was queued again between its last measurement and the proof |
| RunProtocol.NeverRequeuedHasReceipt | apps/simulator/src/process-impact.ts:103-117 | A completed run that was queued only once has its receipt, and it is stored |
| RunProtocol.RaceLosesReceipt | apps/simulator/src/process-impact.ts:216-220 | A concrete interleaving that ends with a completed run without a receipt |
| RunStatuses.StatusAfterStep | packages/persistence/src/runs.ts:137-183 | A step changes the status of a run iff the process that takes it writes another one to it: a worker that begins, proves or fails, a marker that comes to the run, a producer that queues it again |
| RunStatuses.StatusAfterSteps | packages/persistence/src/runs.ts:137-183 | After any interleaving the status of a run is the last one that a process holding it wrote, or the one it had |
| RunStatuses.TerminalStays | apps/simulator/src/process-impact.ts:54-70 | A terminal status of a run that no process holds stays along every continuation in which no producer reads the run in order to queue it again, and a COMPLETED one along every continuation |
| RunStatuses.FinalIffCompletedAndReleased | packages/persistence/src/runs.ts:137-183 | No continuation can change the status of a run iff it is COMPLETED and no worker past its load, no marker and no producer holds the run |
| ImpactWorker.ProcessImpactSimulation | apps/simulator/src/process-impact.ts:47-231 | The worker's code, with a call failing at any point and its write applied or lost, writes what the program counter of the protocol model writes; and what WorkerLog says of a worker left alone |
| WorkerLog.WorkerCompletes | apps/simulator/src/process-impact.ts:47-220 | On an open run of its wallet and change, a worker whose calls all work appends exactly FORK_STARTING, CHANGE_REPLAY_STARTED, CHANGE_REPLAY_COMPLETED, RISK_MEASURED, then iff strategies are included AGENT (iff there is a key), STRATEGY_OPTIMIZATION_STARTED, STRATEGY_BRANCH_RESULT and RECOMMENDATION_READY, then PROOF_READY, with their data; it stores the receipt and ends COMPLETED with its hash, before and after |
| WorkerLog.WorkerFails | apps/simulator/src/process-impact.ts:81-231 | The first call of the try block that throws fails the run with its code, by a last event FAILED, iff that event can be written |
| WorkerLog.WithoutRpcUrl | apps/simulator/src/process-impact.ts:71-79 | Without a URL for the fork the run gets FORK_STARTING and stays RUNNING |
| WorkerLog.RefusesRun | apps/simulator/src/process-impact.ts:47-69 | A run that is closed, or of another wallet or change, gets no event and no other change |
| WorkerLog.WorkerAlone | apps/simulator/src/process-impact.ts:47-231 | Every worker that is left alone does one of these |
| ImpactWorker.Attempt | apps/simulator/src/process-impact.ts:81-220 | The try block ends where the program counter says, or hands its exception to the catch block |
| ImpactWorker.DriveIsFinish | apps/simulator/src/process-impact.ts:47-231 | A worker of the interleaved system that is left alone does the same |
| Producers.ClaimSimulationRun | packages/persistence/src/runs.ts:82-109 | With any runs inserted by others between its find and its insert, a claim returns a run with its key, within two attempts, and no duplicate-key error escapes |
| Producers.ReachableOk | apps/api/src/simulations/simulations.service.ts:115-196 | In every reachable state of any number of producers: at most one run per key, every claimed run has its claimer's key, no claim is beyond its second attempt, no duplicate error has escaped, every job carries a stored run whose key gives the job's id, and at most 15 jobs more than there are producers are in flight |
| Producers.ProducerAtStore | packages/persistence/src/runs.ts:82-167 | What each step of a producer does to the runs and where it goes: find, insert, find again, or queue again with its own wish for strategies |
| Producers.ProducerAtQueue | apps/api/src/simulations/simulations.service.ts:166-196 | What each step of a producer does to the queue and where it goes: count, look up, read the state, remove, add |
| Producers.SameKeySameRun | packages/persistence/src/runs.ts:82-109 | All claimers of a key get the same run |
| Producers.SameJobIff | packages/simulation-core/src/receipt.ts:191-193 | Two keys share a job id iff they differ in nothing but colons and dashes |
| Producers.JobIsOwnIff | packages/simulation-core/src/receipt.ts:191-193 | Whatever the queue holds, the job under a run's id is that run's own iff no other stored key has the same id |
| Producers.CollisionLeavesRunWithoutJob | apps/api/src/simulations/simulations.service.ts:166-196 | From the empty store, with keys for moonwell:eth:176 and moonwell:eth-176: both producers return, both runs are queued, and the second has no job |
| Producers.BoundIsReached | apps/indexer/src/enqueue.ts:64-98 | Any number of producers reach the bound on the queue from the empty store, by counting before any of them adds |
| Producers.Queue.EnsureQueued | apps/api/src/simulations/simulations.service.ts:166-196 | A full queue refuses; a job of the same id that is in flight is left alone, whichever run it carries; otherwise a job of this run is waiting afterwards |
| Producers.ResumeExistingRun | apps/api/src/simulations/simulations.service.ts:136-164 | A run that ended without a proof is queued again; unless the run is completed or the queue refuses, a job of its id is in flight on return, and it is the run's own iff no job of another run was in flight under that id, as it never is when no other stored key has that id |
| DuplicateKey.Visitor.Visit | packages/persistence/src/mongo-errors.ts:1-29 | One visit with the shared set: a positive answer is reachable, and a negative one clears everything newly seen |
| DuplicateKey.IsDuplicateKeyError | packages/persistence/src/mongo-errors.ts:1-32 | On every finite error graph, cycles included, the answer is true iff a node reachable through cause, errorResponse or writeErrors is itself a duplicate-key error |
| DuplicateKey.DuplicateIff | packages/persistence/src/mongo-errors.ts:16-25 | An error is itself a duplicate-key error iff its code, its name or its text says so, a shorter text being enough beside a key pattern or value |
| EventStream.Connection.Replay | apps/api/src/simulations/simulations.controller.ts:88-99 | Writes the events after the cursor in order and moves the cursor to the last of them |
| EventStream.Connection.Stream | apps/api/src/simulations/simulations.controller.ts:81-121 | Over any polls the connection writes what the specification delivers, and stops at the first poll that sees the run ended |
| EventStream.DeliversSuffix | apps/api/src/simulations/simulations.controller.ts:81-121 | A connection delivers exactly the log after its cursor, in order and without repeats |
| EventStream.UnknownIdReplaysAll | apps/api/src/simulations/simulations.controller.ts:88-99 | An id that is not in the log replays it from the start |
| EventStream.ReconnectingLosesNothing | apps/api/src/simulations/simulations.controller.ts:68-126 | Over any number of broken connections the client's events are one gap-free piece of the log from its first cursor on |
| EventStream.StalePollRepeatsIff | apps/api/src/simulations/simulations.controller.ts:88-121 | Polls of a running log, seen in any order, deliver an event twice iff some poll that is not empty is shorter than one before it |
| GovernanceCursor.NoMismatchIsExact | packages/protocol-moonwell/src/governance/sync.ts:220-232 | A tick saves the exact safe block iff it saw no mismatch or the rewound number is not below it |
| GovernanceCursor.DetectReorgIff | packages/protocol-moonwell/src/governance/destination.ts:42-52 | A reorganisation is seen iff the cursor's block cannot be read, or the cursor has a hash and the block has another or none |
| GovernanceCursor.UnbrokenRunIsExact | packages/protocol-moonwell/src/governance/sync.ts:25-38 | Over every run without a reorganisation the cursor is the last safe number and hash |
| GovernanceCursor.MismatchGetsStuck | packages/governance-core/src/reorg.ts:14-25 | A mismatch at a block not above the safe block leaves a cursor with the hash of a higher block iff the safe block is above 0 |
| GovernanceCursor.MismatchNeverHeals | packages/protocol-moonwell/src/governance/destination.ts:118-129 | After a mismatch at block b, not above a safe block above 0, every tick mismatches, and k ticks leave max(0, b - 64k), always below the safe block, with the safe block's hash |
| GovernanceIndex.ExecutedNeedsBothSides | packages/governance-core/src/status.ts:47-59 | An indexed change with Base calls is EXECUTED iff both its sides are |
| GovernanceMeaning.UnexecutedStatus | packages/governance-core/src/status.ts:26-59 | After a tick that works, the status of every change in terms of the raw state the governor has now |
| GovernanceMeaning.FactorChangeStatus | packages/protocol-moonwell/src/governance/destination.ts:22-48 | After a tick that works and sees Base, a factor change is EXECUTED iff its raw state is 5 and the market on Base has the mantissa of its first decoded factor call, and DESTINATION_PENDING iff the state is 5 and the market has another |
| GovernanceMeaning.NoFactorNeverExecuted | packages/protocol-moonwell/src/governance/destination.ts:22-52 | A change with Base calls and no factor to compare is DESTINATION_PENDING iff its raw state is 5, and never EXECUTED |
| GovernanceMeaning.NormalizedMeans | packages/protocol-moonwell/src/governance/normalize.ts:59-98 | Support level, calls and first status of a proposal, in terms of its batches for Base |
| GovernanceMeaning.SyncedAsRead | packages/protocol-moonwell/src/governance/sync.ts:107-218 | A tick that works leaves, for every proposal with targets from the cursor to the count, the record of its calls and votes now |
| GovernanceIndex.RefreshRightIff | packages/protocol-moonwell/src/governance/refresh.ts:30-40 | A refresh gives the combined status iff the change has Base calls or its source is not executed |
| GovernanceIndex.SourceOnlyNeverExecuted | packages/protocol-moonwell/src/governance/refresh.ts:37-37 | A source-only proposal executed after it was indexed is shown as pending on the destination, where indexing it afresh gives EXECUTED |
| GovernanceIndex.SourceOnlyStaysPending | packages/protocol-moonwell/src/governance/refresh.ts:14-43 | Such a record stays as it is through all ticks that do not sync its proposal anew |
| GovernanceIndex.ReachableIndexOk | packages/protocol-moonwell/src/governance/sync.ts:107-232 | After any ticks, failing reads included: ids are unique, every change with Base calls has the status combined from both sides, and every id from 169 to the cursor's lastProposalId is indexed or had no targets when it was read |
| GovernanceIndex.SecondTickIsQuiet | apps/indexer/src/monitor.ts:50-81 | A second tick on an unchanged chain changes no record and reports no transition, when the proposal count had not moved back |
| GovernanceIndex.SecondTickQuietIff | apps/indexer/src/monitor.ts:50-81 | A second tick on an unchanged chain reports a transition iff the proposal count had moved back, a record of what is now the last proposal is indexed, that proposal has targets, and reading it anew settles to another status than the first tick left |
| GovernanceIndex.CountMovedBackTransitions | packages/protocol-moonwell/src/governance/sync.ts:107-118 | Such a run of three ticks from the empty index: a source-only proposal shows its execution one tick late, as a transition on an unchanged chain |
| GovernanceIndex.GovernanceStore.Sync | packages/protocol-moonwell/src/governance/sync.ts:83-241 | The loop upserts the specified records and saves the cursor, and a failing read leaves the cursor unsaved |
| GovernanceIndex.GovernanceStore.RefreshAll | packages/protocol-moonwell/src/governance/refresh.ts:14-43 | The loop over the listed records upserts those that differ, and does to the store what refreshing each in place does |
| GovernanceIndex.GovernanceStore.RefreshDestinations | packages/protocol-moonwell/src/governance/destination.ts:54-131 | The destination pass leaves the specified records and cursor |
| GovernanceIndex.GovernanceStore.RunMonitorTick | apps/indexer/src/monitor.ts:50-81 | A tick leaves the specified store and reports exactly the records whose status differs from before |
| FileStore.ReviveValue | packages/protocol-moonwell/src/governance/file-store.ts:20-37 | The recursive loop computes the specified revival |
| FileStore.NumeralRoundTrip | packages/protocol-moonwell/src/governance/file-store.ts:21-23 | Reading and printing a numeral gives it back iff it has no leading zero and is not minus zero |
| FileStore.WrittenAgainIffStable | packages/protocol-moonwell/src/governance/file-store.ts:20-37 | Writing a revived value gives the same text iff it has canonical numerals under the big-integer keys, ISO dates under the date keys and no member named __proto__, at every depth |
| FileStore.JsonFileGovernanceStore.Hydrate | packages/protocol-moonwell/src/governance/file-store.ts:45-67 | The first use fills the empty store with the revived values of the file, and later uses leave it alone; what the store answers with does not change |
| FileStore.JsonFileGovernanceStore.SaveCursor | packages/protocol-moonwell/src/governance/file-store.ts:86-90 | Hydrates, sets the cursor of its source in place or at the end, and writes the whole store to the file |
| FileStore.JsonFileGovernanceStore.UpsertIndexedChange | packages/protocol-moonwell/src/governance/file-store.ts:107-111 | The same for a change, by the id of its change |
| FileRoundTrip.ReparseIsParsed | packages/protocol-moonwell/src/governance/file-store.ts:49-53 | Whatever text the file holds, JSON.parse gives values without big integers, dates and undefined, with every object in enumeration order |
| FileRoundTrip.ReparseParsed | packages/protocol-moonwell/src/governance/file-store.ts:69-79 | What was parsed from JSON is written and parsed back unchanged |
| FileRoundTrip.ComesBackIff | packages/protocol-moonwell/src/governance/file-store.ts:11-79 | For arbitrarily nested values: hydrating after persisting gives the value back iff it has no numeral string under a big-integer key, no string under a date key, big integers and dates only under keys of their own, every date in the form it is parsed to, nothing undefined or not finite, every object in enumeration order, and no member named __proto__ |
| FileRoundTrip.MemberAfterRestart | packages/protocol-moonwell/src/governance/file-store.ts:20-37 | A member of any object is read back by its own key alone, whatever the other members are |
| FileRoundTrip.EvidenceComesBackAsBigint | packages/protocol-moonwell/src/governance/sync.ts:181-195 | A record with a block number in change.evidence never comes back: the string is a big integer in the next process |
| FileRoundTrip.CursorsComeBackIff | packages/protocol-moonwell/src/governance/file-store.ts:11-79 | A list of cursors, one for each source, comes back iff every updatedAt is a date that toISOString gives |
| FileRoundTrip.Restart | packages/protocol-moonwell/src/governance/file-store.ts:45-79 | After persisting, the next process holds the same cursors, and the same changes, in the same order iff each of them comes back |
| FileRoundTrip.Rewrite | packages/protocol-moonwell/src/governance/file-store.ts:45-79 | Hydrating and persisting leaves any file as it was iff no key comes twice and every value is one that is written so and is stable |
| AgentLoop.AuthorizedIsPermitted | packages/agent-core/src/policy.ts:12-43 | An authorised call has an allowlisted name, no foreign wallet, and no proposal but 176 |
| LowerCase.SameLowerIff | packages/agent-core/src/policy.ts:34-38 | Two texts are equal in lower case iff they differ in the case of ASCII letters only |
| AgentLoop.AuthorizedIff | packages/agent-core/src/policy.ts:12-43 | A call is authorised iff its name is allowlisted, its arguments are JSON of the tool's shape, and its wallet, if any, is the session's and its proposal, if any, is 176; and what is then passed on |
| AgentLoop.FingerprintsDiffer | packages/agent-core/src/loop.ts:148-169 | The fingerprint of an authorised call never equals that of a rejected one, so the block on repeats never fires |
| AgentLoop.HandleCall | packages/agent-core/src/loop.ts:135-187 | One call is answered once, or twice iff a strategy tool returned null, and counts as rejected unless its one answer is a result |
| AgentLoop.HandleCalls | packages/agent-core/src/loop.ts:129-188 | The calls of one response are answered in order, until there are too many rejections |
| AgentLoop.CompleteWithFallback | packages/agent-core/src/loop.ts:195-215 | The answer is that of the last call; a second call, to the fallback model, is made iff the first failed transiently and the fallback was not in use; the switch is reported iff the second call answers |
| AgentLoop.RunAgent | packages/agent-core/src/loop.ts:27-193 | For every provider, tool behaviour and clock: at most AGENT_MAX_STEPS + 1 provider calls; one switch to the fallback at most and none back; each request holds every earlier tool call, in order, each answered exactly once iff no strategy tool had returned null; the tools that ran by the end are those of the authorised calls, in order, and all of them unless the run failed for its rejections; rejections stay within the cap and reach it iff the run fails for it. It completes, with the sanitised summary or the fixed text, iff the last answer asks for no tool, and each of the five reasons for failing has its iff, on the answers, the clock and the number of steps. Rejections are the calls without a result plus those answered twice, and there is one trace for each call, result and rejection, one for a switch of model that worked, and those that close the run |
| TxRegistration.VerifiedIff | apps/api/src/execution/verify-state.ts:6-41 | With all calls confirmed the verdict is VERIFIED or MISMATCH, and VERIFIED iff the shortfall is in bound, the status known, the buffer known and large enough when one is asked for, and the state has changed |
| TxRegistration.NotAllConfirmed | apps/api/src/execution/verify-state.ts:14-24 | FAILED iff something reverted or nothing is confirmed, PARTIAL iff otherwise receipts are missing |
| TxRegistration.WorseVerifiedIff | apps/api/src/execution/verify-state.ts:14-41 | A state with less liquidity or more shortfall than before is VERIFIED iff nothing reverted, every call is confirmed, and it meets the shortfall bound, the known status and the minimum buffer |
| TxRegistration.WorseStateToVerify | apps/api/src/execution/verify-state.ts:34-41 | Without a minimum buffer there is, for every state before, a worse one that is VERIFIED |
| TxRegistration.WorseIsRegisteredIff | apps/api/src/execution/execution.service.ts:262-303 | When the last call is registered and the wallet is worse off than before, the plan is VERIFIED iff it asks for no buffer, the status is known and the shortfall is in bound |
| TxRegistration.ExecutionAttempt.Register | apps/api/src/execution/execution.service.ts:218-303 | One request has the specified result and leaves the specified record, also when it throws |
| TxRegistration.RefusedWith | apps/api/src/execution/execution.service.ts:218-262 | The answer to every request that cannot register: another wallet, an expired or final plan, a wrong index, another hash for a registered call, or the same one |
| TxRegistration.RegisteredIff | apps/api/src/execution/execution.service.ts:218-303 | A request changes the record iff its sender owns the plan, which is neither expired nor final, the index is the next one, the receipt is there, and the risk is read if this is the last call; and then which record it leaves |
| TxRegistration.SeriesOk | apps/api/src/execution/execution.service.ts:218-303 | Over any series of requests: hashes and receipts form one gap-free prefix of the calls, only the last can be a revert and then the status is FAILED, VERIFIED or MISMATCH iff all calls succeeded, VERIFIED only within the shortfall bound, PARTIAL and EXPIRED never |
| TxRegistration.SeriesGrows | apps/api/src/execution/execution.service.ts:225-244 | What is registered stays registered, and a final status absorbs every later request |
| TxRegistration.RepeatedRequestIff | apps/api/src/execution/execution.service.ts:225-260 | The same request once more is answered with the record iff it has not made the record final; then it is refused |
| TxRegistration.PositiveBufferNeverVerified | apps/api/src/execution/execution.service.ts:270-285 | A plan with a positive minimum buffer is never verified, since no borrow value is passed |
| RateLimiter.MemoryRateLimiter.ConsumeKey | apps/api/src/http.ts:85-99 | One request opens, fills or is refused by the window of its key, and no other key is touched |
| RateLimiter.AtMostMaxPerWindow | apps/api/src/http.ts:77-100 | In the limiter's own window a key has at most max accepted requests, for every history with a non-decreasing clock |
| RateLimiter.AtMostTwiceTheLimit | apps/api/src/http.ts:77-100 | In any windowMs milliseconds a key has at most 2 * max - 1 accepted requests |
| RateLimiter.BoundIsReached | apps/api/src/http.ts:77-100 | A history that reaches this bound |
| RateLimiter.AcceptedByKey | apps/api/src/http.ts:77-100 | Whether a request is accepted depends on the requests of its key only |

## Left out

- RunStore.MarkingClosesTheChange: covers a pass with no other writer between its find and its updates; passes that others interleave with are those of `RunProtocol` and `RunStatuses`.
- The reads before a search, and the price reads of one risk read, work or throw as one step each; which of them throws is not modelled.
- Raw governance events, which the file store keeps in memory only.
- RPC transport, retries and timeouts, Anvil processes and ports, Mongo, Redis and BullMQ internals: they are the atomic steps above; a read or write fails as a whole, with its effect applied or lost.
- ABI encoding and decoding, keccak and signatures: calls are a datatype, and receipts are compared by text.
- Comptroller interest and price mechanics: the risk read is an arbitrary function of the ledger.
- Account impersonation flags and gas on Anvil: funding an account is part of the chain's rules.
- Addresses are natural numbers in the strategy modules, so their checksum and case are not modelled there; receipts and the agent compare them as strings in lower case, ASCII letters only.
- Amounts are integers; the range of a word is checked where the source relies on it. Basis points, a JavaScript number, are integers.
- JSON numbers with a fraction or exponent, lone surrogates, functions and symbols; an invalid date on the hashed path, where the source throws.
- Object identity in `===`: two objects or arrays in a comparison are different objects. None of the compared fields of a receipt is one.
- Paths of compared fields are given as their parts with the rule their name selects.
- The texts of error messages, and timestamps of runs, cursors and changes; evidence and updatedAt of indexed changes, which no status depends on.
- Reading a file that is not JSON: the store then starts empty.
- Wallet exposures, enqueue decisions and metrics of a monitor tick; the stale pass is modelled on the run store.
- Finished jobs are dropped from the queue at any time instead of by count, and a stalled job may move to any state in flight.
- The agent's prompts, the texts of messages and the reading of strategy results into traces, but for the null result that makes it throw.
- Concurrent registrations for one plan: the source does not serialise them, and the series here is sequential.
- Preparing an execution, the live smoke run, exposure matching, manifest parsing, session cookies, configuration and wiring, the web app: guards around I/O or single branches.
- A limit on concurrent producers: the source has none, so the queue bound counts every producer that may run at once.
- The proposal count in the cursor lemmas: one value stands for the counts of all ticks, as neither number nor hash of a cursor depends on it.
