# Solana relayer: ingestion, task processing, gas accounting, persisted state

A Dafny model of the Solana side of an Axelar relayer, and proofs about it. The model follows the code
branch by branch: loops and objects that change state are methods and classes, each tied to a
specification function or transition, and the promises of the system are lemmas about those. Calls to
the network become steps of an environment that may answer in any way its contract allows.

## What is modelled

1. **Listener** (`Ledger`, `BatchScanner`, `ScanProperties`, `ListenerRun`, `RealtimeSession`,
   `SessionTurns`, `RoundRobin`, `SolanaListener`). The ledger is a growing list of transactions with unique signatures
   and non-decreasing slots. The scanner pages backwards through the histories of two addresses. The
   listener's life (start-up scan, subscription, catch-up, unordered fetches, cursor writes, reconnects,
   crashes) is a transition system, `ListenerRun`; `SolanaListener.Listener` is the process as the code
   runs it, built on the real scanner and the real poll function, and proved to be a run of it.
2. **Task processor** (`TaskStream`, `GatewaySession`, `PayloadUpload`, `UploadSession`, `ExecuteTask`).
   Concurrent tasks recorded in receipt order, gateway sessions of many transactions, chunked uploads,
   execute tasks with their reports.
3. **Gas** (`GasComputation`, `EventForwarder`, `GasProperties`, `GasEstimator`, `EstimatorCache`).
   Saturating sums over paged histories, two divisions, the estimator and its cache.
4. **Persisted state** (`Storage`). Three fields overlaid on one 96-byte buffer.

`Basics` holds options, results and 64-bit saturating arithmetic.

## What the proofs found

- The scanner is documented to return the chronologically newest signature
  (`signature_batch_scanner.rs:23-24`). When both addresses have entries it does so if and only if
  either the gas-service history is ahead of the gateway's newest slot by at most one page, or it is not
  ahead in slots and its newest entry is not later on the ledger in the same slot (`NewestReportedIff`),
  because the slot is recorded only once. `NewestCanBeMissed` gives a ledger on which it does not.
- The stored cursor follows completion order, not ledger order. `OvertakingLosesATransaction` is a run
  in which a delivered transaction is never sent. A reconnect opens no gap exactly when nothing
  waiting was overtaken by the cursor (`DisconnectSafeIff`); runs in ledger order are gap-free
  (`OrderlyRunsAreGapFree`).
- The start-up scan stores a position that can lie above gateway transactions it never listed, when
  the ledger grows between the two addresses: `StartUpCanOverlook` is such a run, and `StartUpSafeIff`
  and `CompleteStartUpSafeIff` say exactly when it happens, in terms of the two histories.
- The two subscriptions are set up one after the other, so a transaction of the second address can fall
  between the first item and its subscription: `ConnectCanMiss` is such a run, `ConnectSafeIff` the
  exact condition.
- In all runs a transaction is kept accounted for if and only if none of the listed losses hits it
  (`KeptIffNotLost`); the other losses are a scan's failed fetch and a cursor forced forward by an
  operator.
- The execute transaction also carries the close instruction, so its fee is reported twice
  (`ExecuteTotalExactIff`, with the concrete case `ExecuteFeeCountedTwice`).
- A failed execute task may be reported as reverted although the message was executed. Unless the upload
  is disturbed this happens exactly when the network hides the status of an earlier execution or the
  confirmation of one that the attempt gets through (`ExecuteTask.Executor.ProcessExecute`);
  `ReportsAnExecutedMessage` is such an attempt.
- Task ids are stored in the order of receipt, so one slow task holds back the ids of all that finished
  after it: `TaskStream.TaskPusher.ProcessInternal` says exactly which ids are stored by when.
- A message or signer whose instruction cannot be built is silently left out of a gateway session that
  still ends Ok (`GatewaySession.Relayer.GatewayTxTask`).
- A state file longer than 96 bytes is mapped as it is and then cannot be viewed
  (`Storage.MemmapState.constructor`).

## Assumptions about the environment

- `getSignaturesForAddress(before, until, limit)` answers with the newest-first entries of one address
  strictly between the bounds, at most `limit` of them; successive answers come from ledgers that only
  grow. An unknown `before` yields nothing, an unknown `until` no lower bound.
- A stored signature, and so the lower bound of a scan, is absent, on the ledger when it is stored, or
  never appears there.
- A subscription delivers every successful transaction that lands while it is in place. What it delivers
  of the transactions before is not assumed.
- A fetch reports success only for transactions that succeeded on chain. Each fetch may fail on its own.
- Gas checks of one message do not overlap; those of different messages may.
- The gateway never forgets a finished step, executes a transaction completely or not at all, and
  answers a repeated step with an error that tells the relayer to proceed
  (`doc/adr/0004-solana-tx-sending.md:31`). Whether it does so for a write to an already committed
  payload is a parameter, `writeAfterCommitProceeds`; the results say where it matters.

## Model

| member | source | states |
|---|---|---|
| `BatchScanner.Forwarding.FetchAndSend` | crates/solana-listener/src/component/log_processor.rs:20-47 | in whatever order fetches finish, exactly the successful transactions whose own fetch is answered are sent, once per such fetch |
| `BatchScanner.Fetch` | crates/solana-listener/src/component/signature_batch_scanner.rs:130-216 | a page is handed over oldest first; a short or empty page completes, a full one continues from its oldest entry; it fails exactly if the call fails |
| `BatchScanner.ResumeAfterPage` | crates/solana-listener/src/component/signature_batch_scanner.rs:65-70 | continuing below a page's oldest entry sees exactly the rest of the history although the ledger grew |
| `BatchScanner.ScanAddress` | crates/solana-listener/src/component/signature_batch_scanner.rs:44-101 | the page loop over a growing ledger terminates and hands over the whole history seen by its first call, page by page; it stops early only at a failed call |
| `BatchScanner.FetchBatchesInRange` | crates/solana-listener/src/component/signature_batch_scanner.rs:30-105 | both addresses are scanned completely, the reported signature is the fold over all page heads; after a failure a prefix has been handed over |
| `ScanProperties.HistoryIs` | crates/solana-listener/src/component/signature_batch_scanner.rs:141-152 | what the RPC lists is exactly what mentions the address after a known lower and before a known upper bound; an unknown upper bound lists nothing |
| `ScanProperties.CatchUpExact` | crates/solana-listener/src/component/signature_batch_scanner.rs:44-101 | with an upper bound, every transaction strictly between the bounds is handed over once per monitored address it mentions and nothing else is, for any page limit and any growth |
| `ScanProperties.ScanReportsGivenBound` | crates/solana-listener/src/component/signature_batch_scanner.rs:77-80 | a scan with an upper bound reports that bound |
| `BatchScanner.Note` | crates/solana-listener/src/component/signature_batch_scanner.rs:72-91 | after a page with a newest status a signature is known, and a slot never without a signature: the unreachable arm is dead |
| `ScanProperties.FirstAddressFold` | crates/solana-listener/src/component/signature_batch_scanner.rs:72-91 | over the first address the fold yields its newest entry, later pages never change it |
| `ScanProperties.LastNewerPageWins` | crates/solana-listener/src/component/signature_batch_scanner.rs:81-86 | the recorded slot never moves, and the last page whose head is above it decides the signature |
| `ScanProperties.SecondAddressFold` | crates/solana-listener/src/component/signature_batch_scanner.rs:81-86 | the second address replaces the signature by the head of its last page that is ahead of the recorded slot, and by nothing when none is |
| `ScanProperties.NewestReportedIff` | crates/solana-listener/src/component/signature_batch_scanner.rs:23-104 | on a ledger that stands still the scan reports the newest scanned signature if and only if at most one gas-service page is ahead |
| `ScanProperties.ReportedWasScanned` | crates/solana-listener/src/component/signature_batch_scanner.rs:73-86 | whatever is reported lies in the scanned range, also when the ledger grew between the addresses |
| `ScanProperties.NewestCanBeMissed` | crates/solana-listener/src/component/signature_batch_scanner.rs:73-86 | twelve transactions on which an older signature than the newest is reported |
| `ListenerRun.CatchUpIsAScan` | crates/solana-listener/src/component/signature_realtime_scanner.rs:96-105 | the transactions a catch-up step may send are the ones the scanner hands over between the stored signature and the first item |
| `ListenerRun.StartUpIsAScan` | crates/solana-listener/src/component.rs:178-188 | the same for the start-up scan, whose two parts see different ledgers |
| `ListenerRun.CursorIsReported` | crates/solana-listener/src/component.rs:178-194 | the position the cursor moves to, given by the two histories alone, is the one the scan reports; it never moves back nor off the ledger |
| `ListenerRun.StepWellFormed` | crates/solana-listener/src/component/signature_realtime_scanner.rs:34-178 | every step keeps the invariant, takes nothing back and never forgets the starting point |
| `ListenerRun.StepAccountsIff` | crates/solana-listener/src/component/signature_realtime_scanner.rs:34-178 | a step stops accounting for a transaction (sent, waiting or ahead of the next scan) if and only if it is one of the listed losses |
| `ListenerRun.KeptIffNotLost` | crates/solana-listener/src/component/signature_realtime_scanner.rs:34-178 | over every run with growth, reconnects, crashes and out-of-order completion, a transaction is accounted for all along if and only if no step loses it |
| `ListenerRun.NoSilentGap` | crates/solana-listener/src/component/signature_realtime_scanner.rs:34-178 | while the listener is live each successful monitored transaction after the starting point is sent, queued or in flight, or one of the exact losses hit it |
| `ListenerRun.CompleteStepLoses` | crates/solana-listener/src/component/log_processor.rs:41-45 | when a scan fetches everything it lists, only a forced cursor, growth during start-up, a late subscription or an overtaking cursor loses anything |
| `ListenerRun.OrderlyRunInvariant` | crates/solana-listener/src/component/signature_realtime_scanner.rs:157-177 | runs in ledger order keep every transaction accounted for and lose nothing |
| `ListenerRun.OrderlyRunsAreGapFree` | crates/solana-listener/src/component/signature_realtime_scanner.rs:157-177 | when items are pulled and completed in ledger order and scans are complete, every transaction is sent, queued or in flight |
| `ListenerRun.DisconnectSafeIff` | crates/solana-listener/src/component/signature_realtime_scanner.rs:162-174 | a reconnect opens no gap if and only if nothing waiting unsent is at or below the cursor |
| `ListenerRun.ConnectSafeIff` | crates/solana-listener/src/component/signature_realtime_scanner.rs:51-83 | setting up the subscriptions opens no gap if and only if they deliver every unsent transaction after the first item |
| `ListenerRun.StartUpSafeIff` | crates/solana-listener/src/component.rs:163-194 | a start-up scan, whatever its fetches did, opens no gap if and only if every unsent transaction up to the position it stores was fetched |
| `ListenerRun.CompleteStartUpSafeIff` | crates/solana-listener/src/component.rs:163-194 | when all fetches succeed it opens no gap if and only if no unsent transaction was skipped by a forced cursor or landed for the gateway only, after its history was read and below the stored position |
| `ListenerRun.OvertakingLosesATransaction` | crates/solana-listener/src/component/signature_realtime_scanner.rs:162-166 | a concrete run in which a delivered transaction is never sent |
| `ListenerRun.StartUpCanOverlook` | crates/solana-listener/src/component.rs:178-194 | a concrete run whose start-up scan fetches all it lists and yet loses a gateway transaction for good |
| `ListenerRun.ConnectCanMiss` | crates/solana-listener/src/component/signature_realtime_scanner.rs:51-83 | a concrete run in which a transaction lands after the first item and before the second subscription, and is lost |
| `RealtimeSession.Session.PollMerged` | crates/solana-listener/src/component/signature_realtime_scanner.rs:115-155 | a finished fetch is emitted before anything new is pulled, and an unanswered one as an error; with none ready an available item goes in flight, that one only; pulled items are those emitted plus those in flight; only the end of the stream ends it |
| `RealtimeSession.PollMatches` | crates/solana-listener/src/component/signature_realtime_scanner.rs:115-177 | a poll and the reaction to its result are exactly one abstract step or none |
| `RealtimeSession.StepDoes` | crates/solana-listener/src/component/signature_realtime_scanner.rs:115-177 | the step of an event, spelled out: a ready fetch is sent and becomes the cursor or ends the session, else an available item goes in flight, else only the end of the stream does anything; growth is delivered |
| `RealtimeSession.DeliveriesAre` | crates/solana-listener/src/component/signature_realtime_scanner.rs:51-64 | a successful transaction is delivered once by each subscription that it concerns, any other never |
| `RealtimeSession.Session.HandlePoll` | crates/solana-listener/src/component/signature_realtime_scanner.rs:158-177 | one turn of the loop takes the session to the state after that step: send, then store; an error or the end leaves the loop |
| `RealtimeSession.Session.ForwardResults` | crates/solana-listener/src/component/signature_realtime_scanner.rs:158-178 | over any arrivals and polls the loop handles every event and is a run of the transition system, ending live or through a disconnect |
| `SessionTurns.PollsKept` | crates/solana-listener/src/component/signature_realtime_scanner.rs:115-178 | the polls among the events of a session are its poll turns, with the same answers in the same order |
| `SessionTurns.EventsSplit` | crates/solana-listener/src/component/signature_realtime_scanner.rs:115-178 | the events of a session are those of its turns one after the other, each from the ledger of its time |
| `SessionTurns.FetchedIsSent` | crates/solana-listener/src/component/signature_realtime_scanner.rs:158-166 | a transaction whose fetch is answered is sent at once and stays so, and its signature is the stored one then |
| `SessionTurns.PulledIsKept` | crates/solana-listener/src/component/signature_realtime_scanner.rs:127-142 | in an open session what was pulled is in flight until it is fetched, and sent from then on |
| `SessionTurns.SessionConserves` | crates/solana-listener/src/component/signature_realtime_scanner.rs:109-178 | in an open session, as multisets, what was delivered before and arrived since is what is queued, in flight or newly sent |
| `SessionTurns.AttendedAreSent` | crates/solana-listener/src/component/signature_realtime_scanner.rs:109-178 | polls that pull and fetch one item after the other send all delivered items in order, with the last as the stored one |
| `SolanaListener.HandedIsMonitored` | crates/solana-listener/src/component/signature_batch_scanner.rs:183-195 | everything a scan hands over is a monitored transaction of the ledger it saw |
| `SolanaListener.SentAreTargets` | crates/solana-listener/src/component/log_processor.rs:31-38 | a scan sends only successful monitored transactions among those it handed over |
| `SolanaListener.SentAreAllTargets` | crates/solana-listener/src/component/log_processor.rs:31-38 | with reliable fetches a scan sends every one of them |
| `SolanaListener.Listener.StartUp` | crates/solana-listener/src/component.rs:162-194 | the forced signature, known to the chain or not, the scan and the cursor write are one start-up step of the transition system; it fails exactly with its last call, and the process with it |
| `SolanaListener.Listener.CatchUpOnMissed` | crates/solana-listener/src/component/signature_realtime_scanner.rs:85-107 | the scan up to the first item and the sending of that item are one catch-up step that leaves the cursor where it is; it fails only with a failed call or a closed channel |
| `SolanaListener.Listener.HoldSession` | crates/solana-listener/src/component/signature_realtime_scanner.rs:109-178 | turn by turn, time passing delivers what landed and every poll does what its answers call for; what is fetched is sent and stored, what is pulled is sent or in flight, nothing is lost or repeated while it is open; it is a run of the transition system |
| `SolanaListener.Listener.RunSession` | crates/solana-listener/src/component/signature_realtime_scanner.rs:34-178 | from the subscription on, a session has the course its environment prescribes and does exactly the steps of that course |
| `SolanaListener.Listener.ProcessRealtimeLogs` | crates/solana-listener/src/component/signature_realtime_scanner.rs:25-179 | the reconnect loop has its sessions one after the other, exactly up to the first that does not reconnect, and does what they do; it is a run of the transition system |
| `SolanaListener.Listener.RunLives` | crates/solana-listener/src/component.rs:162-206 | any number of process lives, each with one start-up scan and its sessions, are a run with the stored signature and the sent transactions of the code and, apart from ledger growth, exactly the steps of those lives; a transaction is kept exactly if no listed loss hits it; with reliable fetches and everything in ledger order nothing is lost |
| `RoundRobin.Merge.PollNext` | crates/solana-listener/src/component/signature_realtime_scanner.rs:184-222 | one poll of the merge is one poll of its specification |
| `RoundRobin.NothingLostOrRepeated` | crates/solana-listener/src/component/signature_realtime_scanner.rs:184-222 | for every polling script the output is an order-preserving interleaving of what was taken from the two sides |
| `RoundRobin.ReadyWaitsForAtMostOne` | crates/solana-listener/src/component/signature_realtime_scanner.rs:213-220 | a ready item waits for at most one item of the other side, or for its end |
| `RoundRobin.EndsSoonAfterOneSide` | crates/solana-listener/src/component/signature_realtime_scanner.rs:181-183 | after one side ended at most one more item comes out, however often it is polled |
| `TaskStream.TaskPusher.PollTasks` | crates/solana-gateway-task-processor/src/component.rs:228-275 | a poll accepts at most one task, yields the head of the queue if and only if it has finished, and ends the stream if and only if the channel is closed and nothing is queued |
| `TaskStream.TaskPusher.ProcessInternal` | crates/solana-gateway-task-processor/src/component.rs:226-286 | after any script a task's id is stored if and only if the task and all before it finished early enough for one yield a turn; stored ids are a prefix of the received ones; the stream ended if and only if the channel closed and all were out before the last turn |
| `TaskStream.Drains` | crates/solana-gateway-task-processor/src/component.rs:264-286 | once all tasks have finished the queue drains by one task a turn |
| `GatewaySession.Relayer.SendGatewayTx` | crates/solana-gateway-task-processor/src/component.rs:892-924 | Ok means the step is done on chain; without faults it is Ok exactly if the step was done or is accepted |
| `GatewaySession.Relayer.SendAll` | crates/solana-gateway-task-processor/src/component.rs:793-810 | a group in any completion order, stopping at the first failure with the rest landing or not; Ok means all landed |
| `GatewaySession.Relayer.GatewayTxTask` | crates/solana-gateway-task-processor/src/component.rs:763-857 | Ok means that initialisation, each signer's verification and each message's approval that can be built, and a requested rotation are done, and nothing else is ever done; verifications land only valid and in an initialised session, approvals and rotations only with a quorum verified; no verification starts before initialisation and no approval or rotation before every verification returned Ok; without faults it is Ok if and only if the task is completable, which includes that its data decode and its first and rotation instructions can be built |
| `GatewaySession.CompletableMonotone` | crates/solana-gateway-task-processor/src/component.rs:899-917 | progress of interrupted runs never makes a task uncompletable |
| `GatewaySession.CompletableBack` | crates/solana-gateway-task-processor/src/component.rs:763-857 | a task that is completable after interrupted runs was completable before them |
| `GatewaySession.CompletableUnfolds` | crates/solana-gateway-task-processor/src/component.rs:787-855 | completable, seen before the run, is that every verification and then every final step is done or accepted when its turn comes |
| `GatewaySession.VerifyAddsWeight` | crates/solana-gateway-task-processor/src/component.rs:793-810 | every verified signature adds its own weight once |
| `GatewaySession.Relayer.RunUntilUninterrupted` | crates/solana-gateway-task-processor/src/component.rs:763-857 | after any number of interrupted runs one without faults ends Ok if and only if an uninterrupted run would have, and in the same state, with every step of the task done |
| `PayloadUpload.ChunkAt` | crates/solana-gateway-task-processor/src/component/message_payload.rs:240-250 | chunks are non-empty, sit at index times size without saturation, and hold the payload's bytes |
| `PayloadUpload.ChunksPartition` | crates/solana-gateway-task-processor/src/component/message_payload.rs:240-250 | every byte of the payload is covered by exactly one chunk |
| `PayloadUpload.PartialReassembly` | crates/solana-gateway-task-processor/src/component/message_payload.rs:155-173 | after any writes in any order and with repetitions a position holds the payload's byte once a covering chunk was written, and its old byte before that |
| `PayloadUpload.Reassembly` | crates/solana-gateway-task-processor/src/component/message_payload.rs:155-173 | for every payload, chunk size and order with repetitions that covers all chunks, the buffer ends equal to the payload |
| `UploadSession.CompleteBuffer` | crates/solana-gateway-task-processor/src/component/message_payload.rs:199-203 | an account that holds every chunk holds the payload |
| `UploadSession.Uploader.WriteKeepsHeld` | crates/solana-gateway-task-processor/src/component/message_payload.rs:170-173 | a write never disturbs the chunks already held, nor a committed account |
| `UploadSession.Uploader.Write` | crates/solana-gateway-task-processor/src/component/message_payload.rs:174-204 | nothing is sent when a write cannot be built; else Ok exactly if no write failed, and then every write was acknowledged and the buffer is the payload |
| `UploadSession.Uploader.Upload` | crates/solana-gateway-task-processor/src/component/message_payload.rs:96-129 | commit is sent only after initialisation and every write reported Ok, a failed write means no commit, and a committed account always holds the payload; without faults the exact condition of success |
| `ExecuteTask.Executor.SendToDestination` | crates/solana-gateway-task-processor/src/component.rs:665-721 | the bundled call and close take effect together, exactly under the stated conditions, and only on the committed payload |
| `ExecuteTask.Executor.ExecuteWithEstimator` | crates/solana-gateway-task-processor/src/component.rs:552-637 | nothing is sent for an executed message, a refused destination or too little gas; the call lands only under a condition on the state and the environment before the attempt, and whenever it holds unless the upload is disturbed; each kind of refusal has its exact condition |
| `ExecuteTask.Executor.ProcessExecute` | crates/solana-gateway-task-processor/src/component.rs:350-464 | the destination is called at most once and with exactly the payload; which report is published, if any, is given by the state, the attempt and its faults before it: short gas, a transaction failed on chain, any other failure; a report for an executed message has its exact condition unless the upload is disturbed; without faults a report is published if and only if the message is not executed |
| `ExecuteTask.Executor.ProcessUntilFaultless` | crates/solana-gateway-task-processor/src/component.rs:350-464 | over any number of faulty attempts followed by one without faults the message is executed at most once and the last report tells the truth |
| `ExecuteTask.ReportsAnExecutedMessage` | crates/solana-gateway-task-processor/src/component.rs:418-461 | a concrete attempt that executes its message and reports it as reverted |
| `GasComputation.FetchSignatures` | crates/gateway-gas-computation/src/lib.rs:245-278 | paging until an empty page returns the whole history seen by the first call, newest first, for any page limit |
| `GasComputation.SumCountedPermutation` | crates/gateway-gas-computation/src/lib.rs:149-155 | the cost does not depend on the order in which fetches complete |
| `GasComputation.AccumulateCost` | crates/gateway-gas-computation/src/lib.rs:154-188 | the saturating loops compute the clamped exact sum of fee times number of counted instructions over successful transactions |
| `GasComputation.FetchAll` | crates/gateway-gas-computation/src/lib.rs:204-208 | the collected transactions are those of the signatures as a multiset, and it succeeds exactly if all can be fetched |
| `GasComputation.CostOfAddress` | crates/gateway-gas-computation/src/lib.rs:142-243 | the cost of an address is a function of the ledger alone, whatever the page limit and completion order; it fails only at a failed call or fetch |
| `GasComputation.ComputeTotalGas` | crates/gateway-gas-computation/src/lib.rs:44-140 | the total is the clamped sum of the transaction's fee and each instruction's contribution at the moment it was read; what it amounts to on the ledger is said in `GasProperties` for rotations, executions and batches of approvals |
| `EventForwarder.MappingKeepsConvertible` | crates/solana-event-forwarder/src/utils.rs:66-205 | exactly the convertible events survive, in order, and exactly three kinds carry the price |
| `EventForwarder.MappingConservesCost` | crates/solana-event-forwarder/src/utils.rs:43-60 | reported costs never exceed the total and miss less than one lamport per event when every event carries one; the empty list is no special case |
| `EventForwarder.EachCostIsAnEqualShare` | crates/solana-event-forwarder/src/utils.rs:43-60 | every reported cost is the rounded-down share of one event among all events of the transaction, also of those that carry no cost or do not convert |
| `EventForwarder.ForwardEvents` | crates/solana-event-forwarder/src/component.rs:47-84 | every received transaction yields one command with its own total over its own events, until a total or a parse fails |
| `GasProperties.CostIsSpentIff` | crates/gateway-gas-computation/src/lib.rs:154-241 | the accumulated cost is at least what was spent, and equal to it if and only if no transaction with a fee carries two counted instructions |
| `GasProperties.WholeSessionCost` | crates/gateway-gas-computation/src/lib.rs:142-189 | a verification session costs the fees of its initialisation and verifications, however many, in any order and whatever else touches its account |
| `GasProperties.WholeUploadCost` | crates/gateway-gas-computation/src/lib.rs:191-243 | an upload costs the fees of its initialisation, writes, commit and closure, however many, in any order and whatever else touches its account |
| `GasProperties.RotationTotal` | crates/gateway-gas-computation/src/lib.rs:82-99 | the total of a rotation is its fee plus the whole cost of its verification session, clamped, as the ledger was when read |
| `GasProperties.RotationTotalExactIff` | crates/gateway-gas-computation/src/lib.rs:82-99 | unless it saturates that is what was spent if and only if no paid transaction of the session is counted twice; on a ledger grown since it is at most what was spent by then |
| `GasProperties.RotationGas` | crates/gateway-gas-computation/src/lib.rs:44-140 | the computation run on a rotation answers with exactly that on a ledger that stands still, and with no more than was spent by its last call on a growing one |
| `GasProperties.ExecuteTotalExactIff` | crates/solana-gateway-task-processor/src/component.rs:711-719 | the total of an execute transaction is what was spent if and only if it is free or carries no payload instruction itself, and otherwise its fee is counted twice |
| `GasProperties.ExecuteFeeCountedTwice` | crates/solana-gateway-task-processor/src/component.rs:711-719 | a concrete execute-and-close transaction whose fee of 5000 is reported as 10000 |
| `GasProperties.CostGrows` | crates/gateway-gas-computation/src/lib.rs:142-189 | the cost of an address never shrinks as the ledger grows |
| `GasProperties.BatchNeverOverReports` | crates/gateway-gas-computation/src/lib.rs:60-81 | all reports of a batch together never exceed its approval fees plus the verification fees really spent, however approvals, events and reads are spread |
| `GasProperties.BatchShortfall` | crates/gateway-gas-computation/src/lib.rs:75-80 | what a fully reported batch misses of the fees really spent is below one lamport per message plus one per event |
| `GasProperties.ForwardBatch` | crates/solana-event-forwarder/src/component.rs:47-84 | the forwarder run over the approvals of a batch publishes no more than their fees plus what the verification session has cost by then |
| `GasProperties.PagersAgree` | crates/gateway-gas-computation/src/lib.rs:253-277 | on a ledger that stands still, un-reversing page by page what the scanner hands over with one page limit gives the list the gas pager returns with another; without failed calls both finish |
| `GasEstimator.FoldClosedForm` | crates/solana-gateway-task-processor/src/component/execution_cost_estimation.rs:354-361 | the saturating fold is the clamped sum and the count |
| `GasEstimator.PriceIsAnAverage` | crates/solana-gateway-task-processor/src/component/execution_cost_estimation.rs:336-370 | the price lies between the smallest and the largest of the last ten fees |
| `GasEstimator.PriceIsTheAverage` | crates/solana-gateway-task-processor/src/component/execution_cost_estimation.rs:336-370 | the price is the rounded-down average of the last ten fees, or of all if there are fewer, whatever came before them |
| `GasEstimator.CalculateCost` | crates/solana-gateway-task-processor/src/component/execution_cost_estimation.rs:59-108 | the cost of a breakdown is the clamped exact sum over its stages with accounts, and it fails exactly if one of those cannot be priced |
| `GasEstimator.CostMonotone` | crates/solana-gateway-task-processor/src/component/execution_cost_estimation.rs:59-108 | the cost is monotone in every stage's units and price |
| `GasEstimator.CostAtOnePrice` | crates/solana-gateway-task-processor/src/component/execution_cost_estimation.rs:59-108 | at one price for all the cost is 5000 lamports for every executed stage plus the price for every unit they used |
| `GasEstimator.DearerStage` | crates/solana-gateway-task-processor/src/component/execution_cost_estimation.rs:60-66 | one more lamport on one stage's price adds exactly its units |
| `GasEstimator.EstimateTotalExecuteCost` | crates/solana-gateway-task-processor/src/component/execution_cost_estimation.rs:120-203 | the broadcasts are the simulation of this payload in order, every stage is recorded in its place with one upload stage per chunk, and the fee is the clamped sum; it stops only at a failed broadcast |
| `GasEstimator.SimulationUploadsThePayload` | crates/solana-gateway-task-processor/src/component/execution_cost_estimation.rs:146-161 | the simulated writes are the upload's writes, and in any order they rebuild the payload |
| `EstimatorCache.RealGasEstimator.BeginCheck` | crates/solana-gateway-task-processor/src/component.rs:131-149 | a check takes its message's entry out of the cache before it waits |
| `EstimatorCache.RealGasEstimator.FinishCheck` | crates/solana-gateway-task-processor/src/component.rs:133-165 | gas suffices exactly if the estimated or repriced cost is known and at most the gas on offer; the breakdown is put back exactly when it does not suffice |
| `EstimatorCache.RealGasEstimator.EnsureEnoughGas` | crates/solana-gateway-task-processor/src/component.rs:120-166 | whatever checks of other messages begin and finish meanwhile: without an entry it passes exactly if the estimation succeeds and costs at most the gas on offer, with one exactly if its stages are priced and their clamped sum is; a shortage names that cost and keeps the breakdown |
| `EstimatorCache.MoreGasNeverRefuses` | crates/solana-gateway-task-processor/src/component.rs:152-163 | more gas never turns a pass into a refusal, and a shortage ends exactly when the cost it named is on offer |
| `EstimatorCache.CacheTracksInsufficient` | crates/solana-gateway-task-processor/src/component.rs:131-163 | over every interleaving of checks of different messages, the cache holds a message without a waiting check exactly if its last check lacked gas, with its last estimated breakdown; a waiting check holds that entry instead |
| `EstimatorCache.EstimatesIff` | crates/solana-gateway-task-processor/src/component.rs:131-149 | a check runs a full estimation if and only if the previous one for the message did not end with insufficient gas |
| `EstimatorCache.NoReestimationWhileInsufficient` | crates/solana-gateway-task-processor/src/component.rs:131-163 | while a message lacks gas its breakdown is reused, whatever checks of other messages run before, between or across |
| `Storage.DecodeEncode` | crates/file-based-storage/src/lib.rs:142-146 | every 128-bit id survives its byte encoding |
| `Storage.EncodeDecode` | crates/file-based-storage/src/lib.rs:91-93 | sixteen bytes survive being read as an id and written back |
| `Storage.IdAfterWith` | crates/file-based-storage/src/lib.rs:135-175 | an id read after a write is the one written if it is the same field, and the old one otherwise |
| `Storage.MemmapState.constructor` | crates/file-based-storage/src/lib.rs:53-84 | an absent or short file becomes all zero, any other is mapped as it is; the state can be viewed exactly if the file was not too long |
| `Storage.MemmapState.SetTaskItemId` | crates/file-based-storage/src/lib.rs:135-150 | writing one id replaces its sixteen bytes; that id reads back and no other field changes |
| `Storage.MemmapState.SetSignature` | crates/file-based-storage/src/lib.rs:104-115 | writing the signature replaces the last 64 bytes and leaves both ids alone |
| `Storage.RunOperations` | crates/file-based-storage/src/lib.rs:53-200 | over any sets, gets and reopens every getter answers with the last value set to its own field, or what the file held, or None if that is zero |
| `Storage.FreshFileIsEmpty` | crates/file-based-storage/src/lib.rs:30-38 | a fresh file reads as empty in every field |

## Left out

- RPC, WebSocket and HTTP transport, retry and backoff: replaced by environment answers that may fail.
- On-chain programs, PDA derivation, decoding, merkle proofs, signing, keccak, base58 and base64: foreign code; the gateway appears as the rules assumed above, races with other senders only as faults of single transactions.
- `MAX_CHUNK_SIZE`: any positive chunk size, because the computed one depends on a serialised transaction that is not visible.
- Index resolution in `fetch_transaction` and the fields of a fetched transaction beyond signature, slot, fee, outcome and instructions: copying.
- `GasComputation.CostOfAddress`: looks transactions up on the ledger its first page was read from, because a transaction does not change once it is on the ledger.
- `SolanaListener.Listener.StartUp`: does not cover a forced signature that the chain does not know yet and learns later, because the lower bound would move in the middle of a scan.
- `RealtimeSession.Session.PollMerged`: delivered items may be taken in any order, a superset of the merge order proved in `RoundRobin`; items whose signature does not parse are dropped as in the code.
- `ExecuteTask.Executor.ProcessExecute`: destination whitelist and relayer-key check are answers of the environment; the text fields of published events are not modelled, nor refund, verify and proof tasks.
- `Storage.RunOperations`: flush failures, lock poisoning and the memory mapping itself; the file is a byte array that survives reopening.
- Wakers and liveness: polls are steps, so only safety and bounded fairness are proved.
- The effective transaction sender, REST service, telemetry, configuration, `main.rs` and build scripts: plumbing.
