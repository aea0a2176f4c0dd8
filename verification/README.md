# A verified model of `nodes-common`

`nodes-common` is the library that a network's nodes use to talk to an EVM chain. This project
models its protocols in Dafny and proves what they promise, for every input, every run and every
interleaving of the parties involved:

- **Event stream** (`ChainLogs`, `Chunks`, `Backfill`, `BuildProtocol`, `Broadcast`, `Tracking`,
  `EventStream`, `EventStreamInvariant`, `EventStreamTheorems`, `LazyBackfill`, `CallRuns`,
  `CursorAhead`, `Restart`). A chain, a WS endpoint that pushes logs into a bounded overwriting ring,
  an HTTP endpoint that lags behind, the builder of the stream and a consumer that polls at any
  speed form one transition system. Its invariant says which part of the chain the items delivered
  so far account for; the guarantees of the stream follow from it, up to any number of restarts.
- **Transaction sender** (`TxSender`, `TxSenderInvariant`, `TxSenderTheorems`, `TxNonces`,
  `TxSenderTask`). Callers that submit, wait and give up, a bounded queue, and one worker whose
  `select!` is a free choice between ready branches. `TxNonces` adds the account's ledger,
  including broadcasts that time out and still arrive later. `TxSenderTask` holds the program as
  an object that is changed in place, and ties each of its methods to a step of the system.
- **Transports** (`Transport`, `TransportRace`). The retry combinator, a transport that turns JSON-RPC
  error bodies into errors before it retries, the race of all transports under every interleaving
  of their calls, and the polling for receipts.
- **ERC-165** (`Erc165`). The in-place XOR fold that makes interface identifiers, and the three
  checks that ask a contract (ERC-165, sections "How Interfaces are Identified" and "How to Detect
  if a Contract Implements ERC-165").
- **Health and shutdown** (`Services`, `Shutdown`). The list of started flags with its concurrent
  scan, and the watcher that maintains the shutdown token.

Code that changes state step by step is imperative here too: `Broadcast.Receiver`,
`TxSenderTask.Sender`, `Transport.RetryService`, `Services.StartedServices` are classes, and
`BuildProtocol.Build`, `BuildProtocol.BlockUntilCutoff` and `Erc165.InterfaceSelector` are loops.
Each is proved equal to a function or a transition, and the theorems are about those.

## What is taken for granted

- The chain has no reorganisations. Matching logs have distinct, increasing positions.
- The WS endpoint pushes every matching log of the blocks after its head at subscription time, in
  order; it may leave the block number of a log out, but not the index. Its head and the HTTP head
  never go back. newHeads reports blocks imported since it was opened; whether it also begins with
  the header of the head at that time is left open (`announcesHead`), and the results hold, and are
  exact, either way. The same endpoints serve all restarts.
- `eth_getLogs` is sorted and complete for ranges at or below the HTTP head; single logs in it may
  be malformed, any request may fail, and above the head the answer is arbitrary.
- The ring may hold more than `channel_size` logs (any capacity from there on).
- The combinators of the libraries do what they document: `retry` repeats while the error is retryable
  and a delay is left, the fallback layer answers with the first success or the last error, an
  `mpsc` queue and a `oneshot` lose nothing while both ends live.
- Nobody else sends from the account of the transaction sender, and a send that is answered with an
  error other than the timeout never reaches the node later. (The source's error also covers a
  connection that breaks after the node has accepted the broadcast.)
- Multicall3's `aggregate` reverts as a whole when one of its calls reverts.

## Where the code differs from its documentation

- `event_stream.rs:21-23` says that a genesis cursor returns the live stream; the code does so only
  when the chain id is not 31337 (`event_stream.rs:471`). `BuildProtocol.LiveOnlyIff` follows the code.
- `event_stream.rs:25` says that `confirmations_after_sync_block` headers are awaited; the code takes
  one more (`event_stream.rs:496`), and a header stream that ends early still yields a cutoff.
- The stream is meant to deliver only logs after the cursor. The live half compares with the cutoff
  alone (`event_stream.rs:544`). `CursorAhead.AlwaysAfterCursorIff` gives the exact condition, for every
  chain, state of the endpoints and configuration; it speaks of the moment of the call. For the cursor
  of a mined log (`CursorAhead.MinedCursorIff`) it says that the cursor's block is not above the least
  cutoff the WS endpoint can report; otherwise some run delivers a processed log again. Under the same
  condition, and under no weaker one, restarts compose (`Restart.RestartsComposeIff`).
- `tx_sender.rs:89-92` says that requests still queued at cancellation are dropped unsent. The
  `select!` may pick the queue as long as both branches are ready: every job queued in a cancelled sender
  may still be sent or be dropped (`TxSenderTheorems.QueuedMayGoEitherWay`), and
  `TxSenderTheorems.SendsAfterCancellation` shows a run that sends one.
  `TxSenderTheorems.NoMoreSendsIff` says when nothing is sent any more; cancellation is not part of it.
- `tx_sender.rs:3-4` says that nonce assignment never races. It does after a timeout, as the comment
  at `tx_sender.rs:114-117` admits. In terms of what callers were told: it does not race unless some send
  timed out and none has gone through since (`TxNonces.RacesNeedTimeout`), and as long as nothing adrift
  has arrived the next send can lose its nonce exactly then (`TxNonces.NextSendRacesIff`).
  `TxNonces.TimeoutRaces` shows a run.
- `all_started` answers for the moment it is called (`lib.rs:188-197`), but its loads are relaxed.
  `Services.ScanIsRightIff` says exactly which stale answers are wrong at every instant of the scan.
- A backfilled log without an index is an error (`event_stream.rs:622-624`); the live half does not look
  at the index (`event_stream.rs:540-553`) and would deliver such a log. It is not part of this model.
- `erc165.rs:163` says that `NotAContract` means that there is no deployed code. The batched checks also
  return it for a contract whose answers are not a bool (`erc165.rs:132-134`):
  `Erc165.BatchedErrors`, `Erc165.DeployedContractCalledMissing`.

## Model

| member | source | states |
|---|---|---|
| ChainLogs.CursorOrderIsNumeric | nodes-common/src/web3/event_stream.rs:88-165 | The derived order on cursors is the order of one number, it is total, and genesis is exactly the cursor that has nothing before it. |
| Chunks.BlockRangesPartition | nodes-common/src/web3/event_stream.rs:573-582 | For every start, end (u64::MAX included) and chunk size: non-empty adjacent ranges from start to end, all of the chunk size except possibly the last, none if start > end. |
| Chunks.BlockRangesEnumerate | nodes-common/src/web3/event_stream.rs:573-582 | Read in order, the ranges contain every block of start..=end exactly once. |
| Chunks.BlockRangesCount | nodes-common/src/web3/event_stream.rs:573-582 | The number of requests is the number of blocks divided by the chunk size, rounded up. |
| Backfill.CollectAfterKeeps | nodes-common/src/web3/event_stream.rs:602-626 | A chunk of well-formed logs is filtered to the logs strictly after the cursor, in order. |
| Backfill.CollectAfterFails | nodes-common/src/web3/event_stream.rs:602-626 | The first malformed log fails the whole chunk; a missing block number is reported before a missing index. |
| Backfill.FetchLogsExact | nodes-common/src/web3/event_stream.rs:584-615 | A chunk succeeds exactly when its request does and every log is well-formed, and then it is the chain's logs of its range after the cursor; a failed request is passed on with its code. |
| Backfill.BackfillAccounting | nodes-common/src/web3/event_stream.rs:523-538 | For any pattern of failures: one error for each failed chunk, none of its logs, and all logs of the other chunks in order. |
| Backfill.BackfillErrors | nodes-common/src/web3/event_stream.rs:584-626 | The errors of the backfill are the reasons of its failed chunks, in order: the transport error of the request, or what the first malformed log lacks. |
| Backfill.ChunksAddUp | nodes-common/src/web3/event_stream.rs:523-538 | Without failures the chunked backfill equals one request over [cursor.block, cutoff] filtered by the cursor. |
| Backfill.ChunkIndependence | nodes-common/src/web3/event_stream.rs:523-538 | Any two chunk sizes give the same stream of logs. |
| BuildProtocol.BlockUntilCutoff | nodes-common/src/web3/event_stream.rs:559-571 | The polling loop ends with the first reply that is an error or at or above the cutoff, or with the timeout; success means that the last reply had reached the cutoff. |
| BuildProtocol.FirstHeader | nodes-common/src/web3/event_stream.rs:492-505 | The cutoff is the first header once confirmations + 1 have arrived or the header stream has ended; otherwise the head cannot be fetched. |
| BuildProtocol.Build | nodes-common/src/web3/event_stream.rs:427-557 | The ordered steps return the outcome, and send the requests, that `BuildResult` gives for every schedule of replies. |
| BuildProtocol.DecidingIsFirst | nodes-common/src/web3/event_stream.rs:564-570 | The reply that decides the synchronization is the first one that is an error or has reached the cutoff, and there is none only if all replies are below it. |
| BuildProtocol.BackfillIffSynchronized | nodes-common/src/web3/event_stream.rs:489-521 | A backfilling stream is returned exactly when both subscriptions and the unsubscribe succeed, enough headers arrive, the cutoff is the first, and HTTP has reported a head at or above it before any error. |
| BuildProtocol.TimeoutsIff | nodes-common/src/web3/event_stream.rs:492-521 | `CannotFetchHead` is returned exactly when the subscriptions were fine but too few headers arrived; the sync timeout exactly when there was a cutoff and every HTTP head stayed below it. |
| BuildProtocol.TransportErrorIff | nodes-common/src/web3/event_stream.rs:449-521 | A transport error is returned exactly with the code of the first failing reply in the order of the requests; a failed unsubscribe comes before missing headers. |
| BuildProtocol.LiveOnlyIff | nodes-common/src/web3/event_stream.rs:469-477 | The live stream alone is returned exactly for a skipped backfill, or a genesis cursor on a chain other than Anvil; newHeads is then never subscribed. |
| BuildProtocol.UnsubscribesExactlyOnce | nodes-common/src/web3/event_stream.rs:485-512 | On every path, timeouts and errors included, an open newHeads subscription is closed by exactly one request, and the log subscription precedes it. |
| BuildProtocol.RequestedIff | nodes-common/src/web3/event_stream.rs:449-489 | Each subscription is requested, once, exactly when everything before it succeeded and, for newHeads, history is wanted. |
| BuildProtocol.PollsSent | nodes-common/src/web3/event_stream.rs:507-521 | HTTP is polled only once newHeads is closed and the cutoff is known, and exactly up to the deciding reply. |
| Broadcast.PushRepresents | nodes-common/src/web3/event_stream.rs:451-467 | Pushing into the bounded ring is appending to the unbounded history it stands for. |
| Broadcast.RecvRepresents | nodes-common/src/web3/event_stream.rs:461-467 | Receiving is reading the history, except that a receiver more than the capacity behind is told so and continues with the oldest log kept. |
| Broadcast.Receiver.Send | nodes-common/src/web3/event_stream.rs:451-459 | The subscription's push updates the channel in place as `Push` says. |
| Broadcast.Receiver.Receive | nodes-common/src/web3/event_stream.rs:461-467 | A poll advances the receiver in place and returns what `Recv` says. |
| EventStreamInvariant.InvStep | nodes-common/src/web3/event_stream.rs:427-557 | Every step of the chain, the endpoints, the builder and the consumer keeps the invariant: heads are ordered, the ring carries the chain from the subscription on, and the items delivered account for one contiguous part of the chain. |
| EventStreamInvariant.ReachableInv | nodes-common/src/web3/event_stream.rs:427-557 | The invariant holds in every reachable state. |
| EventStreamTheorems.ExactlyOnceHandover | nodes-common/src/web3/event_stream.rs:451-555 | For every interleaving with cursor.block <= cutoff, the logs delivered before the first error are a prefix of all matching logs strictly after the cursor. |
| EventStreamTheorems.NoSilentLoss | nodes-common/src/web3/event_stream.rs:540-553 | Over the whole stream, errors included: delivered positions strictly increase, and two logs with no error between them are neighbours in the chain. |
| EventStreamTheorems.CompleteWhenCaughtUp | nodes-common/src/web3/event_stream.rs:523-555 | When the backfill is through and the receiver has caught up, an error-free stream has delivered every log after the cursor up to the WS head. |
| EventStreamTheorems.LiveOnlyFromSubscription | nodes-common/src/web3/event_stream.rs:461-477 | A stream without backfill accounts for exactly the logs since its subscription, and exists only for a skipped backfill or a genesis cursor. |
| EventStreamTheorems.StreamsOnlyWhenSynchronized | nodes-common/src/web3/event_stream.rs:489-521 | In every reachable state with a backfilling stream the cutoff is the first header, lies at or above the head at subscription time, and HTTP has reported it. |
| EventStreamTheorems.BuilderAdvances | nodes-common/src/web3/event_stream.rs:449-521 | In the interleaved system the builder stays where it is exactly while it needs headers or HTTP is below the cutoff, and fails exactly on a failing reply, the sync timeout, or without a cutoff. |
| EventStreamTheorems.OutcomeIsBuildResult | nodes-common/src/web3/event_stream.rs:427-557 | Whenever the builder has ended in the interleaved system, its outcome is that of `BuildResult` for what it has heard. |
| EventStreamTheorems.ReceiveYields | nodes-common/src/web3/event_stream.rs:461-467 | What every receive yields: the lagging error behind the capacity, else the next log of the subscription, dropped up to the cutoff, an error without a block number that has to be compared, and passed on otherwise. |
| EventStreamTheorems.UndisturbedHasNoErrors | nodes-common/src/web3/event_stream.rs:461-553 | A run in which the consumer keeps up, chunks arrive well-formed and compared logs have numbers yields no error; a stream without backfill has then passed on every log it received. |
| EventStreamTheorems.ConsumerNeverStuck | nodes-common/src/web3/event_stream.rs:523-555 | A poll of the stream always has a step: yield a fetched log, request the next chunk, or receive when the ring has something to say. |
| EventStreamTheorems.CloseIsFinal | nodes-common/src/web3/event_stream.rs:461-467 | After the end of the subscription nothing more is pushed, in any run. |
| EventStreamTheorems.KeepingUpNeverLags | nodes-common/src/web3/event_stream.rs:461-467 | A consumer whose backlog never exceeds the capacity never sees the lagging error, in any run. |
| LazyBackfill.LazyIsEager | nodes-common/src/web3/event_stream.rs:523-538 | In every interleaving the requests sent are the first ranges of the partition, and the items yielded, with the logs still buffered, are what the eager backfill makes of the replies. |
| LazyBackfill.BackfillErrorAccounting | nodes-common/src/web3/event_stream.rs:523-538 | After the backfill of any run, its items hold one error for each failed chunk and the logs after the cursor of all other chunks, in order. |
| Restart.CursorMoves | nodes-common/src/web3/event_stream.rs:88-165 | The position of the last delivered log, taken as the next cursor, is strictly later and stands directly before the first log not yet delivered. |
| Restart.RestartComposition | nodes-common/src/web3/event_stream.rs:471-555 | Over any number of runs that end at their first error or by a crash after any log, each resumed at the last delivered position with any configuration that backfills, everything processed is a gap-free, duplicate-free prefix of the logs after a first cursor that the first call covers. |
| Restart.RestartsComposeIff | nodes-common/src/web3/event_stream.rs:471-555 | The condition on the first cursor is exact: restarts compose in all runs if and only if it holds. |
| CallRuns.CoveredCallDeliversAfter | nodes-common/src/web3/event_stream.rs:427-557 | For a cursor that every cutoff the call can get covers, every run of the call keeps to the logs after the cursor. |
| CursorAhead.DeliversProcessed | nodes-common/src/web3/event_stream.rs:540-553 | From any chain with a log at or before the cursor beyond the least cutoff, with any configuration, some run of the call delivers such a log first. |
| CursorAhead.UncoveredCallGoesAstray | nodes-common/src/web3/event_stream.rs:427-557 | For every other cursor, state of the endpoints and configuration, some run of the call does not deliver a prefix of the logs after the cursor. |
| CursorAhead.AlwaysAfterCursorIff | nodes-common/src/web3/event_stream.rs:540-553 | For every call that asks for history, all its runs keep strictly after the cursor if and only if the cursor's block is not above the least cutoff, or the chain has passed it and has no log at or before the cursor above that cutoff. |
| CursorAhead.MinedCursorIff | nodes-common/src/web3/event_stream.rs:540-553 | For the cursor of a mined log: if and only if its block is not above the least block newHeads can report. |
| TxSenderInvariant.InvStep | nodes-common/src/web3/tx_sender.rs:99-159 | Every step of callers, token holders and worker keeps each accepted job in exactly one place, in order, and each submit accounted for. |
| TxSenderTheorems.SerialFifo | nodes-common/src/web3/tx_sender.rs:104-136 | The broadcasts are always a prefix of the jobs in acceptance order, none twice, at most one in flight, and the queue keeps to its size. |
| TxSenderTheorems.Conservation | nodes-common/src/web3/tx_sender.rs:104-138 | Accepted jobs are the replied, the one in flight, the queued and the dropped ones, in this order, without repetition. |
| TxSenderTheorems.AtMostOneAnswer | nodes-common/src/web3/tx_sender.rs:149-159 | No submit can be told two different outcomes. |
| TxSenderTheorems.AnswersStay | nodes-common/src/web3/tx_sender.rs:149-159 | An outcome is never taken back. |
| TxSenderTheorems.TaskStoppedNeverBroadcast | nodes-common/src/web3/tx_sender.rs:153-158 | A submit that ends in `TaskStopped` was never broadcast. |
| TxSenderTheorems.EveryAwaitedSubmitResolves | nodes-common/src/web3/tx_sender.rs:149-159 | After the worker has stopped, every submit that is still awaited has an outcome, or waits at the closed queue, where rejection is its only step. |
| TxSenderTheorems.AbandonedNeverAccepted | nodes-common/src/web3/tx_sender.rs:149-158 | A caller that gives up before the queue has accepted its request takes it along: in no continuation is it accepted or broadcast. |
| TxSenderTheorems.HandlesCounted | nodes-common/src/web3/tx_sender.rs:75-80 | The live handles are those cloned less those dropped, so the channel closes with the last one. |
| TxSenderTheorems.OnlyCancellationLoses | nodes-common/src/web3/tx_sender.rs:104-138 | In runs in which nobody cancels, the worker runs until the last handle is gone and the queue is empty, nothing is dropped, and no caller is told `TaskStopped`. |
| TxSenderTheorems.TerminatesWithoutHandles | nodes-common/src/web3/tx_sender.rs:104-138 | Without handles the worker stops within one turn per queued job and one more, whatever `select!` picks, spends at most one send timeout per queued or sending job, and leaves the token cancelled. |
| TxSenderTheorems.QueuedMayGoEitherWay | nodes-common/src/web3/tx_sender.rs:107-135 | In every reachable state each queued job, at any place, may yet be broadcast, cancelled token or not; with a cancelled token it may also be dropped unsent. |
| TxSenderTheorems.SendsAfterCancellation | nodes-common/src/web3/tx_sender.rs:88-92 | A run that broadcasts a job which was queued when the token was cancelled. |
| TxSenderTheorems.NoMoreSendsIff | nodes-common/src/web3/tx_sender.rs:107-135 | Nothing will be broadcast any more if and only if the worker has stopped or there is neither a queued job nor a handle; cancellation alone does not matter. |
| TxNonces.NoncesConsecutive | nodes-common/src/web3.rs:359-370 | In every run, timeouts and late arrivals included, the node accepts transactions in submission order; that their nonces are consecutive is the node's rule. |
| TxNonces.NoTimeoutNoRace | nodes-common/src/web3/tx_sender.rs:114-129 | In runs without timeouts the nonce in flight is always the expected one, and what the node accepted is exactly what callers were told, numbered consecutively whatever sends failed between. |
| TxNonces.LandsAtMostOnce | nodes-common/src/web3/tx_sender.rs:114-117 | In no run is a transaction that the node has accepted still adrift. |
| TxNonces.RacesNeedTimeout | nodes-common/src/web3/tx_sender.rs:114-129 | In every run: unless some caller was told of a timeout and none since of a success, the nonce in flight is the expected one and no broadcast adrift can take the next one. |
| TxNonces.AdriftIffTimedOut | nodes-common/src/web3/tx_sender.rs:114-117 | As long as nothing adrift has arrived, a broadcast with the account's next nonce is adrift exactly when a send timed out and none has gone through since. |
| TxNonces.NextSendRacesIff | nodes-common/src/web3/tx_sender.rs:114-117 | After such a run the next send can lose its nonce if and only if a send timed out and none has gone through since. |
| TxNonces.TimeoutRaces | nodes-common/src/web3/tx_sender.rs:114-117 | Such a race happens in a run of two jobs. |
| TxSenderTask.Sender.Spawn | nodes-common/src/web3/tx_sender.rs:99-138 | The new sender is the initial state: one handle, an empty queue, a running worker. |
| TxSenderTask.Sender.Submit | nodes-common/src/web3/tx_sender.rs:149-156 | A call of submit is a step of the system. |
| TxSenderTask.Sender.Admit | nodes-common/src/web3/tx_sender.rs:154-157 | A waiting submit is rejected by a closed queue with `TaskStopped`, queued when there is room, and otherwise goes on waiting. |
| TxSenderTask.Sender.Select | nodes-common/src/web3/tx_sender.rs:107-135 | One turn of `select!` takes the oldest job or stops; with both branches ready the preference decides, and stopping drops the queue and cancels the token. |
| TxSenderTask.Sender.Reply | nodes-common/src/web3/tx_sender.rs:118-129 | The caller is answered with the hash, the RPC's error or a timeout, and the worker is free again. |
| TxSenderTask.Sender.Work | nodes-common/src/web3/tx_sender.rs:105-137 | Under any scheduler the loop does exactly what the ticks make possible, in their order, and its effect on the shared state is a run of the transition system. |
| TxSenderTask.EveryRunIsScheduled | nodes-common/src/web3/tx_sender.rs:105-137 | Conversely, every run of the transition system up to the worker's end is what some scheduler makes of the loop. |
| Transport.ParseError | nodes-common/src/web3.rs:580-590 | A reply stays a success exactly when no payload of it is an error; otherwise it becomes an error that the packet carries. |
| Transport.FirstFailureIsFirst | nodes-common/src/web3.rs:580-590 | A batch is judged by its first error payload. |
| Transport.RetryStopsFirst | nodes-common/src/web3.rs:545-568 | A retry loop makes at most n + 1 calls and returns the outcome of its last one, which is the first that is Ok, not retryable or out of budget. |
| Transport.RetryReturnsFirstStop | nodes-common/src/web3.rs:545-568 | Conversely, the first such outcome of any stream is what the loop returns, after exactly that many calls. |
| Transport.HintsNeverChangeAttempts | nodes-common/src/web3.rs:561-565 | Neither hints nor the lengths of the delays change the number of calls or the result. |
| Transport.SleepsFollowHints | nodes-common/src/web3.rs:561-565 | Between two calls the loop sleeps once: the hint of the failed call, else the delay whose turn it is. |
| Transport.RetryService.CallAndParseError | nodes-common/src/web3.rs:580-590 | One request to the endpoint, whose error body becomes an error. |
| Transport.RetryService.Call | nodes-common/src/web3.rs:545-568 | The loop over the mutable service returns the result, sleeps and makes the number of requests that `Retry` gives. |
| Transport.NoErrorBodyEscapes | nodes-common/src/web3.rs:545-590 | What a retrying transport returns as success is a reply of the endpoint without any error payload. |
| Transport.RetriesExactlyTransientFailures | nodes-common/src/web3.rs:223-242 | A call is repeated exactly after failures that the rate-limit policy retries, or 403, 408, 502, 504 and client timeouts, until the budget is spent. |
| Transport.RetriedStatuses | nodes-common/src/web3.rs:223-242 | Of the replies that the rate-limit policy does not retry, exactly 403, 408, 502, 504 and client timeouts are followed by another call. |
| Transport.RateLimitsAreRetried | nodes-common/src/web3.rs:223-242 | Whatever the rate-limit policy retries is followed by another call, error bodies included. |
| Transport.SleepsFollowRateLimitHints | nodes-common/src/web3.rs:223-242 | Widening the rate-limit policy by transient HTTP errors keeps its hints: they set the sleeps of the transport. |
| Transport.ReceiptIsFirstOk | nodes-common/src/web3.rs:661-689 | The receipt is the first success among the first n + 2 tries, else the error of the last of them. |
| Transport.ReceiptIffSomeTrySucceeds | nodes-common/src/web3.rs:649-689 | Polling succeeds exactly when one of the n + 2 tries does; with the default builder the error is that of the twelfth. |
| TransportRace.InvStep | nodes-common/src/web3.rs:196-221 | Every interleaved call keeps each transport on its own retry loop and the race without a success until it has an answer. |
| TransportRace.RaceEnds | nodes-common/src/web3.rs:196-221 | Every race makes at most max_times + 1 calls per transport and is never stuck before it has an answer. |
| TransportRace.RaceRefinesFallback | nodes-common/src/web3.rs:216-220 | Whatever the interleaving, the answer is the first success in completion order, or the last error after all transports have failed. |
| TransportRace.StackSucceedsIffSomeTransportDoes | nodes-common/src/web3.rs:196-221 | An answered request succeeded if and only if the retry loop of at least one transport succeeds. |
| TransportRace.ErrorBodyNeverWins | nodes-common/src/web3.rs:216-220 | A successful answer was given by some endpoint and carries no error payload, however fast the endpoints with error bodies are. |
| Erc165.InterfaceSelector | nodes-common/src/web3/erc165.rs:83-90 | The in-place, byte-wise loop computes the XOR of the selectors. |
| Erc165.ConcatIsXor | nodes-common/src/web3/erc165.rs:83-90 | The identifier of a concatenation is the XOR of the identifiers. |
| Erc165.SingletonId | nodes-common/src/web3/erc165.rs:83-90 | An interface of one function is identified by its selector; with `ConcatIsXor` this determines every identifier. |
| Erc165.ParityDeterminesId | nodes-common/src/web3/erc165.rs:83-90 | Two lists in which every selector occurs equally often modulo two have the same identifier. |
| Erc165.OrderIsIrrelevant | nodes-common/src/web3/erc165.rs:83-90 | Permuting the selectors does not change the identifier. |
| Erc165.IdIsXorOfOddOnes | nodes-common/src/web3/erc165.rs:83-90 | The identifier is the XOR of exactly the selectors that occur an odd number of times, each taken once. |
| Erc165.RepeatingChangesId | nodes-common/src/web3/erc165.rs:83-90 | Repeating a selector changes the identifier unless the selector is zero. |
| Erc165.CheckedIsConformAndUnchecked | nodes-common/src/web3/erc165.rs:236-262 | The full check is Ok exactly when the conformance check and the unchecked query are, for every contract and node state. |
| Erc165.ConformIff | nodes-common/src/web3/erc165.rs:168-187 | A contract conforms exactly when it affirms ERC-165 and denies the invalid interface, asked through a working Multicall3. |
| Erc165.InvalidInterfaceNeverSupported | nodes-common/src/web3/erc165.rs:236-262 | No list of selectors that XORs to 0xffffffff passes the full check, whatever the contract claims, although it can pass the unchecked query. |
| Erc165.BatchedErrors | nodes-common/src/web3/erc165.rs:130-144 | A batched check reports a transport error exactly when the node is unreachable, and a missing contract exactly when Multicall3 is missing or no call reverts and some data does not decode. |
| Erc165.UncheckedOutcomes | nodes-common/src/web3/erc165.rs:207-219 | What the unchecked query returns for every node and contract: success, transport error, missing contract and no support each exactly when they apply. |
| Erc165.ErrorMappings | nodes-common/src/web3/erc165.rs:99-144 | On every error of the library, a lost connection is passed on, missing data means a missing contract, and everything else no support. |
| Erc165.NoCodeIsReported | nodes-common/src/web3/erc165.rs:99-112 | All checks name an address without code; the unchecked query names it exactly when the call returns nothing. |
| Erc165.DeployedContractCalledMissing | nodes-common/src/web3/erc165.rs:130-134 | A deployed contract that answers with data other than a bool is called missing by the batched checks and unsupported by the unchecked query. |
| Services.StartedServices.NewService | nodes-common/src/lib.rs:179-186 | Registering adds a fresh flag that is not set, behind all others, and changes none of them. |
| Services.StartedServices.AllStarted | nodes-common/src/lib.rs:191-197 | Undisturbed, the short-circuiting scan tells whether every registered service has started; without services it says yes. |
| Services.NewServiceHoldsBack | nodes-common/src/lib.rs:179-197 | A new service counts as not started until its flag is set, and then at once as started. |
| Services.YesIsTrueOnReturn | nodes-common/src/lib.rs:191-197 | As long as flags are only set, a scan that says yes is right at the instant it returns, even if its relaxed loads are stale. |
| Services.NoWasTrueOnce | nodes-common/src/lib.rs:191-197 | A scan with fresh loads that says no was right at the instant of its last load. |
| Services.ScanIsLinearizable | nodes-common/src/lib.rs:191-197 | With concurrent registrations and stores, the answer of a scan is the truth at some instant while it holds the lock. |
| Services.ScanIsRightIff | nodes-common/src/lib.rs:191-197 | With relaxed loads that may be stale, a scan's answer is the truth at some instant if and only if none of its loads was stale or some service had not started when it got the lock. |
| Services.TakenBackOrStale | nodes-common/src/lib.rs:191-197 | Neither condition can be dropped: runs in which a flag is taken back, or a load is stale, have a wrong answer at every instant. |
| Shutdown.TokenAndFlagAgree | nodes-common/src/lib.rs:203-224 | In every reachable state an ended watcher has cancelled the token; a token that nobody else cancelled shows a graceful flag that is already set; the flag is set only after the signal. |
| Shutdown.SignalMayLose | nodes-common/src/lib.rs:212-220 | When signal and cancellation are both there, the watcher may end without the graceful flag. |

## Left out

- Reorganisations of the chain: the code does not handle them.
- Decoding of logs, filters by address and topic, wallets, signers, gas and chain id fillers: foreign code. The chain of the model holds the matching logs only.
- Wall-clock time: timeouts are choices of the schedule, and delays of the backoff are arbitrary numbers. Only attempt counts and the bound by `send_timeout` are stated.
- Services.ScanIsLinearizable: needs loads that are not stale, because the loads are relaxed; `Services.ScanIsRightIff` is the exact statement for all loads.
- Live logs without an index: see above; a consumer could not resume after one.
- The transition systems of the event stream, the sender, the race and the scan are values with one step per atomic action; memory-level interleaving inside one action is not modelled.
- Panics, such as a stack built over no transport or a poisoned lock, and aborted worker tasks of the sender: the code ends there.
- Builder setters, configuration defaults and URL redaction: one assignment or one constant each.
- `postgres.rs`, `api.rs`, `middleware/unkey.rs`, `Environment`, test utilities: thin wrappers and finite case distinctions.
