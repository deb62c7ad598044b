# Verified models of the jet TPU client and its landing tracker

This project models the stateful parts of the repository in Dafny and proves what they promise.

* **The TPU sender driver** (`DriverState`, `DriverInvariant`, `DriverSteps`, `DriverClosing`, `DriverLoops`,
  `DriverDrains`, `DriverLedger`, `DriverRuns`, `DriverPending`, `DriverTheorems`, `DriverStranding`, `DriverAsking`,
  `DriverEffects`, `DriverArrivals`, `DriverOrigins`, `DriverRetries`, `TpuSenderDriver`, `TxSenderWorker`,
  `EvictionStrategy`): an event loop over a dozen maps that must agree. `TpuSenderDriver.dfy` holds
  the driver as a class with the source's fields; each handler is proved equal to a function of `DriverState` on the old
  state and keeps one invariant. `DriverRuns` interleaves all handlers with the steps of the workers, those of an old
  identity included, and `DriverTheorems` states what holds in every reachable state. `DriverEffects`, `DriverArrivals`,
  `DriverOrigins` and `DriverRetries` say what each event brings about, peer by peer. The three index sets of the driver
  (`OrphanConnectionSet`, `ConnectionEvictionSet`, `StakedSortedSet`) are verified classes the driver uses.
* **The landing tracker and the retry scheduler** (`RetryScheduler`, `RootedTransactions`, `BlockhashQueue`,
  `SlotTracking`, `Commitment`).
* **The leader schedule and contact info** (`LeaderSchedule`, `ContactInfo`).
* **Identity synchronisation** (`IdentitySync`): the barrier protocol as a state machine over its steps.

Addresses, stakes, send and connect results, RPC answers and the iteration order of hash maps are parameters: every
statement holds for all of them. So are clock readings, except that `RetryScheduling.SteadyTicksLeaveNoneDue` is about
runs whose clock does not go back, and says so. The statements about resend passes ask for a positive retry rate, because
the runtime refuses an interval of zero. A response to the callback carries the attempt number in the model, which the
source logs but does not report.

Where the code differs from what its comments suggest, the model follows the code:

* The connection versions are described as a means to assert that no worker or connection is orphaned. The model
  shows that the mismatch branches cannot be reached at all (`DriverTheorems.FinishedWorkerMatches`).
* An identity update is described as a graceful drop, but only queues of peers that have a worker are drained, and
  such peers have none: all waiting queues are discarded without a response. `DriverTheorems.LostExactly` says when
  every accepted transaction is accounted for, and `DriverTheorems.IdentityUpdateLosesTransaction` is a run that loses
  one.
* A transaction can be accepted for an address with a pending eviction and then wait with no connection attempt under
  way, also after the eviction is over. `DriverStranding.StrandedExactly` says exactly which events do this, and
  `DriverStranding.StrandingHappens` is a run.
* A landing notification stops resending only at exactly the configured commitment level: without one a transaction
  is resent until it is given up (`RetryScheduling.StaysInPool`).
* A tick carries the time it was scheduled for. When an arrival is taken before it, a resend pass can leave due
  transactions behind (`RetryScheduling.LateTickLeavesDue`); `RetryScheduling.PassLeavesNoneDue` has the exact condition.
* A signature that is received in two slots can be reported with a level the lookup does not return
  (`RootedTransactions.TwoSlotsDisagree`; exactly when: `RootedTransactions.ToldExactly`), and pruning one slot forgets
  it (`RootedTransactions.PruningForgets`).
* The fanout over a slot range visits every leader window exactly under the condition of
  `LeaderSchedule.FanoutVisitsAllWindows`.
* A response that repeats a key can leave the map different from the response; `ContactInfo.RepeatedKeys` says exactly
  when.

## Model

| member | source | states |
|---|---|---|
| DriverTheorems.WorkersMatchConnections | crates/tpu-client/src/core.rs:2019-2125 | in every reachable state a worker handle (address, version) exists for a peer if and only if that connection is established in that version and lists the peer |
| DriverTheorems.FinishedWorkerMatches | crates/tpu-client/src/core.rs:2482-2533 | a worker that ends still has its handle, and its connection still has the handle's version: the missing-handle and version-mismatch branches are dead |
| DriverTheorems.TasksAndVersionsAreUnique | crates/tpu-client/src/core.rs:2291-2308 | no two peers share a worker task and one version is never used for two addresses |
| DriverTheorems.ConnectingIndexesAgree | crates/tpu-client/src/core.rs:1670-1831 | the three indexes of connection attempts are mutual inverses without duplicate peers, disjoint from workers and connections; attempts carry the current identity and an allowed attempt number |
| DriverTheorems.WaitersAreLive | crates/tpu-client/src/core.rs:1740-1760 | blocked waiters have distinct addresses and a live, still parked connecting task each, and no other task is parked |
| DriverTheorems.PendingIsLive | crates/tpu-client/src/core.rs:1979-1985 | a pending eviction is a live connection that still has workers |
| DriverTheorems.EvictionIsClosed | crates/tpu-client/src/core.rs:1963-2006 | for any eviction plan, a peer being evicted has a stopped worker on a pending connection and all peers of that connection are being evicted |
| DriverTheorems.NoWorkerJoinsPending | crates/tpu-client/src/core.rs:1717-1732 | in one event no worker joins a connection that is and stays pending |
| DriverTheorems.OrphansHaveNoWorkers | crates/tpu-client/src/core.rs:2459-2475 | the orphan set is exactly the connections without workers |
| DriverTheorems.SweepClosesIdleConnections | crates/tpu-client/src/core.rs:2908-2955 | the sweep closes exactly the connections that have been orphans for the whole time to live, none with a worker, and lets one waiter go per closed connection |
| DriverTheorems.QueuesAreBounded | crates/tpu-client/src/core.rs:1871-1896 | waiting queues and channels stay within capacity, hold only their peer's transactions, and a peer with a worker has no waiting queue |
| DriverTheorems.StakeIndexesAgree | crates/tpu-client/src/core.rs:2096-2116 | the address index holds the sum of the peers' stakes of every connection, and the peer index exactly the peers with workers |
| DriverTheorems.TransactionsAreConserved | crates/tpu-client/src/core.rs:2325-2386 | accepted transactions equal, as a multiset, those queued, held by workers of the current or an old identity, reported, and discarded with a waiting queue by an identity update |
| DriverTheorems.LostExactly | crates/tpu-client/src/core.rs:2631-2691 | every accepted transaction is queued, held or reported if and only if no identity update so far found a waiting queue |
| DriverTheorems.EachTransactionIsReportedOnce | crates/tpu-client/src/core.rs:1836-1896 | without an identity update every accepted transaction is queued, with a worker, or reported, as often as it was accepted |
| DriverTheorems.ResponsesAreRouted | crates/tpu-client/src/core.rs:979-1024 | a response names the peer of its transactions, a failure is reported only for the last allowed attempt, and a drop is empty only when a worker of an old identity ends with nothing left |
| DriverTheorems.SendCallsAreBounded | crates/tpu-client/src/core.rs:996-1024 | across worker deaths, rescues and identity updates, counting the workers that are drained, a transaction causes at most the configured number of send calls per acceptance |
| DriverTheorems.AttemptCountsSends | crates/tpu-client/src/core.rs:2548-2553 | an entry that waits, or that a worker of any identity holds, of a transaction accepted once has made exactly the send calls before its attempt number |
| DriverTheorems.IdentityUpdateLosesWaitingQueues | crates/tpu-client/src/core.rs:2631-2691 | the drain of an identity update takes over exactly what workers hold; all waiting queues are discarded, and nothing is if and only if there are none |
| DriverTheorems.DiscardedQueuesStay | crates/tpu-client/src/core.rs:2631-2691 | whatever happens after an identity update, the waiting queues of that moment stay with its drain: they are never sent or reported |
| DriverTheorems.IdentityUpdateLosesTransaction | crates/tpu-client/src/core.rs:2715-2766 | a run in which an accepted transaction ends in no queue, with no worker and in no response |
| DriverStranding.StrandedExactly | crates/tpu-client/src/core.rs:1717-1722 | in any reachable state a peer comes to wait without a worker or an attempt in exactly the events that ask for an address with a pending eviction while something waits for it |
| DriverStranding.StrandedStays | crates/tpu-client/src/core.rs:1717-1722 | such a peer keeps waiting, with its queue unchanged, until it gets another transaction, is predicted, or the identity changes; the end of the eviction does not help |
| DriverStranding.RunConnects | crates/tpu-client/src/core.rs:1717-1722 | in a run every waiting peer has an attempt under way at all times if and only if no event strands anybody |
| DriverStranding.StrandingHappens | crates/tpu-client/src/core.rs:1717-1722 | a reachable state with a stranded peer |
| DriverEffects.EvictionRound | crates/tpu-client/src/core.rs:1916-2006 | when more attempts wait than evictions are pending, one round makes exactly the connections of the planned peers pending, marks exactly the peers on them as being evicted and stops exactly their workers; otherwise nothing changes |
| DriverEffects.PlannedAreEvicted | crates/tpu-client/src/core.rs:1963-2006 | a planned peer with a worker has its connection pending after the round, and every peer on it is marked and its worker stopped |
| DriverEffects.LeastStakedIsEvicted | crates/tpu-client/src/core.rs:1945-1961 | with nothing planned and nothing pending the least staked connection is evicted in the same way, and nothing happens if it has no worker |
| DriverEffects.AddressChangeExactly | crates/tpu-client/src/core.rs:2820-2857 | exactly the workers of changed peers that are now elsewhere or nowhere are stopped, and exactly the connections of those that are nowhere become pending |
| DriverEffects.FailureIsRetried | crates/tpu-client/src/core.rs:2221-2246 | for each peer of a failed attempt with attempts left: given up, refused, served, joined to an attempt under way or dialled again, by its address and the state before |
| DriverEffects.FailureIsCounted | crates/tpu-client/src/core.rs:2233-2245 | an attempt that a failure starts has the next number if its first peer stays at its address and number 1 otherwise, and other attempts keep theirs |
| DriverEffects.LastFailureGivesUp | crates/tpu-client/src/core.rs:2247-2254 | with no attempts left, or after another failure, every peer of the attempt is given up and its whole queue reported |
| DriverRetries.FailuresAreCounted | crates/tpu-client/src/core.rs:2213-2246 | over a run with failures in a row at an unchanged address the attempt number grows by one with each, across identity updates, and nothing waiting for the peer is dropped |
| DriverRetries.GivesUpExactly | crates/tpu-client/src/core.rs:2213-2254 | one more failure in a row gives the peer up, with its whole queue reported as unreachable, if and only if the number has reached the maximum |
| DriverEffects.ConnectedServesAll | crates/tpu-client/src/core.rs:2019-2125 | an established connection gives each of the attempt's peers a worker over its new version, which holds the peer's whole queue |
| DriverEffects.IdentityUpdateReplays | crates/tpu-client/src/core.rs:2743-2753 | a peer has an attempt after an identity update if and only if it had one before and its address is known; the attempt goes there under the new identity with the number of an old attempt of a peer at that address, its own where it is alone |
| DriverEffects.PredictionAsks | crates/tpu-client/src/core.rs:2859-2901 | exactly the predicted leaders without worker and attempt are asked for, with a first attempt |
| DriverAsking.SpawnAsks | crates/tpu-client/src/core.rs:1670-1831 | asking for a peer leaves it given up, refused, served with its queue, or dialled, by its address; a new attempt waits if and only if all connections are taken; nobody else is concerned |
| DriverAsking.AskedTrans | crates/tpu-client/src/core.rs:1670-1831 | asking for several peers one after the other is asking for all of them: no one undoes the outcome of another |
| DriverEffects.SweepReleasesFirst | crates/tpu-client/src/core.rs:2908-2955 | the sweep lets the first waiters go, one for each connection it closes |
| DriverEffects.SendCallExactly | crates/tpu-client/src/core.rs:971-1049 | one send call takes the head off the queue, puts the next attempt behind all others or reports the call |
| DriverArrivals.ArrivalExactly | crates/tpu-client/src/core.rs:2325-2386 | an arriving transaction is refused for its size or for want of room, or goes to the back of the worker's channel or of the waiting queue, and in the last case the peer is asked for |
| DriverArrivals.FinishedWorkerExactly | crates/tpu-client/src/core.rs:2545-2606 | the unread channel and then the queue of a finished worker are kept in order up to the capacity and the rest reported one by one; the kept are dropped together or the peer is asked for anew |
| DriverArrivals.FinishedWorkerConnection | crates/tpu-client/src/core.rs:2417-2476 | the connection of a finished worker is closed, with the first waiter let go, if it was the last and the connection was to be evicted, and is an orphan from then on if it was the last otherwise |
| DriverOrigins.OrphanTime | crates/tpu-client/src/core.rs:2459-2475 | an event leaves the time of an orphan as it was, or is the end of its last worker and sets it to then |
| DriverOrigins.OrphanCarriesItsTime | crates/tpu-client/src/core.rs:2459-2475 | in any run an orphan carries the time at which its last worker left |
| DriverOrigins.StakeIsAnswered | crates/tpu-client/src/core.rs:2096-2116 | the indexed stake of a worker is what the stake service answered when the worker was started |
| DriverRuns.StepInv | crates/tpu-client/src/core.rs:2957-3033 | every event and every worker step keeps the structural invariant |
| DriverRuns.StepBooks | crates/tpu-client/src/core.rs:2957-3033 | every event and every step of a worker, of the current or an old identity, keeps the balance of accepted, held, reported and discarded transactions and the flow of send attempts |
| DriverRuns.ReachableKeeps | crates/tpu-client/src/core.rs:2957-3033 | both hold in every state a run can reach |
| DriverSteps.InstallKeeps | crates/tpu-client/src/core.rs:2019-2125 | installing a worker on a connection that is not pending keeps all clauses, and gives a fresh connection its first peer |
| DriverSteps.SpawnConnectingKeeps | crates/tpu-client/src/core.rs:1670-1831 | the decision to drop, reuse, join or start a connection attempt keeps the invariant |
| DriverSteps.ConnectingResultKeeps | crates/tpu-client/src/core.rs:2135-2257 | a finished attempt, successful, retried or given up, keeps the invariant |
| DriverSteps.AcceptTxKeeps | crates/tpu-client/src/core.rs:2325-2386 | accepting a transaction keeps the invariant |
| DriverClosing.TaskIsServed | crates/tpu-client/src/core.rs:2482-2533 | a task's peer is served by it over the connection it was installed on, and by no other |
| DriverClosing.WorkerResultKeeps | crates/tpu-client/src/core.rs:2482-2606 | a finished worker, rescued, evicted or unreachable, keeps the invariant |
| DriverClosing.EvictKeeps | crates/tpu-client/src/core.rs:1963-2006 | evicting any set of peers keeps the invariant |
| DriverClosing.AddrChangeKeeps | crates/tpu-client/src/core.rs:2820-2857 | stopping moved peers and marking vanished ones keeps the invariant |
| DriverClosing.SweepKeeps | crates/tpu-client/src/core.rs:2908-2955 | the orphan sweep keeps the invariant |
| DriverClosing.UpdateIdentityKeeps | crates/tpu-client/src/core.rs:2715-2766 | resetting and replaying all attempts in any order keeps the invariant |
| DriverLedger.AcceptTxMoves | crates/tpu-client/src/core.rs:2325-2386 | accepting adds exactly the first attempt of the transaction to what is held or reported |
| DriverLedger.WorkerResultMoves | crates/tpu-client/src/core.rs:2545-2606 | a finished worker's entries are requeued or reported, none lost or duplicated |
| DriverLedger.ConnectingResultMoves | crates/tpu-client/src/core.rs:2135-2257 | a finished attempt only moves entries between queues, workers and responses |
| DriverPending.StepJoins | crates/tpu-client/src/core.rs:1717-1732 | in any state that satisfies the invariant no event adds a worker to a pending connection |
| DriverLoops.QueueOneMore | crates/tpu-client/src/core.rs:2548-2553 | requeueing entries one by one keeps as many as there is room for, in order, and drops the others one by one |
| TpuSender.SumStakes | crates/tpu-client/src/core.rs:2109-2112 | the sum over a connection's peers is their total stake |
| TpuSender.TpuSenderDriver.constructor | crates/tpu-client/src/core.rs:250-391 | a new driver is empty and satisfies the invariant |
| TpuSender.TpuSenderDriver.DropPeerQueuedTx | crates/tpu-client/src/core.rs:1836-1852 | the whole queue of the peer is removed and reported once; without a queue nothing happens |
| TpuSender.TpuSenderDriver.DropSingleTx | crates/tpu-client/src/core.rs:1854-1869 | one entry is reported as dropped and nothing else changes |
| TpuSender.TpuSenderDriver.QueueTxOrDrop | crates/tpu-client/src/core.rs:1871-1896 | the entry is appended if there is room and reported as rate limited otherwise |
| TpuSender.TpuSenderDriver.UnreachablePeer | crates/tpu-client/src/core.rs:1898-1900 | the queue of the peer is dropped as unreachable |
| TpuSender.TpuSenderDriver.InstallWorker | crates/tpu-client/src/core.rs:2019-2125 | the state becomes `DriverState.InstallWorker` of the old one: the worker takes the queue, and the five indexes follow |
| TpuSender.TpuSenderDriver.SpawnConnecting | crates/tpu-client/src/core.rs:1670-1831 | the state becomes `DriverState.SpawnConnecting` of the old one and the invariant is kept; an address whose attempt has lost its metadata does not occur |
| TpuSender.TpuSenderDriver.HandleConnectingResult | crates/tpu-client/src/core.rs:2135-2257 | the state becomes `DriverState.HandleConnectingResult` of the old one and the invariant is kept; an attempt under an old identity does not occur |
| TpuSender.TpuSenderDriver.AcceptTx | crates/tpu-client/src/core.rs:2325-2386 | the state becomes `DriverState.AcceptTx` of the old one and the invariant is kept; a closed channel does not occur |
| TpuSender.TpuSenderDriver.UnblockEvictionWaitingConnection | crates/tpu-client/src/core.rs:2392-2405 | the first waiter, if any, is taken off the list and let go |
| TpuSender.TpuSenderDriver.RemoveWorkerFromActiveConnection | crates/tpu-client/src/core.rs:2417-2476 | the peer leaves the connection, which is then closed, orphaned or kept; another version is left alone |
| TpuSender.TpuSenderDriver.HandleWorkerResult | crates/tpu-client/src/core.rs:2482-2606 | the state becomes `DriverState.HandleWorkerResult` of the old one and the invariant is kept; a missing handle or another version does not occur |
| TpuSender.TpuSenderDriver.LeastStakedConnection | crates/tpu-client/src/core.rs:1945-1961 | the result has the least total stake, and is missing only without connections |
| TpuSender.TpuSenderDriver.DoEvictionIfRequired | crates/tpu-client/src/core.rs:1916-2006 | for any plan the state becomes `DriverState.DoEvictionIfRequired` of the old one and the invariant is kept; the fallback is the least staked connection |
| TpuSender.TpuSenderDriver.HandleRemotePeerAddrChange | crates/tpu-client/src/core.rs:2820-2857 | for any batch, in any order, moved workers are stopped and vanished peers' connections pending |
| TpuSender.TpuSenderDriver.TryPredictUpcomingLeaders | crates/tpu-client/src/core.rs:2859-2901 | each distinct leader is tried once, in order |
| TpuSender.TpuSenderDriver.TryEvictOrphanConnections | crates/tpu-client/src/core.rs:2908-2955 | popping buckets until one is too young closes exactly the expired orphans; the stale-entry branches do not occur |
| TpuSender.TpuSenderDriver.ScheduleGracefulDropAllWorker | crates/tpu-client/src/core.rs:2631-2642 | workers, their stakes and all queues are handed to a new detached task |
| TpuSender.TpuSenderDriver.DrainFinishedWorker | crates/tpu-client/src/core.rs:2643-2687 | a worker of an old identity that ends is reported once with what it left, after the queue of its peer if one was handed over |
| TpuSender.TpuSenderDriver.UpdateIdentity | crates/tpu-client/src/core.rs:2715-2766 | the state becomes `DriverState.UpdateIdentity` of the old one and the invariant is kept, for the order in which each attempt is replayed once |
| TxSender.CallUsesUp | crates/tpu-client/src/core.rs:1051-1064 | a send call uses up at least one of the calls the queue has left |
| TxSender.QuicTxSenderWorker.ProcessTx | crates/tpu-client/src/core.rs:971-1049 | one call is the send step of the driver's runs; it is fatal only on a lost connection or rejected early data |
| TxSender.QuicTxSenderWorker.TryProcessTxInQueue | crates/tpu-client/src/core.rs:1051-1064 | draining ends, makes at most the calls the queue has left, stops at the first fatal call and otherwise empties the queue |
| TxSender.QuicTxSenderWorker.Turn | crates/tpu-client/src/core.rs:1066-1128 | the channel is read only with an empty queue, one transaction at a time |
| EvictionStrategy.PlanIsLowestFirst | crates/tpu-client/src/core.rs:1521-1576 | the plan is whole connections, lowest total stake first among the eligible, at most n, none with a peer being evicted; a second pass ignores the grace period |
| EvictionStrategy.GraceIsKept | crates/tpu-client/src/core.rs:1521-1576 | no planned connection has a peer being evicted, and all of them lie the grace period back unless the connections that do and come first have no peers |
| EvictionStrategy.IndexOrder | crates/tpu-client/src/core.rs:1314-1345 | the iterator of the address index gives the connections in ascending order of the total stake of their peers |
| EvictionStrategy.RoundIsBounded | crates/tpu-client/src/core.rs:1916-2006 | one round leaves at most as many pending evictions as before or as there are waiters |
| OrphanConnections.OrphanConnectionSet.Insert | crates/tpu-client/src/core.rs:416-432 | inserting is idempotent and keeps the first time |
| OrphanConnections.OrphanConnectionSet.Remove | crates/tpu-client/src/core.rs:434-463 | the connection is taken out of both indexes if present |
| OrphanConnections.OrphanConnectionSet.Oldest | crates/tpu-client/src/core.rs:465-467 | the least insertion time |
| OrphanConnections.OrphanConnectionSet.Pop | crates/tpu-client/src/core.rs:469-481 | exactly the connections with the least time are taken out, each once |
| OrphanConnections.DropAllFromIndex | crates/tpu-client/src/core.rs:471-478 | the reverse index forgets exactly the popped connections |
| ConnectionEvictions.ConnectionEvictionSet.Insert | crates/tpu-client/src/core.rs:511-521 | the set grows and the count of the address stays the number of its versions |
| ConnectionEvictions.ConnectionEvictionSet.Remove | crates/tpu-client/src/core.rs:523-544 | the set shrinks and an address without versions is forgotten |
| ConnectionEvictions.ConnectionEvictionSet.ContainsSocketAddr | crates/tpu-client/src/core.rs:550-552 | an address is listed if and only if one of its versions is in the set |
| StakedSorted.StakedSortedSet.Insert | crates/tpu-client/src/core.rs:1409-1417 | the stake of the member is set and both maps stay inverse |
| StakedSorted.StakedSortedSet.Remove | crates/tpu-client/src/core.rs:1379-1395 | the member is removed and no empty bucket is left |
| StakedSorted.StakedSortedSet.Iter | crates/tpu-client/src/core.rs:1426-1430 | every member is listed once, in ascending stake |
| RetryScheduling.ReachableStates | apps/jet/src/transactions.rs:223-252 | after any events, for any clock and rate, pooled signatures are watched and in the insertion order, watched ones have a deadline, and sends plus leftover are within what accepted requests grant |
| RetryScheduling.PassLeavesNoneDue | apps/jet/src/transactions.rs:254-280 | for any order and clock a pass is one round per due entry in front, and it leaves none due if and only if no due entry stands behind one that is not due |
| RetryScheduling.SteadyTicksLeaveNoneDue | apps/jet/src/transactions.rs:223-252 | in a run whose clock does not go back every tick handles all due entries |
| RetryScheduling.LateTickLeavesDue | apps/jet/src/transactions.rs:223-252 | a run in which a tick taken after a later arrival makes the next tick leave a due entry behind |
| RetryScheduling.PassHandlesDueOnce | apps/jet/src/transactions.rs:254-280 | for any order and clock round i of a pass handles the i-th of the due entries in front, and the pass stops behind the last |
| RetryScheduling.PassResends | apps/jet/src/transactions.rs:254-280 | for any order and clock a pass resends each pooled request as often as it has due entries in front and attempts left, and queues exactly these again behind the others |
| RetryScheduling.SentExactly | apps/jet/src/transactions.rs:254-280 | while a transaction accepted once is pooled, sends plus leftover are the attempts asked for and allowed, at least one; one reported as having reached its retries was sent exactly that often |
| RetryScheduling.TickExpires | apps/jet/src/transactions.rs:282-310 | a tick stops watching, takes out and reports exactly the transactions with a deadline more than the processing age back |
| RetryScheduling.ArrivalOutcome | apps/jet/src/transactions.rs:323-396 | an arriving request is refused as too old or landed, or is sent, queued, pooled and watched, by the heights and the commitment the services answer |
| RetryScheduling.PassLowersRank | apps/jet/src/transactions.rs:254-280 | for any order and clock a pass uses as many rounds of a transaction as it has among the due entries in front |
| RetryScheduling.LeavesPoolInTime | apps/jet/src/transactions.rs:254-280 | for any clock a transaction not submitted again comes up in at most leftover + 1 ticks and is gone after the last |
| RetryScheduling.DueComesUp | apps/jet/src/transactions.rs:254-280 | where no due entry stands behind one that is not due, a transaction comes up in exactly the ticks in which it is due |
| RetryScheduling.FrontUsesWork | apps/jet/src/transactions.rs:254-280 | every round lowers entries plus leftover attempts, so a pass ends for any clock and rate |
| RetryScheduling.CollectIndexed | apps/jet/src/transactions.rs:282-310 | collecting deadlines keeps the indexes, also for signatures with several deadlines |
| RetryScheduling.AdmitBudget | apps/jet/src/transactions.rs:374-396 | admitting a request, also a repeated one, keeps sends plus leftover within what was granted |
| RetryScheduling.LeavesPoolWithLetter | apps/jet/src/transactions.rs:312-321 | over any run without a notification of exactly the configured level a transaction leaves the pool only with a letter that gives it up, also when it is submitted again |
| RetryScheduling.StaysInPool | apps/jet/src/transactions.rs:312-321 | a transaction not submitted again is still pooled if and only if no notification named exactly the configured level and no letter gave it up |
| RetryScheduling.TransactionRetrySchedulerRuntime.ResendNonLandedTx | apps/jet/src/transactions.rs:254-280 | the loop is the specified pass |
| RetryScheduling.TransactionRetrySchedulerRuntime.GcDeadlineMap | apps/jet/src/transactions.rs:282-310 | the signatures of all outdated deadlines are dropped and reported, in ascending order |
| RetryScheduling.TransactionRetrySchedulerRuntime.HandleTxCommitmentUpdate | apps/jet/src/transactions.rs:312-321 | the pool is updated as specified |
| RetryScheduling.TransactionRetrySchedulerRuntime.AddNewTransaction | apps/jet/src/transactions.rs:323-396 | the request is refused as expired or landed, or admitted to all indexes and sent |
| RootedTransactions.IndexIsSound | apps/jet/src/rooted_transaction_state.rs:59-126 | the slot the index gives for a signature is tracked and contains it, after every event |
| RootedTransactions.IndexIsComplete | apps/jet/src/rooted_transaction_state.rs:59-126 | for a signature received in one slot the index finds it exactly while that slot contains it |
| RootedTransactions.ToldExactly | apps/jet/src/transactions.rs:81-90 | for a signature watched throughout, the last notification is the commitment the lookup returns if and only if the lookup returns none or the last event that concerned the signature did not mislead |
| RootedTransactions.AlwaysTold | apps/jet/src/transactions.rs:81-90 | the last notification is the lookup at all times of a run if and only if no event of the run misleads, which is seen before the event |
| RootedTransactions.StepTold | apps/jet/src/rooted_transaction_state.rs:59-99 | one event: a first receipt always makes the notification agree, a block update exactly if it does not mislead, any other event keeps what was |
| RootedTransactions.LastNotificationIsLookup | apps/jet/src/transactions.rs:81-90 | for a signature in one slot and watched throughout no event misleads, so the last notification is the lookup |
| RootedTransactions.TwoSlotsDisagree | apps/jet/src/rooted_transaction_state.rs:59-90 | with two slots the last notification and the lookup can differ |
| RootedTransactions.PruningForgets | apps/jet/src/rooted_transaction_state.rs:102-126 | pruning keeps the entry of a signature if and only if every tracked slot that contains it is kept |
| RootedTransactions.FinalizedSlotsAreBounded | apps/jet/src/rooted_transaction_state.rs:95-133 | with non-decreasing finalized heights and distinct heights at most 300 finalized slots are tracked |
| RootedTransactions.RootedTxStateMachine.ProcessTransaction | apps/jet/src/rooted_transaction_state.rs:61-75 | the state becomes `Receive` of the old one, with one notification if the transaction is new, watched and its block known |
| RootedTransactions.RootedTxStateMachine.ProcessBlockMeta | apps/jet/src/rooted_transaction_state.rs:77-98 | the state becomes `UpdateMeta` of the old one, with exactly one notification for each watched transaction of the slot |
| RootedTransactions.RootedTxStateMachine.CleanupOldSlots | apps/jet/src/rooted_transaction_state.rs:102-126 | the retain loop keeps and forgets as specified |
| RootedTransactions.RootedTxStateMachine.GetTransactionCommitment | apps/jet/src/transactions.rs:81-90 | the commitment of the indexed slot, if its block is known |
| Commitment.AtMostRecent | apps/jet/src/rooted_transaction_state.rs:128-133 | entries with distinct heights in the retained window are at most 300 |
| BlockhashQueues.FinalizedBlocksAreBounded | apps/jet/src/blockhash_queue.rs:72-93 | with non-decreasing finalized heights and distinct heights at most 300 finalized blocks are kept |
| BlockhashQueues.FinalizedArrival | apps/jet/src/blockhash_queue.rs:80-93 | a finalized block survives its own pruning and only later slots are left that are not finalized |
| BlockhashQueues.BlockhashQueue.Receive | apps/jet/src/blockhash_queue.rs:72-93 | insert and retain as specified |
| BlockhashQueues.StoredExactly | apps/jet/src/blockhash_queue.rs:72-114 | after any received blocks a lookup finds the last block with the hash, exactly as long as no block finalized after it pruned it |
| BlockhashQueues.BlockhashQueue.GetBlockHeightLatest | apps/jet/src/blockhash_queue.rs:116-126 | the greatest height stored with exactly the given commitment |
| SlotTracking.MaskIsSet | apps/jet/src/grpc_geyser.rs:105-112 | the byte mask refines a set of the seven statuses |
| SlotTracking.EmitsExpected | apps/jet/src/grpc_geyser.rs:390-596 | the tracker passes on exactly what the slot's messages ask for, for any interleaving with other slots |
| SlotTracking.OncePerCommitment | apps/jet/src/grpc_geyser.rs:390-596 | one metadata message and distinct updates pass the metadata on exactly once per committed status |
| SlotTracking.OrderDoesNotMatter | apps/jet/src/grpc_geyser.rs:390-596 | two interleavings of the same messages pass on the same |
| SlotTracking.EmitsNothingElse | apps/jet/src/grpc_geyser.rs:390-596 | whatever is passed on for the slot carries its metadata |
| SlotTracking.GeyserSlotTracker.OnSlotUpdate | apps/jet/src/grpc_geyser.rs:390-485 | marking, emitting and truncating as specified |
| SlotTracking.GeyserSlotTracker.OnBlockMeta | apps/jet/src/grpc_geyser.rs:517-600 | metadata without height or with an unreadable hash is refused without effect, else stored and passed on |
| LeaderSchedule.CompactingKeepsLeaders | crates/tpu-client/src/rpc/schedule.rs:37-103 | for a complete aligned response, compacting and reading back by lookup or iteration gives every slot its leader |
| LeaderSchedule.IterationAgreesWithGet | crates/tpu-client/src/rpc/schedule.rs:37-64 | iteration gives every slot of the epoch once, in order, with the leader of the lookup |
| LeaderSchedule.UnclaimedWindowsAreDefault | crates/tpu-client/src/rpc/schedule.rs:66-103 | a window no readable row claims has the default key |
| LeaderSchedule.LastClaimWins | crates/tpu-client/src/rpc/schedule.rs:66-103 | a window belongs to the last readable row that lists its first slot |
| LeaderSchedule.UnnestRpcGetLeaderScheduleResp | crates/tpu-client/src/rpc/schedule.rs:66-103 | the vector is filled with the last claim on each window, from the first slot of the epoch |
| LeaderSchedule.CoversTwoEpochs | crates/tpu-client/src/rpc/schedule.rs:231-241 | adjacent buffers know the leader of exactly the slots of their two epochs |
| LeaderSchedule.LeaderIsScheduled | crates/tpu-client/src/rpc/schedule.rs:231-241 | adjacent buffers answer with the leader from the schedule of the slot's own epoch |
| LeaderSchedule.LeaderIsAnnounced | crates/tpu-client/src/rpc/schedule.rs:231-241 | buffers built from complete responses answer with the leader the response of the slot's own epoch names |
| LeaderSchedule.WindowHasOneLeader | crates/tpu-client/src/rpc/schedule.rs:231-241 | the slots of a window have one leader, at the epoch boundary too |
| LeaderSchedule.FanoutVisitsAllWindows | crates/tpu-client/src/rpc/schedule.rs:293-316 | the strides visit every window of the range if and only if the two offsets add up to less than a window |
| LeaderSchedule.FanoutLeaders | crates/tpu-client/src/rpc/schedule.rs:293-316 | no leader twice, only leaders that the schedules of the two epochs give for slots of the range, and all of them for an aligned range |
| LeaderSchedule.FanoutAnnounced | crates/tpu-client/src/rpc/schedule.rs:293-316 | for complete responses and an aligned range exactly the leaders the responses name for its slots |
| LeaderSchedule.FanoutInOrder | crates/tpu-client/src/rpc/schedule.rs:293-316 | the leaders come in the order of their first slots |
| LeaderSchedule.BoundaryIsAligned | crates/tpu-client/src/rpc/schedule.rs:293-316 | a range from a window boundary is aligned |
| LeaderSchedule.StridesCount | crates/tpu-client/src/rpc/schedule.rs:305-308 | the fanout looks at a quarter of the slots, rounded up |
| LeaderSchedule.ManagedLeaderSchedule.constructor | crates/tpu-client/src/rpc/schedule.rs:500-522 | the buffers start with what the two responses say of the epoch of the slot and of the next one |
| LeaderSchedule.ManagedLeaderSchedule.Refresh | crates/tpu-client/src/rpc/schedule.rs:341-463 | after every turn the buffers hold what the last responses say of the current epoch and the next, and everything is kept when an answer is missing |
| LeaderSchedule.ManagedLeaderSchedule.GetLeader | crates/tpu-client/src/rpc/schedule.rs:256-266 | unless the refresh has failed, the leader that the response for the slot's own epoch names, and nobody for a slot of any other epoch |
| LeaderSchedule.ManagedLeaderSchedule.GetUniqueLeadersForSlotFanout | crates/tpu-client/src/rpc/schedule.rs:293-316 | for complete responses and an aligned range the loop lists exactly the leaders the responses name for its slots |
| IdentitySync.RunningMembersAgree | apps/jet/src/identity.rs:48-63 | two running members never have different identities, over runs of successive updates |
| IdentitySync.ResumesAfterAllInstalled | apps/jet/src/quic_client/core.rs:1690-1726 | a member leaves the barrier only after every member has installed the identity |
| IdentitySync.PublishesWhatAllHave | apps/jet/src/identity.rs:58-61 | an identity is published only when every member has it |
| IdentitySync.IdleMeansAgreement | apps/jet/src/identity.rs:48-63 | between updates all members have the published identity and nothing to read |
| IdentitySync.StepInv | apps/jet/src/jet_gateway.rs:95-110 | every step of coordinator and members keeps the invariant, with members still at an older barrier |
| IdentitySync.StepsMakeProgress | apps/jet/src/identity.rs:48-63 | every step but the start of an update lowers the work left |
| IdentitySync.NeverStuck | apps/jet/src/identity.rs:48-63 | while an update is under way some step can be taken |
| ContactInfo.PatchGivesSnapshot | crates/tpu-client/src/rpc/tpu_info.rs:135-193 | for distinct keys, applying the diff in any order gives exactly the map of the response |
| ContactInfo.EmptyDiffMeansEqual | crates/tpu-client/src/rpc/tpu_info.rs:135-177 | the diff is empty if and only if the maps are equal |
| ContactInfo.RepeatedKeys | crates/tpu-client/src/rpc/tpu_info.rs:135-193 | with repeated keys the patch gives the map of the response if and only if every key that ends as it was never differs |
| ContactInfo.RepetitionCanStick | crates/tpu-client/src/rpc/tpu_info.rs:135-193 | a repeated key that ends as it was keeps the value in between |
| ContactInfo.DetectTpuContactInfoDiff | crates/tpu-client/src/rpc/tpu_info.rs:135-177 | the loop finds the changed nodes in order and then the keys that are gone, each once |
| ContactInfo.RpcClusterTpuQuicInfoService.ApplyDiffPatch | crates/tpu-client/src/rpc/tpu_info.rs:179-193 | the diffs are applied in order |
| ContactInfo.RpcClusterTpuQuicInfoService.Refresh | crates/tpu-client/src/rpc/tpu_info.rs:195-245 | for distinct keys the map becomes that of the response, and is written only when it differs |

## Left out

- QUIC, TLS, gRPC, RPC, HTTP, metrics, configuration, logging and the binaries: input and output, or foreign libraries.
- Panics of worker and connecting tasks, and the closed worker channel they cause: the driver's statements are about
  runs without them.
- A hard cap on connections: capacity is checked against established connections only, so the source does not promise
  one.
- Progress of eviction: an empty connection can use up a place in the plan.
- The per-peer variant of the stake-based plan: the driver calls the variant with the address map only.
- Round-robin choice of endpoints and the address watcher's own loop: they do not touch the modelled maps.
- A missing response callback and a missing dead-letter channel: the models always have one.
- Wrap-around of 64-bit stakes, heights, slots and versions: integers are unbounded, except for the saturating end of a
  fanout range.
- Failures of the internal broadcast and transaction channels of the geyser stream: a message is passed on once.
- IdentitySync: modelled as a state machine of atomic steps, because coordinator and members run concurrently; the
  reset of the quic gateway's own maps is not part of it.
- Commitment levels are overwritten by later events, and slots without block metadata are never pruned: the source does
  not promise otherwise.
- The older driver in apps/jet/src/quic_client/core.rs, stake.rs with its floating-point arithmetic, and payload codecs.
