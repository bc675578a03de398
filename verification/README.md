# ThreatMapper: a verified model of ingestion, supervision and scan dispatch

This project models, in Dafny 4.11, the parts of ThreatMapper whose behaviour cannot be
read off one function, and proves what they guarantee over all inputs, all interleavings and
all error outcomes:

- the agent-report pipeline of the console: decoding workers, preparers, batcher, resolver
  cache and updater, two-stage database pusher with retry queues, push-back controller;
- the process supervisor of the agent: locked callers, restart loops and waiters that meet
  over unbuffered channels;
- scan admission and dispatch: the scan state machine in the graph store, hand-out of scans
  to agents within a work budget, and agent versions.

`dafny verify dfyconfig.toml` checks everything.

## How the source is modelled

Concurrent code is an action system: a `State`, an `Enabled(s, a)` guard, an `Apply(s, a)`
step and runs as sequences of actions, so a statement about every run is one about
every interleaving and every choice of the environment. Loops that work on local variables and
buffers are methods with loops, objects updated in place are classes, and each is
proved against functions about which the laws are stated.

| file | module | models |
|---|---|---|
| pusher.dfy, delivery.dfy, retry_policy.dfy | PusherProtocol, Delivery, RetryPolicy | the two-stage pusher, its retry queues, how often a batch is pushed and counted, which errors are retried |
| pipeline.dfy | Pipeline | the whole pipeline: deadlock freedom and draining |
| batching.dfy | Batching | the batcher and the merge of reports |
| resolvers.dfy, resolver_cache.dfy | Resolvers, ResolverCache | the resolver maps, their batched update, the cache in front of Redis |
| connections.dfy, edges.dfy, grouping.dfy | Connections, Edges, Grouping | memoised derivation of connections, what each one carries, and their grouping |
| identifiers.dfy | Identifiers | the text formats of ids and keys |
| push_back.dfy, buffer_pool.dfy | PushBack, BufferPool | the push-back controller, the pooled request buffers |
| supervisor.dfy, supervisor_calls.dfy, supervisor_cases.dfy | Supervisor, SupervisorCalls, SupervisorCases | the process supervisor, what its calls do, what goes wrong |
| scan_admission.dfy, scan_batches.dfy, scan_runs.dfy, cloud_admission.dfy | ScanAdmission, ScanBatches, ScanRuns, CloudAdmission | which requests become scans, what is answered, and what reported statuses do to them |
| dispatch.dfy, workload.dfy | Dispatch, Workload | hand-out of scans, the work budget between agent and console |
| versions.dfy | Versions | version attachment and upgrades |

Time is an integer given from outside. A transaction with the graph store is one step on
finite maps and sets, and `Single` succeeds on exactly one row. Database, Redis and
network errors are choices of the environment. Counters are unbounded where the source
has 32 bits.

## Where the code differs from its evident intent

The model does what the code does; each difference is a lemma, together with the exact
condition under which the intended law holds.

- A transient push error queues a copy and also retries inline (`DoubleCount`): a batch is counted
  at most once exactly when its copies were given up at least as often as they were split
  (`CountedAtMostOnce`), and after a split every run on which nothing else fails counts it
  twice (`SplitCountsTwice`).
- `stop()` never returns exactly when the restart loop has left by itself (`StuckExactly`), and
  `StopAllProcesses`, which takes no lock, lets a second child start beside every process that
  is up (`StopAllBreaksOneChild`).
- Memoising the addresses of one endpoint's own host drops edges of other endpoints of the same
  report (`EdgeDropped`, `InboundEdgeDropped`, `LosslessExactly`).
- The merge of a batch does not carry the edges from pods to hosts (`PodHostEdgesLost`).
- Address and port are joined without a separator (`KeyAmbiguous`, `KeyCollisions`, `PidReadBack`).
- A cached empty host name is answered as absent, a fresh one as present (`OneAnswerExactly`).
- A rejected report gives its buffer back twice (`RejectedTwice`, `OwnedExactly`).
- Two running scans of a resource are read as none (`TwoRunningOpenTheGuard`), and a late status
  of a finished scan makes two run (`LateReportOpensTheGuard`, `OneActiveExactly`) or turns the
  latest-scan field away from the running one (`LateReportMisleads`, `LatestExactly`).
- Between a start-up's look at the old version and its write another start-up can attach the
  node, and a newer version is then left without a way back (`StaleView`, `LeadsBackExactly`).
- A cloud scan requested twice within a second leaves two running nodes (`SameSecondTwice`,
  `OneNodeExactly`), and a request for other benchmarks within the second sets the first scan back
  to waiting (`OtherBenchmarksReset`, `OthersUntouchedExactly`).
- A start-up hands running scans out again only if another scan is still waiting (`StartUpExactly`),
  hands them out even when its commit fails (`LostCommitsRepeat`), and without the limit
  of a poll (`StartUpReaches`, `WithinMaxWorkload`).
- Polls whose first scans cannot be decoded change nothing and are blocked for good
  (`PollIdleExactly`, `BlockedForever`, `EnoughRoomServes`).
- A poll that can send something also sets the undecodable scans it picked running, unsent
  (`TakenAlong`), and actions whose transaction fails still use up workload (`HandedOutInOrder`).
- Compliance scans on hosts are not counted as workload (`CompliancePilesUp`, `AllJobsBoundedExactly`).
- A comment says the decrease of the push-back factor is limited to a half; the code divides by
  the whole ratio (`PastHalfExactly`, `SixtyFallsToSix`).

## Model

| member | source | states |
|---|---|---|
| PusherProtocol.StepTotal | deepfence_server/ingesters/agent.go:986-1039 | every step of a worker, relay or hand-over removes and adds exactly the copies it names, for every way of weighing copies by place and retry count |
| PusherProtocol.PotentialNeverGrows | deepfence_server/ingesters/agent.go:998-1036 | the retry potential of a batch (2 for a copy with no retry used, 1 with one) never grows, and neither does potential plus calls, or potential plus counted, for every outcome |
| PusherProtocol.InvStep | deepfence_server/ingesters/agent.go:986-1039 | the budget invariant (no copy with spent retries, per-batch budgets of 5 calls and 2 counts, ingested at most twice the batched reports) is inductive |
| PusherProtocol.RetryBound | deepfence_server/ingesters/agent.go:986-1112 | on every run each handled copy has used at most one retry, a batch is pushed at most five times and counted at most twice, and numIngested is at most twice the reports batched |
| PusherProtocol.DoubleCount | deepfence_server/ingesters/agent.go:1019-1026 | the bounds are reached: one transient error leads to five pushes and two counts of one batch |
| Delivery.CopiesConserved | deepfence_server/ingesters/agent.go:986-1039 | on every run, the copies of a batch counted, live and given up are the one emitted plus those made by splits |
| Delivery.CountedAtMostOnce | deepfence_server/ingesters/agent.go:1014-1030 | at rest a batch is counted at most once exactly when its copies were given up at least as often as they were split; on any run, if they were never split |
| Delivery.AllSucceed | deepfence_server/ingesters/agent.go:998-1036 | from any reachable state, every schedule without a new batch and without a failed call is bounded, and one that has come to rest has counted every live copy of a batch exactly once more |
| Delivery.SplitCountsTwice | deepfence_server/ingesters/agent.go:1019-1026 | after every split of a batch, in any reachable state, every schedule without a further failed call that comes to rest has counted it exactly twice |
| Delivery.SplitCanCountTwice | deepfence_server/ingesters/agent.go:1014-1030 | such a schedule exists after every split |
| RetryPolicy.SplitsExactly | deepfence_server/ingesters/agent.go:1014-1026 | a call splits its batch exactly on a first failure that leaves a transient error, that of the call or of a failed renewal, when the retry queue takes the copy |
| RetryPolicy.DropsExactly | deepfence_server/ingesters/agent.go:1001-1018 | a call gives its copy up exactly on a second failure, or on a first one that neither renews the session nor leaves a transient error |
| RetryPolicy.CallLeaves | deepfence_server/ingesters/agent.go:998-1036 | what every outcome leaves with the worker, in the queues and in the count: a permanent error an idle worker and nothing queued, a renewal the one copy, a transient error a kept and a queued one, a success the copy passed on or counted |
| RetryPolicy.PermanentNeverSplits | deepfence_server/ingesters/agent.go:998-1036 | on every run on which no error of a batch is transient it is never split, every failed call that renews no session gives a copy up, and at rest it is counted exactly if emitted and not given up |
| Pipeline.GoodStep | deepfence_server/ingesters/agent.go:927-1053 | every step of the pipeline keeps: buffers within bounds, every accepted report in exactly one place, every prepared report on its way to both batcher and resolver updater, the pusher's invariant |
| Pipeline.RankDecreases | deepfence_server/ingesters/agent.go:927-1116 | every step but the arrival of a report decreases a rank, whatever the error outcomes |
| Pipeline.NoDeadlock | deepfence_server/ingesters/agent.go:1068-1116 | every reachable state that holds a report or a batch has an enabled step, for any queue capacities including zero |
| Pipeline.Drains | deepfence_server/ingesters/agent.go:927-1116 | without new reports every schedule is finite, and one that cannot continue has emptied the pipeline with every accepted report discarded or batched, and the resolvers of exactly the batched ones pushed |
| Pipeline.BatchedExactly | deepfence_server/ingesters/agent.go:927-972 | on a path that has come to its end, the reports in emitted batches are those that arrived less the undecoded ones |
| Pipeline.QueuesBounded | deepfence_server/ingesters/agent.go:1068-1116 | every queue holds at most its capacity and one element more per receiver, on every path |
| Pipeline.RoomMeansReady | deepfence_server/ingesters/agent.go:1068-1116 | every queue below its capacity takes what is sent to it |
| Pipeline.FullBatchesOnly | deepfence_server/ingesters/agent.go:950-960 | without a tick only full batches of a thousand are sent |
| Batching.MergeIngestionData | deepfence_server/ingesters/agent.go:240-326 | the merged batch is the concatenation of the reports in fourteen fields, empty in the pod-to-host edges, with the number of reports merged |
| Batching.RunDBBatcher | deepfence_server/ingesters/agent.go:941-972 | for any reports and ticks: no overflow, batches of 1 to 1000 reports, emitted batches followed by the pending tail equal the reports received field by field, counts included; pending are the reports since the last tick but for full thousands |
| Batching.PodHostEdgesLost | deepfence_server/ingesters/agent.go:308-324 | the pod-to-host edges are conserved exactly when the reports sent had none |
| Resolvers.ComputeResolvers | deepfence_server/ingesters/agent.go:328-360 | the process map holds the last endpoint's reference per key, the network map the last endpoint's name per address, else the last host's |
| Resolvers.PidReadBack | deepfence_server/ingesters/agent.go:347-356 | a recorded endpoint's pid is read back exactly when the last endpoint with the same joined key has that pid |
| Resolvers.LocalUnresolved | deepfence_server/ingesters/agent.go:347-352 | the local address is entered for no endpoint |
| Resolvers.MergeResolvers | deepfence_server/ingesters/agent.go:216-238 | merging overlays the maps in arrival order, later ones winning |
| Resolvers.BatchedIsOneByOne | deepfence_server/ingesters/agent.go:362-394 | for every cutting of the stream into flushes and every pattern of evictions and failed writes, Redis ends as if the resolvers written since the last eviction were pushed one by one |
| Resolvers.CuttingDoesNotMatter | deepfence_server/ingesters/agent.go:130-141 | without evictions two cuttings of the same stream of written resolvers leave the same map |
| ResolverCache.EndpointResolversCache.GetHost | deepfence_server/ingesters/agent.go:143-157 | a lookup serves a fresh entry, or Redis's reply, which may be a failure, and what it stores and asks |
| ResolverCache.EndpointResolversCache.GetHosts | deepfence_server/ingesters/agent.go:550-583 | all lookups of a report, any of whose calls may fail, against the answers and reads specified for them |
| ResolverCache.ReadAtMostOnce | deepfence_server/ingesters/agent.go:143-157 | one report asks Redis for each key at most once, whichever calls fail |
| ResolverCache.OneAnswerExactly | deepfence_server/ingesters/agent.go:144-156 | two lookups of a key in one report agree, whichever calls fail, except exactly when the first one reads an empty name from Redis |
| ResolverCache.FreshForExactly | deepfence_server/ingesters/agent.go:155-155 | what a report stores is served to exactly the reports that start less than the time to live after it |
| ResolverCache.InvStep | deepfence_server/ingesters/agent.go:104-173 | every cache entry and every value being stored was seen in Redis no earlier than its stamp, under every interleaving |
| ResolverCache.BoundedStaleness | deepfence_server/ingesters/agent.go:104-173 | a value served from the cache was held by Redis, or came from a failed call, less than the time to live before the report started |
| ResolverCache.LookupIsThreeSteps | deepfence_server/ingesters/agent.go:143-157 | a lookup is the three steps of an undisturbed worker, with the same cache and value |
| ResolverCache.UpdatesExactly | deepfence_server/ingesters/agent.go:104-141 | a push changes the keys it names and no others, a clearing leaves nothing to serve |
| Connections.DeriveNeighbours | deepfence_server/ingesters/agent.go:575-621 | the inner loop records the memoised edges of one endpoint and the addresses memoised |
| Connections.DeriveConnections | deepfence_server/ingesters/agent.go:550-623 | the connections are the memoised edges, a subsequence of those without memoisation, equal exactly when no edge is lost; those to the outside are one for each adjacency to an unknown address, in order |
| Connections.OutboundKept | deepfence_server/ingesters/agent.go:575-619 | memoisation loses no connection to the outside |
| Connections.OutboundRecorded | deepfence_server/ingesters/agent.go:553-618 | every adjacency of a reported endpoint to an unknown address is recorded with the endpoint's host, reported or resolved, its pid if kept, its own port and the address |
| Connections.InsideExactly | deepfence_server/ingesters/agent.go:583-609 | every other connection comes from an adjacency to another host with a known process and carries that host and its pid |
| Connections.LocalSkipped | deepfence_server/ingesters/agent.go:558-561 | endpoints on the local address give no connections |
| Connections.MemoisedIsSubsequence | deepfence_server/ingesters/agent.go:579-587 | memoisation only leaves edges out, in order, whatever was memoised before |
| Connections.LosslessExactly | deepfence_server/ingesters/agent.go:579-587 | memoisation loses nothing exactly when no address on one endpoint's own host is an edge of a later endpoint |
| Connections.OneHostLosesNothing | deepfence_server/ingesters/agent.go:550-623 | a report whose endpoints resolve to one host keeps every edge |
| Connections.EdgeDropped | deepfence_server/ingesters/agent.go:579-610 | for every two endpoints on different hosts with a common neighbour on the first one's host, the second one's edge is dropped |
| Connections.InboundEdgeDropped | deepfence_server/ingesters/agent.go:579-600 | if the second endpoint's host is unknown, the edge dropped is the inbound one with its address and pid and the neighbour's host, pid and port |
| Edges.EdgeBetweenRecorded | deepfence_server/ingesters/agent.go:583-608 | an edge to an endpoint that its agent recorded carries both host names, both pids and the local port, through the resolver maps and the text formats |
| Edges.EdgesMirror | deepfence_server/ingesters/agent.go:583-608 | when both ends of a connection are recorded and report each other, their edges are mirror images, hosts and pids exchanged |
| Grouping.Connections2Maps | deepfence_server/ingesters/agent.go:414-465 | one row per key with the pids of exactly the connections under that key, in order; flattened, the rows are the input as a multiset exactly when every pair of names survives joining and splitting |
| Grouping.Collect | deepfence_server/ingesters/agent.go:417-439 | the first loop keeps five lists of equal length per key that zip to the pids of that key |
| Grouping.SurvivesExactly | deepfence_server/ingesters/agent.go:418-422 | a pair of names survives joining and splitting exactly when the source has no ";;;" and no final ';' and the destination no ";;;" |
| Grouping.FlattenedIsGiven | deepfence_server/ingesters/agent.go:440-464 | flattening the rows gives every connection back once, under the names its key splits into |
| Grouping.LosslessExactlyWhenClean | deepfence_server/ingesters/agent.go:414-465 | flattening gives back the input as a multiset exactly when every pair of names survives |
| Grouping.RowPerPair | deepfence_server/ingesters/agent.go:440-464 | then rows are for different pairs and keep each pair's order |
| Identifiers.AtoiItoa | deepfence_server/ingesters/agent.go:355-355 | every 64-bit integer survives being written and read |
| Identifiers.AtoiClamps | deepfence_server/ingesters/agent.go:573-577 | of any integer written, itself is read in the 64-bit range, else the nearest end of it with an error |
| Identifiers.ExtractExactly | deepfence_server/ingesters/agent.go:1239-1243 | the extractor returns an address and a port exactly on ids made of a scope, that address and that port, and panics on all others |
| Identifiers.PidRoundTrip | deepfence_server/ingesters/agent.go:1245-1255 | the pid of a process reference is recovered for every integer pid and non-empty address |
| Identifiers.PidRecoveredExactly | deepfence_server/ingesters/agent.go:1245-1255 | for every address and pid, the pid is recovered exactly when the address is not empty and has no separator, or the pid is zero |
| Identifiers.KeyCollisions | deepfence_server/ingesters/agent.go:356-356 | exactly which endpoints share a resolver key |
| Identifiers.KeyAmbiguous | deepfence_server/ingesters/agent.go:356-356 | two different endpoints with one key |
| Identifiers.ScanIDInjective | deepfence_server/handler/scan_reports.go:55-57 | a scan id determines its node id and second |
| PushBack.Updater.Tick | deepfence_server/ingesters/agent.go:1158-1202 | one tick of the loop, the shared value included, against the specified step |
| PushBack.StaysInRange | deepfence_server/ingesters/agent.go:1145-1206 | for any number of servers, however their first read of the shared value went, any counters and failures, own and shared values stay in 1..60 and the compared count is the maximum since the last decrease |
| PushBack.BegunOk | deepfence_server/ingesters/agent.go:1211-1230 | each outcome of the first read starts a server in range, and in step with its own value except exactly without a client and with a value that is not the default |
| PushBack.CommitAgrees | deepfence_server/ingesters/agent.go:1263-1309 | a tick that commits leaves server and shared value agreed, on the value changed to or on the one read; any other leaves the shared value as it was |
| PushBack.SevenEighths | deepfence_server/ingesters/agent.go:1163-1173 | the thresholds: seven eighths of a count rounded down to a multiple of eight |
| PushBack.TickDirection | deepfence_server/ingesters/agent.go:1162-1191 | under pressure doubled exactly when less than half is ingested and up by one otherwise; when eased at least halved if the load halved and down by one otherwise; else only the shared value is adopted |
| PushBack.PastHalfExactly | deepfence_server/ingesters/agent.go:1173-1181 | a decrease leaves less than half of the factor exactly when the factor is at least four and the load has fallen to a third or less, whatever the comment on a limit says |
| PushBack.SixtyFallsToSix | deepfence_server/ingesters/agent.go:1174-1177 | one tick that takes the factor from sixty to six |
| PushBack.OverloadReachesMax | deepfence_server/ingesters/agent.go:1163-1172 | sustained overload reaches 60 within 59 own ticks, however the server was started and whatever other servers and the database do |
| PushBack.SevereOverloadReachesMax | deepfence_server/ingesters/agent.go:1165-1168 | six ticks suffice when less than half of the accepted reports are ingested |
| PushBack.LoneServerStays | deepfence_server/ingesters/agent.go:1263-1309 | a lone server whose transactions commit stays at the maximum while overloaded |
| BufferPool.OwnedByOne | deepfence_server/handler/agent_report.go:75-102 | while no report is rejected, every buffer is in one place only |
| BufferPool.OwnedExactly | deepfence_server/handler/agent_report.go:75-102 | on every run, every buffer is in one place throughout exactly when no report is rejected |
| BufferPool.RejectedTwice | deepfence_server/ingesters/agent.go:697-707 | after any rejection the buffer is in the pool twice and two requests can hold it |
| BufferPool.BuffersCounted | deepfence_server/handler/agent_report.go:75-102 | the queue holds the accepted reports not yet consumed, within its capacity; the pool gets one buffer back per failed read or consumed report and two per rejection |
| Supervisor.InvStep | deepfence_bootstrapper/supervisor/process.go:87-225 | the supervisor's invariant (waiters, counters, retired loops, caller positions) is inductive for callers that take the lock |
| Supervisor.OneChild | deepfence_bootstrapper/supervisor/process.go:330-435 | at most one child is alive, none when a caller with the lock finds started false, none when the binary is overwritten |
| Supervisor.CrashLoop | deepfence_bootstrapper/supervisor/process.go:120-180 | on every run, StopAllProcesses included, and for every loop: shortRetries is five minus the streak of short runs, 1 to 5 while the loop runs, and the loop gives up exactly at a streak of five |
| Supervisor.RunEnds | deepfence_bootstrapper/supervisor/process.go:135-180 | after the child exits the loop leaves on exit code 127, gives up on the fifth short run in a row and otherwise sleeps before a restart |
| Supervisor.UpgradeEnds | deepfence_bootstrapper/supervisor/process.go:344-366 | an upgrade ends with the lock free and the process running again exactly when it was stopped for the upgrade, a restart is wanted, the binary was written and the start went through; otherwise it is down with no child alive |
| SupervisorCalls.UpgradeWritesOnce | deepfence_bootstrapper/supervisor/process.go:330-435 | from the lock to its release an upgrade overwrites the binary exactly once, and is to restart the process exactly if it had found it started, whatever happens meanwhile |
| SupervisorCalls.StopLeavesDown | deepfence_bootstrapper/supervisor/process.go:200-225 | a stop that returns leaves started false and no child alive, with autorestart and without |
| SupervisorCalls.StartLeavesUp | deepfence_bootstrapper/supervisor/process.go:87-200 | a start that returns leaves started true, unless a process without autorestart could not be started, and its child alive |
| Supervisor.StopReturns | deepfence_bootstrapper/supervisor/process.go:149-225 | once the loop took the signal, stop returns on every schedule: bounded steps and always one enabled |
| Supervisor.DoomedForever | deepfence_bootstrapper/supervisor/process.go:182-193 | a caller blocked in kill after the loop left by itself stays blocked on every run, and at most one more step of anything is possible |
| Supervisor.StuckExactly | deepfence_bootstrapper/supervisor/process.go:119-225 | a caller that reached kill never returns from stop on any continuation exactly when the loop left through a failed start, exit code 127 or giving up |
| SupervisorCases.StopBlocksForever | deepfence_bootstrapper/supervisor/process.go:123-128 | a stuck state is reached by a start failure followed by a stop |
| SupervisorCases.StopAllBreaksOneChild | deepfence_bootstrapper/supervisor/process.go:437-454 | from every reachable state in which the process is up and its lock free, autorestart or not, StopAllProcesses and one start lead to two live children |
| SupervisorCases.UpReachable | deepfence_bootstrapper/supervisor/process.go:87-148 | such states are reached by starting the process |
| SupervisorCases.RestartLoop | deepfence_bootstrapper/supervisor/process.go:159-170 | the loop gives up exactly after the first five runs of at most five seconds in a row |
| ScanAdmission.GraphStore.StartMultiScan | deepfence_server/handler/scan_reports.go:2414-2484 | the transaction over all requests: the ids returned, the graph committed, an error exactly when a request fails or the commit does, and no change on an error or without a scan |
| ScanAdmission.AddInv | deepfence_server/ingesters/scan_status.go:61-180 | adding a scan keeps: a running scan is the newest of its type on its resources, and a resource that points at its newest scan still does |
| ScanAdmission.AdmittedExactly | deepfence_server/ingesters/scan_status.go:74-180 | under the invariant a request is admitted exactly when its resource exists, may be scanned, has no running scan of the type and (host, cluster) its agent runs; refused with an id exactly when that scan runs; no scan with another id changes, and all statuses are kept exactly when none has the new id or that one is waiting |
| ScanAdmission.StatusBlocksExactly | deepfence_server/ingesters/scan_status.go:101-123 | a single scan of the type stands in the way of another exactly unless it is completed, failed or cancelled |
| ScanAdmission.TwoRunningOpenTheGuard | deepfence_server/ingesters/scan_status.go:114-123 | in any graph, a scan is admitted beside a running one exactly when yet another is running, which is read as none, and nothing else forbids it |
| ScanBatches.IdsRun | deepfence_server/handler/scan_reports.go:2419-2469 | every id a batch returns names a scan of the type that runs on a requested resource once the batch is written |
| ScanBatches.RequestAnswered | deepfence_server/handler/scan_reports.go:2449-2468 | a request is passed over without an answer or a change exactly for pods, system nodes and missing agents; otherwise one id is appended, of the scan made or of the one that runs |
| ScanBatches.FailsExactly | deepfence_server/handler/scan_reports.go:2424-2467 | a batch fails exactly when a request other than for a pod names an unknown node or cannot be built |
| ScanRuns.OneActiveScan | deepfence_server/ingesters/scan_status.go:101-180 | on every run that sets no finished scan running again after a newer one was made, at most one scan per resource and type runs and the guard finds it |
| ScanRuns.StatusInvExactly | deepfence_server/ingesters/scan_status.go:442-474 | the status changes that keep the invariant are exactly those that do not set a superseded finished scan running again |
| ScanRuns.OneActiveExactly | deepfence_server/ingesters/scan_status.go:61-180 | throughout any run, with any status changes, at most one scan per resource and type runs exactly when no step sets a finished scan running again beside one that runs |
| ScanRuns.LatestExactly | deepfence_worker/ingesters/common.go:46-58 | throughout a run every resource points at its newest scan exactly when no status is reported for a scan after a newer one was made; the field then names the running scan |
| ScanRuns.LateReportMisleads | deepfence_worker/ingesters/common.go:53-57 | a late report of a finished scan, which revives nothing, turns the field away from the running one |
| ScanRuns.ReportExactly | deepfence_worker/ingesters/common.go:46-79 | a reported status is ignored for an unknown scan and as progress of one being cancelled; otherwise the scan takes it, its resources point at it, and nothing else changes |
| ScanRuns.CancellationSticks | deepfence_worker/ingesters/common.go:63-71 | a scan being cancelled stays so whatever progress is still reported |
| ScanRuns.LateReportOpensTheGuard | deepfence_worker/ingesters/common.go:46-58 | for every free resource: a scan finishes, a second is started, a late report sets the first running again, and a third is admitted |
| CloudAdmission.GuardFailsClosed | deepfence_server/ingesters/scan_status.go:290-320 | in any graph a running scan of the same benchmarks prevents another |
| CloudAdmission.AcceptedExactly | deepfence_server/ingesters/scan_status.go:242-440 | in any graph, a request is accepted exactly when its resource is known and active with no running scan of the benchmarks, an agent not known to be down and, for an account, exactly one hosting agent; a refusal names the only running scan |
| CloudAdmission.OneActiveCloudScan | deepfence_server/ingesters/scan_status.go:242-440 | all running scans of one resource and benchmark list have one scan id, on every run that sets no finished scan running again after a newer one was made |
| CloudAdmission.StatusExactly | deepfence_worker/ingesters/common.go:46-58 | the status changes that keep a running scan the newest of its resource and benchmarks are exactly those that are not such late revivals |
| CloudAdmission.OneNodeExactly | deepfence_server/ingesters/scan_status.go:242-440 | throughout such a run there is at most one running node per resource and benchmark list exactly when no accepted request repeats one of the same second |
| CloudAdmission.SpacedNoRepeats | deepfence_server/handler/scan_reports.go:55-57 | requests in different seconds never repeat one another |
| CloudAdmission.SecondRowExactly | deepfence_server/ingesters/scan_status.go:389-421 | an accepted request leaves exactly one running node exactly when it repeats none of its second, and two or more otherwise |
| CloudAdmission.OthersUntouchedExactly | deepfence_server/ingesters/scan_status.go:408-421 | an accepted request leaves all other scans as they are exactly when every node with its scan id is waiting |
| CloudAdmission.OtherBenchmarksReset | deepfence_server/ingesters/scan_status.go:408-421 | a scan of other benchmarks requested in the same second, running or finished, is set back to waiting |
| CloudAdmission.SameSecondTwice | deepfence_server/ingesters/scan_status.go:389-421 | a scan repeated within its second leaves two running nodes and the resource is refused as ambiguous |
| Dispatch.TopKExists | deepfence_server/controls/agent.go:353-360 | the ordered query with a limit always has an answer |
| Dispatch.HandedOutAtMost | deepfence_server/controls/agent.go:96-165 | a scan is handed out at most four times, the retry job's resets included, plus once per start-up whose commit failed |
| Dispatch.HandedOutExactly | deepfence_server/controls/agent.go:96-165 | which step hands a scan out and what that leaves: a committed poll that picks it, waiting and decodable, or a start-up with room while some scan waits, running and decodable; once at most, and never with three retries used |
| Dispatch.TakenAlong | deepfence_server/controls/agent.go:125-150 | a poll that hands something out sets all it picked running, undecodable ones too; a start-up uses a retry of every running scan that has one |
| Dispatch.NotResetAtOnce | deepfence_worker/cronjobs/neo4j.go:909-919 | a scan just handed out or reported is not set back before time has passed |
| Dispatch.ResetKeepsAge | deepfence_worker/cronjobs/neo4j.go:909-919 | a scan set back keeps its age and goes ahead of those updated later |
| Dispatch.LostCommitsRepeat | deepfence_server/handler/agent_controls.go:73-81 | start-ups whose commit fails hand a scan out any number of times |
| Dispatch.StartUpExactly | deepfence_server/controls/agent.go:112-132 | a start-up hands something out exactly when a decodable running scan exists and some scan is waiting |
| Dispatch.PollMovesUp | deepfence_server/controls/agent.go:312-393 | a poll moves a waiting scan up by exactly the number taken ahead of it |
| Dispatch.ArrivalPushesBack | deepfence_server/ingesters/scan_status.go:155-165 | an arrival pushes a waiting scan back exactly when it has priority over it |
| Dispatch.PlaceRisesExactly | deepfence_server/controls/agent.go:342-360 | for every step, a waiting scan's place gets worse exactly when the step makes another scan eligible that is ahead of it |
| Dispatch.ServedWithin | deepfence_server/controls/agent.go:342-360 | a waiting scan is handed out once the committed polls' total room exceeds the number of scans not behind it plus those that overtake it, if it is left waiting with its account ready and it and those before it can be decoded |
| Dispatch.PollIdleExactly | deepfence_server/controls/agent.go:373-389 | a poll changes nothing exactly when no picked scan can be decoded |
| Dispatch.BlockedForever | deepfence_server/controls/agent.go:387-389 | with undecodable scans at the head of the queue, all polls with no more room than their number change nothing, on every run in which time passes, agents start up and other scans change, become ready, are set back or arrive without overtaking them |
| Dispatch.BlockingKeptExactly | deepfence_server/controls/agent.go:342-360 | a step other than a poll leaves the queue blocked exactly when it leaves those scans waiting and ready and lets no decodable scan overtake one |
| Dispatch.EnoughRoomServes | deepfence_server/controls/agent.go:373-389 | a poll with more room than there are undecodable waiting scans always hands something out if there is something to |
| Workload.GetAgentActions | deepfence_server/controls/agent.go:29-94 | which actions a poll returns in which order; upgrades, scans and refreshes together stay within the reported workload |
| Workload.HandedOutInOrder | deepfence_server/controls/agent.go:29-94 | of decodable queues: up to five stops and five logs, then upgrades, scans and on cloud agents refreshes, each the first of its queue and as many as the workload leaves; an uncommitted transaction hands out nothing but uses its workload |
| Workload.GetMaxAllocatable | deepfence_bootstrapper/router/openapi_client_controls.go:171-179 | what is reported and what is counted add up to the maximum, zero when that is reached or during an upgrade, never negative |
| Workload.WithinMaxWorkload | deepfence_bootstrapper/router/openapi_client_controls.go:94-112 | an agent fed by polls never has more counted jobs than its maximum workload; with start-ups that bring back at most n scans, at most n - 1 more, however many start-ups there are |
| Workload.StartUpReaches | deepfence_server/controls/agent.go:112-132 | that bound is reached by a start-up, which has no limit, for every n |
| Workload.CompliancePilesUp | deepfence_bootstrapper/router/openapi_client_controls.go:125-145 | a host agent can be handed any number of compliance scans |
| Workload.AllJobsBoundedExactly | deepfence_bootstrapper/router/openapi_client_controls.go:125-145 | for every set of kinds that may be queued, all jobs of a polled agent stay within its maximum on all runs exactly when there are only secret, malware and vulnerability scans on a host, only cloud compliance scans on a cloud agent |
| Workload.UncountedPileUp | deepfence_bootstrapper/router/openapi_client_controls.go:125-145 | scans of a kind that is not counted, as compliance scans on a host, pile up without bound |
| Versions.ReleaseOrder | deepfence_server/controls/version.go:243-243 | precedence of releases is a total order |
| Versions.PrecedenceDirection | deepfence_server/controls/version.go:243-243 | the larger major, then minor, then patch number is newer; a release is newer than its pre-releases; of two pre-releases the one larger at the first difference or going on |
| Versions.IdentDirection | deepfence_server/controls/version.go:243-243 | identifiers: numbers by value, below every text; texts at their first difference, a longer one above its prefix |
| Versions.NewerDirection | deepfence_server/controls/version.go:243-243 | a valid version is newer than an invalid one, an invalid one than none |
| Versions.SeenExactly | deepfence_server/controls/version.go:207-244 | of a node with one version, that version is seen exactly if it is newer than the reported one |
| Versions.VersionStore.CompleteAgentUpgrade | deepfence_server/controls/version.go:246-326 | a successful call leaves the node on the reported version only, no upgrade to it, and a waiting upgrade back if it was on a newer one; upgrades to other versions, and the versions and upgrades of other nodes, are untouched |
| Versions.NothingToDo | deepfence_server/controls/version.go:166-205 | a call that returns early finds the node settled on the reported version |
| Versions.NothingToDoExactly | deepfence_server/controls/version.go:166-205 | of a node known once, a call returns early exactly when the node is settled on the reported version |
| Versions.OneVersion | deepfence_server/controls/version.go:281-302 | under every interleaving of start-ups, schedules and polls a node id has at most one version |
| Versions.CallsOverRuns | deepfence_server/controls/version.go:246-326 | in every interleaving, every call's write leaves the node on the reported version only with no upgrade to it, and its last transaction leaves an upgrade back to the newer version it has seen waiting |
| Versions.UpgradeStays | deepfence_server/controls/version.go:281-302 | an upgrade stays scheduled, whatever happens, until its node reports the version |
| Versions.StaysCurrent | deepfence_server/controls/version.go:207-244 | what a call has seen stays current while no other call attaches the node |
| Versions.LeadsBackExactly | deepfence_server/controls/version.go:246-326 | a call that takes a node off a newer version leads back to it exactly when what it has seen is current at its write |
| Versions.StaleView | deepfence_server/controls/version.go:207-302 | two start-ups of one node, after which the first takes it off a newer version it has not seen |

## Left out

- Real Cypher, Redis, Kafka, Postgres and MinIO behaviour: only the effect of each query on maps, sets and edges is kept.
- HTTP decoding, validation, telemetry, JSON and gzip: an action that cannot be decoded is a flag on the scan.
- The contents of reports in the pipeline model: reports are interchangeable there, their contents are the subject of Batching, Connections and Grouping.
- `neo4jIngester.Close` racing with senders, a pusher that finds no driver at start, and collectors of several namespaces sharing one push-back value.
- The 32-bit wrap-around of the counters numReceived, numProcessed and numIngested.
- Which connection each of the ten pushers uses, and the session renewal itself: renewing is an outcome of a call.
- The SCHEDULED edges of scan admission, the pod status fields and the bulk scan nodes: admission keeps scans, their resources and the latest-scan field; dispatch starts from the scans scheduled on one agent.
- Deletion of scans, and the cron job that repeats upgrades.
- The age at which the retry job sets a running scan back: any scan updated before now may be set back.
- extractBulksNodes and the lookups that expand clusters, registries and pods into resources: they only add easy members.
- Diagnostic logs and threat-intel actions beyond their place in the list of actions.
- cgroups, self-update, downloads and gRPC scanner calls: a child is alive or has exited with a code and a duration.
- Parsing of version strings: a version string comes with the release it parses to, if any.
- A status update for an unknown cloud scan id, which would make a node without a resource.
