# Verified model of the AFD plugin's schedulers, layouts and protocols

The AFD plugin runs Attention and feed-forward (FFN) parts of a model on different ranks. This Dafny
project models the discrete logic that has to be right for that to work, and proves what it promises.
`dafny verify dfyconfig.toml` checks everything.

## What is modelled

1. **The proxy's load-balancing scheduler** (`tools/proxy_server.py`). `SchedulerSpec` says what the
   scheduler promises without a heap: every pick is the live server least by (priority, ordinal);
   `SchedulerLaws` says what that means for the loads and lists themselves.
   `ProxyScheduler` is the class with the lazily deleted heap; every method is proved to do what the
   specification says and to keep the index invariant (`HeapIndex`). `RequestProtocol` puts concurrent
   requests, the node listener and administration over it as a state machine in which each locked
   call is one event; `RequestSafety` has the invariant, `RequestRuns` the results about whole runs,
   `RequestDrain` those about draining and deletion, `RequestListener` those about unreachable nodes, and
   `RequestWitnesses` the concrete runs in which a promise fails.
2. **The two-stage Async CAM pipeline.** `StagePlanner` plans the stages, `CamLayout` cuts the batch,
   lays it out over the tensor-parallel ranks and restores it, `CamDispatch` is the rank-local payload,
   `CamConnector` the pending queue, `CamSchedule` the event trace, `AsyncCamV2` and `AsyncCamV4` the two
   pipelines, `AsyncCamV2Forward` and `AsyncCamV4Forward` (with `StagedBatch`) the whole forwards, and
   `DeferredReceive` the single-stage loop. All ranks run in lock step: a tensor is the sequence of
   every rank's rows and an all-gather is a concatenation.
3. **Rank topology, token counts and FFN graph replay.** `Topology` has the nonlinear block arithmetic
   and the rank mapping, `TokenCounts` the several counts that have to agree and the FFN transfer,
   `FfnGraphCache` the runner whose replayed graphs must fit the current payload.
4. **The data-parallel coordinator** (`Coordinator`, turn by turn in `CoordinatorTurns`) and the changes-only reports of async engines
   (`RequestCounts`).
5. **Balanced routing tables** (`BalancedRouting`), built fresh, cached and grown.

`Arith` and `Rows` hold the facts about products, quotients and row sequences that these rest on, and
`Options` the one optional type.

## Assumptions

- Scores and loads are reals, and `heapq` is a collection whose pop returns a least entry; entries that
  tie cannot occur (`HeapIndex.NoTies`).
- Server keys arrive normalised and non-empty, so a missing key is `None`.
- Each call made under the scheduler's lock is atomic. Prefill and decoder outcomes, cancellations and
  reachability are arbitrary. A request cancelled in its prefill stands for every stop there that no
  handler catches, such as a reply that is not JSON.
- Attention is an arbitrary function of the whole group's tensors for each layer and stage. The
  pipelines' main results assume what the layouts rely on (`Faithful`): it keeps every rank's row
  count, routes every row, and without sequence parallelism gives all ranks the same rows. The
  feed-forward is an arbitrary function of a row, its layer and its route.
- The remote side answers dispatches in the order they were sent; the CAM operators carry no tag from
  which a receive could tell them apart.
- The shuffle of all experts is an arbitrary fixed permutation.
- Rank counts are positive, as the configuration demands.

## Findings

- `reassign_instances` releases prefill KV that the first chunk already released. The books survive it
  exactly when the prefiller carries no pressure (`RequestRuns.RecomputeReleasesTwice`); otherwise it
  takes the KV of other requests (`RequestWitnesses.RecomputeTakesAnothersKv`).
- When the reassignment then fails, the `finally` block releases the decoder a second time
  (`RequestRuns.DecoderBooksBreakExactlyOnOverRelease`; in
  `RequestWitnesses.FailedReassignDrivesDecoderNegative` a decoder ends below zero).
- A reassignment that stops after reserving again, because it is cancelled in its second prefill or
  finds no clients after its second decoder pick, finishes without giving back what it reserved. A
  drained scheduler has nothing reserved exactly when this never happened
  (`RequestDrain.DrainedReservesNothing`, `RequestDrain.BrokenReassignmentsLeak`); both paths are
  reachable and end with servers deleted under a reservation
  (`RequestWitnesses.CancelledReassignLosesItsServer`,
  `RequestWitnesses.ClientlessReassignLosesBothServers`).
- A request is never counted down if it is cancelled in its first prefill, finds no clients after its
  first decoder pick, or is abandoned before the `finally` block of its stream, and in no other way
  (`RequestDrain.LosesExactly`). The drain can still complete exactly when no request is lost like that
  (`RequestDrain.DrainsUnlessLost`, `RequestWitnesses.CancelledRequestBlocksTheDrain`).
- A waiting node whose key is tainted makes `activate_waiting_instance` fail with a missing key, which
  ends the listener thread (`RequestRuns.ListenerNeverUntaints`,
  `RequestWitnesses.RemovedWaitingNodeKillsListener`); the branch that would put a tainted server back
  into service never succeeds in any reachable state.
- A scale event marks nothing as changed, so quiet front ends are stale until the next timeout
  (`Coordinator.ScalingIsNotAnnounced`).
- Two counts for the same FFN rank disagree when one of several peers is idle
  (`TokenCounts.AggregatesDifferOnIdlePeers`).
- The forced routing validates top-k only for a limited pool (`BalancedRouting.ForcedRowsAreDistinct`).

## Model

| member | source | states |
|---|---|---|
| `HeapIndex.IndexCovers` | tools/proxy_server.py:283-315 | a heap that indexes the live servers holds at least one entry per server, and is empty when there are none |
| `HeapIndex.NoTies` | tools/proxy_server.py:287-290 | no two entries of an indexed heap tie on (priority, ordinal, sequence number), so the key part of the heap order is never consulted |
| `HeapIndex.PushIndexes` | tools/proxy_server.py:283-290 | one push under the next sequence number turns a heap that is out of date for a key back into an exact index |
| `HeapIndex.PopLeast` | tools/proxy_server.py:294-302 | a popped entry with an old sequence number leaves the index exact; the first current one is the least of all live servers' entries |
| `HeapIndex.RebuiltIsIndex` | tools/proxy_server.py:305-315 | a rebuild yields an exact index with exactly one entry per live server |
| `SchedulerSpec.BestIsUnique` | tools/proxy_server.py:271-303 | ordinals make the least server by (priority, ordinal) unique, so the specification of a pick has one answer |
| `SchedulerSpec.TaintedIsLastResort` | tools/proxy_server.py:276-303 | a tainted server is never the pick while an untainted one has a priority below TAINT_PRIORITY |
| `SchedulerLaws.PrefillPickIsLeastLoaded` | tools/proxy_server.py:271-303 | while some untainted prefiller weighs less than the taint priority, the pick is untainted and least in ten times its tokens plus three times its KV; the oldest of several wins |
| `SchedulerLaws.DecodePickIsLeastLoaded` | tools/proxy_server.py:276-303 | decoders are picked by their tokens alone, whatever their KV; the oldest of several wins |
| `SchedulerLaws.AllTaintedPicksTheOldest` | tools/proxy_server.py:276-303 | if every server is tainted, the oldest one is picked |
| `SchedulerLaws.RequestsSpreadOverIdlePrefillers` | tools/proxy_server.py:361-401 | as long as there are idle untainted prefillers, consecutive requests go to different ones, each charged once and each counted |
| `SchedulerLaws.NothingToPick` | tools/proxy_server.py:294-303 | an empty pool is neither picked from nor charged nor counted |
| `SchedulerLaws.InitHoldsTheConfigured` | tools/proxy_server.py:245-258 | a new scheduler has exactly the configured servers, idle, with ordinals in the configured order and prefillers first |
| `SchedulerLaws.AddInstancesQueuesTheNew` | tools/proxy_server.py:442-454 | queued are, in order, exactly the addresses neither live nor waiting nor listed before; each waits with no retry, and nothing else changes |
| `SchedulerLaws.RemovalTaintsOrDeletes` | tools/proxy_server.py:479-503 | a removal asks to wait exactly while requests are counted, and then taints the listed keys; otherwise they leave servers, taints and waiting list |
| `SchedulerLaws.ActivationAddsOrUntaints` | tools/proxy_server.py:463-473 | activation takes the key off the waiting list and either clears its taint or adds it idle under the next ordinal; it fails exactly on a tainted key that is not live |
| `SchedulerLaws.FinishGivesBack` | tools/proxy_server.py:420-436 | a finish changes the named decoder's tokens, if asked the named prefiller's KV, and the count, each by exactly what the code subtracts |
| `ProxyScheduler.RolePools.HeapBounds` | tools/proxy_server.py:283-315 | between operations the heap length lies between the number of servers and twice that number |
| `ProxyScheduler.RolePools.ResetHeap` | tools/proxy_server.py:305-315 | rebuilding restores the index invariant and changes nothing a client can see; it gives every server the next sequence number if asked to, and otherwise none |
| `ProxyScheduler.RolePools.PushHeap` | tools/proxy_server.py:283-292 | after a push, and the rebuild it may trigger, the index is exact again and within its bound |
| `ProxyScheduler.RolePools.PopValid` | tools/proxy_server.py:294-303 | the lazy heap answers with the least live server, fails exactly on an empty pool, and pops at most one entry more than there are servers |
| `ProxyScheduler.RolePools.PickServer` | tools/proxy_server.py:361-376 | picking refines the heap-free specification: same answer, and only the picked server is charged |
| `ProxyScheduler.RolePools.ReleaseLoad` | tools/proxy_server.py:378-394 | releasing touches one live server, clamps KV pressure at zero, ignores missing keys, and keeps the index exact |
| `ProxyScheduler.RolePools.Drop` | tools/proxy_server.py:495-501 | removing servers drops exactly the given keys and taints and leaves an exact index, also for keys added again later |
| `ProxyScheduler.RolePools.Untaint` | tools/proxy_server.py:467-471 | clearing a taint keeps the index exact, and reports failure exactly when the key is not live |
| `ProxyScheduler.Scheduler.constructor` | tools/proxy_server.py:245-258 | a new scheduler satisfies the invariant and holds the configured servers in order, idle |
| `ProxyScheduler.Scheduler.AddServerNoLock` | tools/proxy_server.py:317-324 | adding a server gives it an ordinal no other server has and indexes it, unless the key is live already |
| `ProxyScheduler.Scheduler.BeginRequest` | tools/proxy_server.py:396-401 | refines the specification: the best prefiller is charged and counted, or nothing changes |
| `ProxyScheduler.Scheduler.ReservePrefillKv` | tools/proxy_server.py:403-406 | refines the specification of a reservation that is not counted |
| `ProxyScheduler.Scheduler.PickDecoder` | tools/proxy_server.py:408-410 | refines the specification of a decoder pick |
| `ProxyScheduler.Scheduler.ReleasePrefillKv` | tools/proxy_server.py:412-414 | refines the specification of a KV release and keeps the index exact |
| `ProxyScheduler.Scheduler.ReleaseDecoder` | tools/proxy_server.py:416-418 | refines the specification of a decoder release and keeps the index exact |
| `ProxyScheduler.Scheduler.FinishRequest` | tools/proxy_server.py:420-436 | refines the specification of a finish: optional KV release, decoder release, count down to no less than zero |
| `ProxyScheduler.Scheduler.AddInstances` | tools/proxy_server.py:442-454 | queues exactly the addresses neither live in the role nor waiting, in order |
| `ProxyScheduler.Scheduler.MarkWaitingRetry` | tools/proxy_server.py:456-461 | changes the retry count of a node that is still waiting and nothing else |
| `ProxyScheduler.Scheduler.DropWaitingInstance` | tools/proxy_server.py:475-477 | takes exactly one key off the waiting list |
| `ProxyScheduler.Scheduler.ActivateWaitingInstance` | tools/proxy_server.py:463-473 | activation keeps the whole invariant even when it fails with the missing key of a tainted, no longer live server |
| `ProxyScheduler.Scheduler.RemoveInstances` | tools/proxy_server.py:479-503 | taints while requests are counted and deletes otherwise, as specified, and keeps the index exact |
| `ProxyScheduler.Scheduler.FinalizeTaintedInstances` | tools/proxy_server.py:505-518 | refines the specification of the final removal, in both roles |
| `RequestSafety.StepKeeps` | tools/proxy_server.py:944-1222 | every event of every request, of the listener and of administration keeps the invariant; every event but a recompute keeps KV accounting exact |
| `RequestRuns.EveryRunIsSafe` | tools/proxy_server.py:944-1222 | in every interleaving the request count is the number of begun, unfinished requests, held servers are live, and KV pressure lies between zero and the outstanding reservations |
| `RequestRuns.BooksBalance` | tools/proxy_server.py:1094-1119 | without a recompute, every interleaving keeps each prefiller's KV and each decoder's tokens equal to the reservations outstanding there |
| `RequestRuns.DrainedMeansIdle` | tools/proxy_server.py:420-436 | without a recompute, a request count of zero means that no reservation is left and every server carries no load |
| `RequestRuns.ClampNeverBites` | tools/proxy_server.py:390-393 | while the books are exact, whichever event gives a request's KV back (an abort, the first chunk, the finish) takes exactly that much off a pressure that is at least that high |
| `RequestRuns.RecomputeReleasesTwice` | tools/proxy_server.py:1046-1051 | a recompute releases KV the first chunk already released; exactness survives if and only if the prefiller has no pressure left |
| `RequestRuns.DecoderBooksBreakExactlyOnOverRelease` | tools/proxy_server.py:1202-1205 | balanced decoder books break in a step if and only if it finishes a request whose reassignment failed after giving its positive decoder load back |
| `RequestWitnesses.FailedReassignDrivesDecoderNegative` | tools/proxy_server.py:1040-1059 | a concrete eight-event run in which one prefiller and one decoder end with a decoder load of -4 |
| `RequestWitnesses.RecomputeTakesAnothersKv` | tools/proxy_server.py:1046-1051 | a concrete run in which a recompute takes the KV of a second request: the prefiller shows no pressure while that request still reserves there |
| `RequestDrain.FinishedHoldsExactly` | tools/proxy_server.py:1184-1205 | a step ends a request that still holds a reservation if and only if it is the finish of a failed reassignment that holds KV, or a decoder load it reserved again |
| `RequestDrain.LeakedExactly` | tools/proxy_server.py:1184-1205 | in every run, some finished request holds a reservation if and only if such a finish happened |
| `RequestDrain.BrokenReassignmentsLeak` | tools/proxy_server.py:977-1037 | a request gets into that state exactly by being cancelled in its second prefill or by finding no clients after its second decoder pick, and leaves it only by finishing or being abandoned |
| `RequestDrain.BrokenReassignmentKeepsItsHolds` | tools/proxy_server.py:1018-1037 | such a reassignment ends as a finished request that keeps its KV on a live prefiller and, in the second case, its new decoder load |
| `RequestDrain.DrainedReservesNothing` | tools/proxy_server.py:420-436 | in every run, a request count of zero means that nothing is reserved if and only if no leaking finish happened, and if and only if no reassignment broke off after reserving again |
| `RequestWitnesses.CancelledReassignLosesItsServer` | tools/proxy_server.py:1040-1059 | a concrete run, cancelled in the second prefill, that ends with count 0 and KV reserved on a prefiller which the next removal deletes |
| `RequestWitnesses.ClientlessReassignLosesBothServers` | tools/proxy_server.py:1018-1019 | a concrete run, without clients after the second decoder pick, that ends with count 0 and loads reserved on a prefiller and a decoder which the next removals delete |
| `RequestDrain.DoneIsFinal` | tools/proxy_server.py:1202-1222 | a finished request is never changed again, so no request finishes twice |
| `RequestDrain.DrainIsSafe` | tools/proxy_server.py:479-518 | in every run a server is deleted only at count zero, by the two removal paths, when every begun request has finished; nothing is reserved anywhere then if and only if no leaking finish happened, equivalently no reassignment broke off after reserving again |
| `RequestDrain.DeletersCheckTheCount` | tools/proxy_server.py:487-518 | in every state that satisfies the invariant, only the two removal paths can delete a server, and only at a request count of zero |
| `RequestDrain.DeletedExactly` | tools/proxy_server.py:479-518 | a step deletes a live server if and only if the count is zero and it is a removal naming the server in its role, or the end of a listener pass with the server tainted |
| `RequestDrain.LosesExactly` | tools/proxy_server.py:977-1019 | a step loses a request if and only if it cancels its first prefill, finds no clients after its first decoder pick, or abandons its stream before the finally block |
| `RequestDrain.LostRequestsBlockTheDrain` | tools/proxy_server.py:977-1009 | a lost request is never counted down, keeps what it reserved, and no server is deleted in any continuation |
| `RequestDrain.DrainsUnlessLost` | tools/proxy_server.py:420-436 | some continuation brings the request count to zero if and only if no request is lost |
| `RequestWitnesses.CancelledRequestBlocksTheDrain` | tools/proxy_server.py:977-1009 | a concrete two-event run, cancelled in the first prefill, after which no continuation drains |
| `RequestRuns.ListenerNeverUntaints` | tools/proxy_server.py:463-473 | activating a waiting node ends the listener exactly when its key is tainted in its role; otherwise it adds the server, unloaded |
| `RequestRuns.DeadListenerStaysDead` | tools/proxy_server.py:604-626 | after such a failure taints change only through further removals, in every continuation |
| `RequestWitnesses.RemovedWaitingNodeKillsListener` | tools/proxy_server.py:463-473 | a concrete run: a node queued and then removed while a request is open ends the listener once it answers |
| `RequestListener.PassChecksAllWaiting` | tools/proxy_server.py:604-611 | a listener pass checks every waiting node once, as it waited when the pass began |
| `RequestListener.FailedCheckCounts` | tools/proxy_server.py:612-625 | a failed check adds one retry to its node or takes it off the list at the limit, and changes nothing else |
| `RequestListener.UnreachableNodeLeavesAtTheLimit` | tools/proxy_server.py:604-625 | in every run in which a waiting node never answers, its retry count is the number of its failed checks, and it leaves the list exactly at the check that reaches the limit |
| `RequestProtocol.ScoresAreAffine` | tools/proxy_server.py:205-211 | the prefill score grows by 0.0345 for every four bytes from 120.0745, the decode score by one per byte |
| `StagePlanner.PlannerRefuses` | afd_plugin/model_executor/npu/async_cam_ubatching.py:45-103 | exactly which inputs raise, and exactly which are left unstaged |
| `StagePlanner.PlannerCovers` | afd_plugin/model_executor/npu/async_cam_ubatching.py:59-115 | two non-empty slices cover the tokens in order, each request slice is exactly the requests that intersect its token slice, and each extent is the least aligned one |
| `StagePlanner.TokenSplitIsBalanced` | afd_plugin/model_executor/npu/async_cam_ubatching.py:84-101 | the token split gives the first stage as many tokens as the second or one more |
| `StagePlanner.RequestSplitIsNearest` | afd_plugin/model_executor/npu/async_cam_ubatching.py:65-75 | the request split beats every other boundary on distance to the token middle, then to the request middle, then on position |
| `StagePlanner.RequestsAreFlattened` | afd_plugin/model_executor/npu/async_cam_ubatching.py:45-58 | in the flattened batch, request j has exactly the tokens between its two cumulative sums |
| `StagePlanner.AlignIsLeast` | afd_plugin/model_executor/npu/async_cam_ubatching.py:118-119 | rounding up reaches the least multiple that covers the tokens |
| `CamLayout.ValidatePlan` | afd_plugin/model_executor/models/npu/async_cam_layout.py:43-76 | accepts exactly the plans whose slices are non-empty, contiguous from token 0, within their extents and within the parent |
| `CamLayout.PlannerPlansAreWellFormed` | afd_plugin/model_executor/models/npu/async_cam_layout.py:43-76 | every planned batch passes validation for every parent extent that covers it, and divides over the ranks under sequence parallelism |
| `CamLayout.BuildStageInputs` | afd_plugin/model_executor/models/npu/async_cam_layout.py:238-383 | on all ranks at once: raises exactly when a tensor's rows or an extent do not fit, and otherwise every stage of every tensor is its slice of the whole batch, padded and laid out over the ranks |
| `CamLayout.TrimRealStageOutputs` | afd_plugin/model_executor/models/npu/async_cam_layout.py:599-617 | succeeds exactly on outputs of the planned extents and keeps their real rows |
| `CamLayout.LayOutAt` | afd_plugin/model_executor/models/npu/async_cam_layout.py:349-366 | which row of a whole tensor each rank holds at each place, with and without sequence parallelism |
| `CamLayout.WholeAt` | afd_plugin/model_executor/models/npu/async_cam_layout.py:522-533 | which rank's row stands at each place of what a coherent group holds together |
| `CamLayout.StageRowOnRank` | afd_plugin/model_executor/models/npu/async_cam_layout.py:313-366 | what each rank holds at each place of a stage: the stage's token at that place, or a zero row |
| `CamLayout.ParentRowsAt` | afd_plugin/model_executor/models/npu/async_cam_layout.py:386-441 | which stage's row stands at each place of the restored parent, and where its zero rows begin |
| `CamLayout.RestoreStageOutputs` | afd_plugin/model_executor/models/npu/async_cam_layout.py:386-441 | raises exactly on a wrong stage count, wrong extents or an indivisible parent, and otherwise gives the real rows in parent order, zero padded, in the parent layout |
| `CamLayout.RestoredIsLaidOut` | afd_plugin/model_executor/models/npu/async_cam_layout.py:410-441 | restoring stages that the ranks hold coherently lays the parent rows out over the ranks again |
| `CamLayout.ParentOfMappedStages` | afd_plugin/model_executor/models/npu/async_cam_layout.py:386-441 | cutting, mapping every row and restoring gives the mapped real rows followed by zero rows, whatever the stages were padded with |
| `CamLayout.RoundTrip` | afd_plugin/model_executor/models/npu/async_cam_layout.py:238-441 | build, any per-row function on every rank, restore: no guard fires and every rank ends with its shard, or its copy, of the mapped real rows and zero padding |
| `CamLayout.ParentOfMaps` | afd_plugin/model_executor/models/npu/deepseek_v2_async_cam_forward.py:489-505 | restoring commutes with per-row functions, so hidden states and residual may be restored side by side and split again |
| `CamDispatch.EachTokenDispatchedOnce` | afd_plugin/model_executor/models/npu/async_cam_layout.py:188-212 | under plain TP the payloads in rank order are the replicated rows and fewer than one row per rank of padding, each payload the slice its layout records: each token is sent by exactly one rank |
| `CamDispatch.OwnRowsPassThrough` | afd_plugin/model_executor/models/npu/async_cam_layout.py:132-187 | routes of another length are refused, and with sequence parallelism or one rank a rank sends exactly what it holds and gathers nothing |
| `CamDispatch.DispatchRoundTrip` | afd_plugin/model_executor/models/npu/async_cam_layout.py:132-235 | dispatch, any function of each row with its route, and restore is that function on the rows every rank held; no guard fires |
| `CamDispatch.RestoreAll` | afd_plugin/model_executor/models/npu/async_cam_layout.py:215-235 | restores every rank or refuses exactly when some rank's rows do not match its layout |
| `CamConnector.Connector.SendAttnOutput` | afd_plugin/connectors/npu/async_cam.py:494-578 | queues the context under its stage and the dispatch on the wire, or refuses routing whose rows differ and changes nothing |
| `CamConnector.Connector.RecvFfnOutput` | afd_plugin/connectors/npu/async_cam.py:580-676 | the oldest context of the stage meets the oldest dispatch; each failure leaves no output, success takes exactly one of each |
| `CamConnector.OwnContextGivesFfn` | afd_plugin/connectors/npu/async_cam.py:612-631 | a dispatch answered with its own context has at every place what the combine makes of the expert's row for that layer, row and route |
| `CamConnector.AnsweredDispatch` | afd_plugin/connectors/npu/async_cam.py:532-536 | a dispatch answered with its own context restores, on every rank, to the feed-forward of the rows that rank held |
| `CamSchedule.ScheduleAlternates` | afd_plugin/model_executor/models/npu/deepseek_v4.py:511-528 | n layers make 2n dispatches and 2n receives that strictly alternate, and the k-th receive has the context of, and is answered by, the k-th dispatch |
| `CamSchedule.ScheduleInFull` | afd_plugin/model_executor/models/npu/deepseek_v4.py:511-528 | the whole trace of n layers: 6n events, in every turn a stage computes while the dispatch before it is out, takes the answer of that dispatch, and then sends its own |
| `AsyncCamV2.Pipeline.ComputeStageAttention` | afd_plugin/model_executor/models/npu/deepseek_v2_async_cam_forward.py:278-360 | attends one stage exactly when its rows fit the plan before and after and routing is present |
| `AsyncCamV2.Pipeline.SendStageAttention` | afd_plugin/model_executor/models/npu/deepseek_v2_async_cam_forward.py:362-390 | dispatches the stage's payload once and remembers its layout |
| `AsyncCamV2.Pipeline.RecvStageFfn` | afd_plugin/model_executor/models/npu/deepseek_v2_async_cam_forward.py:392-408 | restores the stage's rows and clears its slot exactly when a dispatch is pending and can be restored |
| `AsyncCamV2.Pipeline.Turn` | afd_plugin/model_executor/models/npu/deepseek_v2_async_cam_forward.py:428-439 | stage s computes while the other is with the experts; the other completes its layer and s is the only dispatch left in flight |
| `AsyncCamV2.Pipeline.RunStages` | afd_plugin/model_executor/models/npu/deepseek_v2_async_cam_forward.py:410-467 | for every n >= 1 the pipelined run leaves both stages where the layer-by-layer run of that stage alone leaves them, with the schedule's exact trace, empty queues and no guard fired |
| `AsyncCamV2Forward.RestoreStageState` | afd_plugin/model_executor/models/npu/deepseek_v2_async_cam_forward.py:475-506 | hidden states and residual are restored together; mixed residuals are refused |
| `AsyncCamV2Forward.RunForward` | afd_plugin/model_executor/models/npu/deepseek_v2_async_cam_forward.py:213-472 | mode mismatch, dense layers after MoE layers and misfit inputs are refused, exactly then; otherwise every dense layer takes the parent state to the next, and the result is the last one, or what the stages make of it |
| `AsyncCamV2Forward.ForwardRuns` | afd_plugin/model_executor/models/npu/deepseek_v2_async_cam_forward.py:262-472 | what the stages make of it: each starts from its own tokens and positions, every MoE layer is attention and then expert and combine on every row, and the parent has the real rows of where both end, then zero rows |
| `AsyncCamV2Forward.RowwiseRunsAreUncut` | afd_plugin/model_executor/models/npu/deepseek_v2_async_cam_forward.py:262-472 | when every stage's run works row by row, the restored hidden states are that function on the uncut batch, then zero rows |
| `StagedBatch.PlannedBatchFits` | afd_plugin/model_executor/models/npu/deepseek_v2_async_cam_forward.py:262-268 | a planned batch always fits the forward when the parent extent covers it and divides over the ranks |
| `DeferredReceive.Forward.Run` | afd_plugin/model_executor/models/npu/deepseek_v2_async_cam_forward.py:112-210 | for any mix of dense and MoE layers, receiving one layer late goes through the same states as receiving at once: each dense layer on the batch, each MoE layer as attention, expert and combine on every row |
| `DeferredReceive.ImmediateEventsAre` | afd_plugin/model_executor/models/npu/deepseek_v2_async_cam_forward.py:112-210 | each MoE layer makes its three events in layer order, dense layers none |
| `AsyncCamV4.PadStageInputIds` | afd_plugin/model_executor/models/npu/deepseek_v4_async_cam_forward.py:44-80 | refuses exactly ids that do not cover the batch or stages that do not divide, and otherwise gives each stage its ids, padded with -1, in the stage's own layout |
| `AsyncCamV4.IdsFollowRows` | afd_plugin/model_executor/models/npu/deepseek_v4_async_cam_forward.py:61-79 | on every rank, row and id at the same place belong to the same token, and padded rows carry the padding id |
| `AsyncCamV4.Stages.ComputeStageAttention` | afd_plugin/model_executor/models/npu/deepseek_v4_async_cam_forward.py:159-212 | fills the stage's dispatch and state slots and leaves the other stage alone |
| `AsyncCamV4.Stages.SendStageAttention` | afd_plugin/model_executor/models/npu/deepseek_v4_async_cam_forward.py:214-236 | sends exactly when the stage has a computed dispatch, and moves it from the computed to the outstanding slot |
| `AsyncCamV4.Stages.ReceiveAndComplete` | afd_plugin/model_executor/models/npu/deepseek_v4_async_cam_forward.py:238-264 | completes exactly when the stage has outstanding work that can be restored, and clears its slots |
| `AsyncCamV4.Stages.RunSchedule` | afd_plugin/model_executor/models/npu/deepseek_v4.py:497-528 | for any number of layers, never succeeds when some layer of the range does not route on the Attention side; otherwise, from freshly set-up stages, no guard fires, both stages end where their own layer-by-layer run ends, with the same trace as the other forward |
| `AsyncCamV4Forward.RunForward` | afd_plugin/model_executor/models/npu/deepseek_v4_async_cam_forward.py:83-277 | succeeds exactly for two stages, the right mode, a fitting plan, enough ids and layers that all route on the Attention side, and then returns each stage's sequential run in the parent layout |
| `AsyncCamV4Forward.ForwardRuns` | afd_plugin/model_executor/models/npu/deepseek_v4_async_cam_forward.py:83-277 | each stage starts from its own tokens, positions and ids, every layer is attention, expert and combine on every row, and the fold back into the stream; the parent has the real rows of where both end, then zero rows |
| `Topology.OwnerIffInBlock` | afd_plugin/distributed/topology.py:108-115 | a*F//A == f exactly when a lies in the block that the ceiling divisions list for f |
| `Topology.BlocksCover` | afd_plugin/distributed/topology.py:108-115 | the blocks start at 0 and end at A |
| `Topology.OwnerInRange` | afd_plugin/distributed/topology.py:136 | every Attention rank belongs to one of the F subgroups |
| `Topology.BlocksAreBalanced` | afd_plugin/distributed/topology.py:150-154 | every block is non-empty and two blocks differ in size by at most one |
| `Topology.BuildRankMapping` | afd_plugin/distributed/topology.py:118-182 | rejects exactly A < F and out-of-range ranks, and otherwise computes the mapping the lemmas below are about |
| `Topology.MappingMeans` | afd_plugin/distributed/topology.py:118-182 | every field of the mapping in the configured sizes alone: subgroup rank*F//A, roster of exactly the ranks so assigned in ascending order, destinations, and P2P rank |
| `Topology.MembersAgree` | afd_plugin/distributed/topology.py:155-163 | two processes of a subgroup compute the same roster, find themselves in it, and are on no other subgroup's roster |
| `Topology.PlacesAreDistinct` | afd_plugin/distributed/topology.py:162-163 | subgroup and rank within it identify the process |
| `Topology.PlacesAreTaken` | afd_plugin/distributed/topology.py:155-163 | every place of every roster is taken by a process that computes that place |
| `Topology.DestinationsAre` | afd_plugin/distributed/topology.py:166-172 | the destination loop lists exactly the FFN ranks congruent to the sender |
| `Topology.ControlSourceIsTheSender` | afd_plugin/connectors/gpu/p2p.py:871 | an FFN rank receives from the one Attention rank that lists it as a destination |
| `TokenCounts.PeerCountsAgree` | afd_plugin/connectors/gpu/p2p.py:749-793 | what an FFN rank derives for a roster position is what that Attention process derives for itself |
| `TokenCounts.RankContribution` | afd_plugin/connectors/gpu/p2p.py:880-902 | what an Attention rank contributes for whole, per-data-parallel-rank, short and missing count vectors; never less than one row |
| `TokenCounts.AggregateCountsTheRows` | afd_plugin/v1/worker/ffn_metadata.py:10-55 | when every peer on the roster sends what it contributes, the aggregate is the number of rows received |
| `TokenCounts.AggregateIsPeerTotal` | afd_plugin/v1/worker/ffn_metadata.py:10-55 | for every count vector, the aggregate of an FFN rank is the sum of what its own peers contribute |
| `TokenCounts.AggregateConserves` | afd_plugin/v1/worker/ffn_metadata.py:44-55 | the FFN ranks' counts add up to the Attention ranks' counts |
| `TokenCounts.ProjectionKeepsCounts` | afd_plugin/v1/worker/ffn_metadata.py:58-73 | projecting to data-parallel ranks and expanding again is the identity exactly when the ranks of each group agree |
| `TokenCounts.ProjectionTakesTheFirst` | afd_plugin/v1/worker/ffn_metadata.py:58-73 | each data-parallel rank is represented by its first rank; vectors that do not divide stay as they are |
| `TokenCounts.RecvAttnOutput` | afd_plugin/connectors/gpu/p2p.py:474-552 | concatenates the peers in order and records their lengths |
| `TokenCounts.SendFfnOutput` | afd_plugin/connectors/gpu/p2p.py:586-618 | refuses exactly a wrong total or an uneven fallback split; otherwise consecutive slices of the recorded sizes that cover every row once |
| `TokenCounts.ServePeers` | afd_plugin/connectors/gpu/p2p.py:459-618 | concatenate, any per-row feed-forward, split: every peer gets back exactly its own mapped rows |
| `TokenCounts.KeyHoldsReceiveCounts` | afd_plugin/v1/worker/cuda_graph.py:177-198 | the aggregated graph key holds, for every FFN rank, the count the CAM P2P connector receives |
| `TokenCounts.AggregatesDifferOnIdlePeers` | afd_plugin/connectors/npu/camp2p.py:792-810 | the CAM P2P count equals the per-peer aggregate exactly when the rank has no idle peer, or a single peer |
| `TokenCounts.GroupTokens` | afd_plugin/connectors/npu/camp2p.py:792-810 | the CAM P2P count is the number of rows the group's ranks hold together, at least one; the fallback and the division by zero come exactly where the code has them |
| `FfnGraphCache.MakeFfnGraphKey` | afd_plugin/v1/worker/cuda_graph.py:104-133 | the key lists every stage once, in ascending order, with its counts |
| `FfnGraphCache.KeyDeterminesMetadata` | afd_plugin/v1/worker/cuda_graph.py:104-133 | equal keys come from equal metadata |
| `FfnGraphCache.MetadataDeterminesKey` | afd_plugin/v1/worker/cuda_graph.py:104-133 | equal metadata give equal keys |
| `FfnGraphCache.Runner.UpdateState` | afd_plugin/connectors/gpu/p2p.py:749-820 | for every stage and every Attention rank of the subgroup, the place that rank computes for itself has the count that rank computes for itself, the total is the aggregate, every shape keeps one buffer, and no buffer is ever replaced |
| `FfnGraphCache.Runner.ExecuteModel` | afd_plugin/v1/worker/ffn_model_runner.py:134-165 | replays exactly when asked to and a graph for equal metadata was captured; the replayed graph receives every peer's own current count at that peer's place, into buffers that are still the ones kept |
| `FfnGraphCache.Runner.CaptureModel` | afd_plugin/v1/worker/ffn_model_runner.py:293-373 | a capture, and nothing else, makes the metadata replayable |
| `FfnGraphCache.Runner.Step` | afd_plugin/v1/worker/ffn_worker.py:189-209 | one turn of the server loop keeps the cache invariant and replays exactly the captured metadata |
| `FfnGraphCache.Runner.Serve` | afd_plugin/v1/worker/ffn_worker.py:189-209 | for any payload sequence, every replay uses a graph captured earlier for equal metadata and receives every peer's own count at that peer's place, in buffers kept at that turn and unchanged at every later one |
| `Coordinator.Process.Step` | afd_plugin/compat/patches/async_dp_engine.py:474-658 | the loop body does what the step function says, and dies exactly on statistics of an unknown engine |
| `CoordinatorTurns.FirstRequestWakes` | afd_plugin/compat/patches/async_dp_engine.py:549-573 | a first request to paused engines starts the current wave once, excluding nobody if the message is stale, and is announced once |
| `CoordinatorTurns.CompletionPauses` | afd_plugin/compat/patches/async_dp_engine.py:625-641 | the end of the current or a later wave pauses the engines at the next wave and is announced once; an older one does nothing |
| `CoordinatorTurns.NoticeStarts` | afd_plugin/compat/patches/async_dp_engine.py:642-658 | a notice of a later wave, or of the current one while paused, starts it on all other engines and is announced once; any other does nothing |
| `CoordinatorTurns.WavesAlternate` | afd_plugin/compat/patches/async_dp_engine.py:549-641 | request, completion, request: two starts of consecutive waves, with a pause between |
| `CoordinatorTurns.WaveChangesAreAnnounced` | afd_plugin/compat/patches/async_dp_engine.py:655-658 | whatever a turn reads, front ends get one wave message exactly when it changed or started a wave |
| `CoordinatorTurns.BothInputsAreRead` | afd_plugin/compat/patches/async_dp_engine.py:505-658 | a first request and an engine's output in one turn do what they do in two |
| `CoordinatorTurns.ReportIsTaken` | afd_plugin/compat/patches/async_dp_engine.py:588-620 | a report sets its engine's cell, holds back changed counts exactly at a later step, and kills the process exactly for an unknown engine |
| `CoordinatorTurns.StepIsPublishedWhole` | afd_plugin/compat/patches/async_dp_engine.py:479-620 | however many engines report a later step, the changed counts of the step before are held back whole and are what the next timeout publishes |
| `CoordinatorTurns.TimeoutPublishes` | afd_plugin/compat/patches/async_dp_engine.py:479-492 | a timeout sends one message, what is held back or else the present counts, and only the latter settles the change |
| `CoordinatorTurns.ScalingKeepsTheRest` | afd_plugin/compat/patches/async_dp_engine.py:520-547 | scaling keeps the counts of engines that stay, adds idle ones, and leaves the output of that turn unread |
| `Coordinator.StartsQuiet` | afd_plugin/compat/patches/async_dp_engine.py:406-414 | a fresh coordinator satisfies the wave and the statistics invariants, and without wave coordination shows no trace of waves |
| `Coordinator.WavesOnlyRise` | afd_plugin/compat/patches/async_dp_engine.py:555-573 | in every run the wave never goes back, no wave is started twice, and front ends never see an older wave after a newer one |
| `Coordinator.UncoordinatedStaysAtZero` | afd_plugin/compat/patches/async_dp_engine.py:622-658 | without wave coordination the wave stays 0, engines are never marked running and nothing is broadcast |
| `Coordinator.QuietMeansPublished` | afd_plugin/compat/patches/async_dp_engine.py:479-492 | between scale events, a held snapshot implies pending changes, and without pending changes the last published counts are current |
| `Coordinator.ScalingIsNotAnnounced` | afd_plugin/compat/patches/async_dp_engine.py:520-547 | a scale event leaves quiet front ends up to date exactly when it keeps the number of engines |
| `Coordinator.TwoTimeoutsPublishCurrent` | afd_plugin/compat/patches/async_dp_engine.py:481-492 | two timeouts in a row publish the current counts from any state |
| `Coordinator.OneTimeoutPublishesCurrent` | afd_plugin/compat/patches/async_dp_engine.py:483-487 | one timeout is enough exactly when nothing is held back or what is held back is still true |
| `Coordinator.NoInventedCounts` | afd_plugin/compat/patches/async_dp_engine.py:586-620 | everything held back or published was the coordinator's state at some earlier turn |
| `RequestCounts.Engine.PublishRequestCounts` | afd_plugin/compat/patches/engine_core.py:478-505 | the queue is the changes-only report of what was observed |
| `RequestCounts.Engine.RunBusyLoop` | afd_plugin/compat/patches/engine_core.py:459-475 | the two observations of every turn go through the same changes-only report, in order |
| `RequestCounts.CellHoldsLastRead` | afd_plugin/compat/patches/async_dp_engine.py:588-620 | a cell holds the last report read for its engine, whatever other engines and timeouts do in between |
| `RequestCounts.NothingIsLost` | afd_plugin/compat/patches/engine_core.py:484-505 | once the queued reports are read, the cell's running and waiting counts are the two components the engine last observed |
| `RequestCounts.ReportsDiffer` | afd_plugin/compat/patches/engine_core.py:487-489 | no report repeats the one before it |
| `BalancedRouting.CycleIsProper` | afd_plugin/model_executor/routing_simulator.py:66-96 | the cycle names distinct experts within range, whatever the rank and the pool limit |
| `BalancedRouting.CyclePlaces` | afd_plugin/model_executor/routing_simulator.py:71-96 | entry i of a limited cycle is the (i mod topn)-th expert of the rank i/topn places after the source rank |
| `BalancedRouting.LimitedCycleHolds` | afd_plugin/model_executor/routing_simulator.py:73-84 | a limited cycle has exactly the experts whose place in their rank is below the limit |
| `BalancedRouting.RanksShareTheCycle` | afd_plugin/model_executor/routing_simulator.py:73-84 | every rank has exactly topn places of a limited cycle |
| `BalancedRouting.UnlimitedCycleHolds` | afd_plugin/model_executor/routing_simulator.py:85-96 | without a limit every expert is in the cycle |
| `BalancedRouting.UnlimitedCycleShifts` | afd_plugin/model_executor/routing_simulator.py:85-96 | an unlimited cycle is the shuffle with every expert moved by whole ranks |
| `BalancedRouting.ShiftMovesBlocks` | afd_plugin/model_executor/routing_simulator.py:95-96 | the source-rank shift moves whole rank blocks onto rank blocks, place by place |
| `BalancedRouting.ShiftIsInjective` | afd_plugin/model_executor/routing_simulator.py:95-96 | the shift maps no two experts to the same one |
| `BalancedRouting.TableAt` | afd_plugin/model_executor/routing_simulator.py:105-111 | token t takes the next top-k entries of the endless cycle |
| `BalancedRouting.RowDistinct` | afd_plugin/model_executor/routing_simulator.py:105-111 | a token's ids are distinct exactly when top-k does not exceed the cycle |
| `BalancedRouting.ValidRowsAreDistinct` | afd_plugin/model_executor/routing_simulator.py:46-63 | every configuration that passes validation gives every token distinct experts within range |
| `BalancedRouting.ForcedRowsAreDistinct` | afd_plugin/compat/patches/npu/force_load_balance.py:72-91 | the forced variant repeats an expert within a token exactly when all experts participate and top-k exceeds their number, which its validation lets through |
| `BalancedRouting.PrefixesAreBalanced` | afd_plugin/model_executor/routing_simulator.py:105-111 | in every prefix of the table any two experts of the cycle occur equally often, up to one |
| `BalancedRouting.OthersAreUnused` | afd_plugin/model_executor/routing_simulator.py:73-84 | experts outside the cycle are never chosen |
| `BalancedRouting.ExpertsBeyondTheLimitAreUnused` | afd_plugin/model_executor/routing_simulator.py:73-111 | with a limit, an expert whose place in its rank is at or beyond the limit is never chosen |
| `BalancedRouting.TablesArePrefixes` | afd_plugin/model_executor/routing_simulator.py:151-163 | a larger buffer starts with the rows of a smaller one |
| `BalancedRouting.Simulator.RouteTokens` | afd_plugin/model_executor/routing_simulator.py:134-163 | rows served from a cached or rebuilt buffer are the rows of a fresh build; invalid configurations are refused and change nothing |
| `BalancedRouting.ForcedMethod.GetTopkIds` | afd_plugin/compat/patches/npu/force_load_balance.py:162-187 | an owned buffer grows to at least twice its size and serves fresh rows for the configuration it was built for; a smaller batch of another configuration gets the old one's rows |

## Left out

- HTTP, streaming, process management, retry sleeps and JSON parsing of the proxy: input and output around the scheduler calls, of which only the order is kept.
- Updating a server record in place: a server is a value in the pool's map that every method replaces, so aliasing between a caller's reference and the record is not captured.
- ProxyScheduler.RolePools.HeapPop: takes any least entry of a multiset; the sifting inside `heapq` is not modelled, because entries never tie.
- RequestRuns.BooksBalance: covers runs without a recompute only, because a recompute can break exactness; the exact condition is in `RequestRuns.RecomputeReleasesTwice`, and `RequestRuns.EveryRunIsSafe` bounds the pressure in all runs.
- Snapshots, health checks and client synchronisation of the proxy: they only read.
- The guesses of which axis of the positions and scaling tensors counts tokens, and `llama_4_scaling` itself: the token axis is given, and scaling is part of the arbitrary attention function.
- Top-k weights and ids are one route per row, and `router_logits` are dropped: the three row-count checks of the dispatch become one.
- AsyncCamV2.Pipeline.RecvStageFfn: the dispatched tensor kept next to the layout is only a device and type reference, so one slot stands for both.
- AsyncCamV2.Pipeline.ComputeStageAttention: says nothing about the tensors left behind when it raises, because the exception ends the forward.
- AsyncCamV2Forward.RunForward: assumes well-behaved attention; what each guard does otherwise is stated by the stage methods it calls.
- AsyncCamV4Forward.RunForward: the copy into the multi-token-prediction buffer and the final head and norm are not modelled.
- CamConnector.Connector.RecvFfnOutput: a receive with nothing dispatched would wait for ever; the model returns a failure instead, and the pipelines never reach it.
- The FFN side of the CAM connector and its work items: foreign operators.
- The `input_ids` receive buffers and `router_logits` of the P2P connector: they follow the same rule as the hidden-state buffers.
- FfnGraphCache.Runner.Forward: records the receives of one layer, because every layer makes the same ones; the feed-forward itself is in `TokenCounts.ServePeers`.
- The NPU runner's own graph cache: only its aggregated key is related to the receive counts.
- Topology.BuildRankMapping: the role-rank resolution from process groups and the CAM P2P variant of the same loop are not modelled.
- Coordinator.Process.Step: sockets, clocks and the length of each wait are not modelled, so a timeout may happen at any turn; messages that cannot be decoded are left out.
- Wave handling inside the engine's own busy loop and the lockstep step counters it sends: the coordinator accepts any.
- Weights of the balanced routing (uniform) and the conversion of ids to other integer types.
- Model constructors, weight loading, quantisation, configuration parsing and profilers: no discrete property beyond one branch.
