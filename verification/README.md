# Single-queue block layer and greedy elevator

A Dafny model of the kernel part of the repository: the elevator core, the "greedy" I/O scheduler
and the single-queue block layer around them (`scheduler/kernel`). The model is a state machine whose
steps are the critical sections taken under the queue lock; the theorems are about every run of it.

The operations exist twice. Functions say what one critical section computes, and the invariants and
run theorems are proved about them. Classes (`RequestQueue.Queue`, `RequestLists.RequestList`,
`Completion.StartedRequest`, `DiskStats.Gendisk`, `MakeRequest.Task`, `PlugFlush.Plug`) perform the
operations in place with the loops of the C code. `Valid()` of a queue, a request list and a disk is the
invariant of the corresponding machine; the methods that callers use require and ensure it and promise
what callers rely on, and the routines below them are proved equal to the functions.

| file | contents |
|---|---|
| `Types.dfy`, `Lists.dfy` | small value types, C integer widths, intrusive lists as sequences |
| `BioChains.dfy` | the bio chain of a request; merging at either end |
| `Requests.dfy` | `struct request`, and counting over the request table |
| `Elevator.dfy` | merge hash, greedy lists, dispatch, merging, insertion, the driver side |
| `ElevatorSafety.dfy`, `ElevatorMachine.dfy` | the elevator invariant, each operation keeps it, theorems over runs |
| `MergeOffers.dfy` | when elv_merge must offer, when insertion must merge, and where it may stop |
| `MergeCascade.dfy` | what request merges, the insertion-merge loop and bio merges conserve |
| `ShortestSeek.dfy` | nearest-first dispatch, and when insertion keeps the lists sorted |
| `DispatchOrder.dfy` | sorted dispatch insertion, and when its order survives a boundary move |
| `OneWayService.dfy` | one-way service through any run of a uniform workload |
| `BackFence.dfy` | back insertion as a fence over whole runs |
| `WorkConserving.dfy` | fetching hands over everything held, each request once |
| `RequestLists.dfy` | the request allocator: counts, full and congested flags, resizing |
| `BugOns.dfy` | the BUG_ONs on the merge paths |
| `AllocatorBalance.dfy`, `BlockLayer.dfy` | allocation, plugging, elevator, driver, bypass and elevator switching, interleaved |
| `ElevatorSwitch.dfy`, `LayerEffects.dfy` | what a switch achieves over whole runs; what the other steps must do |
| `Completion.dfy` | partial completion, the error boundary |
| `DiskStats.dfy` | `io_ticks` and `time_in_queue` |
| `MakeRequest.dfy` | `generic_make_request` over stacked devices |
| `PlugFlush.dfy` | flushing a plug list |
| `QueueLimits.dfy` | chunk and alignment arithmetic |
| `QueueEffects.dfy`, `RequestQueue.dfy` | what callers of the request queue rely on; the queue updated in place |

## Where the code does not do what its comments say

Each of these is kept as the code has it, with a concrete witness and the exact condition:

- `add_to_higher` and `add_to_lower` link behind the entry where the walk stops. The lists stay sorted
  exactly when `ShortestSeek.HigherStaysSortedIff` and `LowerStaysSortedIff` say; witnesses
  `InsertionServesFarthestFirst` and `LowerInsertionServesFarthestFirst`.
- Seek distances are stored in `int`. Dispatch is nearest-first exactly when `ShortestSeek.DispatchIsNearest`
  says; witness `TruncationServesFartherFirst`.
- Two partial completions move the sector cursor as one does only if the shifts add up, and the end
  sector is kept only under a condition on the remainders: `Completion.UpdateComposes`, `EndSectorKept`;
  witness `UnalignedCompletionDrifts`.
- A front merge can leave a mixed request whose first bio lacks the request's failfast bits, and the
  `BUG_ON` in `blk_rq_err_bytes` fires on it: exactly when, `Completion.BuildBugIff`; witness
  `FrontMergeTripsErrBug`.
- Peeking at the head moves the boundary, and the requests behind it keep their order exactly when
  `DispatchOrder.PeekKeepsOrderIff` says; witness, as a run from a new queue, `MixedDirectionBreaksOrder`.
- The alignment formula is exact only when nothing wraps harmfully: `QueueLimits.AlignedIff`; witness
  `WrappedOffsetIsWrong`.

## Assumptions about code outside the model

- `blk_attempt_req_merge`, `attempt_back_merge`, `attempt_front_merge` and `blk_try_merge` are not part
  of this model. They may refuse at will (`Env`); when they merge, the two requests (or the request and
  the bio) are adjacent, of one direction and kind, and the bio has a positive number of whole sectors.
- `elevator_switch` calls are serialised by `sysfs_lock`, and queue registration sets INIT_DONE before it
  ends the initial bypass.
- An accounting event on a disk is atomic. `blk_queue_bio` accounts a plugged request without the queue
  lock (`scheduler/kernel/blk-core.c:1714`), so two CPUs can in fact round off one partition at once.
- `part_inc_in_flight` and `part_dec_in_flight` count a partition's request on the whole disk too.
- `list_sort` returns a sorted permutation.

## Model

| member | source | states |
|---|---|---|
| `ElevatorSafety.HashFindIsScan` | scheduler/kernel/elevator.c:272-291 | for any bucket function the lookup returns a request exactly when some mergeable pending request ends at the sector, and then such a request |
| `ElevatorSafety.HashFindOk` | scheduler/kernel/elevator.c:272-291 | the walk drops only hash nodes of requests that can no longer merge and keeps the whole invariant |
| `ElevatorSafety.RepositionOk` | scheduler/kernel/elevator.c:266-270 | after a reposition the hash is right about the request again, whatever it said before |
| `ElevatorSafety.GreedyDispatchOk` | scheduler/kernel/greedy-iosched.c:25-67 | dispatch keeps the invariant and touches nothing outside the elevator |
| `ElevatorSafety.DrainOk` | scheduler/kernel/elevator.c:578-591 | draining keeps the invariant, also while a request is being back-inserted |
| `ElevatorSafety.MergeRequestsOk` | scheduler/kernel/elevator.c:510-527 | a request merge restores the invariant even when the hash was stale about the survivor |
| `MergeOffers.InsertMergeDue` | scheduler/kernel/elevator.c:462-495 | merge-on-insert keeps the invariant and does what it has to: nothing under nomerges; exactly one merge if the cached request joins; nothing more under noxmerges; otherwise it goes on until no mergeable pending request ends where the surviving request starts, or one that does not join it |
| `MergeOffers.InsertMergeMust` | scheduler/kernel/elevator.c:480-494 | if some mergeable pending request ends where the new one starts and all such requests join it, the new request is merged away |
| `MergeOffers.CascadeStuck` | scheduler/kernel/elevator.c:484-492 | the loop stops only at a request it can merge no further |
| `ElevatorSafety.LatterIs` | scheduler/kernel/greedy-iosched.c:133-141 | greedy_latter_request is the next entry of the list or null at its end |
| `ElevatorSafety.FormerIs` | scheduler/kernel/greedy-iosched.c:123-131 | greedy_former_request is the previous entry of the list or null at its head |
| `ElevatorSafety.GrowFrontOk` | scheduler/kernel/blk-core.c:1503-1525 | a front merge needs no reposition: the invariant, with its hash keys, still holds |
| `ElevatorSafety.BackMergeBioOk` | scheduler/kernel/blk-core.c:1481-1501 | a back merge followed by a request merge or elv_merged_request keeps the invariant |
| `MergeOffers.ElvMergeOffers` | scheduler/kernel/elevator.c:411-453 | elv_merge keeps the invariant, offers only a pending, compatible request that the bio touches at the stated end, and makes the offer it has to: none under nomerges; the cached request, with the end the bio touches, if it may take the bio; only that one under noxmerges; otherwise a back merge whenever candidates end at the bio's start and all may take it, and none if none may |
| `MergeOffers.ForbiddenIsNotOffered` | scheduler/kernel/elevator.c:411-453 | a request marked unmergeable is not offered again |
| `MergeOffers.LookupCleansBucket` | scheduler/kernel/elevator.c:272-291 | a lookup that finds nothing leaves no unmergeable node in its bucket |
| `ElevatorSafety.MergeBioOk` | scheduler/kernel/blk-core.c:1648-1665 | the merge half of blk_queue_bio keeps the invariant |
| `MergeOffers.MergeBioDue` | scheduler/kernel/blk-core.c:1648-1665 | when the bio has to be merged and when it must not be, by cache, candidates and size limits |
| `MergeOffers.BackMergeNeighbour` | scheduler/kernel/blk-core.c:1651-1657 | after a back merge the request absorbs its list successor exactly when that joins it |
| `MergeOffers.FrontMergeNeighbour` | scheduler/kernel/blk-core.c:1658-1664 | after a front merge the request is absorbed by its list predecessor exactly when it joins it |
| `ElevatorSafety.AddRequestOk` | scheduler/kernel/elevator.c:593-673 | insertion at any place, with redirection and merging, keeps the invariant |
| `ElevatorSafety.PeekOk` | scheduler/kernel/blk-core.c:2278-2310 | peeking, with dispatch and boundary move, keeps the invariant |
| `ElevatorSafety.StartOk` | scheduler/kernel/blk-core.c:2367-2385 | dequeueing keeps the invariant and counts the request in flight |
| `ElevatorSafety.RequeueOk` | scheduler/kernel/elevator.c:559-576 | requeueing undoes the in-flight count and keeps the invariant |
| `ElevatorSafety.CompleteOk` | scheduler/kernel/elevator.c:732-745 | completion keeps the invariant and the counters exact |
| `ElevatorMachine.StepKeepsInv` | scheduler/kernel/elevator.c:245-673 | every enabled event keeps placement, counters, hash and cached pointers consistent |
| `ElevatorMachine.ExactlyOnePlace` | scheduler/kernel/elevator.c:396-745 | in every reachable state each live request is linked exactly once in one place, nr_sorted is the length of the greedy lists, and in_flight[s] is the number of started fs requests of class s at the driver, reads and sync writes being sync |
| `ElevatorMachine.LookupIsExact` | scheduler/kernel/elevator.c:245-291 | in every reachable state a hash lookup answers as a scan of the pending requests |
| `ElevatorMachine.PointersNeverDangle` | scheduler/kernel/elevator.c:497-527 | in every reachable state last_merge is null or pending, null when nothing is pending, and boundary_rq is null or queued |
| `BlockLayer.StepKeepsLayer` | scheduler/kernel/blk-core.c:998-1153 | every step of allocation, failure, plugging, elevator, driver, bypass and switching, in any order, keeps the combined invariant |
| `BlockLayer.ElvBalanced` | scheduler/kernel/blk-core.c:1399-1431 | for every elevator event, the requests of each class and with ELVPRIV that are gone are exactly those given back to the allocator |
| `BlockLayer.NoBugOn` | scheduler/kernel/greedy-iosched.c:169-176 | in every run no BUG_ON of greedy_exit_queue, blk_dequeue_request, blk_requeue_request, __blk_put_request (also for merged-away requests), elv_rqhash_add, elv_rqhash_find or sort insertion fires, and the bypass depth never goes negative, whichever way a switch ends |
| `BugOns.NoMergeTrip` | scheduler/kernel/blk-core.c:1420-1431 | after elv_merge_requests the absorbed request is on no list and not hashed, so the put that ends a request merge is safe |
| `BugOns.NoFindTrip` | scheduler/kernel/elevator.c:272-291 | every node a lookup can meet carries REQ_HASHED |
| `BugOns.NoAddRequestTrip` | scheduler/kernel/elevator.c:593-673 | no BUG_ON fires in an insertion: not in any lookup, merge or put of the insertion-merge loop, nor in the sort insertion and its hash_add |
| `BugOns.NoBioTrip` | scheduler/kernel/blk-core.c:1648-1665 | no BUG_ON fires while a bio is merged |
| `BlockLayer.SwitchIsQuiet` | scheduler/kernel/elevator.c:896-947 | from the end of the drain to the end of the switch the queue is in bypass, no ELVPRIV request is live or being allocated, and the current and the replaced scheduler are empty |
| `ElevatorSwitch.SwitchResult` | scheduler/kernel/elevator.c:896-947 | in every run, from the start of a switch through any interleaved steps to its end: a successful switch leaves a fresh scheduler with empty lists, empty hash and position 0, a failed one the scheduler the queue had once drained, position included, and the hold on bypass is released |
| `ElevatorSwitch.StepKeepsScheduler` | scheduler/kernel/blk-core.c:461-482 | from the end of the drain no step but the switch itself touches the scheduler |
| `LayerEffects.DrainEndsIff` | scheduler/kernel/blk-core.c:400-424 | the drain ends exactly when no ELVPRIV request is live or being allocated and request_fn is not running |
| `LayerEffects.BypassOnlyDrains` | scheduler/kernel/blk-core.c:1064-1066 | while the queue is bypassed no step raises nr_rqs_elvpriv |
| `LayerEffects.DyingOnlyShrinks` | scheduler/kernel/blk-core.c:1009-1010 | a dying queue stays dying and no step raises its request counts |
| `LayerEffects.GetEffect` | scheduler/kernel/blk-core.c:1009-1069 | exactly when a task is granted a request, of which class, and that the elevator will manage it exactly when it should and the queue is not bypassed |
| `LayerEffects.AllocationEffect` | scheduler/kernel/blk-core.c:1076-1153 | where the rest of the allocation leaves the request: with its task, without ELVPRIV and uncounted there, or nowhere |
| `LayerEffects.GateEffect` | scheduler/kernel/blk-core.c:461-546 | entering bypass, shutting down and draining take effect |
| `BlockLayer.OnePlaceAndExactCounts` | scheduler/kernel/blk-core.c:1050-1153 | in every reachable state a request is in exactly one of: allocating, held by its task, plugged, greedy list, dispatch queue, driver; count[s], nr_rqs[s] and nr_rqs_elvpriv are exactly the numbers of such requests |
| `AllocatorBalance.AddRequestBalanced` | scheduler/kernel/elevator.c:638-661 | insertion frees exactly the requests it merged away, per class and for ELVPRIV |
| `AllocatorBalance.MergeBioBalanced` | scheduler/kernel/blk-core.c:1648-1665 | a bio merge frees exactly the request it made redundant |
| `AllocatorBalance.FreedAllOk` | scheduler/kernel/blk-core.c:892-906 | freeing a list of requests lowers each count by the number of its class and keeps the flags consistent |
| `MergeCascade.MergeConserves` | scheduler/kernel/elevator.c:510-527 | a request merge keeps the multiset of pending bios and the covered sectors, adds those of a request that was not pending, keeps the start and extends the end |
| `MergeCascade.CascadeConserves` | scheduler/kernel/elevator.c:462-495 | the insertion-merge loop ends, conserves bios and sectors, removes one pending request per further merge, and the merged request's start strictly decreases |
| `MergeCascade.InsertMergeConserves` | scheduler/kernel/elevator.c:462-495 | the same through the last_merge cache or the hash, and it merges as far as it has to |
| `MergeCascade.MergeBioConserves` | scheduler/kernel/blk-core.c:1481-1525 | a merged bio becomes pending exactly once and covers exactly its sectors in addition; an unmerged one changes nothing |
| `ShortestSeek.DispatchIsNearest` | scheduler/kernel/greedy-iosched.c:25-67 | from outward-sorted lists of disjoint requests the dispatched request is strictly nearest, ties served upward, exactly when one list is empty or the int comparison of the head distances is right |
| `ShortestSeek.DispatchKeepsOutward` | scheduler/kernel/greedy-iosched.c:25-67 | serving it re-establishes lower < prev_pos <= higher and the outward order |
| `ShortestSeek.DrainIsShortestSeek` | scheduler/kernel/elevator.c:578-591 | the drain loop appends exactly the shortest-seek-first schedule of the pending set |
| `ShortestSeek.ScheduleUnique` | scheduler/kernel/greedy-iosched.c:25-67 | a pending set has at most one shortest-seek-first schedule |
| `ShortestSeek.TruncatedCompare` | scheduler/kernel/greedy-iosched.c:27-43 | for distances of any size the int comparison is right exactly when both wrap equally often or their remainders are ordered as their wraps are |
| `ShortestSeek.SameHalfCompares` | scheduler/kernel/greedy-iosched.c:27-43 | below 2^32 that means: both distances below 2^31 or both not |
| `ShortestSeek.HigherStaysSortedIff` | scheduler/kernel/greedy-iosched.c:70-86 | exactly when add_to_higher keeps an ascending list ascending |
| `ShortestSeek.LowerStaysSortedIff` | scheduler/kernel/greedy-iosched.c:88-104 | exactly when add_to_lower keeps a descending list descending |
| `ShortestSeek.InsertionServesFarthestFirst` | scheduler/kernel/greedy-iosched.c:70-86 | a concrete insertion sequence after which the farthest request is served first |
| `ShortestSeek.LowerInsertionServesFarthestFirst` | scheduler/kernel/greedy-iosched.c:88-104 | the same for the lower list |
| `ShortestSeek.TruncationServesFartherFirst` | scheduler/kernel/greedy-iosched.c:27-43 | a concrete pair of distances for which the farther request is served |
| `DispatchOrder.SortInsertKeepsOrder` | scheduler/kernel/elevator.c:351-388 | sorted insertion never crosses the last stop point and keeps the part behind it in circular order from end_sector |
| `DispatchOrder.BoundaryMoveKeepsOrder` | scheduler/kernel/blk-core.c:2307-2310 | moving the boundary to the end of the first of disjoint requests keeps the rest in circular order |
| `DispatchOrder.BoundaryMoveIff` | scheduler/kernel/blk-core.c:2307-2310 | a list in circular order from b is in circular order from e exactly when e comes, seen from b, at or before its first request or behind its last |
| `DispatchOrder.PeekKeepsOrderIff` | scheduler/kernel/blk-core.c:2278-2310 | peeking at any head keeps the order of the requests behind it exactly when another request is the boundary or the head's end lies so |
| `DispatchOrder.MixedDirectionBreaksOrder` | scheduler/kernel/blk-core.c:2307-2310 | a run from a new queue after which a read and two writes are queued in order, and the peek that leaves the writes out of order |
| `OneWayService.WorkloadKeepsOneWay` | scheduler/kernel/elevator.c:351-388 | through any run without barriers, requeues and overlapping data, of one direction and kind, with merging of requests and bios, partial completion and scheduler changes, the unpeeked queue stays in circular order from end_sector |
| `OneWayService.ServedOneWay` | scheduler/kernel/blk-core.c:2278-2310 | in every such run from a new queue the request the driver sees next comes circularly first |
| `BackFence.BackInsertIsFence` | scheduler/kernel/elevator.c:621-635 | after any run, what the elevator held when B was back-inserted left the dispatch queue before B, and what was sort-inserted later and has left, left after B, for either dispatch-insert function |
| `BackFence.OutsideExact` | scheduler/kernel/elevator.c:593-673 | which requests are outside the elevator after each event |
| `WorkConserving.NullOnlyWhenIdle` | scheduler/kernel/blk.h:123-160 | __elv_next_request returns null exactly when the queue is empty and the queue is bypassed, held by a flush, or nothing is pending |
| `WorkConserving.FetchTakesOne` | scheduler/kernel/blk-core.c:2433-2441 | a fetch returns a held request, starts it and removes exactly it |
| `WorkConserving.FetchAllOnce` | scheduler/kernel/blk-core.c:2433-2441 | with no arrivals n fetches return the n held requests each once, and the next returns null |
| `RequestLists.GetRequestOk` | scheduler/kernel/blk-core.c:1016-1052 | a grant raises one count by one and never past 150% of the limit, a denial changes no count, flags stay consistent, and exactly who is granted |
| `RequestLists.GrantedIff` | scheduler/kernel/blk-core.c:1012-1048 | a request is granted exactly when the scheduler does not forbid it, the class is below 150% of the limit, and below the limit itself unless the caller is batching or the scheduler insists |
| `RequestLists.ForbiddenStarves` | scheduler/kernel/blk-core.c:1150-1153 | a forbidden caller leaves its class starved exactly when it has no request |
| `RequestLists.ThresholdFractions` | scheduler/kernel/blk-core.c:91-104 | the thresholds as fractions of the limit |
| `RequestLists.OrdinaryCallersRespectLimit` | scheduler/kernel/blk-core.c:1016-1048 | a caller that is neither batching nor exempt is granted exactly below nr_requests |
| `RequestLists.FreedRequestOk` | scheduler/kernel/blk-core.c:873-906 | freeing lowers the right count by one and keeps both classes' flags consistent |
| `RequestLists.AllocFailedOk` | scheduler/kernel/blk-core.c:1132-1153 | a failed allocation undoes its reservation |
| `RequestLists.ResizeOk` | scheduler/kernel/blk-core.c:908-947 | a resize to any limit of at least one re-establishes every flag |
| `RequestLists.EveryRunIsConsistent` | scheduler/kernel/blk-core.c:873-1153 | after any run: full exactly at nr_requests, congested from the on threshold and never below the off threshold, off <= on <= nr_requests, starved only when the class has no request, and no grant above 3*nr/2 |
| `RequestLists.RequestList.Acquire` | scheduler/kernel/blk-core.c:1012-1069 | in place, with all flags right before and after: grants exactly the callers named above, a grant raises the count by one and not past 150%, a denial changes no count |
| `RequestLists.RequestList.Press` | scheduler/kernel/blk-core.c:1016-1040 | on a consistent class, turns away exactly the callers at the limit that neither batch nor are exempt, and marks the others so that taking one more keeps the class consistent |
| `RequestLists.RequestList.Freed` | scheduler/kernel/blk-core.c:892-906 | in place, with all flags right before and after: one request of the class less, the other class's count unchanged |
| `RequestLists.RequestList.Failed` | scheduler/kernel/blk-core.c:1140-1153 | in place: gives back exactly what Acquire reserved, keeps all flags right, and the class is starved exactly when it has no request left |
| `RequestLists.RequestList.UpdateLimit` | scheduler/kernel/blk-core.c:908-947 | in place: the counts stay and every flag is right for the new limit |
| `Completion.UpdateSound` | scheduler/kernel/blk-core.c:2466-2578 | __data_len stays the sum of the remaining bios, ended and remaining bios are the chain in order, and the verdict is false exactly when all bytes are done |
| `Completion.CompleteAll` | scheduler/kernel/blk-core.c:2466-2578 | completing blk_rq_bytes() returns false and ends every bio |
| `Completion.UpdateKeepsWellFormed` | scheduler/kernel/blk-core.c:2524-2557 | completing whole sectors leaves a request that covers the rest of its range without gaps, up to the same end |
| `Completion.UpdateComposes` | scheduler/kernel/blk-core.c:2524-2563 | completing a then b equals completing a + b; the whole state agrees exactly when the sector shifts add |
| `Completion.EndSectorKept` | scheduler/kernel/blk-core.c:2553-2557 | while data remains the end sector is unchanged exactly under the stated condition |
| `Completion.UnalignedCompletionDrifts` | scheduler/kernel/blk-core.c:2553-2557 | concrete completions whose sector cursor drifts |
| `Completion.NeverBotched` | scheduler/kernel/blk-core.c:2565-2572 | the repair of a botched request never runs on a sound chain |
| `Completion.ErrBugIff` | scheduler/kernel/blk-core.c:2136-2161 | the BUG_ON fires exactly for a mixed request whose first bio lacks one of its failfast bits |
| `Completion.ErrStepProgress` | scheduler/kernel/blk-core.c:2892-2896 | an error completion ends at least one whole bio, never exceeds the bytes left, and leaves a request that can be failed again |
| `Completion.FailAllFinishes` | scheduler/kernel/blk-core.c:2892-2896 | at most one call per bio fails the request, each bio once and in order |
| `Completion.BuildLeads` | scheduler/kernel/blk-core.c:1481-1525 | a request built by any bio and request merges is safe to fail exactly when the last bio merged in front of its leading part, if any, has all the failfast bits it was created with |
| `Completion.BuildBugIff` | scheduler/kernel/blk-core.c:2136-2161 | the BUG_ON of blk_rq_err_bytes fires on exactly the other requests |
| `Completion.FrontMergeTripsErrBug` | scheduler/kernel/blk-core.c:1503-1525 | two adjacent bios whose front merge makes such a request |
| `Completion.BuildCarries` | scheduler/kernel/blk-core.c:1481-1525 | through any bio and request merges every bio's own failfast bits can still be told |
| `Completion.BuildErrBytes` | scheduler/kernel/blk-core.c:2136-2161 | an error completion of a built request fails exactly the bios before the first one submitted with fewer bits than the request was created with |
| `Completion.StartedRequest.EndBios` | scheduler/kernel/blk-core.c:2523-2538 | the in-place loop ends and advances exactly the bios the specification consumes |
| `Completion.StartedRequest.UpdateRequest` | scheduler/kernel/blk-core.c:2466-2578 | the in-place update leaves the specified request and verdict |
| `Completion.EagerPrefixIs` | scheduler/kernel/blk-core.c:2152-2156 | the sum is that of the bios before the first one lacking a bit |
| `Completion.StartedRequest.ErrorBytes` | scheduler/kernel/blk-core.c:2136-2161 | the loop reaches exactly to the first bio less eager to fail than the request, or to the end |
| `Completion.StartedRequest.FailRequest` | scheduler/kernel/blk-core.c:2892-2896 | repeated error completion ends every bio once, in order, in at most one call per bio |
| `DiskStats.StatsAreExact` | scheduler/kernel/blk-core.c:1343-1383 | after any accounting events, for the disk and each partition, time_in_queue is the sum of residence times up to the stamp, io_ticks the ticks with a request in flight and at most the elapsed time |
| `DiskStats.RoundExact` | scheduler/kernel/blk-core.c:1343-1359 | rounding off moves the stamp to now and keeps the statistics exact |
| `DiskStats.Gendisk.RoundPart` | scheduler/kernel/blk-core.c:1343-1359 | in place: the partition's statistics are exact up to now, no other partition changes |
| `DiskStats.Gendisk.Round` | scheduler/kernel/blk-core.c:1376-1384 | in place: the disk and the partition are exact up to now, and all other statistics stay exact up to their stamps |
| `DiskStats.Gendisk.Start` | scheduler/kernel/blk-core.c:2226-2260 | in place: the stay of a new request begins now, on its partition or, if that is being removed, on the disk only; all statistics stay exact and the disk has one more in flight |
| `DiskStats.Gendisk.Done` | scheduler/kernel/blk-core.c:2178-2202 | in place: that stay ends now; all statistics stay exact and the disk has one less in flight |
| `MakeRequest.QueuedIsExpansion` | scheduler/kernel/blk-core.c:1963-1972 | the loop hands over the same multiset of bios as the recursive expansion |
| `MakeRequest.Task.Submit` | scheduler/kernel/blk-core.c:1927-1974 | from outside, the bio and all that follows from it are handled in queue order and the list is gone; from a make_request_fn the bio is only queued |
| `MakeRequest.Task.Loop` | scheduler/kernel/blk-core.c:1963-1972 | the loop ends when resubmissions go to strictly lower devices, and handles each accepted bio once |
| `MakeRequest.Task.MakeRequestFn` | scheduler/kernel/blk-core.c:1966-1972 | it runs only while no other is active in its task, and queues what it resubmits |
| `PlugFlush.FlushSorted` | scheduler/kernel/blk-core.c:3203-3244 | for any sorted list: one lock at a time, each queue locked, run and unlocked once and reported with its number of insertions, each request inserted or, on a dying queue, ended, in list order |
| `PlugFlush.HandedAscending` | scheduler/kernel/blk-core.c:3109-3117 | requests reach each queue in ascending sector order |
| `PlugFlush.HandedOnce` | scheduler/kernel/blk-core.c:3212-3238 | each plugged request is inserted or ended exactly once |
| `PlugFlush.Plug.Flush` | scheduler/kernel/blk-core.c:3179-3247 | the whole flush: the plug is empty, every plugged request handled once in ascending order, all locks released |
| `QueueLimits.NeverCrossesChunk` | scheduler/kernel/blkdev.h:882-904 | on a power-of-two chunk a request within blk_rq_get_max_sectors stays in one chunk, and the chunk part of the limit is exact |
| `QueueLimits.OtherLimits` | scheduler/kernel/blkdev.h:866-877 | pass-through and discard requests are bounded by their own limits only, and the bytes of a discard fit 32 bits |
| `QueueLimits.ChunkLimitRightIff` | scheduler/kernel/blkdev.h:882-890 | the chunk limit is right at every offset exactly for powers of two |
| `QueueLimits.AlignedIff` | scheduler/kernel/blkdev.h:1247-1253 | sector*512 plus the offset is congruent to alignment_offset modulo the granularity exactly when no value wraps harmfully |
| `QueueLimits.PowersOfTwoAreAligned` | scheduler/kernel/blkdev.h:1247-1253 | for a granularity dividing 2^31 it always is, and the offset lies in [0, granularity) |
| `QueueLimits.WrappedOffsetIsWrong` | scheduler/kernel/blkdev.h:1247-1253 | concrete limits for which the wrapped offset is not aligned |
| `RequestQueue.Queue.RqhashFind` | scheduler/kernel/elevator.c:272-291 | the in-place bucket walk finds and unhashes as specified |
| `RequestQueue.Queue.RqhashReposition` | scheduler/kernel/elevator.c:266-270 | delete and add give one node under the current end sector |
| `RequestQueue.Queue.AddHigher` | scheduler/kernel/greedy-iosched.c:70-86 | the walk links the request where the specification says |
| `RequestQueue.Queue.AddLower` | scheduler/kernel/greedy-iosched.c:88-104 | the same downward |
| `RequestQueue.Queue.GreedyAddRequest` | scheduler/kernel/greedy-iosched.c:106-121 | the request is linked once into the list on its side of prev_pos, the other list is unchanged |
| `RequestQueue.Queue.SortIntoQueue` | scheduler/kernel/elevator.c:363-388 | the backward walk inserts at the specified point |
| `RequestQueue.Queue.Dispatch` | scheduler/kernel/elevator.c:351-408 | the request enters the dispatch queue, at the tail and as boundary unless sorted, the other requests keep their order, and it leaves hash, cache and count |
| `RequestQueue.Queue.DispatchOne` | scheduler/kernel/greedy-iosched.c:25-67 | keeps the invariant, moves the chosen request, and returns whether one was pending |
| `RequestQueue.Queue.DrainElevator` | scheduler/kernel/elevator.c:578-591 | the loop ends, keeps the invariant, and leaves nothing pending |
| `RequestQueue.Queue.Relink` | scheduler/kernel/elevator.c:510-527 | from a hash stale about the survivor only: the survivor has one node under its end sector, the absorbed request is on no list and not hashed |
| `RequestQueue.Queue.CascadeMerges` | scheduler/kernel/elevator.c:484-492 | the loop terminates in the cascaded state with the requests it freed |
| `RequestQueue.Queue.AttemptInsertMerge` | scheduler/kernel/elevator.c:462-495 | keeps the invariant and merges as far as it has to; if something was freed the request is gone, its bios and sectors are pending, all merged requests are of one direction and kind, otherwise only unmergeable nodes were unhashed |
| `RequestQueue.Queue.FindMerge` | scheduler/kernel/elevator.c:411-453 | keeps the invariant, offers only a pending, compatible request that the bio touches at the stated end, and makes every offer it has to make |
| `RequestQueue.Queue.SubmitBio` | scheduler/kernel/blk-core.c:1648-1665 | keeps the invariant and merges when it has to; a merged bio is pending once more with exactly its sectors in the request that is now cached, exactly the redundant request is freed, and the queue, the driver and the owners' requests stay |
| `RequestQueue.Queue.AddSorted` | scheduler/kernel/elevator.c:646-662 | keeps the invariant; the request is pending, one more is sorted, the queue is unchanged |
| `RequestQueue.Queue.AddBack` | scheduler/kernel/elevator.c:621-636 | keeps the invariant; the request is last and everything the elevator held is queued before it |
| `RequestQueue.Queue.Add` | scheduler/kernel/elevator.c:593-673 | keeps the invariant; the request was merged away or is where the insertion puts it, exactly what was merged away is freed, and no other request left its owner |
| `RequestQueue.Queue.Next` | scheduler/kernel/blk.h:123-160 | returns the head of the queue or null and dispatches at most once |
| `RequestQueue.Queue.PeekRequest` | scheduler/kernel/blk-core.c:2278-2310 | keeps the invariant and everything held; null exactly on an empty queue under bypass, a held flush or nothing pending, otherwise the started head |
| `RequestQueue.Queue.StartRequest` | scheduler/kernel/blk-core.c:2367-2416 | keeps the invariant; exactly the head moves to the driver and its class has one more in flight if it is an fs request |
| `RequestQueue.Queue.RequeueRequest` | scheduler/kernel/elevator.c:559-576 | keeps the invariant; the request is at the head again, unstarted and a barrier, becomes the boundary if it was a barrier before, and its in-flight count is taken back |
| `QueueEffects.StartRequeueRoundTrip` | scheduler/kernel/elevator.c:559-576 | starting a request and giving it back restores the in-flight counts, the driver's set and the queue |
| `RequestQueue.Queue.PutRequest` | scheduler/kernel/blk-core.c:1399-1431 | keeps the invariant; the request is gone everywhere, its in-flight count is taken back, and exactly it is freed |

## Left out

- Flush sequencing: `blk_insert_flush` and the FLUSH insertion point; a held flush is an input of the fetch.
- blk-mq, tags, timeouts, integrity, bounce buffers, power management, prep functions and sysfs.
- Control groups: there is one request list per queue.
- Batching windows are a boolean input, and wait queues are not modelled, so nothing is said about liveness of waiters.
- `DiskStats.StatsAreExact`: does not cover two CPUs rounding off one partition at once, because the code takes no lock there.
- Jiffies and the disk statistics are unbounded; per-CPU counters are their sum; `ios`, `ticks` and `sectors` are not modelled.
- The 32-bit length of a request is unbounded while it is merged; the merge limits that bound it are outside the model.
- Requests are identifiers in a table, so memory safety of freed requests is expressed as absence from the table and all lists.
- `BackFence.BackInsertIsFence`: identifiers of freed requests are not reused while a fence is watched.
- Other schedulers: a switch goes between instances with the greedy structure; the red-black tree helpers are not modelled.
- Partition remapping and the individual submission checks of `generic_make_request_checks`: one predicate decides acceptance.
- The lab drivers, system-call programs, workload generators, logs and request timing instrumentation of the repository.
