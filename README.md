# StatefulSet autoscaler of the eventing scheduler, in Dafny

The scheduler places the virtual replicas of VPods onto the pods of a
StatefulSet. Every pod holds a fixed number of virtual replicas (10 in every
scenario here). The autoscaler does three things.

- It decides the StatefulSet's size. The new size is ceil(total desired
  vreplicas / capacity). That size is applied when it is not smaller than the
  current one. When it is smaller, it is applied only if scaling down is
  permitted.
- It compacts the tail pod, the pod with the highest ordinal. When the free
  capacity on the lower-ordinal pods can take every replica placed on the
  tail pod, each placement on that pod goes to the evictor, and the evictor
  records it.
- It holds a leader flag. Promote sets it and Demote clears it.

The only file of the repository in this model is the test file
`pkg/scheduler/statefulset/autoscaler_test.go`. Its tables, `TestAutoscaler`
and `TestCompactor`, are the specification. The production autoscaler they
drive is not part of this model. Each table row is a lemma about the model.

Files:

- `Scheduler.dfy`: VPods, placements, VPod keys, and pod names
  `statefulset-name-<ordinal>`, with the inverse `OrdinalFromPodName`.
- `ReplicaDecision.dfy`: the size decision (`TargetReplicas`). Its contract
  is "the least size at or above the floor whose capacity covers the
  demand". The floor is 0 when scaling down is permitted and the current
  size otherwise. The file also holds the lemmas for scale-up, gated
  scale-down, zero demand, idempotence and pooling of demand.
- `Compaction.dfy`: per-pod usage counted from placements, free capacity
  below the tail, the evictions of one pass (`CompactionPlan`) and their
  lemmas. It also holds the `Autoscaler` class with its `isLeader` flag and
  the `evictions` the evictor has received. `Compact` appends to
  `evictions` placement by placement.
- `AutoscalerTable.dfy` and `CompactorTable.dfy`: one lemma per row of the
  two test tables, plus the test's promote / compact / demote flow.
  `TestFixtures.dfy` holds their shared namespace and pod capacity.

## Model

| member | source | states |
|---|---|---|
| Scheduler.DecimalRoundTrip | pkg/scheduler/statefulset/autoscaler_test.go:298 | parsing the decimal numeral of an ordinal gives the ordinal back |
| Scheduler.PodName | pkg/scheduler/statefulset/autoscaler_test.go:297-298 | a pod name is `statefulset-name-` followed by a non-empty decimal numeral |
| Scheduler.PodNameRoundTrip | pkg/scheduler/statefulset/autoscaler_test.go:297-298 | reading the ordinal out of the name `statefulset-name-<i>` gives i |
| Scheduler.PodNameInjective | pkg/scheduler/statefulset/autoscaler_test.go:297-298 | two pod names are equal exactly when their ordinals are equal |
| ReplicaDecision.TotalDemandAppend | pkg/scheduler/statefulset/autoscaler_test.go:206-231 | demand adds up across concatenated lists of desired counts |
| ReplicaDecision.DemandsAppend | pkg/scheduler/statefulset/autoscaler_test.go:206-231 | the desired vreplicas of several VPods are pooled before rounding up |
| ReplicaDecision.PodsFor | pkg/scheduler/statefulset/autoscaler_test.go:68-105 | the ceiling of demand / capacity: its pods cover the demand, one pod fewer would not, and it is 0 exactly when demand is 0 |
| ReplicaDecision.LeastCoveringUnique | pkg/scheduler/statefulset/autoscaler_test.go:122-155 | at most one size is the least covering size at or above a floor, so TargetReplicas' contract fixes its result |
| ReplicaDecision.TargetReplicas | pkg/scheduler/statefulset/autoscaler_test.go:106-155 | the new size is the least size at or above the floor (0 with scaleDown, else the current size) whose capacity covers the total desired vreplicas |
| ReplicaDecision.DecisionCoversDemand | pkg/scheduler/statefulset/autoscaler_test.go:264-273 | after the decision every desired vreplica has room |
| ReplicaDecision.ScaleUpUnconditional | pkg/scheduler/statefulset/autoscaler_test.go:140-155 | a ceiling at or above the current size is applied whatever scaleDown says |
| ReplicaDecision.ScaleDownGated | pkg/scheduler/statefulset/autoscaler_test.go:122-139 | a ceiling below the current size is applied when scaleDown is set and otherwise the size stays |
| ReplicaDecision.ZeroDemandScalesToZero | pkg/scheduler/statefulset/autoscaler_test.go:106-121 | no demand with scaleDown gives size 0 |
| ReplicaDecision.DecisionIdempotent | pkg/scheduler/statefulset/autoscaler_test.go:148-164 | deciding again from the size just decided leaves it unchanged |
| ReplicaDecision.DecisionDependsOnTotal | pkg/scheduler/statefulset/autoscaler_test.go:196-231 | two demand lists with the same total get the same size |
| ReplicaDecision.DecideFor | pkg/scheduler/statefulset/autoscaler_test.go:344 | the size chosen for the listed VPods is the least size at or above the floor whose capacity covers their summed desired vreplicas |
| ReplicaDecision.DecisionIgnoresPlacements | pkg/scheduler/statefulset/autoscaler_test.go:76-95 | VPod lists with the same desired counts get the same size, wherever their replicas are placed |
| AutoscalerTable.NoReplicasNoPlacementsNoPending | pkg/scheduler/statefulset/autoscaler_test.go:60-67 | 0 pods, demand 0: size 0 |
| AutoscalerTable.NoReplicasNoPlacementsWithPending | pkg/scheduler/statefulset/autoscaler_test.go:68-75 | 0 pods, demand 5: size 1 |
| AutoscalerTable.NoReplicasWithPlacementsNoPending | pkg/scheduler/statefulset/autoscaler_test.go:76-85 | 0 pods, demand 15 placed 8+7: size 2 |
| AutoscalerTable.NoReplicasWithPendingEnoughCapacity | pkg/scheduler/statefulset/autoscaler_test.go:86-95 | 0 pods, demand 18: size 2 |
| AutoscalerTable.NoReplicasWithPendingNotEnoughCapacity | pkg/scheduler/statefulset/autoscaler_test.go:96-105 | 0 pods, demand 23: size 3 |
| AutoscalerTable.ScaleDownToZeroOneVPod | pkg/scheduler/statefulset/autoscaler_test.go:106-114 | 3 pods, one VPod of demand 0, scaleDown: size 0 |
| AutoscalerTable.ScaleDownToZeroNoVPods | pkg/scheduler/statefulset/autoscaler_test.go:115-121 | 3 pods, no VPods, scaleDown: size 0 |
| AutoscalerTable.ScaleDownWithPending | pkg/scheduler/statefulset/autoscaler_test.go:122-130 | 3 pods, demand 5, scaleDown: size 1 |
| AutoscalerTable.ScaleDownDisabled | pkg/scheduler/statefulset/autoscaler_test.go:131-139 | 3 pods, demand 5, no scaleDown: size stays 3 |
| AutoscalerTable.ScaleUpFromThree | pkg/scheduler/statefulset/autoscaler_test.go:140-147 | 3 pods, demand 45: size 5 |
| AutoscalerTable.NoChangeNoPlacements | pkg/scheduler/statefulset/autoscaler_test.go:148-155 | 3 pods, demand 25: size stays 3 |
| AutoscalerTable.NoChangeWithPlacements | pkg/scheduler/statefulset/autoscaler_test.go:156-165 | 2 pods, demand 15 placed 8+7: size stays 2 |
| AutoscalerTable.WithReserved | pkg/scheduler/statefulset/autoscaler_test.go:166-180 | 2 pods, demand 12, with 8 reserved on pod 0: size 2 |
| AutoscalerTable.WithReservedScaleUp | pkg/scheduler/statefulset/autoscaler_test.go:181-195 | 2 pods, demand 22, with 9 reserved on pod 0: size 3 |
| AutoscalerTable.WithPendingScaleUp | pkg/scheduler/statefulset/autoscaler_test.go:196-205 | 2 pods, demand 21: size 3 |
| AutoscalerTable.TwoVPodsScaleUp | pkg/scheduler/statefulset/autoscaler_test.go:206-218 | 2 pods, demands 21 and 19: size 4 |
| AutoscalerTable.TwoVPodsOneOverCapacity | pkg/scheduler/statefulset/autoscaler_test.go:219-231 | 2 pods, demands 21 and 20: size 5 |
| AutoscalerTable.AttemptScaleDown | pkg/scheduler/statefulset/autoscaler_test.go:232-242 | 3 pods, demand 21, scaleDown: size stays 3 |
| AutoscalerTable.ScaleDownWithPlacements | pkg/scheduler/statefulset/autoscaler_test.go:243-253 | 5 pods, demand 15, scaleDown: size 2 |
| AutoscalerTable.WithPendingEnoughCapacity | pkg/scheduler/statefulset/autoscaler_test.go:254-263 | 2 pods, demand 18: size stays 2 |
| AutoscalerTable.WithPendingNotEnoughCapacity | pkg/scheduler/statefulset/autoscaler_test.go:264-273 | 2 pods, demand 23: size 3 |
| AutoscalerTable.RoundUpCapacity | pkg/scheduler/statefulset/autoscaler_test.go:274-286 | 5 pods, demand 20, no scaleDown: size stays 5 |
| Compaction.PodUsageCountsEachVPod | pkg/scheduler/statefulset/autoscaler_test.go:480-494 | `PodUsage`, a pod's usage summed from every VPod's placements on it, is at least what any single listed VPod has placed on it |
| Compaction.FreeBelowBounded | pkg/scheduler/statefulset/autoscaler_test.go:491-506 | `FreeBelow`, the free capacity below an ordinal summed pod by pod, is at most that many pods' capacity, and exactly that when those pods are unused |
| Compaction.CompactionPlan | pkg/scheduler/statefulset/autoscaler_test.go:437-506 | a pass evicts something only when there is a tail pod and the free capacity below it (TailFits) holds the tail's usage; it then moves exactly the tail's usage |
| Compaction.EvictedReplicasAppend | pkg/scheduler/statefulset/autoscaler_test.go:535-538 | the replicas moved by two runs of evictions add up |
| Compaction.EvictionsOnMoveUsage | pkg/scheduler/statefulset/autoscaler_test.go:480 | evicting a VPod's placements on a pod moves exactly the replicas it has there |
| Compaction.PodEvictionsMoveUsage | pkg/scheduler/statefulset/autoscaler_test.go:494-501 | evicting every placement on a pod moves exactly that pod's usage, counted from placements |
| Compaction.EvictionsOnExactly | pkg/scheduler/statefulset/autoscaler_test.go:536-537 | an eviction of a VPod's placements on a pod is exactly one of its placements there |
| Compaction.PodEvictionsExactly | pkg/scheduler/statefulset/autoscaler_test.go:566-585 | the evictions on a pod are exactly the placements of listed VPods on that pod, in both directions |
| Compaction.CompactionOnlyTouchesTail | pkg/scheduler/statefulset/autoscaler_test.go:466-476 | every eviction is a placement of a listed VPod on the tail pod `statefulset-name-<replicas-1>` |
| Compaction.CompactionEvictsWholeTail | pkg/scheduler/statefulset/autoscaler_test.go:491-506 | when the tail pod fits, every placement on it is evicted |
| Compaction.CompactionRefuses | pkg/scheduler/statefulset/autoscaler_test.go:437-464 | with no pods, or when free capacity below the tail is less than the tail's usage, nothing is evicted |
| Compaction.CompactionVacatesTail | pkg/scheduler/statefulset/autoscaler_test.go:465-506 | a non-empty pass moves exactly the tail pod's usage, and no more than the free capacity below it |
| Compaction.RemoveOnUsage | pkg/scheduler/statefulset/autoscaler_test.go:480 | removing a pod's placements empties that pod and keeps every other pod's count |
| Compaction.PlacedOnAppend | pkg/scheduler/statefulset/autoscaler_test.go:480 | per-pod counts add up across concatenated placement lists |
| Compaction.VacateUsage | pkg/scheduler/statefulset/autoscaler_test.go:494 | vacating a pod zeroes its usage and keeps every other pod's usage |
| Compaction.VacateFreeBelow | pkg/scheduler/statefulset/autoscaler_test.go:491-506 | vacating the tail leaves the free capacity on lower pods unchanged |
| Compaction.VacateOnlyTail | pkg/scheduler/statefulset/autoscaler_test.go:491-506 | Vacate of the tail pod zeroes the tail's usage and keeps every lower pod's usage and the free capacity below the tail |
| Compaction.CompactionLeavesRoomBelow | pkg/scheduler/statefulset/autoscaler_test.go:491-506 | after a non-empty pass has left the tail pod, the tail is empty and the lower pods together still have free capacity for every evicted replica (a bound on their total, not on each pod) |
| Compaction.RemoveOnNothingLeft | pkg/scheduler/statefulset/autoscaler_test.go:473-475 | what is left of a placement list after removal has nothing on the removed pod |
| Compaction.VacateEmptiesPod | pkg/scheduler/statefulset/autoscaler_test.go:473-475 | after vacating a pod no VPod has a placement there |
| Compaction.SecondPassEvictsNothing | pkg/scheduler/statefulset/autoscaler_test.go:465-476 | a pass over a tail pod with no placements evicts nothing |
| Compaction.CompactionIdempotent | pkg/scheduler/statefulset/autoscaler_test.go:465-476 | once compaction has vacated the tail pod, another pass evicts nothing |
| Compaction.Recorded | pkg/scheduler/statefulset/autoscaler_test.go:535-538 | the recorder's map has a key exactly for each VPod with an evicted placement, and holds for it exactly its evicted placements in eviction order |
| Compaction.PlacementsOfNonEmpty | pkg/scheduler/statefulset/autoscaler_test.go:535-538 | a VPod has evicted placements exactly when some eviction names it |
| Compaction.RecordedKeys | pkg/scheduler/statefulset/autoscaler_test.go:535-538 | the recorder's map has a key exactly for each VPod some eviction names |
| Compaction.Autoscaler.constructor | pkg/scheduler/statefulset/autoscaler_test.go:549 | a new autoscaler is a follower with no evictions recorded |
| Compaction.Autoscaler.Promote | pkg/scheduler/statefulset/autoscaler_test.go:550-551 | after Promote, isLeader is true and the evictions are unchanged |
| Compaction.Autoscaler.Demote | pkg/scheduler/statefulset/autoscaler_test.go:587-588 | after Demote, isLeader is false and the evictions are unchanged |
| Compaction.Autoscaler.EvictFrom | pkg/scheduler/statefulset/autoscaler_test.go:536-538 | each placement of a VPod on the named pod is appended to the evictions, in placement order |
| Compaction.Autoscaler.Compact | pkg/scheduler/statefulset/autoscaler_test.go:562-564 | the evictions afterwards are the old ones followed by CompactionPlan of the VPods and the size |
| CompactorTable.NoReplicas | pkg/scheduler/statefulset/autoscaler_test.go:437-444 | 0 pods: nothing recorded |
| CompactorTable.OneVPodCompacted | pkg/scheduler/statefulset/autoscaler_test.go:445-454 | pods 8/7: nothing recorded |
| CompactorTable.OneVPodCompactedEdge | pkg/scheduler/statefulset/autoscaler_test.go:455-464 | pods 8/3: nothing recorded |
| CompactorTable.OneVPodNotCompacted | pkg/scheduler/statefulset/autoscaler_test.go:465-476 | pods 8/2: vpod-1's placement of 2 on pod 1 recorded, nothing else |
| CompactorTable.MultipleVPodsCompacted | pkg/scheduler/statefulset/autoscaler_test.go:477-490 | pods 6/8/7: nothing recorded |
| CompactorTable.MultipleVPodsNotCompacted | pkg/scheduler/statefulset/autoscaler_test.go:491-506 | pods 6/7/7: vpod-2's placement of 7 on pod 2 recorded, nothing else |
| CompactorTable.CompactorScenario | pkg/scheduler/statefulset/autoscaler_test.go:549-588 | promote, compact 6/7/7, demote: leader during the pass, follower after, one eviction recorded |

## Left out

- The Kubernetes plumbing is not modelled. This covers the fake clients, pod and StatefulSet creation, listers, reactors and `GetScale`. It is I/O against external collaborators. The size decision is a function whose result is the size the test reads back.
- The scale cache and its time-based refresh are not modelled. They depend on wall-clock staleness, and their implementation is not part of this model.
- The periodic `Start` loop in `TestAutoscalerScaleDownToZero` is not modelled. It is goroutines, channels and timeouts. Its outcome, a pool with no demand going to size 0, is `ZeroDemandScalesToZero`.
- The floating-point `math.Max` that sizes the test's pod list is not modelled. It only builds fixtures.
- Leader-election buckets and the ephemeral election key constants are not modelled. They belong to the external election substrate. Only the boolean flag is kept.
- Compaction.Autoscaler.Compact: runs whatever the leader flag is. Follower no-op gating is not exercised by the tests, so it is not asserted.
- Compaction.CompactionPlan: is all-or-nothing on the tail pod. A greedy per-placement tally over several placements on the tail pod is not exercised by the tests, so it is not asserted. The two agree whenever the tail pod holds a single placement, as in every tested row.
- The reservation map is not an input of the decision. In every tested row it makes no difference, and the rows that carry one are proved without it. Pod usage in compaction is likewise counted from placements only, with no reserved replicas; the compactor's rows set up no reservations.
- Replica counts are unbounded naturals. The source's `int32` fields are not modelled, since no tested value comes near their limit.
- Eviction-callback errors and resize errors are not modelled. The tests' evictors and clients always succeed.
