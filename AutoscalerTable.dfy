/** The replica decision on each scenario of the autoscaler's test table:
    pod capacity 10, the StatefulSet's current size, the VPods, whether
    scaling down is permitted, and the size expected afterwards. Rows that
    carry a reservation map have it noted; it is not an input of the
    decision. */
module AutoscalerTable {
  import opened Scheduler
  import opened ReplicaDecision
  import opened TestFixtures

  /** The placements 8 on pod 0 and 7 on pod 1 that several rows share. */
  const EightSeven: seq<Placement> :=
    [Placement("statefulset-name-0", 8), Placement("statefulset-name-1", 7)]

  const FiveSeven: seq<Placement> :=
    [Placement("statefulset-name-0", 5), Placement("statefulset-name-1", 7)]

  /** The decision sees only the desired counts, summed. */
  lemma DecideForOne(v: VPod, replicas: nat, scaleDown: bool)
    ensures DecideFor([v], PodCapacity, replicas, scaleDown)
            == TargetReplicas([v.vreplicas], PodCapacity, replicas, scaleDown)
    ensures TotalDemand([v.vreplicas]) == v.vreplicas
  {
    assert Demands([v]) == [v.vreplicas];
    assert [v.vreplicas][..0] == [];
  }

  lemma DecideForTwo(v: VPod, w: VPod, replicas: nat, scaleDown: bool)
    ensures DecideFor([v, w], PodCapacity, replicas, scaleDown)
            == TargetReplicas([v.vreplicas, w.vreplicas], PodCapacity, replicas, scaleDown)
    ensures TotalDemand([v.vreplicas, w.vreplicas]) == v.vreplicas + w.vreplicas
  {
    assert Demands([v, w]) == [v.vreplicas, w.vreplicas];
    assert [v.vreplicas, w.vreplicas][..1] == [v.vreplicas];
    DecideForOne(v, replicas, scaleDown);
  }

  lemma NoReplicasNoPlacementsNoPending()
    ensures DecideFor([NewVPod("vpod-1", 0, [])], PodCapacity, 0, false) == 0
  {
  }

  lemma NoReplicasNoPlacementsWithPending()
    ensures DecideFor([NewVPod("vpod-1", 5, [])], PodCapacity, 0, false) == 1
  {
    DecideForOne(NewVPod("vpod-1", 5, []), 0, false);
  }

  lemma NoReplicasWithPlacementsNoPending()
    ensures DecideFor([NewVPod("vpod-1", 15, EightSeven)], PodCapacity, 0, false) == 2
  {
    DecideForOne(NewVPod("vpod-1", 15, EightSeven), 0, false);
  }

  lemma NoReplicasWithPendingEnoughCapacity()
    ensures DecideFor([NewVPod("vpod-1", 18, EightSeven)], PodCapacity, 0, false) == 2
  {
    DecideForOne(NewVPod("vpod-1", 18, EightSeven), 0, false);
  }

  lemma NoReplicasWithPendingNotEnoughCapacity()
    ensures DecideFor([NewVPod("vpod-1", 23, EightSeven)], PodCapacity, 0, false) == 3
  {
    DecideForOne(NewVPod("vpod-1", 23, EightSeven), 0, false);
  }

  lemma ScaleDownToZeroOneVPod()
    ensures DecideFor([NewVPod("vpod-1", 0, [])], PodCapacity, 3, true) == 0
  {
    DecideForOne(NewVPod("vpod-1", 0, []), 3, true);
  }

  lemma ScaleDownToZeroNoVPods()
    ensures DecideFor([], PodCapacity, 3, true) == 0
  {
  }

  lemma ScaleDownWithPending()
    ensures DecideFor([NewVPod("vpod-1", 5, [])], PodCapacity, 3, true) == 1
  {
    DecideForOne(NewVPod("vpod-1", 5, []), 3, true);
  }

  lemma ScaleDownDisabled()
    ensures DecideFor([NewVPod("vpod-1", 5, [])], PodCapacity, 3, false) == 3
  {
    DecideForOne(NewVPod("vpod-1", 5, []), 3, false);
  }

  lemma ScaleUpFromThree()
    ensures DecideFor([NewVPod("vpod-1", 45, [])], PodCapacity, 3, false) == 5
  {
    DecideForOne(NewVPod("vpod-1", 45, []), 3, false);
  }

  lemma NoChangeNoPlacements()
    ensures DecideFor([NewVPod("vpod-1", 25, [])], PodCapacity, 3, false) == 3
  {
    DecideForOne(NewVPod("vpod-1", 25, []), 3, false);
  }

  lemma NoChangeWithPlacements()
    ensures DecideFor([NewVPod("vpod-1", 15, EightSeven)], PodCapacity, 2, false) == 2
  {
    DecideForOne(NewVPod("vpod-1", 15, EightSeven), 2, false);
  }

  /** Reserved 8 on pod 0 for vpod-1. */
  lemma WithReserved()
    ensures DecideFor([NewVPod("vpod-1", 12, FiveSeven)], PodCapacity, 2, false) == 2
  {
    DecideForOne(NewVPod("vpod-1", 12, FiveSeven), 2, false);
  }

  /** Reserved 9 on pod 0 for vpod-1. */
  lemma WithReservedScaleUp()
    ensures DecideFor([NewVPod("vpod-1", 22, [Placement("statefulset-name-0", 2), Placement("statefulset-name-1", 7)])],
                      PodCapacity, 2, false) == 3
  {
    DecideForOne(NewVPod("vpod-1", 22, [Placement("statefulset-name-0", 2), Placement("statefulset-name-1", 7)]), 2, false);
  }

  lemma WithPendingScaleUp()
    ensures DecideFor([NewVPod("vpod-1", 21, FiveSeven)], PodCapacity, 2, false) == 3
  {
    DecideForOne(NewVPod("vpod-1", 21, FiveSeven), 2, false);
  }

  /** 21 + 19 desired replicas fill four pods exactly. */
  lemma TwoVPodsScaleUp()
    ensures DecideFor([NewVPod("vpod-1", 21, FiveSeven), NewVPod("vpod-2", 19, FiveSeven)], PodCapacity, 2, false) == 4
  {
    DecideForTwo(NewVPod("vpod-1", 21, FiveSeven), NewVPod("vpod-2", 19, FiveSeven), 2, false);
  }

  /** 21 + 20 desired replicas are one over four pods' capacity. */
  lemma TwoVPodsOneOverCapacity()
    ensures DecideFor([NewVPod("vpod-1", 21, FiveSeven), NewVPod("vpod-2", 20, FiveSeven)], PodCapacity, 2, false) == 5
  {
    DecideForTwo(NewVPod("vpod-1", 21, FiveSeven), NewVPod("vpod-2", 20, FiveSeven), 2, false);
  }

  lemma AttemptScaleDown()
    ensures DecideFor([NewVPod("vpod-1", 21, FiveSeven)], PodCapacity, 3, true) == 3
  {
    DecideForOne(NewVPod("vpod-1", 21, FiveSeven), 3, true);
  }

  lemma ScaleDownWithPlacements()
    ensures DecideFor([NewVPod("vpod-1", 15, EightSeven)], PodCapacity, 5, true) == 2
  {
    DecideForOne(NewVPod("vpod-1", 15, EightSeven), 5, true);
  }

  lemma WithPendingEnoughCapacity()
    ensures DecideFor([NewVPod("vpod-1", 18, EightSeven)], PodCapacity, 2, false) == 2
  {
    DecideForOne(NewVPod("vpod-1", 18, EightSeven), 2, false);
  }

  lemma WithPendingNotEnoughCapacity()
    ensures DecideFor([NewVPod("vpod-1", 23, EightSeven)], PodCapacity, 2, false) == 3
  {
    DecideForOne(NewVPod("vpod-1", 23, EightSeven), 2, false);
  }

  /** 20 desired replicas need only two pods, but without permission to
      scale down the five pods stay. */
  lemma RoundUpCapacity()
    ensures DecideFor([NewVPod("vpod-1", 20, EightSeven + [Placement("statefulset-name-2", 1),
                                                          Placement("statefulset-name-3", 1),
                                                          Placement("statefulset-name-4", 1)])],
                      PodCapacity, 5, false) == 5
  {
    DecideForOne(NewVPod("vpod-1", 20, EightSeven + [Placement("statefulset-name-2", 1),
                                                     Placement("statefulset-name-3", 1),
                                                     Placement("statefulset-name-4", 1)]), 5, false);
  }
}
