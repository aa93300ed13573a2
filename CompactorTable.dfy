/** Compaction on each scenario of the compactor's test table: pod
    capacity 10, the StatefulSet's size, the VPods, and the evictions the
    recording evictor is expected to hold afterwards, keyed by VPod. */
module CompactorTable {
  import opened Scheduler
  import opened Compaction
  import opened TestFixtures

  const VPod1: VPodKey := VPodKey(TestNamespace, "vpod-1")
  const VPod2: VPodKey := VPodKey(TestNamespace, "vpod-2")

  lemma PodNames()
    ensures PodName(0) == "statefulset-name-0"
    ensures PodName(1) == "statefulset-name-1"
    ensures PodName(2) == "statefulset-name-2"
    ensures "statefulset-name-0" != "statefulset-name-1"
    ensures "statefulset-name-0" != "statefulset-name-2"
    ensures "statefulset-name-1" != "statefulset-name-2"
  {
  }

  /** A VPod with two placements, as every non-empty VPod of the table has:
      its counts and evictions on a pod are those of each placement alone. */
  lemma TwoPlacements(v: VPod, podName: string)
    requires |v.placements| == 2
    ensures PlacedOn(v.placements, podName)
            == PlacedOn([v.placements[0]], podName) + PlacedOn([v.placements[1]], podName)
    ensures EvictionsOn(v.key, v.placements, podName)
            == EvictionsOn(v.key, [v.placements[0]], podName) + EvictionsOn(v.key, [v.placements[1]], podName)
  {
    var ps := v.placements;
    assert ps[..1] == [ps[0]];
    assert [ps[0]][..0] == [] && [ps[1]][..0] == [];
  }

  lemma OneVPod(v: VPod, podName: string)
    requires |v.placements| == 2
    ensures PodUsage([v], podName)
            == PlacedOn([v.placements[0]], podName) + PlacedOn([v.placements[1]], podName)
    ensures PodEvictions([v], podName)
            == EvictionsOn(v.key, [v.placements[0]], podName) + EvictionsOn(v.key, [v.placements[1]], podName)
  {
    TwoPlacements(v, podName);
    assert [v][..0] == [];
  }

  lemma TwoVPods(v: VPod, w: VPod, podName: string)
    requires |v.placements| == 2 && |w.placements| == 2
    ensures PodUsage([v, w], podName)
            == PlacedOn([v.placements[0]], podName) + PlacedOn([v.placements[1]], podName)
               + PlacedOn([w.placements[0]], podName) + PlacedOn([w.placements[1]], podName)
    ensures PodEvictions([v, w], podName)
            == EvictionsOn(v.key, [v.placements[0]], podName) + EvictionsOn(v.key, [v.placements[1]], podName)
               + EvictionsOn(w.key, [w.placements[0]], podName) + EvictionsOn(w.key, [w.placements[1]], podName)
  {
    OneVPod(v, podName);
    TwoPlacements(w, podName);
    assert [v, w][..1] == [v];
  }

  lemma RecordedOne(e: Eviction)
    ensures Recorded([e]) == map[e.vpod := [e.from]]
  {
    assert [e][..0] == [];
    assert Recorded([]) == map[];
    assert [] + [e.from] == [e.from];
  }

  lemma NoReplicas()
    ensures Recorded(CompactionPlan([VPod(VPod1, 0, [])], PodCapacity, 0)) == map[]
  {
  }

  /** Pods 8/7: free 2 below the tail, 7 on it. */
  lemma OneVPodCompacted()
    ensures Recorded(CompactionPlan(
              [VPod(VPod1, 15, [Placement("statefulset-name-0", 8), Placement("statefulset-name-1", 7)])],
              PodCapacity, 2)) == map[]
  {
    var v := VPod(VPod1, 15, [Placement("statefulset-name-0", 8), Placement("statefulset-name-1", 7)]);
    PodNames();
    OneVPod(v, PodName(0));
    OneVPod(v, PodName(1));
    assert FreeBelow([v], PodCapacity, 1) == 2;
  }

  /** Pods 8/3: free 2 below the tail, 3 on it. */
  lemma OneVPodCompactedEdge()
    ensures Recorded(CompactionPlan(
              [VPod(VPod1, 11, [Placement("statefulset-name-0", 8), Placement("statefulset-name-1", 3)])],
              PodCapacity, 2)) == map[]
  {
    var v := VPod(VPod1, 11, [Placement("statefulset-name-0", 8), Placement("statefulset-name-1", 3)]);
    PodNames();
    OneVPod(v, PodName(0));
    OneVPod(v, PodName(1));
    assert FreeBelow([v], PodCapacity, 1) == 2;
  }

  /** Pods 8/2: free 2 below the tail takes its 2. */
  lemma OneVPodNotCompacted()
    ensures Recorded(CompactionPlan(
              [VPod(VPod1, 10, [Placement("statefulset-name-0", 8), Placement("statefulset-name-1", 2)])],
              PodCapacity, 2))
            == map[VPod1 := [Placement("statefulset-name-1", 2)]]
  {
    var v := VPod(VPod1, 10, [Placement("statefulset-name-0", 8), Placement("statefulset-name-1", 2)]);
    PodNames();
    OneVPod(v, PodName(0));
    OneVPod(v, PodName(1));
    assert FreeBelow([v], PodCapacity, 1) == 2;
    assert CompactionPlan([v], PodCapacity, 2) == [Eviction(VPod1, Placement("statefulset-name-1", 2))];
    RecordedOne(Eviction(VPod1, Placement("statefulset-name-1", 2)));
  }

  /** Pods 6/8/7: free 4 + 2 below the tail, 7 on it. */
  lemma MultipleVPodsCompacted()
    ensures Recorded(CompactionPlan(
              [VPod(VPod1, 12, [Placement("statefulset-name-0", 4), Placement("statefulset-name-1", 8)]),
               VPod(VPod2, 9, [Placement("statefulset-name-0", 2), Placement("statefulset-name-2", 7)])],
              PodCapacity, 3)) == map[]
  {
    var v := VPod(VPod1, 12, [Placement("statefulset-name-0", 4), Placement("statefulset-name-1", 8)]);
    var w := VPod(VPod2, 9, [Placement("statefulset-name-0", 2), Placement("statefulset-name-2", 7)]);
    PodNames();
    TwoVPods(v, w, PodName(0));
    TwoVPods(v, w, PodName(1));
    TwoVPods(v, w, PodName(2));
    assert FreeBelow([v, w], PodCapacity, 2) == 6;
  }

  /** The 6/7/7 StatefulSet: vpod-1 desires only 6 yet uses 11, so usage is
      counted from the placements. */
  const SixSevenSeven: seq<VPod> :=
    [VPod(VPod1, 6, [Placement("statefulset-name-0", 4), Placement("statefulset-name-1", 7)]),
     VPod(VPod2, 15, [Placement("statefulset-name-0", 2), Placement("statefulset-name-2", 7)])]

  /** Pods 6/7/7: free 4 + 3 below the tail takes its 7. */
  lemma MultipleVPodsNotCompacted()
    ensures Recorded(CompactionPlan(SixSevenSeven, PodCapacity, 3))
            == map[VPod2 := [Placement("statefulset-name-2", 7)]]
  {
    var v := SixSevenSeven[0];
    var w := SixSevenSeven[1];
    assert SixSevenSeven == [v, w];
    PodNames();
    TwoVPods(v, w, PodName(0));
    TwoVPods(v, w, PodName(1));
    TwoVPods(v, w, PodName(2));
    assert FreeBelow([v, w], PodCapacity, 2) == 7;
    assert CompactionPlan([v, w], PodCapacity, 3) == [Eviction(VPod2, Placement("statefulset-name-2", 7))];
    RecordedOne(Eviction(VPod2, Placement("statefulset-name-2", 7)));
  }

  /** The test's flow on the autoscaler object: promote it, compact the
      6/7/7 StatefulSet, see one eviction recorded, demote it. */
  method CompactorScenario() returns (leaderDuring: bool, recorded: map<VPodKey, seq<Placement>>, leaderAfter: bool)
    ensures leaderDuring && !leaderAfter
    ensures recorded == map[VPod2 := [Placement("statefulset-name-2", 7)]]
  {
    var a := new Autoscaler(PodCapacity);
    a.Promote();
    leaderDuring := a.isLeader;
    a.Compact(SixSevenSeven, 3);
    assert a.evictions == CompactionPlan(SixSevenSeven, PodCapacity, 3);
    MultipleVPodsNotCompacted();
    recorded := Recorded(a.evictions);
    a.Demote();
    leaderAfter := a.isLeader;
  }
}
