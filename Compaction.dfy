/** Compaction of the StatefulSet's tail pod, and the autoscaler object that
    holds the leader flag and drives the evictor. */
module Compaction {
  import opened Scheduler

  /** One call of the evictor: the placement `from` of the VPod `vpod` is vacated. */
  datatype Eviction = Eviction(vpod: VPodKey, from: Placement)

  /** Replicas that a list of placements puts on the named pod. */
  function PlacedOn(placements: seq<Placement>, podName: string): (r: nat)
    decreases |placements|
  {
    if placements == [] then 0
    else
      var last := placements[|placements| - 1];
      PlacedOn(placements[..|placements| - 1], podName)
      + (if last.podName == podName then last.vreplicas else 0)
  }

  /** Used capacity of a pod: the placed replicas of every VPod on it. It
      comes from the placements, not from the desired counts. */
  function PodUsage(vpods: seq<VPod>, podName: string): (r: nat)
    decreases |vpods|
  {
    if vpods == [] then 0
    else PodUsage(vpods[..|vpods| - 1], podName) + PlacedOn(vpods[|vpods| - 1].placements, podName)
  }

  /** A pod's usage counts each VPod's placements on it. */
  lemma {:induction false} PodUsageCountsEachVPod(vpods: seq<VPod>, podName: string, i: nat)
    requires i < |vpods|
    ensures PlacedOn(vpods[i].placements, podName) <= PodUsage(vpods, podName)
    decreases |vpods|
  {
    if i < |vpods| - 1 {
      PodUsageCountsEachVPod(vpods[..|vpods| - 1], podName, i);
    }
  }

  /** Free capacity on the pods with ordinal below `ordinal`: the sum of
      capacity minus usage, which is negative on an over-committed pod. */
  function FreeBelow(vpods: seq<VPod>, capacity: nat, ordinal: nat): (r: int)
    decreases ordinal
  {
    if ordinal == 0 then 0
    else FreeBelow(vpods, capacity, ordinal - 1) + (capacity - PodUsage(vpods, PodName(ordinal - 1)))
  }

  /** The lower pods never offer more than their combined capacity, and
      offer all of it when none of them is used. */
  lemma {:induction false} FreeBelowBounded(vpods: seq<VPod>, capacity: nat, ordinal: nat)
    ensures FreeBelow(vpods, capacity, ordinal) <= ordinal * capacity
    ensures (forall i :: 0 <= i < ordinal ==> PodUsage(vpods, PodName(i)) == 0)
            ==> FreeBelow(vpods, capacity, ordinal) == ordinal * capacity
    decreases ordinal
  {
    if ordinal > 0 {
      FreeBelowBounded(vpods, capacity, ordinal - 1);
      assert ordinal * capacity == (ordinal - 1) * capacity + capacity;
    }
  }

  /** The evictions of one VPod's placements on the named pod, in placement order. */
  function EvictionsOn(key: VPodKey, placements: seq<Placement>, podName: string): seq<Eviction>
    decreases |placements|
  {
    if placements == [] then []
    else
      var last := placements[|placements| - 1];
      EvictionsOn(key, placements[..|placements| - 1], podName)
      + (if last.podName == podName then [Eviction(key, last)] else [])
  }

  /** The evictions of every VPod's placements on the named pod, in lister order. */
  function PodEvictions(vpods: seq<VPod>, podName: string): seq<Eviction>
    decreases |vpods|
  {
    if vpods == [] then []
    else
      var v := vpods[|vpods| - 1];
      PodEvictions(vpods[..|vpods| - 1], podName) + EvictionsOn(v.key, v.placements, podName)
  }

  /** The lower pods can absorb everything on the tail pod (ordinal replicas - 1). */
  predicate TailFits(vpods: seq<VPod>, capacity: nat, replicas: nat)
    requires replicas > 0
  {
    FreeBelow(vpods, capacity, replicas - 1) >= PodUsage(vpods, PodName(replicas - 1))
  }

  /** The evictions one compaction pass makes: every placement on the tail
      pod when the lower pods can absorb them all, and none otherwise. A
      StatefulSet with no pods has no tail pod. */
  function CompactionPlan(vpods: seq<VPod>, capacity: nat, replicas: nat): (plan: seq<Eviction>)
    ensures plan != [] ==> replicas > 0 && TailFits(vpods, capacity, replicas)
    ensures replicas > 0 && TailFits(vpods, capacity, replicas)
            ==> EvictedReplicas(plan) == PodUsage(vpods, PodName(replicas - 1))
  {
    if replicas == 0 then []
    else if TailFits(vpods, capacity, replicas) then
      PodEvictionsMoveUsage(vpods, PodName(replicas - 1));
      PodEvictions(vpods, PodName(replicas - 1))
    else []
  }

  /** Total replicas moved by a list of evictions. */
  function EvictedReplicas(evictions: seq<Eviction>): nat
    decreases |evictions|
  {
    if evictions == [] then 0
    else EvictedReplicas(evictions[..|evictions| - 1]) + evictions[|evictions| - 1].from.vreplicas
  }

  lemma {:induction false} EvictedReplicasAppend(a: seq<Eviction>, b: seq<Eviction>)
    ensures EvictedReplicas(a + b) == EvictedReplicas(a) + EvictedReplicas(b)
    decreases |b|
  {
    if b == [] {
      assert a + b == a;
    } else {
      assert (a + b)[..|a + b| - 1] == a + b[..|b| - 1];
      EvictedReplicasAppend(a, b[..|b| - 1]);
    }
  }

  /** Evicting a VPod's placements on a pod moves exactly its replicas there. */
  lemma {:induction false} EvictionsOnMoveUsage(key: VPodKey, placements: seq<Placement>, podName: string)
    ensures EvictedReplicas(EvictionsOn(key, placements, podName)) == PlacedOn(placements, podName)
    decreases |placements|
  {
    if placements != [] {
      var init := placements[..|placements| - 1];
      var last := placements[|placements| - 1];
      EvictionsOnMoveUsage(key, init, podName);
      EvictedReplicasAppend(EvictionsOn(key, init, podName),
                            if last.podName == podName then [Eviction(key, last)] else []);
    }
  }

  /** Evicting every placement on a pod moves exactly that pod's usage. */
  lemma {:induction false} PodEvictionsMoveUsage(vpods: seq<VPod>, podName: string)
    ensures EvictedReplicas(PodEvictions(vpods, podName)) == PodUsage(vpods, podName)
    decreases |vpods|
  {
    if vpods != [] {
      var init := vpods[..|vpods| - 1];
      var v := vpods[|vpods| - 1];
      PodEvictionsMoveUsage(init, podName);
      EvictionsOnMoveUsage(v.key, v.placements, podName);
      EvictedReplicasAppend(PodEvictions(init, podName), EvictionsOn(v.key, v.placements, podName));
    }
  }

  /** Every eviction of a VPod's placements on a pod is one of its placements
      there, and every such placement is evicted. */
  lemma {:induction false} EvictionsOnExactly(key: VPodKey, placements: seq<Placement>, podName: string, e: Eviction)
    ensures e in EvictionsOn(key, placements, podName)
            <==> e.vpod == key && e.from in placements && e.from.podName == podName
    decreases |placements|
  {
    if placements != [] {
      var init := placements[..|placements| - 1];
      assert placements == init + [placements[|placements| - 1]];
      EvictionsOnExactly(key, init, podName, e);
    }
  }

  /** The evictions on a pod are exactly the placements of listed VPods on that pod. */
  lemma {:induction false} PodEvictionsExactly(vpods: seq<VPod>, podName: string, e: Eviction)
    ensures e in PodEvictions(vpods, podName)
            <==> exists v :: v in vpods && v.key == e.vpod && e.from in v.placements && e.from.podName == podName
    decreases |vpods|
  {
    if vpods != [] {
      var init := vpods[..|vpods| - 1];
      var v := vpods[|vpods| - 1];
      assert vpods == init + [v];
      PodEvictionsExactly(init, podName, e);
      EvictionsOnExactly(v.key, v.placements, podName, e);
    }
  }

  /** Compaction only ever evicts placements of the tail pod. */
  lemma CompactionOnlyTouchesTail(vpods: seq<VPod>, capacity: nat, replicas: nat, e: Eviction)
    requires e in CompactionPlan(vpods, capacity, replicas)
    ensures replicas > 0 && e.from.podName == PodName(replicas - 1)
    ensures exists v :: v in vpods && v.key == e.vpod && e.from in v.placements
  {
    PodEvictionsExactly(vpods, PodName(replicas - 1), e);
  }

  /** When the tail pod fits, every placement on it is evicted. */
  lemma CompactionEvictsWholeTail(vpods: seq<VPod>, capacity: nat, replicas: nat, v: VPod, p: Placement)
    requires replicas > 0 && TailFits(vpods, capacity, replicas)
    requires v in vpods && p in v.placements && p.podName == PodName(replicas - 1)
    ensures Eviction(v.key, p) in CompactionPlan(vpods, capacity, replicas)
  {
    PodEvictionsExactly(vpods, PodName(replicas - 1), Eviction(v.key, p));
  }

  /** When the tail pod does not fit, or there is no pod, nothing is evicted. */
  lemma CompactionRefuses(vpods: seq<VPod>, capacity: nat, replicas: nat)
    requires replicas == 0 || !TailFits(vpods, capacity, replicas)
    ensures CompactionPlan(vpods, capacity, replicas) == []
  {
  }

  /** Whatever compaction evicts vacates the tail pod and fits in the free
      capacity of the lower pods. */
  lemma CompactionVacatesTail(vpods: seq<VPod>, capacity: nat, replicas: nat)
    requires CompactionPlan(vpods, capacity, replicas) != []
    ensures replicas > 0
    ensures EvictedReplicas(CompactionPlan(vpods, capacity, replicas)) == PodUsage(vpods, PodName(replicas - 1))
    ensures EvictedReplicas(CompactionPlan(vpods, capacity, replicas)) <= FreeBelow(vpods, capacity, replicas - 1)
  {
    PodEvictionsMoveUsage(vpods, PodName(replicas - 1));
  }

  /** The VPods with every placement on the named pod removed: the state
      once the evicted replicas have left that pod. */
  function Vacate(vpods: seq<VPod>, podName: string): (r: seq<VPod>)
    ensures |r| == |vpods|
  {
    seq(|vpods|, i requires 0 <= i < |vpods| =>
      vpods[i].(placements := RemoveOn(vpods[i].placements, podName)))
  }

  function RemoveOn(placements: seq<Placement>, podName: string): seq<Placement>
    decreases |placements|
  {
    if placements == [] then []
    else
      var last := placements[|placements| - 1];
      RemoveOn(placements[..|placements| - 1], podName) + (if last.podName == podName then [] else [last])
  }

  lemma {:induction false} RemoveOnUsage(placements: seq<Placement>, podName: string, other: string)
    ensures PlacedOn(RemoveOn(placements, podName), other)
            == if other == podName then 0 else PlacedOn(placements, other)
    decreases |placements|
  {
    if placements != [] {
      var init := placements[..|placements| - 1];
      var last := placements[|placements| - 1];
      var rest := if last.podName == podName then [] else [last];
      RemoveOnUsage(init, podName, other);
      PlacedOnAppend(RemoveOn(init, podName), rest, other);
    }
  }

  lemma {:induction false} PlacedOnAppend(a: seq<Placement>, b: seq<Placement>, podName: string)
    ensures PlacedOn(a + b, podName) == PlacedOn(a, podName) + PlacedOn(b, podName)
    decreases |b|
  {
    if b == [] {
      assert a + b == a;
    } else {
      assert (a + b)[..|a + b| - 1] == a + b[..|b| - 1];
      PlacedOnAppend(a, b[..|b| - 1], podName);
    }
  }

  lemma {:induction false} VacateUsage(vpods: seq<VPod>, podName: string, other: string)
    ensures PodUsage(Vacate(vpods, podName), other)
            == if other == podName then 0 else PodUsage(vpods, other)
    decreases |vpods|
  {
    if vpods != [] {
      var init := vpods[..|vpods| - 1];
      assert Vacate(vpods, podName)[..|vpods| - 1] == Vacate(init, podName);
      VacateUsage(init, podName, other);
      RemoveOnUsage(vpods[|vpods| - 1].placements, podName, other);
    }
  }

  lemma {:induction false} VacateFreeBelow(vpods: seq<VPod>, capacity: nat, tail: nat, ordinal: nat)
    requires ordinal <= tail
    ensures FreeBelow(Vacate(vpods, PodName(tail)), capacity, ordinal) == FreeBelow(vpods, capacity, ordinal)
    decreases ordinal
  {
    if ordinal > 0 {
      VacateFreeBelow(vpods, capacity, tail, ordinal - 1);
      PodNameInjective(ordinal - 1, tail);
      VacateUsage(vpods, PodName(tail), PodName(ordinal - 1));
    }
  }

  /** Vacating the tail pod zeroes its usage and leaves every lower pod's
      usage, and so the free capacity below the tail, unchanged. */
  lemma VacateOnlyTail(vpods: seq<VPod>, capacity: nat, replicas: nat, ordinal: nat)
    requires ordinal < replicas
    ensures PodUsage(Vacate(vpods, PodName(replicas - 1)), PodName(ordinal))
            == if ordinal == replicas - 1 then 0 else PodUsage(vpods, PodName(ordinal))
    ensures FreeBelow(Vacate(vpods, PodName(replicas - 1)), capacity, replicas - 1)
            == FreeBelow(vpods, capacity, replicas - 1)
  {
    var tail := PodName(replicas - 1);
    VacateUsage(vpods, tail, PodName(ordinal));
    if ordinal != replicas - 1 {
      PodNameInjective(ordinal, replicas - 1);
      assert PodName(ordinal) != tail;
    }
    VacateFreeBelow(vpods, capacity, replicas - 1, replicas - 1);
  }

  /** Once compaction's evictions have left the tail pod, the tail is
      empty and the lower pods still have the free capacity they had, which
      covers everything that was evicted. */
  lemma CompactionLeavesRoomBelow(vpods: seq<VPod>, capacity: nat, replicas: nat)
    requires CompactionPlan(vpods, capacity, replicas) != []
    ensures replicas > 0
    ensures PodUsage(Vacate(vpods, PodName(replicas - 1)), PodName(replicas - 1)) == 0
    ensures EvictedReplicas(CompactionPlan(vpods, capacity, replicas))
            <= FreeBelow(Vacate(vpods, PodName(replicas - 1)), capacity, replicas - 1)
  {
    CompactionVacatesTail(vpods, capacity, replicas);
    VacateOnlyTail(vpods, capacity, replicas, replicas - 1);
  }

  /** No listed VPod has a placement on the named pod. */
  predicate NothingOn(vpods: seq<VPod>, podName: string) {
    forall v, p :: v in vpods && p in v.placements ==> p.podName != podName
  }

  lemma {:induction false} RemoveOnNothingLeft(placements: seq<Placement>, podName: string, p: Placement)
    requires p in RemoveOn(placements, podName)
    ensures p.podName != podName && p in placements
    decreases |placements|
  {
    var init := placements[..|placements| - 1];
    var last := placements[|placements| - 1];
    if p in RemoveOn(init, podName) {
      RemoveOnNothingLeft(init, podName, p);
      assert init <= placements;
    }
  }

  lemma VacateEmptiesPod(vpods: seq<VPod>, podName: string)
    ensures NothingOn(Vacate(vpods, podName), podName)
  {
    var r := Vacate(vpods, podName);
    forall v, p | v in r && p in v.placements
      ensures p.podName != podName
    {
      var i :| 0 <= i < |r| && r[i] == v;
      RemoveOnNothingLeft(vpods[i].placements, podName, p);
    }
  }

  /** Compaction is idempotent: once the tail pod holds no placement, a
      further pass evicts nothing. */
  lemma SecondPassEvictsNothing(vpods: seq<VPod>, capacity: nat, replicas: nat)
    requires replicas > 0 && NothingOn(vpods, PodName(replicas - 1))
    ensures CompactionPlan(vpods, capacity, replicas) == []
  {
    var plan := CompactionPlan(vpods, capacity, replicas);
    if plan != [] {
      PodEvictionsExactly(vpods, PodName(replicas - 1), plan[0]);
      assert false;
    }
  }

  /** After compaction has vacated the tail pod, compacting again evicts nothing. */
  lemma CompactionIdempotent(vpods: seq<VPod>, capacity: nat, replicas: nat)
    requires replicas > 0
    ensures CompactionPlan(Vacate(vpods, PodName(replicas - 1)), capacity, replicas) == []
  {
    VacateEmptiesPod(vpods, PodName(replicas - 1));
    SecondPassEvictsNothing(Vacate(vpods, PodName(replicas - 1)), capacity, replicas);
  }

  /** The placements evicted from the VPod `key`, in the order they were evicted. */
  function PlacementsOf(evictions: seq<Eviction>, key: VPodKey): seq<Placement>
    decreases |evictions|
  {
    if evictions == [] then []
    else
      var e := evictions[|evictions| - 1];
      PlacementsOf(evictions[..|evictions| - 1], key) + (if e.vpod == key then [e.from] else [])
  }

  /** A VPod has evicted placements exactly when some eviction names it. */
  lemma {:induction false} PlacementsOfNonEmpty(evictions: seq<Eviction>, key: VPodKey)
    ensures PlacementsOf(evictions, key) != []
            <==> exists i :: 0 <= i < |evictions| && evictions[i].vpod == key
    decreases |evictions|
  {
    if evictions != [] {
      var init := evictions[..|evictions| - 1];
      PlacementsOfNonEmpty(init, key);
      assert forall i :: 0 <= i < |init| ==> init[i] == evictions[i];
    }
  }

  /** What the evictor has recorded, keyed by VPod: each VPod's evicted
      placements in the order the evictor saw them. */
  function Recorded(evictions: seq<Eviction>): (m: map<VPodKey, seq<Placement>>)
    ensures forall k :: k in m <==> PlacementsOf(evictions, k) != []
    ensures forall k :: k in m ==> m[k] == PlacementsOf(evictions, k)
    decreases |evictions|
  {
    if evictions == [] then map[]
    else
      var e := evictions[|evictions| - 1];
      var m := Recorded(evictions[..|evictions| - 1]);
      m[e.vpod := (if e.vpod in m then m[e.vpod] else []) + [e.from]]
  }

  /** The VPods recorded are exactly those some eviction names. */
  lemma RecordedKeys(evictions: seq<Eviction>, key: VPodKey)
    ensures key in Recorded(evictions) <==> exists i :: 0 <= i < |evictions| && evictions[i].vpod == key
  {
    PlacementsOfNonEmpty(evictions, key);
  }

  /** The autoscaler's mutable state: whether it holds leadership, and the
      evictions its evictor has been asked to make. */
  class Autoscaler {
    const capacity: nat
    var isLeader: bool
    var evictions: seq<Eviction>

    /** A new autoscaler starts as a follower with nothing evicted. */
    constructor (capacity: nat)
      ensures this.capacity == capacity
      ensures !isLeader && evictions == []
    {
      this.capacity := capacity;
      isLeader := false;
      evictions := [];
    }

    /** Takes leadership. */
    method Promote()
      modifies this`isLeader
      ensures isLeader
    {
      isLeader := true;
    }

    /** Gives leadership up. */
    method Demote()
      modifies this`isLeader
      ensures !isLeader
    {
      isLeader := false;
    }

    /** Passes to the evictor each placement of `v` on the named pod. */
    method EvictFrom(v: VPod, podName: string)
      modifies this`evictions
      ensures evictions == old(evictions) + EvictionsOn(v.key, v.placements, podName)
    {
      var j := 0;
      while j < |v.placements|
        invariant 0 <= j <= |v.placements|
        invariant evictions == old(evictions) + EvictionsOn(v.key, v.placements[..j], podName)
      {
        var p := v.placements[j];
        if p.podName == podName {
          evictions := evictions + [Eviction(v.key, p)];
        }
        assert v.placements[..j + 1][..j] == v.placements[..j];
        j := j + 1;
      }
      assert v.placements[..j] == v.placements;
    }

    /** One compaction pass over a StatefulSet of `replicas` pods: when the
        tail pod's placements fit in the free capacity of the lower pods,
        each of them is passed to the evictor, VPod by VPod. */
    method Compact(vpods: seq<VPod>, replicas: nat)
      modifies this`evictions
      ensures evictions == old(evictions) + CompactionPlan(vpods, capacity, replicas)
    {
      if replicas == 0 {
        assert old(evictions) + [] == old(evictions);
        return;
      }
      var tail := PodName(replicas - 1);
      if FreeBelow(vpods, capacity, replicas - 1) < PodUsage(vpods, tail) {
        assert old(evictions) + [] == old(evictions);
        return;
      }
      var i := 0;
      while i < |vpods|
        invariant 0 <= i <= |vpods|
        invariant evictions == old(evictions) + PodEvictions(vpods[..i], tail)
      {
        EvictFrom(vpods[i], tail);
        assert vpods[..i + 1][..i] == vpods[..i];
        i := i + 1;
      }
      assert vpods[..i] == vpods;
    }
  }
}
