/** The replica decision of the autoscaler: the StatefulSet is resized to
    the fewest pods whose combined capacity holds every desired virtual
    replica, except that it shrinks only when scaling down is permitted. */
module ReplicaDecision {
  import opened Scheduler

  /** Sum of the desired virtual replicas. */
  function TotalDemand(demands: seq<nat>): nat
    decreases |demands|
  {
    if demands == [] then 0
    else TotalDemand(demands[..|demands| - 1]) + demands[|demands| - 1]
  }

  /** Demand adds up across lists of VPods. */
  lemma {:induction false} TotalDemandAppend(a: seq<nat>, b: seq<nat>)
    ensures TotalDemand(a + b) == TotalDemand(a) + TotalDemand(b)
    decreases |b|
  {
    if b == [] {
      assert a + b == a;
    } else {
      var b' := b[..|b| - 1];
      assert (a + b)[..|a + b| - 1] == a + b';
      TotalDemandAppend(a, b');
    }
  }

  /** The desired vreplica count of each VPod, in lister order. Where its
      replicas are placed does not enter the decision. */
  function Demands(vpods: seq<VPod>): seq<nat> {
    seq(|vpods|, i requires 0 <= i < |vpods| => vpods[i].vreplicas)
  }

  /** The demand of two lists of VPods is the sum of their demands, so
      VPods are pooled before the ceiling is taken. */
  lemma DemandsAppend(v: seq<VPod>, w: seq<VPod>)
    ensures TotalDemand(Demands(v + w)) == TotalDemand(Demands(v)) + TotalDemand(Demands(w))
  {
    assert Demands(v + w) == Demands(v) + Demands(w);
    TotalDemandAppend(Demands(v), Demands(w));
  }

  /** `pods` pods of `capacity` each have room for `demand` virtual replicas. */
  predicate Covers(pods: nat, demand: nat, capacity: nat) {
    demand <= pods * capacity
  }

  lemma CoversMonotone(n: nat, m: nat, demand: nat, capacity: nat)
    requires n <= m && Covers(n, demand, capacity)
    ensures Covers(m, demand, capacity)
  {
    assert n * capacity <= m * capacity by {
      assert (m - n) * capacity >= 0;
      assert m * capacity == n * capacity + (m - n) * capacity;
    }
  }

  /** The ceiling of demand / capacity: the fewest pods that cover the demand. */
  function PodsFor(demand: nat, capacity: nat): (n: nat)
    requires capacity > 0
    ensures Covers(n, demand, capacity)
    ensures n == 0 || !Covers(n - 1, demand, capacity)
    ensures (n == 0) == (demand == 0)
  {
    var q := (demand + capacity - 1) / capacity;
    var m := (demand + capacity - 1) % capacity;
    assert demand + capacity - 1 == q * capacity + m;
    assert (q - 1) * capacity == q * capacity - capacity;
    q
  }

  /** The lowest size the decision may choose: the current one unless
      scaling down is permitted. */
  function Floor(replicas: nat, scaleDown: bool): nat {
    if scaleDown then 0 else replicas
  }

  /** `n` is the least size, at or above `floor`, that covers the demand. */
  predicate LeastCovering(n: nat, floor: nat, demand: nat, capacity: nat) {
    && floor <= n
    && Covers(n, demand, capacity)
    && (n == floor || !Covers(n - 1, demand, capacity))
  }

  /** At most one size is the least covering one, so LeastCovering
      determines the decision completely. */
  lemma LeastCoveringUnique(n: nat, m: nat, floor: nat, demand: nat, capacity: nat)
    requires LeastCovering(n, floor, demand, capacity)
    requires LeastCovering(m, floor, demand, capacity)
    ensures n == m
  {
    if n < m {
      CoversMonotone(n, m - 1, demand, capacity);
    } else if m < n {
      CoversMonotone(m, n - 1, demand, capacity);
    }
  }

  /** The new size of the StatefulSet. The target ceil(demand / capacity) is
      applied when it does not shrink the StatefulSet, and when it does only
      if `scaleDown` is set. */
  function TargetReplicas(demands: seq<nat>, capacity: nat, replicas: nat, scaleDown: bool): (r: nat)
    requires capacity > 0
    ensures LeastCovering(r, Floor(replicas, scaleDown), TotalDemand(demands), capacity)
  {
    var target := PodsFor(TotalDemand(demands), capacity);
    if target >= replicas || scaleDown then
      target
    else
      assert Covers(replicas, TotalDemand(demands), capacity) by {
        CoversMonotone(target, replicas, TotalDemand(demands), capacity);
      }
      CoversMonotone(target, replicas - 1, TotalDemand(demands), capacity);
      replicas
  }

  /** Never under-provisioned: after the decision every desired replica has room. */
  lemma DecisionCoversDemand(demands: seq<nat>, capacity: nat, replicas: nat, scaleDown: bool)
    requires capacity > 0
    ensures TotalDemand(demands) <= TargetReplicas(demands, capacity, replicas, scaleDown) * capacity
  {
  }

  /** Scaling up is never gated: a target above the current size is applied
      whether or not scaling down is permitted. */
  lemma ScaleUpUnconditional(demands: seq<nat>, capacity: nat, replicas: nat, scaleDown: bool)
    requires capacity > 0
    requires PodsFor(TotalDemand(demands), capacity) >= replicas
    ensures TargetReplicas(demands, capacity, replicas, scaleDown) == PodsFor(TotalDemand(demands), capacity)
  {
  }

  /** A target below the current size is applied exactly when scaling down
      is permitted; otherwise the size stays. */
  lemma ScaleDownGated(demands: seq<nat>, capacity: nat, replicas: nat, scaleDown: bool)
    requires capacity > 0
    requires PodsFor(TotalDemand(demands), capacity) < replicas
    ensures scaleDown ==> TargetReplicas(demands, capacity, replicas, scaleDown) == PodsFor(TotalDemand(demands), capacity)
    ensures !scaleDown ==> TargetReplicas(demands, capacity, replicas, scaleDown) == replicas
  {
  }

  /** With no demand and scaling down permitted the StatefulSet goes to zero. */
  lemma ZeroDemandScalesToZero(demands: seq<nat>, capacity: nat, replicas: nat)
    requires capacity > 0
    requires TotalDemand(demands) == 0
    ensures TargetReplicas(demands, capacity, replicas, true) == 0
  {
  }

  /** Deciding again from the size just decided changes nothing, so
      repeated ticks over unchanged demand do not thrash. */
  lemma DecisionIdempotent(demands: seq<nat>, capacity: nat, replicas: nat, scaleDown: bool)
    requires capacity > 0
    ensures var r := TargetReplicas(demands, capacity, replicas, scaleDown);
            TargetReplicas(demands, capacity, r, scaleDown) == r
  {
  }

  /** Demand of several VPods is pooled before rounding up: the decision
      depends only on the total, not on how it splits between VPods. */
  lemma DecisionDependsOnTotal(a: seq<nat>, b: seq<nat>, capacity: nat, replicas: nat, scaleDown: bool)
    requires capacity > 0
    requires TotalDemand(a) == TotalDemand(b)
    ensures TargetReplicas(a, capacity, replicas, scaleDown) == TargetReplicas(b, capacity, replicas, scaleDown)
  {
  }

  /** The decision for the VPods as the lister returns them: the least
      size at or above the floor that holds every VPod's desired replicas. */
  function DecideFor(vpods: seq<VPod>, capacity: nat, replicas: nat, scaleDown: bool): (r: nat)
    requires capacity > 0
    ensures LeastCovering(r, Floor(replicas, scaleDown), TotalDemand(Demands(vpods)), capacity)
  {
    TargetReplicas(Demands(vpods), capacity, replicas, scaleDown)
  }

  /** Placements do not enter the decision: two VPod lists with the same
      desired counts get the same size, wherever their replicas sit. */
  lemma DecisionIgnoresPlacements(v: seq<VPod>, w: seq<VPod>, capacity: nat, replicas: nat, scaleDown: bool)
    requires capacity > 0
    requires |v| == |w|
    requires forall i :: 0 <= i < |v| ==> v[i].vreplicas == w[i].vreplicas
    ensures DecideFor(v, capacity, replicas, scaleDown) == DecideFor(w, capacity, replicas, scaleDown)
  {
    assert Demands(v) == Demands(w);
  }
}
