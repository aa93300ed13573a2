/** Fixtures shared by the autoscaler's and the compactor's test tables:
    the namespace of every test VPod and the capacity of every pod. */
module TestFixtures {
  import opened Scheduler

  const TestNamespace: string := "test-ns"
  const PodCapacity: nat := 10

  function NewVPod(name: string, vreplicas: nat, placements: seq<Placement>): VPod {
    VPod(VPodKey(TestNamespace, name), vreplicas, placements)
  }
}
