/** Entities the autoscaler reads: VPods, their placements, and the names
    of the pods of the StatefulSet, which are addressed by ordinal. */
module Scheduler {

  datatype Option<T> = None | Some(value: T)

  /** The namespace-qualified name of a VPod. */
  datatype VPodKey = VPodKey(namespace: string, name: string)

  /** `vreplicas` virtual replicas of one VPod sit on the pod named `podName`. */
  datatype Placement = Placement(podName: string, vreplicas: nat)

  /** A unit of demand: its desired number of virtual replicas and where
      some of them are currently placed. */
  datatype VPod = VPod(key: VPodKey, vreplicas: nat, placements: seq<Placement>)

  /** The StatefulSet whose pods hold the virtual replicas. */
  const StatefulSetName: string := "statefulset-name"

  /** The prefix shared by every pod name of the StatefulSet. */
  const PodNamePrefix: string := StatefulSetName + "-"

  predicate IsDigit(c: char) {
    '0' <= c <= '9'
  }

  function Digit(d: nat): (c: char)
    requires d < 10
    ensures IsDigit(c)
  {
    ('0' as int + d) as char
  }

  function DigitValue(c: char): (d: nat)
    requires IsDigit(c)
    ensures d < 10 && Digit(d) == c
  {
    c as int - '0' as int
  }

  predicate AllDigits(s: string) {
    forall i :: 0 <= i < |s| ==> IsDigit(s[i])
  }

  /** The decimal numeral of `n`, without leading zeros. */
  function Decimal(n: nat): (s: string)
    ensures |s| > 0 && AllDigits(s)
    ensures (|s| == 1) == (n < 10)
    decreases n
  {
    if n < 10 then [Digit(n)] else Decimal(n / 10) + [Digit(n % 10)]
  }

  /** The value of a decimal numeral (leading zeros allowed). */
  function ParseDecimal(s: string): nat
    requires |s| > 0 && AllDigits(s)
    decreases |s|
  {
    if |s| == 1 then DigitValue(s[0])
    else ParseDecimal(s[..|s| - 1]) * 10 + DigitValue(s[|s| - 1])
  }

  lemma {:induction false} DecimalRoundTrip(n: nat)
    ensures ParseDecimal(Decimal(n)) == n
    decreases n
  {
    if n >= 10 {
      var s := Decimal(n);
      assert s[..|s| - 1] == Decimal(n / 10);
      assert s[|s| - 1] == Digit(n % 10);
      DecimalRoundTrip(n / 10);
    }
  }

  /** The name of the pod with the given ordinal: `statefulset-name-<ordinal>`. */
  function PodName(ordinal: nat): (name: string)
    ensures PodNamePrefix <= name && |name| > |PodNamePrefix|
    ensures AllDigits(name[|PodNamePrefix|..])
  {
    PodNamePrefix + Decimal(ordinal)
  }

  /** The ordinal encoded in a pod name of the StatefulSet, if it is one. */
  function OrdinalFromPodName(name: string): (r: Option<nat>)
    ensures r.Some? ==> PodNamePrefix <= name
  {
    var k := |PodNamePrefix|;
    if |name| > k && name[..k] == PodNamePrefix && AllDigits(name[k..])
    then Some(ParseDecimal(name[k..]))
    else None
  }

  /** Reading the ordinal back from a pod name gives the ordinal it was made from. */
  lemma PodNameRoundTrip(ordinal: nat)
    ensures OrdinalFromPodName(PodName(ordinal)) == Some(ordinal)
  {
    var name := PodName(ordinal);
    var k := |PodNamePrefix|;
    assert name[..k] == PodNamePrefix;
    assert name[k..] == Decimal(ordinal);
    DecimalRoundTrip(ordinal);
  }

  /** Distinct ordinals name distinct pods. */
  lemma PodNameInjective(i: nat, j: nat)
    ensures (PodName(i) == PodName(j)) == (i == j)
  {
    if PodName(i) == PodName(j) {
      PodNameRoundTrip(i);
      PodNameRoundTrip(j);
    }
  }
}
