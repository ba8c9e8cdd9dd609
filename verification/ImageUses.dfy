/** The order of a cluster's image uses: which container is where. */
module ImageUses {
  import opened ImageIndex

  /** How many containers the first `n` pods have. */
  function ContainersBefore(pods: seq<Pod>, n: nat): nat
    requires n <= |pods|
  {
    if n == 0 then 0
    else ContainersBefore(pods, n - 1) + |pods[n - 1].initContainers| + |pods[n - 1].containers|
  }

  /** What uses what, in order: pod after pod, its init containers and then its containers,
      each under the pod's name and namespace. */
  lemma UseAt(pods: seq<Pod>, n: nat, c: nat)
    requires n < |pods| && c < |pods[n].initContainers| + |pods[n].containers|
    ensures var k, pod := ContainersBefore(pods, n) + c, pods[n];
      k < |AllUses(pods)| && AllUses(pods)[k] == Use(
        if c < |pod.initContainers| then pod.initContainers[c] else pod.containers[c - |pod.initContainers|],
        PodReference(name := pod.name, namespace := pod.namespace))
  {
    AllUsesOfMore(pods, n);
    UsesBefore(pods, n);
    UsesStay(pods, n + 1);
    var k := ContainersBefore(pods, n) + c;
    var pod := pods[n];
    assert AllUses(pods[..n + 1])[k] == UsesOf(pod, |pod.Images()|)[c] == Use(pod.Images()[c], pod.Reference());
    assert pod.Images()[c] ==
      if c < |pod.initContainers| then pod.initContainers[c] else pod.containers[c - |pod.initContainers|];
    assert pod.Reference() == PodReference(name := pod.name, namespace := pod.namespace);
    assert AllUses(pods)[k] == AllUses(pods[..n + 1])[k];
  }

  lemma {:induction false} UsesBefore(pods: seq<Pod>, n: nat)
    requires n <= |pods|
    ensures |AllUses(pods[..n])| == ContainersBefore(pods, n)
  {
    if n > 0 {
      UsesBefore(pods, n - 1);
      AllUsesOfMore(pods, n - 1);
    }
  }

  lemma {:induction false} UsesStay(pods: seq<Pod>, n: nat)
    requires n <= |pods|
    ensures AllUses(pods[..n]) <= AllUses(pods)
    decreases |pods| - n
  {
    if n == |pods| {
      assert pods[..n] == pods;
    } else {
      UsesStay(pods, n + 1);
      AllUsesOfMore(pods, n);
    }
  }
}
