/** Which pods use which container image: the inverted index of a cluster's pods. */
module ImageIndex {
  import opened Search
  import opened Wrappers

  datatype PodReference = PodReference(name: string, namespace: string)

  /** A pod, with one image per init container and per container. */
  datatype Pod = Pod(name: string, namespace: string, initContainers: seq<string>, containers: seq<string>) {
    function Reference(): PodReference { PodReference(name, namespace) }

    function Images(): seq<string> { initContainers + containers }
  }

  datatype ImageUsage = ImageUsage(image: string, pods: seq<PodReference>)

  datatype Use = Use(image: string, pod: PodReference)

  /** The first `n` containers of the pod, init containers first. */
  function UsesOf(pod: Pod, n: nat): (uses: seq<Use>)
    requires n <= |pod.Images()|
    ensures |uses| == n
  {
    seq(n, i requires 0 <= i < n => Use(pod.Images()[i], pod.Reference()))
  }

  function AllUses(pods: seq<Pod>): seq<Use> {
    if pods == [] then []
    else
      var last := pods[|pods| - 1];
      AllUses(pods[..|pods| - 1]) + UsesOf(last, |last.Images()|)
  }

  function RefsOf(uses: seq<Use>, image: string): seq<PodReference> {
    if uses == [] then []
    else
      var last := uses[|uses| - 1];
      RefsOf(uses[..|uses| - 1], image) + if last.image == image then [last.pod] else []
  }

  /** The position of the image's first use, or the number of uses. */
  function FirstUse(uses: seq<Use>, image: string): (k: nat)
    ensures k <= |uses|
    ensures k < |uses| ==> uses[k].image == image
    ensures forall j :: 0 <= j < k ==> uses[j].image != image
  {
    FirstWhere(uses, (u: Use) => u.image == image)
  }

  predicate Lists(usages: seq<ImageUsage>, image: string) { exists i :: 0 <= i < |usages| && usages[i].image == image }

  predicate Refers(usages: seq<ImageUsage>, uses: seq<Use>) {
    forall i :: 0 <= i < |usages| ==> usages[i].pods == RefsOf(uses, usages[i].image)
  }

  predicate InFirstUseOrder(usages: seq<ImageUsage>, uses: seq<Use>) {
    && (forall i :: 0 <= i < |usages| ==> FirstUse(uses, usages[i].image) < |uses|)
    && (forall i, j :: 0 <= i < j < |usages| ==> FirstUse(uses, usages[i].image) < FirstUse(uses, usages[j].image))
  }

  predicate Complete(usages: seq<ImageUsage>, uses: seq<Use>) { forall u :: u in uses ==> Lists(usages, u.image) }

  /** Each used image once, in the order of first use, each with exactly the pods that
      use it, in order and as often as they do. */
  predicate Inverts(usages: seq<ImageUsage>, uses: seq<Use>) {
    Refers(usages, uses) && InFirstUseOrder(usages, uses) && Complete(usages, uses)
  }

  /** The index sends every listed image to its place. */
  predicate Indexes(imageIndex: map<string, nat>, usages: seq<ImageUsage>) {
    && (forall image :: image in imageIndex ==>
          imageIndex[image] < |usages| && usages[imageIndex[image]].image == image)
    && (forall i :: 0 <= i < |usages| ==> usages[i].image in imageIndex)
  }

  /** What the loop keeps. */
  predicate Maintains(imageIndex: map<string, nat>, usages: seq<ImageUsage>, uses: seq<Use>) {
    Inverts(usages, uses) && Indexes(imageIndex, usages)
  }

  method ImageUsages(pods: seq<Pod>) returns (usages: seq<ImageUsage>)
    ensures Inverts(usages, AllUses(pods))
  {
    var imageIndex: map<string, nat> := map[];
    usages := [];
    ghost var uses := [];
    for p := 0 to |pods|
      invariant uses == AllUses(pods[..p])
      invariant Maintains(imageIndex, usages, uses)
    {
      var pod := pods[p];
      var ref := PodReference(pod.name, pod.namespace);
      var containerImages := pod.initContainers + pod.containers;
      ghost var before := uses;
      assert before + UsesOf(pod, 0) == before;
      for c := 0 to |containerImages|
        invariant uses == before + UsesOf(pod, c)
        invariant Maintains(imageIndex, usages, uses)
      {
        var image := containerImages[c];
        UsesOfMore(before, pod, c);
        if image in imageIndex {
          var idx := imageIndex[image];
          MaintainsKnown(imageIndex, usages, uses, Use(image, ref));
          usages := usages[idx := usages[idx].(pods := usages[idx].pods + [ref])];
        } else {
          MaintainsNew(imageIndex, usages, uses, Use(image, ref));
          imageIndex := imageIndex[image := |usages|];
          usages := usages + [ImageUsage(image, [ref])];
        }
        uses := uses + [Use(image, ref)];
      }
      AllUsesOfMore(pods, p);
    }
    assert pods[..|pods|] == pods;
  }

  predicate Answers(usages: seq<ImageUsage>, answer: Option<seq<Pod>>) {
    answer.Some? && Inverts(usages, AllUses(answer.value))
  }

  /** The first `n` clusters do not name this one again after position `i`. */
  predicate LastMention(clusters: seq<string>, n: nat, i: nat)
    requires i < n <= |clusters|
  {
    forall j :: i < j < n ==> clusters[j] != clusters[i]
  }

  /** Every one of the first `n` clusters is answered for, from its last mention. */
  predicate Answered(found: map<string, seq<ImageUsage>>, clusters: seq<string>, answers: seq<Option<seq<Pod>>>, n: nat)
    requires n <= |clusters| == |answers|
  {
    && (forall c :: c in found ==> c in clusters[..n])
    && (forall i :: 0 <= i < n ==> clusters[i] in found)
    && (forall i :: 0 <= i < n && LastMention(clusters, n, i) ==> Answers(found[clusters[i]], answers[i]))
  }

  lemma AnsweredMore(found: map<string, seq<ImageUsage>>, clusters: seq<string>, answers: seq<Option<seq<Pod>>>, n: nat,
                     usages: seq<ImageUsage>)
    requires n < |answers| == |clusters| && Answered(found, clusters, answers, n) && Answers(usages, answers[n])
    ensures Answered(found[clusters[n] := usages], clusters, answers, n + 1)
  {
    var next := found[clusters[n] := usages];
    assert clusters[..n + 1] == clusters[..n] + [clusters[n]];
    forall i | 0 <= i < n + 1 && LastMention(clusters, n + 1, i)
      ensures Answers(next[clusters[i]], answers[i])
    {
      if i < n {
        assert LastMention(clusters, n, i) && clusters[n] != clusters[i];
      }
    }
  }

  /** One listing a cluster, each from the pods of that cluster; `answers` are the API's,
      and a failed one fails the call. A cluster named twice is listed once. */
  method GetClusterImages(clusters: seq<string>, answers: seq<Option<seq<Pod>>>)
    returns (r: Option<map<string, seq<ImageUsage>>>)
    requires |answers| == |clusters|
    ensures r.None? <==> exists i :: 0 <= i < |answers| && answers[i].None?
    ensures r.Some? ==> Answered(r.value, clusters, answers, |clusters|)
  {
    var imagesInClusters: map<string, seq<ImageUsage>> := map[];
    for n := 0 to |clusters|
      invariant forall i :: 0 <= i < n ==> answers[i].Some?
      invariant Answered(imagesInClusters, clusters, answers, n)
    {
      if answers[n].None? {
        return None;
      }
      var usages := ImageUsages(answers[n].value);
      AnsweredMore(imagesInClusters, clusters, answers, n, usages);
      imagesInClusters := imagesInClusters[clusters[n] := usages];
    }
    r := Some(imagesInClusters);
  }

  lemma AllUsesOfMore(pods: seq<Pod>, p: nat)
    requires p < |pods|
    ensures AllUses(pods[..p + 1]) == AllUses(pods[..p]) + UsesOf(pods[p], |pods[p].Images()|)
  {
    assert pods[..p + 1][..p] == pods[..p];
  }

  lemma MaintainsKnown(imageIndex: map<string, nat>, usages: seq<ImageUsage>, uses: seq<Use>, use: Use)
    requires Maintains(imageIndex, usages, uses) && use.image in imageIndex
    ensures var idx := imageIndex[use.image];
      idx < |usages| && Maintains(imageIndex, WithUse(usages, idx, use.pod), uses + [use])
  {
    var idx := imageIndex[use.image];
    KnownImage(usages, uses, use, idx);
    IndexesSameImages(imageIndex, usages, WithUse(usages, idx, use.pod));
  }

  lemma IndexesSameImages(imageIndex: map<string, nat>, a: seq<ImageUsage>, b: seq<ImageUsage>)
    requires Indexes(imageIndex, a) && |a| == |b| && forall i :: 0 <= i < |a| ==> a[i].image == b[i].image
    ensures Indexes(imageIndex, b)
  {
  }

  lemma MaintainsNew(imageIndex: map<string, nat>, usages: seq<ImageUsage>, uses: seq<Use>, use: Use)
    requires Maintains(imageIndex, usages, uses) && use.image !in imageIndex
    ensures Maintains(imageIndex[use.image := |usages|], usages + [ImageUsage(use.image, [use.pod])], uses + [use])
  {
    NewImage(usages, uses, use);
    IndexesNew(imageIndex, usages, ImageUsage(use.image, [use.pod]));
  }

  lemma IndexesNew(imageIndex: map<string, nat>, usages: seq<ImageUsage>, usage: ImageUsage)
    requires Indexes(imageIndex, usages) && usage.image !in imageIndex
    ensures Indexes(imageIndex[usage.image := |usages|], usages + [usage])
  {
  }

  lemma UsesOfMore(before: seq<Use>, pod: Pod, c: nat)
    requires c < |pod.Images()|
    ensures before + UsesOf(pod, c + 1) == before + UsesOf(pod, c) + [Use(pod.Images()[c], pod.Reference())]
  {
  }

  lemma RefsOfMore(uses: seq<Use>, use: Use, image: string)
    ensures RefsOf(uses + [use], image) == RefsOf(uses, image) + if use.image == image then [use.pod] else []
  {
    assert (uses + [use])[..|uses|] == uses;
  }

  lemma FirstUseOfMore(uses: seq<Use>, use: Use, image: string)
    ensures FirstUse(uses + [use], image) ==
      if FirstUse(uses, image) < |uses| then FirstUse(uses, image)
      else if use.image == image then |uses|
      else |uses| + 1
  {
    var k, m := FirstUse(uses, image), FirstUse(uses + [use], image);
    assert forall j :: 0 <= j < |uses| ==> (uses + [use])[j] == uses[j];
    assert (uses + [use])[|uses|] == use;
  }

  lemma {:induction false} UnusedHasNoUse(uses: seq<Use>, image: string)
    requires forall u :: u in uses ==> u.image != image
    ensures RefsOf(uses, image) == [] && FirstUse(uses, image) == |uses|
  {
    assert forall j :: 0 <= j < |uses| ==> uses[j] in uses;
    if uses != [] {
      UnusedHasNoUse(uses[..|uses| - 1], image);
    }
  }

  function WithUse(usages: seq<ImageUsage>, idx: nat, pod: PodReference): (after: seq<ImageUsage>)
    requires idx < |usages|
    ensures |after| == |usages| && forall i :: 0 <= i < |usages| ==> after[i].image == usages[i].image
  {
    usages[idx := usages[idx].(pods := usages[idx].pods + [pod])]
  }

  lemma KnownImage(usages: seq<ImageUsage>, uses: seq<Use>, use: Use, idx: nat)
    requires Inverts(usages, uses) && idx < |usages| && usages[idx].image == use.image
    ensures Inverts(WithUse(usages, idx, use.pod), uses + [use])
  {
    KnownRefers(usages, uses, use, idx);
    SameOrder(usages, WithUse(usages, idx, use.pod), uses, use);
    KnownComplete(usages, uses, use, idx);
  }

  lemma KnownRefers(usages: seq<ImageUsage>, uses: seq<Use>, use: Use, idx: nat)
    requires Refers(usages, uses) && idx < |usages| && usages[idx].image == use.image
    requires forall i :: 0 <= i < |usages| && i != idx ==> usages[i].image != use.image
    ensures Refers(WithUse(usages, idx, use.pod), uses + [use])
  {
    forall i | 0 <= i < |usages|
      ensures WithUse(usages, idx, use.pod)[i].pods == RefsOf(uses + [use], usages[i].image)
    {
      RefsOfMore(uses, use, usages[i].image);
    }
  }

  lemma SameOrder(usages: seq<ImageUsage>, after: seq<ImageUsage>, uses: seq<Use>, use: Use)
    requires InFirstUseOrder(usages, uses)
    requires |after| == |usages| && forall i :: 0 <= i < |usages| ==> after[i].image == usages[i].image
    ensures InFirstUseOrder(after, uses + [use])
  {
    forall i | 0 <= i < |usages|
      ensures FirstUse(uses + [use], after[i].image) == FirstUse(uses, usages[i].image)
    {
      FirstUseOfMore(uses, use, usages[i].image);
    }
  }

  lemma KnownComplete(usages: seq<ImageUsage>, uses: seq<Use>, use: Use, idx: nat)
    requires Complete(usages, uses) && idx < |usages| && usages[idx].image == use.image
    ensures Complete(WithUse(usages, idx, use.pod), uses + [use])
  {
    var after := WithUse(usages, idx, use.pod);
    forall u | u in uses + [use]
      ensures Lists(after, u.image)
    {
      var i := if u in uses then PlaceOf(usages, uses, u) else idx;
      assert after[i].image == u.image;
    }
  }

  function PlaceOf(usages: seq<ImageUsage>, uses: seq<Use>, u: Use): (i: nat)
    requires Complete(usages, uses) && u in uses
    ensures i < |usages| && usages[i].image == u.image
  {
    assert Lists(usages, u.image);
    FirstListed(usages, u.image)
  }

  function FirstListed(usages: seq<ImageUsage>, image: string): (i: nat)
    requires Lists(usages, image)
    ensures i < |usages| && usages[i].image == image
  {
    FirstWhere(usages, (usage: ImageUsage) => usage.image == image)
  }

  lemma NewImage(usages: seq<ImageUsage>, uses: seq<Use>, use: Use)
    requires Inverts(usages, uses) && !Lists(usages, use.image)
    ensures Inverts(usages + [ImageUsage(use.image, [use.pod])], uses + [use])
  {
    UnusedHasNoUse(uses, use.image);
    NewRefers(usages, uses, use);
    NewOrder(usages, uses, use);
    NewComplete(usages, uses, use);
  }

  lemma NewRefers(usages: seq<ImageUsage>, uses: seq<Use>, use: Use)
    requires Refers(usages, uses) && !Lists(usages, use.image) && RefsOf(uses, use.image) == []
    ensures Refers(usages + [ImageUsage(use.image, [use.pod])], uses + [use])
  {
    var after := usages + [ImageUsage(use.image, [use.pod])];
    forall i | 0 <= i < |after|
      ensures after[i].pods == RefsOf(uses + [use], after[i].image)
    {
      RefsOfMore(uses, use, after[i].image);
    }
  }

  lemma NewOrder(usages: seq<ImageUsage>, uses: seq<Use>, use: Use)
    requires InFirstUseOrder(usages, uses) && FirstUse(uses, use.image) == |uses|
    ensures InFirstUseOrder(usages + [ImageUsage(use.image, [use.pod])], uses + [use])
  {
    var after := usages + [ImageUsage(use.image, [use.pod])];
    forall i | 0 <= i < |after|
      ensures FirstUse(uses + [use], after[i].image) == if i < |usages| then FirstUse(uses, usages[i].image) else |uses|
    {
      FirstUseOfMore(uses, use, after[i].image);
    }
  }

  lemma NewComplete(usages: seq<ImageUsage>, uses: seq<Use>, use: Use)
    requires Complete(usages, uses)
    ensures Complete(usages + [ImageUsage(use.image, [use.pod])], uses + [use])
  {
    var after := usages + [ImageUsage(use.image, [use.pod])];
    forall u | u in uses + [use]
      ensures Lists(after, u.image)
    {
      var i := if u in uses then PlaceOf(usages, uses, u) else |usages|;
      assert after[i].image == u.image;
    }
  }

  /** One listing inverts the uses, and no other. */
  lemma InversionIsUnique(a: seq<ImageUsage>, b: seq<ImageUsage>, uses: seq<Use>)
    requires Inverts(a, uses) && Inverts(b, uses)
    ensures a == b
  {
    var k := FirstDifference(a, b);
    if k < |a| && k < |b| {
      SameNext(a, b, uses, k);
    } else if k == |a| {
      NoneMissing(a, b, uses);
    } else {
      NoneMissing(b, a, uses);
    }
  }

  lemma FirstDifference(a: seq<ImageUsage>, b: seq<ImageUsage>) returns (k: nat)
    ensures k <= |a| && k <= |b| && a[..k] == b[..k]
    ensures k < |a| && k < |b| ==> a[k] != b[k]
  {
    k := 0;
    while k < |a| && k < |b| && a[k] == b[k]
      invariant k <= |a| && k <= |b| && a[..k] == b[..k]
    {
      k := k + 1;
    }
  }

  lemma SameNext(a: seq<ImageUsage>, b: seq<ImageUsage>, uses: seq<Use>, k: nat)
    requires Inverts(a, uses) && Inverts(b, uses) && k < |a| && k < |b| && a[..k] == b[..k]
    ensures a[k] == b[k]
  {
    assert forall i :: 0 <= i < k ==> a[i] == a[..k][i] == b[i];
    NoEarlier(a, b, uses, k);
    NoEarlier(b, a, uses, k);
    SameUsage(a, b, uses, k);
  }

  lemma SameUsage(a: seq<ImageUsage>, b: seq<ImageUsage>, uses: seq<Use>, k: nat)
    requires Refers(a, uses) && Refers(b, uses) && k < |a| && k < |b|
    requires FirstUse(uses, a[k].image) == FirstUse(uses, b[k].image) < |uses|
    ensures a[k] == b[k]
  {
    assert uses[FirstUse(uses, a[k].image)].image == a[k].image;
  }

  lemma NoEarlier(a: seq<ImageUsage>, b: seq<ImageUsage>, uses: seq<Use>, k: nat)
    requires InFirstUseOrder(a, uses) && InFirstUseOrder(b, uses) && Complete(b, uses) && k < |a| && k < |b|
    requires forall i :: 0 <= i < k ==> a[i] == b[i]
    ensures FirstUse(uses, b[k].image) <= FirstUse(uses, a[k].image)
  {
    forall i | 0 <= i < k
      ensures b[i].image != a[k].image
    {
      assert FirstUse(uses, a[i].image) < FirstUse(uses, a[k].image);
    }
    var j := PlaceOf(b, uses, uses[FirstUse(uses, a[k].image)]);
  }

  lemma NoneMissing(a: seq<ImageUsage>, b: seq<ImageUsage>, uses: seq<Use>)
    requires InFirstUseOrder(b, uses) && Complete(a, uses) && |a| <= |b| && a == b[..|a|]
    ensures |a| == |b|
  {
    if |a| < |b| {
      var i := PlaceOf(a, uses, uses[FirstUse(uses, b[|a|].image)]);
      assert false;
    }
  }

  function TotalRefs(usages: seq<ImageUsage>): nat {
    if usages == [] then 0 else TotalRefs(usages[..|usages| - 1]) + |usages[|usages| - 1].pods|
  }

  function ContainerCount(pods: seq<Pod>): nat {
    if pods == [] then 0
    else
      var last := pods[|pods| - 1];
      ContainerCount(pods[..|pods| - 1]) + |last.initContainers| + |last.containers|
  }

  /** The references to the images, added up. */
  function RefCount(images: seq<string>, uses: seq<Use>): nat {
    if images == [] then 0
    else RefCount(images[..|images| - 1], uses) + |RefsOf(uses, images[|images| - 1])|
  }

  predicate Distinct(images: seq<string>) { forall i, j :: 0 <= i < j < |images| ==> images[i] != images[j] }

  lemma {:induction false} OneMoreRef(images: seq<string>, uses: seq<Use>, use: Use)
    requires Distinct(images)
    ensures RefCount(images, uses + [use]) == RefCount(images, uses) + if use.image in images then 1 else 0
  {
    if images != [] {
      var last := images[|images| - 1];
      OneMoreRef(images[..|images| - 1], uses, use);
      RefsOfMore(uses, use, last);
      assert images == images[..|images| - 1] + [last];
    }
  }

  lemma {:induction false} NoRefs(images: seq<string>)
    ensures RefCount(images, []) == 0
  {
    if images != [] {
      NoRefs(images[..|images| - 1]);
    }
  }

  lemma {:induction false} EveryUseIsCounted(images: seq<string>, uses: seq<Use>)
    requires Distinct(images) && forall u :: u in uses ==> u.image in images
    ensures RefCount(images, uses) == |uses|
  {
    if uses == [] {
      NoRefs(images);
    } else {
      var last := |uses| - 1;
      assert uses[..last] + [uses[last]] == uses;
      assert uses[last] in uses && forall u :: u in uses[..last] ==> u in uses;
      EveryUseIsCounted(images, uses[..last]);
      OneMoreRef(images, uses[..last], uses[last]);
    }
  }

  function ImagesOf(usages: seq<ImageUsage>): (images: seq<string>)
    ensures |images| == |usages| && forall i :: 0 <= i < |usages| ==> images[i] == usages[i].image
  {
    seq(|usages|, i requires 0 <= i < |usages| => usages[i].image)
  }

  lemma {:induction false} RefsAddUp(usages: seq<ImageUsage>, uses: seq<Use>)
    requires Refers(usages, uses)
    ensures TotalRefs(usages) == RefCount(ImagesOf(usages), uses)
  {
    if usages != [] {
      var last := |usages| - 1;
      RefsAddUp(usages[..last], uses);
      assert ImagesOf(usages)[..last] == ImagesOf(usages[..last]);
    }
  }

  lemma {:induction false} UsesAreContainers(pods: seq<Pod>)
    ensures |AllUses(pods)| == ContainerCount(pods)
  {
    if pods != [] {
      UsesAreContainers(pods[..|pods| - 1]);
    }
  }

  /** There are as many references in all as init containers and containers. */
  lemma ReferencesAreContainers(pods: seq<Pod>, usages: seq<ImageUsage>)
    requires Inverts(usages, AllUses(pods))
    ensures TotalRefs(usages) == ContainerCount(pods)
  {
    var uses := AllUses(pods);
    RefsAddUp(usages, uses);
    forall u | u in uses
      ensures u.image in ImagesOf(usages)
    {
      var i :| 0 <= i < |usages| && usages[i].image == u.image;
      assert ImagesOf(usages)[i] == u.image;
    }
    EveryUseIsCounted(ImagesOf(usages), uses);
    UsesAreContainers(pods);
  }
}
