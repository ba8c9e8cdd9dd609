/** Resolving a kind to a resource type: three routes over one discovery snapshot,
    and the snapshot cache with its single retry. */
module Resolve {
  import opened Search
  import opened Wrappers
  import Text

  datatype GroupVersion = GroupVersion(group: string, version: string) {
    function ToText(): string { if group != "" then group + "/" + version else version }
  }

  datatype Gvr = Gvr(group: string, version: string, resource: string)

  datatype ApiResource = ApiResource(name: string, kind: string)

  datatype ResourceList = ResourceList(groupVersion: string, resources: seq<ApiResource>)

  /** One discovery answer, in the order the API prefers. */
  type Snapshot = seq<ResourceList>

  datatype ResolveError =
    | EmptyKind | BadApiVersion | FetchFailed
    | NotServed | KindNotFound(available: seq<string>) | UnknownKind
    | Ambiguous(matches: seq<Gvr>)
  {
    /** The errors that wrap errKindNotFound, and so trigger the retry. */
    predicate IsNotFound() { NotServed? || KindNotFound? || UnknownKind? }
  }

  type Answer = Result<Gvr, ResolveError>

  function ParseGroupVersion(s: string): Option<GroupVersion> {
    if s == "" || s == "/" then Some(GroupVersion("", ""))
    else
      var i := Text.Index(s, '/');
      if i == |s| then Some(GroupVersion("", s))
      else if '/' in s[i + 1..] then None
      else Some(GroupVersion(s[..i], s[i + 1..]))
  }

  /** "group/Kind" or "Kind.group". */
  function SplitQualifiedKind(kind: string): Option<(string, string)> {
    var i := Text.Index(kind, '/');
    if 0 < i < |kind| - 1 then Some((kind[..i], kind[i + 1..]))
    else
      var j := Text.Index(kind, '.');
      if 0 < j < |kind| - 1 then Some((kind[j + 1..], kind[..j])) else None
  }

  predicate IsSubresource(ar: ApiResource) { '/' in ar.name }

  predicate Serves(ar: ApiResource, kind: string) { !IsSubresource(ar) && Text.EqualFold(ar.kind, kind) }

  function FirstServing(resources: seq<ApiResource>, kind: string): (j: nat)
    ensures j <= |resources|
    ensures j < |resources| ==> Serves(resources[j], kind)
    ensures forall k :: 0 <= k < j ==> !Serves(resources[k], kind)
  {
    FirstWhere(resources, ar => Serves(ar, kind))
  }

  predicate HasKind(list: ResourceList, kind: string) { FirstServing(list.resources, kind) < |list.resources| }

  function FoundIn(list: ResourceList, kind: string, gv: GroupVersion): Gvr
    requires HasKind(list, kind)
  {
    Gvr(gv.group, gv.version, list.resources[FirstServing(list.resources, kind)].name)
  }

  predicate InGroup(list: ResourceList, group: string) {
    ParseGroupVersion(list.groupVersion).Some? && ParseGroupVersion(list.groupVersion).value.group == group
  }

  predicate ServesInGroup(list: ResourceList, kind: string, group: string) {
    InGroup(list, group) && HasKind(list, kind)
  }

  predicate ServesInVersion(list: ResourceList, kind: string, text: string) {
    list.groupVersion == text && HasKind(list, kind)
  }

  /** The first list of the group that serves the kind. */
  function FirstInGroup(lists: Snapshot, kind: string, group: string): (i: nat)
    ensures i <= |lists|
    ensures i < |lists| ==> ServesInGroup(lists[i], kind, group)
    ensures forall j :: 0 <= j < i ==> !ServesInGroup(lists[j], kind, group)
  {
    FirstWhere(lists, list => ServesInGroup(list, kind, group))
  }

  /** The first list of exactly this group and version that serves the kind. */
  function FirstInVersion(lists: Snapshot, kind: string, text: string): (i: nat)
    ensures i <= |lists|
    ensures i < |lists| ==> ServesInVersion(lists[i], kind, text)
    ensures forall j :: 0 <= j < i ==> !ServesInVersion(lists[j], kind, text)
  {
    FirstWhere(lists, list => ServesInVersion(list, kind, text))
  }

  function MainKinds(resources: seq<ApiResource>): seq<string> {
    if resources == [] then []
    else
      var last := resources[|resources| - 1];
      MainKinds(resources[..|resources| - 1]) + if IsSubresource(last) then [] else [last.kind]
  }

  function Available(lists: Snapshot, text: string): seq<string> {
    if lists == [] then []
    else
      var last := lists[|lists| - 1];
      Available(lists[..|lists| - 1], text) + if last.groupVersion == text then MainKinds(last.resources) else []
  }

  function ByGroupVersion(lists: Snapshot, kind: string, gv: GroupVersion): Answer {
    var i := FirstInVersion(lists, kind, gv.ToText());
    if i < |lists| then Success(FoundIn(lists[i], kind, gv))
    else
      var available := Available(lists, gv.ToText());
      Failure(if available == [] then NotServed else KindNotFound(available))
  }

  function ByGroup(lists: Snapshot, kind: string, group: string): Answer {
    var i := FirstInGroup(lists, kind, group);
    if i < |lists| then Success(FoundIn(lists[i], kind, ParseGroupVersion(lists[i].groupVersion).value))
    else Failure(UnknownKind)
  }

  /** List `i` is the first of its group that serves the kind. */
  predicate Leads(lists: Snapshot, kind: string, i: nat)
    requires i < |lists|
  {
    var gv := ParseGroupVersion(lists[i].groupVersion);
    gv.Some? && FirstInGroup(lists, kind, gv.value.group) == i
  }

  function LeadOf(lists: Snapshot, kind: string, i: nat): Gvr
    requires i < |lists| && Leads(lists, kind, i)
  {
    FoundIn(lists[i], kind, ParseGroupVersion(lists[i].groupVersion).value)
  }

  function MatchAt(lists: Snapshot, kind: string, i: nat): (m: seq<Gvr>)
    requires i < |lists|
    ensures |m| <= 1
  {
    if Leads(lists, kind, i) then [LeadOf(lists, kind, i)] else []
  }

  /** The first `n` parts, one after another. */
  function Concat<T>(parts: seq<seq<T>>, n: nat): seq<T>
    requires n <= |parts|
  {
    if n == 0 then [] else Concat(parts, n - 1) + parts[n - 1]
  }

  function MatchParts(lists: Snapshot, kind: string): (parts: seq<seq<Gvr>>)
    ensures |parts| == |lists|
    ensures forall i :: 0 <= i < |lists| ==> |parts[i]| <= 1 && parts[i] == MatchAt(lists, kind, i)
  {
    seq(|lists|, i requires 0 <= i < |lists| => MatchAt(lists, kind, i))
  }

  /** The matches of the scan in the first `n` lists. */
  function Matches(lists: Snapshot, kind: string, n: nat): seq<Gvr>
    requires n <= |lists|
  {
    Concat(MatchParts(lists, kind), n)
  }

  function ByDiscovery(lists: Snapshot, kind: string): Answer {
    var matches := Matches(lists, kind, |lists|);
    if |matches| == 0 then Failure(UnknownKind)
    else if |matches| == 1 then Success(matches[0])
    else Failure(Ambiguous(matches))
  }

  method ResolveInGroupVersion(lists: Snapshot, kind: string, gv: GroupVersion) returns (r: Answer)
    ensures r == ByGroupVersion(lists, kind, gv)
  {
    var text := gv.ToText();
    var available: seq<string> := [];
    for i := 0 to |lists|
      invariant FirstInVersion(lists, kind, text) >= i
      invariant available == Available(lists[..i], text)
    {
      var list := lists[i];
      assert lists[..i + 1][..i] == lists[..i];
      if list.groupVersion != text {
        continue;
      }
      for j := 0 to |list.resources|
        invariant FirstServing(list.resources, kind) >= j
        invariant available == Available(lists[..i], text) + MainKinds(list.resources[..j])
      {
        var ar := list.resources[j];
        assert list.resources[..j + 1][..j] == list.resources[..j];
        if IsSubresource(ar) {
          continue;
        }
        available := available + [ar.kind];
        if Text.EqualFold(ar.kind, kind) {
          assert FirstServing(list.resources, kind) == j;
          assert FirstInVersion(lists, kind, text) == i;
          return Success(Gvr(gv.group, gv.version, ar.name));
        }
      }
      assert list.resources[..|list.resources|] == list.resources;
    }
    assert lists[..|lists|] == lists;
    r := Failure(if |available| == 0 then NotServed else KindNotFound(available));
  }

  method ResolveInGroup(lists: Snapshot, kind: string, group: string) returns (r: Answer)
    ensures r == ByGroup(lists, kind, group)
  {
    for i := 0 to |lists|
      invariant FirstInGroup(lists, kind, group) >= i
    {
      var list := lists[i];
      var gv := ParseGroupVersion(list.groupVersion);
      if gv.None? || gv.value.group != group {
        continue;
      }
      for j := 0 to |list.resources|
        invariant FirstServing(list.resources, kind) >= j
      {
        var ar := list.resources[j];
        if !IsSubresource(ar) && Text.EqualFold(ar.kind, kind) {
          assert FirstServing(list.resources, kind) == j;
          assert FirstInGroup(lists, kind, group) == i;
          return Success(Gvr(gv.value.group, gv.value.version, ar.name));
        }
      }
    }
    r := Failure(UnknownKind);
  }

  /** A group is marked as seen exactly when an earlier list of it serves the kind. */
  ghost predicate SeenGroups(lists: Snapshot, kind: string, i: nat, seen: set<string>) {
    forall g :: g in seen <==> FirstInGroup(lists, kind, g) < i
  }

  /** What the scan holds after the first `i` lists. */
  ghost predicate Scanned(lists: Snapshot, kind: string, i: nat, matches: seq<Gvr>, seen: set<string>)
    requires i <= |lists|
  {
    matches == Matches(lists, kind, i) && SeenGroups(lists, kind, i, seen)
  }

  predicate AddsMatch(lists: Snapshot, kind: string, i: nat, seen: set<string>)
    requires i < |lists|
  {
    var gv := ParseGroupVersion(lists[i].groupVersion);
    gv.Some? && gv.value.group !in seen && HasKind(lists[i], kind)
  }

  method ResolveByDiscovery(lists: Snapshot, kind: string) returns (r: Answer)
    ensures r == ByDiscovery(lists, kind)
  {
    var matches: seq<Gvr> := [];
    var seenGroups: set<string> := {};
    for i := 0 to |lists|
      invariant Scanned(lists, kind, i, matches, seenGroups)
    {
      ScanStep(lists, kind, i, matches, seenGroups);
      var list := lists[i];
      var gv := ParseGroupVersion(list.groupVersion);
      if gv.None? || gv.value.group in seenGroups {
        continue;
      }
      var j := 0;
      ghost var before := (matches, seenGroups);
      while j < |list.resources|
        invariant j <= FirstServing(list.resources, kind) && (matches, seenGroups) == before
      {
        var ar := list.resources[j];
        if IsSubresource(ar) || !Text.EqualFold(ar.kind, kind) {
          j := j + 1;
          continue;
        }
        assert j == FirstServing(list.resources, kind);
        matches := matches + [Gvr(gv.value.group, gv.value.version, ar.name)];
        seenGroups := seenGroups + {gv.value.group};
        break;
      }
    }
    r := if |matches| == 0 then Failure(UnknownKind)
         else if |matches| == 1 then Success(matches[0])
         else Failure(Ambiguous(matches));
  }

  lemma ScanStep(lists: Snapshot, kind: string, i: nat, matches: seq<Gvr>, seen: set<string>)
    requires i < |lists| && Scanned(lists, kind, i, matches, seen)
    ensures if AddsMatch(lists, kind, i, seen) then
        var gv := ParseGroupVersion(lists[i].groupVersion).value;
        Scanned(lists, kind, i + 1, matches + [FoundIn(lists[i], kind, gv)], seen + {gv.group})
      else Scanned(lists, kind, i + 1, matches, seen)
  {
    var after := if AddsMatch(lists, kind, i, seen)
                 then seen + {ParseGroupVersion(lists[i].groupVersion).value.group} else seen;
    SeenStep(lists, kind, i, seen, after);
    MatchesStep(lists, kind, i);
  }

  lemma MatchesStep(lists: Snapshot, kind: string, i: nat)
    requires i < |lists|
    ensures Matches(lists, kind, i + 1) == Matches(lists, kind, i) + MatchAt(lists, kind, i)
  {
  }

  lemma SeenStep(lists: Snapshot, kind: string, i: nat, before: set<string>, after: set<string>)
    requires i < |lists| && SeenGroups(lists, kind, i, before)
    requires after == if AddsMatch(lists, kind, i, before)
                      then before + {ParseGroupVersion(lists[i].groupVersion).value.group} else before
    ensures SeenGroups(lists, kind, i + 1, after)
    ensures Leads(lists, kind, i) <==> AddsMatch(lists, kind, i, before)
  {
    var gv := ParseGroupVersion(lists[i].groupVersion);
    if AddsMatch(lists, kind, i, before) {
      assert FirstInGroup(lists, kind, gv.value.group) == i;
    }
    forall g
      ensures g in after <==> FirstInGroup(lists, kind, g) < i + 1
    {
      if FirstInGroup(lists, kind, g) == i {
        assert InGroup(lists[i], g);
      }
    }
  }
}
