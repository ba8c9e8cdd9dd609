/** The three resolution routes agree with one another and with what is served. */
module ResolveRoutes {
  import opened Wrappers
  import opened Resolve
  import Text

  /** White space as Unicode defines it. */
  predicate IsSpace(c: char) {
    || '\t' <= c <= '\r' || c in {' ', '\U{85}', '\U{A0}', '\U{1680}', '\U{202F}', '\U{205F}', '\U{3000}'}
    || '\U{2000}' <= c <= '\U{200A}' || '\U{2028}' <= c <= '\U{2029}'
  }

  predicate Blank(s: string) { forall c :: c in s ==> IsSpace(c) }

  /** Which route a request takes; the built-in table needs no discovery. */
  datatype Route =
    | Rejected(error: ResolveError)
    | Builtin(gvr: Gvr)
    | InVersion(gv: GroupVersion, kind: string)
    | InOneGroup(group: string, kind: string)
    | Everywhere(kind: string)
  {
    predicate NeedsDiscovery() { InVersion? || InOneGroup? || Everywhere? }
  }

  type Table = map<string, Gvr>

  function RouteOf(table: Table, kind: string, apiVersion: string): Route {
    if Blank(kind) then Rejected(EmptyKind)
    else if apiVersion != "" then
      match ParseGroupVersion(apiVersion)
      case None => Rejected(BadApiVersion)
      case Some(gv) => InVersion(gv, kind)
    else if Text.Lower(kind) in table then Builtin(table[Text.Lower(kind)])
    else
      match SplitQualifiedKind(kind)
      case Some((group, k)) => InOneGroup(group, k)
      case None => Everywhere(kind)
  }

  function ResolveOn(lists: Snapshot, route: Route): Answer {
    match route
    case Rejected(error) => Failure(error)
    case Builtin(gvr) => Success(gvr)
    case InVersion(gv, kind) => ByGroupVersion(lists, kind, gv)
    case InOneGroup(group, kind) => ByGroup(lists, kind, group)
    case Everywhere(kind) => ByDiscovery(lists, kind)
  }

  /** The kind that a route looks for. */
  function KindSought(route: Route): string
    requires route.NeedsDiscovery()
  {
    match route
    case InVersion(_, kind) => kind
    case InOneGroup(_, kind) => kind
    case Everywhere(kind) => kind
  }

  /** A main resource, so without a slash in its name, of that kind up to case. */
  predicate IsOf(ar: ApiResource, kind: string) {
    (forall i :: 0 <= i < |ar.name| ==> ar.name[i] != '/') && Text.SameUpToCase(ar.kind, kind)
  }

  predicate HasOne(list: ResourceList, kind: string) {
    exists j :: 0 <= j < |list.resources| && IsOf(list.resources[j], kind)
  }

  predicate FirstOfKind(list: ResourceList, kind: string, j: nat) {
    j < |list.resources| && IsOf(list.resources[j], kind) && forall k :: 0 <= k < j ==> !IsOf(list.resources[k], kind)
  }

  lemma FirstServingIff(list: ResourceList, kind: string, j: nat)
    ensures HasKind(list, kind) <==> HasOne(list, kind)
    ensures FirstOfKind(list, kind, j) <==> HasKind(list, kind) && FirstServing(list.resources, kind) == j
  {
    forall k | 0 <= k < |list.resources|
      ensures Serves(list.resources[k], kind) <==> IsOf(list.resources[k], kind)
    {
      Text.EqualFoldIff(list.resources[k].kind, kind);
    }
    var f := FirstServing(list.resources, kind);
    assert f < |list.resources| ==> IsOf(list.resources[f], kind);
  }

  /** The text that reads as this group and version: joined by a slash, which an empty
      group may leave out. */
  predicate Spells(text: string, group: string, version: string) {
    '/' !in group && '/' !in version &&
    (text == group + "/" + version || (group == "" && text == version))
  }

  lemma SpellsIff(text: string, group: string, version: string)
    ensures ParseGroupVersion(text) == Some(GroupVersion(group, version)) <==> Spells(text, group, version)
  {
    var i := Text.Index(text, '/');
    if i < |text| {
      assert text == text[..i] + "/" + text[i + 1..];
    }
    if '/' !in group && '/' !in version && text == group + "/" + version {
      ParseJoined(group, version);
    }
  }

  /** The lists where a route looks. */
  ghost predicate LooksAt(list: ResourceList, route: Route) {
    match route
    case InVersion(gv, _) =>
      list.groupVersion == if gv.group == "" then gv.version else gv.group + "/" + gv.version
    case InOneGroup(group, _) => exists version :: Spells(list.groupVersion, group, version)
    case Everywhere(_) => exists group, version :: Spells(list.groupVersion, group, version)
    case _ => false
  }

  /** The list serves the kind, outside subresources, where the route looks. */
  ghost predicate ServesRoute(list: ResourceList, route: Route) {
    route.NeedsDiscovery() && LooksAt(list, route) && HasOne(list, KindSought(route))
  }

  /** The same, as the lookups test it. */
  predicate ServesPlainly(list: ResourceList, route: Route) {
    match route
    case InVersion(gv, kind) => ServesInVersion(list, kind, gv.ToText())
    case InOneGroup(group, kind) => ServesInGroup(list, kind, group)
    case Everywhere(kind) => ParseGroupVersion(list.groupVersion).Some? && HasKind(list, kind)
    case _ => false
  }

  lemma ServesRouteIff(list: ResourceList, route: Route)
    ensures ServesRoute(list, route) <==> ServesPlainly(list, route)
  {
    if route.NeedsDiscovery() {
      FirstServingIff(list, KindSought(route), 0);
      LooksAtIff(list, route);
    }
  }

  lemma LooksAtIff(list: ResourceList, route: Route)
    ensures LooksAt(list, route) <==>
      match route
      case InVersion(gv, _) => list.groupVersion == gv.ToText()
      case InOneGroup(group, _) => InGroup(list, group)
      case Everywhere(_) => ParseGroupVersion(list.groupVersion).Some?
      case _ => false
  {
    var text := list.groupVersion;
    if ParseGroupVersion(text).Some? {
      var gv := ParseGroupVersion(text).value;
      SpellsIff(text, gv.group, gv.version);
    }
    if route.InOneGroup? && LooksAt(list, route) {
      var version :| Spells(text, route.group, version);
      SpellsIff(text, route.group, version);
    }
    if route.Everywhere? && LooksAt(list, route) {
      var group, version :| Spells(text, group, version);
      SpellsIff(text, group, version);
    }
  }

  ghost predicate Served(lists: Snapshot, route: Route) {
    exists i :: 0 <= i < |lists| && ServesRoute(lists[i], route)
  }

  ghost predicate GroupServed(lists: Snapshot, kind: string, group: string) {
    FirstInGroup(lists, kind, group) < |lists|
  }

  ghost predicate OnlyGroup(lists: Snapshot, kind: string, group: string) {
    GroupServed(lists, kind, group) && forall g :: GroupServed(lists, kind, g) ==> g == group
  }

  /** With parts of at most one element, element `k` is the part before which there
      are `k` elements, and every such part is an element. */
  lemma {:induction false} PartOfElement<T>(parts: seq<seq<T>>, n: nat, k: nat) returns (i: nat)
    requires n <= |parts| && k < |Concat(parts, n)| && forall j :: 0 <= j < |parts| ==> |parts[j]| <= 1
    ensures i < n && |parts[i]| == 1 && Concat(parts, n)[k] == parts[i][0] && |Concat(parts, i)| == k
  {
    if k < |Concat(parts, n - 1)| {
      i := PartOfElement(parts, n - 1, k);
    } else {
      i := n - 1;
    }
  }

  lemma {:induction false} ElementOfPart<T>(parts: seq<seq<T>>, n: nat, i: nat)
    requires i < n <= |parts| && |parts[i]| == 1
    ensures |Concat(parts, i)| < |Concat(parts, n)| && Concat(parts, n)[|Concat(parts, i)|] == parts[i][0]
  {
    if i < n - 1 {
      ElementOfPart(parts, n - 1, i);
    }
  }

  lemma MatchComesFromLead(lists: Snapshot, kind: string, n: nat, k: nat) returns (i: nat)
    requires n <= |lists| && k < |Matches(lists, kind, n)|
    ensures i < n && Leads(lists, kind, i) && Matches(lists, kind, n)[k] == LeadOf(lists, kind, i)
    ensures |Matches(lists, kind, i)| == k
  {
    i := PartOfElement(MatchParts(lists, kind), n, k);
  }

  lemma LeadIsMatch(lists: Snapshot, kind: string, n: nat, i: nat)
    requires i < n <= |lists| && Leads(lists, kind, i)
    ensures |Matches(lists, kind, i)| < |Matches(lists, kind, n)|
    ensures Matches(lists, kind, n)[|Matches(lists, kind, i)|] == LeadOf(lists, kind, i)
  {
    ElementOfPart(MatchParts(lists, kind), n, i);
  }

  lemma ServedGroupLeads(lists: Snapshot, kind: string, group: string)
    requires GroupServed(lists, kind, group)
    ensures Leads(lists, kind, FirstInGroup(lists, kind, group))
    ensures ByGroup(lists, kind, group) == Success(LeadOf(lists, kind, FirstInGroup(lists, kind, group)))
    ensures LeadOf(lists, kind, FirstInGroup(lists, kind, group)).group == group
  {
  }

  /** The full scan succeeds exactly when one group serves the kind, and then agrees
      with the lookup in that group. */
  lemma ScanSucceedsIffOneGroup(lists: Snapshot, kind: string, gvr: Gvr)
    ensures ByDiscovery(lists, kind) == Success(gvr) <==>
      OnlyGroup(lists, kind, gvr.group) && ByGroup(lists, kind, gvr.group) == Success(gvr)
  {
    var n := |lists|;
    var matches := Matches(lists, kind, n);
    if |matches| == 1 {
      var i := MatchComesFromLead(lists, kind, n, 0);
      forall g | GroupServed(lists, kind, g)
        ensures g == matches[0].group
      {
        ServedGroupLeads(lists, kind, g);
        LeadIsMatch(lists, kind, n, FirstInGroup(lists, kind, g));
      }
      assert GroupServed(lists, kind, matches[0].group);
      ServedGroupLeads(lists, kind, matches[0].group);
    } else if OnlyGroup(lists, kind, gvr.group) {
      ServedGroupLeads(lists, kind, gvr.group);
      LeadIsMatch(lists, kind, n, FirstInGroup(lists, kind, gvr.group));
      var i := MatchComesFromLead(lists, kind, n, 0);
      var j := MatchComesFromLead(lists, kind, n, 1);
      assert GroupServed(lists, kind, ParseGroupVersion(lists[i].groupVersion).value.group);
      assert GroupServed(lists, kind, ParseGroupVersion(lists[j].groupVersion).value.group);
      assert false;
    }
  }

  /** A not-found answer means, and is given only when, nothing where the route looks
      serves the kind. */
  lemma NotFoundIffNotServed(lists: Snapshot, route: Route)
    requires route.NeedsDiscovery()
    ensures (ResolveOn(lists, route).Failure? && ResolveOn(lists, route).error.IsNotFound()) <==> !Served(lists, route)
  {
    forall i | 0 <= i < |lists|
      ensures ServesRoute(lists[i], route) <==> ServesPlainly(lists[i], route)
    {
      ServesRouteIff(lists[i], route);
    }
    NotFoundPlainly(lists, route);
    if Served(lists, route) {
      var i :| 0 <= i < |lists| && ServesRoute(lists[i], route);
      assert ServesPlainly(lists[i], route);
    }
  }

  lemma NotFoundPlainly(lists: Snapshot, route: Route)
    requires route.NeedsDiscovery()
    ensures (ResolveOn(lists, route).Failure? && ResolveOn(lists, route).error.IsNotFound()) <==>
      !exists i :: 0 <= i < |lists| && ServesPlainly(lists[i], route)
  {
    match route {
      case InVersion(_, _) =>
      case InOneGroup(_, _) =>
      case Everywhere(kind) => ScanFindsIffServed(lists, kind);
    }
  }

  lemma ScanFindsIffServed(lists: Snapshot, kind: string)
    ensures |Matches(lists, kind, |lists|)| > 0 <==>
      exists i :: 0 <= i < |lists| && ServesPlainly(lists[i], Everywhere(kind))
  {
    var n := |lists|;
    if |Matches(lists, kind, n)| > 0 {
      var i := MatchComesFromLead(lists, kind, n, 0);
      assert ServesPlainly(lists[i], Everywhere(kind));
    } else if i :| 0 <= i < n && ServesPlainly(lists[i], Everywhere(kind)) {
      var group := ParseGroupVersion(lists[i].groupVersion).value.group;
      assert ServesInGroup(lists[i], kind, group);
      ServedGroupLeads(lists, kind, group);
      LeadIsMatch(lists, kind, n, FirstInGroup(lists, kind, group));
    }
  }

  /** What the answer names: the first main resource of the kind in that list, under the
      group and version asked for, or else the list's own. */
  predicate Names(list: ResourceList, route: Route, gvr: Gvr)
    requires route.NeedsDiscovery()
  {
    && (if route.InVersion? then GroupVersion(gvr.group, gvr.version) == route.gv
        else Spells(list.groupVersion, gvr.group, gvr.version))
    && exists j :: 0 <= j < |list.resources| && FirstOfKind(list, KindSought(route), j) &&
                   list.resources[j].name == gvr.resource
  }

  /** Which list decides: the first that serves the kind where the route looks; the full
      scan also needs that no other group serves it. */
  ghost predicate Decides(lists: Snapshot, route: Route, i: nat)
    requires route.NeedsDiscovery() && i < |lists|
  {
    && ServesRoute(lists[i], route)
    && (forall k :: 0 <= k < i ==> !ServesRoute(lists[k], route))
    && (route.Everywhere? ==> forall k :: 0 <= k < |lists| && ServesRoute(lists[k], route) ==>
          SameGroup(lists[k].groupVersion, lists[i].groupVersion))
  }

  ghost predicate SameGroup(a: string, b: string) {
    exists group, v, w :: Spells(a, group, v) && Spells(b, group, w)
  }

  ghost predicate InSnapshot(lists: Snapshot, route: Route, gvr: Gvr)
    requires route.NeedsDiscovery()
  {
    exists i :: 0 <= i < |lists| && Decides(lists, route, i) && Names(lists[i], route, gvr)
  }

  /** What each route finds, exactly: the name of the first main resource of the kind in
      the list that decides. */
  lemma FoundIff(lists: Snapshot, route: Route, gvr: Gvr)
    requires route.NeedsDiscovery()
    ensures ResolveOn(lists, route) == Success(gvr) <==> InSnapshot(lists, route, gvr)
  {
    forall i | 0 <= i < |lists|
      ensures ServesRoute(lists[i], route) <==> ServesPlainly(lists[i], route)
    {
      ServesRouteIff(lists[i], route);
    }
    if InSnapshot(lists, route, gvr) {
      var i :| 0 <= i < |lists| && Decides(lists, route, i) && Names(lists[i], route, gvr);
      DecidedIsFound(lists, route, i, gvr);
    } else if ResolveOn(lists, route) == Success(gvr) {
      var i := FoundIsDecided(lists, route, gvr);
      NamesFound(lists[i], route, gvr);
    }
  }

  /** What the lookups read off the list that decides. */
  predicate Reads(list: ResourceList, route: Route, gvr: Gvr)
    requires route.NeedsDiscovery()
  {
    && HasKind(list, KindSought(route))
    && gvr.resource == list.resources[FirstServing(list.resources, KindSought(route))].name
    && (if route.InVersion? then GroupVersion(gvr.group, gvr.version) == route.gv
        else ParseGroupVersion(list.groupVersion) == Some(GroupVersion(gvr.group, gvr.version)))
  }

  lemma NamesFound(list: ResourceList, route: Route, gvr: Gvr)
    requires route.NeedsDiscovery()
    ensures Names(list, route, gvr) <==> Reads(list, route, gvr)
  {
    var kind := KindSought(route);
    SpellsIff(list.groupVersion, gvr.group, gvr.version);
    FirstServingIff(list, kind, FirstServing(list.resources, kind));
    forall j: nat
      ensures FirstOfKind(list, kind, j) <==> HasKind(list, kind) && FirstServing(list.resources, kind) == j
    {
      FirstServingIff(list, kind, j);
    }
  }

  lemma SameGroupIff(a: string, b: string)
    ensures SameGroup(a, b) <==>
      ParseGroupVersion(a).Some? && ParseGroupVersion(b).Some? &&
      ParseGroupVersion(a).value.group == ParseGroupVersion(b).value.group
  {
    if SameGroup(a, b) {
      var group, v, w :| Spells(a, group, v) && Spells(b, group, w);
      SpellsIff(a, group, v);
      SpellsIff(b, group, w);
    }
    if ParseGroupVersion(a).Some? && ParseGroupVersion(b).Some? {
      var x, y := ParseGroupVersion(a).value, ParseGroupVersion(b).value;
      SpellsIff(a, x.group, x.version);
      SpellsIff(b, y.group, y.version);
    }
  }

  lemma DecidedIsFound(lists: Snapshot, route: Route, i: nat, gvr: Gvr)
    requires route.NeedsDiscovery() && i < |lists| && Decides(lists, route, i) && Names(lists[i], route, gvr)
    requires forall k :: 0 <= k < |lists| ==> (ServesRoute(lists[k], route) <==> ServesPlainly(lists[k], route))
    ensures ResolveOn(lists, route) == Success(gvr)
  {
    NamesFound(lists[i], route, gvr);
    match route {
      case InVersion(gv, kind) => assert FirstInVersion(lists, kind, gv.ToText()) == i;
      case InOneGroup(group, kind) => assert FirstInGroup(lists, kind, group) == i;
      case Everywhere(kind) => OneGroupDecides(lists, kind, i, gvr);
    }
  }

  lemma OneGroupDecides(lists: Snapshot, kind: string, i: nat, gvr: Gvr)
    requires i < |lists| && Decides(lists, Everywhere(kind), i) && Reads(lists[i], Everywhere(kind), gvr)
    requires forall k :: 0 <= k < |lists| ==>
      (ServesRoute(lists[k], Everywhere(kind)) <==> ServesPlainly(lists[k], Everywhere(kind)))
    ensures ByDiscovery(lists, kind) == Success(gvr)
  {
    assert ServesInGroup(lists[i], kind, gvr.group);
    assert FirstInGroup(lists, kind, gvr.group) == i;
    forall g | GroupServed(lists, kind, g)
      ensures g == gvr.group
    {
      var k := FirstInGroup(lists, kind, g);
      SameGroupIff(lists[k].groupVersion, lists[i].groupVersion);
    }
    ScanSucceedsIffOneGroup(lists, kind, gvr);
  }

  lemma FoundIsDecided(lists: Snapshot, route: Route, gvr: Gvr) returns (i: nat)
    requires route.NeedsDiscovery() && ResolveOn(lists, route) == Success(gvr)
    requires forall k :: 0 <= k < |lists| ==> (ServesRoute(lists[k], route) <==> ServesPlainly(lists[k], route))
    ensures i < |lists| && Decides(lists, route, i) && Reads(lists[i], route, gvr)
  {
    match route {
      case InVersion(gv, kind) => i := FirstInVersion(lists, kind, gv.ToText());
      case InOneGroup(group, kind) => i := FirstInGroup(lists, kind, group);
      case Everywhere(kind) =>
        i := FirstInGroup(lists, kind, gvr.group);
        DecidedByOneGroup(lists, kind, gvr);
    }
  }

  lemma DecidedByOneGroup(lists: Snapshot, kind: string, gvr: Gvr)
    requires ByDiscovery(lists, kind) == Success(gvr)
    requires forall k :: 0 <= k < |lists| ==>
      (ServesRoute(lists[k], Everywhere(kind)) <==> ServesPlainly(lists[k], Everywhere(kind)))
    ensures var i := FirstInGroup(lists, kind, gvr.group);
      i < |lists| && Decides(lists, Everywhere(kind), i) && Reads(lists[i], Everywhere(kind), gvr)
  {
    ScanSucceedsIffOneGroup(lists, kind, gvr);
    var i := FirstInGroup(lists, kind, gvr.group);
    forall k | 0 <= k < |lists| && ServesRoute(lists[k], Everywhere(kind))
      ensures k >= i && SameGroup(lists[k].groupVersion, lists[i].groupVersion)
    {
      var g := ParseGroupVersion(lists[k].groupVersion).value.group;
      assert ServesInGroup(lists[k], kind, g);
      assert GroupServed(lists, kind, g);
      SameGroupIff(lists[k].groupVersion, lists[i].groupVersion);
    }
  }
  /** Group versions are written the way they print. */
  ghost predicate Canonical(lists: Snapshot) {
    forall list :: list in lists && ParseGroupVersion(list.groupVersion).Some? ==>
      ParseGroupVersion(list.groupVersion).value.ToText() == list.groupVersion
  }

  lemma ParsedHasNoSlash(s: string)
    requires ParseGroupVersion(s).Some?
    ensures '/' !in ParseGroupVersion(s).value.group && '/' !in ParseGroupVersion(s).value.version
  {
  }

  /** Group and version, joined by a slash, parse back. */
  lemma ParseJoined(group: string, version: string)
    requires '/' !in group && '/' !in version
    ensures ParseGroupVersion(group + "/" + version) == Some(GroupVersion(group, version))
  {
    var s := group + "/" + version;
    Text.IndexAfter(group, '/', version);
    assert s == group + ['/'] + version;
    assert s[..|group|] == group && s[|group| + 1..] == version;
    assert s == "/" ==> group == "" && version == "";
  }

  /** What the lookup in a group, or the scan, finds in a list is also found by naming
      that list's version. */
  lemma LeadIsFoundByVersion(lists: Snapshot, kind: string, i: nat)
    requires Canonical(lists) && i < |lists| && Leads(lists, kind, i)
    ensures var gvr := LeadOf(lists, kind, i);
      ByGroupVersion(lists, kind, GroupVersion(gvr.group, gvr.version)) == Success(gvr)
  {
    var gv := ParseGroupVersion(lists[i].groupVersion).value;
    assert lists[i] in lists;
    var j := FirstInVersion(lists, kind, gv.ToText());
    assert ServesInVersion(lists[i], kind, gv.ToText());
    assert ServesInGroup(lists[j], kind, gv.group);
  }

  lemma RoutesAgree(lists: Snapshot, kind: string, group: string)
    requires Canonical(lists) && ByGroup(lists, kind, group).Success?
    ensures var gvr := ByGroup(lists, kind, group).value;
      gvr.group == group && ByGroupVersion(lists, kind, GroupVersion(gvr.group, gvr.version)) == Success(gvr)
  {
    ServedGroupLeads(lists, kind, group);
    LeadIsFoundByVersion(lists, kind, FirstInGroup(lists, kind, group));
  }

  /** When the scan is ambiguous, retrying as the error advises finds the match: by its
      apiVersion, and by "group/Kind" when its group is not empty. */
  lemma AmbiguityAdviceWorks(table: Table, lists: Snapshot, kind: string, k: nat)
    requires Canonical(lists) && !Blank(kind)
    requires ByDiscovery(lists, kind).Failure? && ByDiscovery(lists, kind).error.Ambiguous?
    requires k < |ByDiscovery(lists, kind).error.matches|
    requires forall key :: key in table ==> '/' !in key
    ensures var m := ByDiscovery(lists, kind).error.matches[k];
      && ResolveOn(lists, RouteOf(table, kind, m.group + "/" + m.version)) == Success(m)
      && (m.group != "" ==> ResolveOn(lists, RouteOf(table, m.group + "/" + kind, "")) == Success(m))
  {
    var m := ByDiscovery(lists, kind).error.matches[k];
    var i := MatchComesFromLead(lists, kind, |lists|, k);
    ParsedHasNoSlash(lists[i].groupVersion);
    ParseJoined(m.group, m.version);
    LeadIsFoundByVersion(lists, kind, i);
    QualifiedRoute(table, m.group, kind);
  }

  lemma QualifiedRoute(table: Table, group: string, kind: string)
    requires '/' !in group && kind != "" && forall key :: key in table ==> '/' !in key
    ensures group != "" ==> RouteOf(table, group + "/" + kind, "") == InOneGroup(group, kind)
  {
    if group != "" {
      var s := group + "/" + kind;
      assert s == group + ['/'] + kind;
      assert s[|group|] == '/' && '/' in s;
      Text.IndexAfter(group, '/', kind);
      assert s[..|group|] == group && s[|group| + 1..] == kind;
      SlashSurvivesLower(s);
    }
  }

  lemma {:induction false} SlashSurvivesLower(s: string)
    requires '/' in s
    ensures '/' in Text.Lower(s)
  {
    if s[0] != '/' {
      SlashSurvivesLower(s[1..]);
    }
  }

  /** "group/Kind", split at the first slash. */
  predicate BySlash(text: string, group: string, kind: string) {
    text == group + "/" + kind && '/' !in group && group != "" && kind != ""
  }

  /** "Kind.group", split at the first point. */
  predicate ByPoint(text: string, group: string, kind: string) {
    text == kind + "." + group && '.' !in kind && group != "" && kind != ""
  }

  /** How a kind is qualified by a group: by a slash, or else by a point. */
  lemma QualifiedIff(text: string, group: string, kind: string)
    ensures SplitQualifiedKind(text) == Some((group, kind)) <==>
      BySlash(text, group, kind) || (ByPoint(text, group, kind) && forall g, k :: !BySlash(text, g, k))
  {
    var i := Text.Index(text, '/');
    SlashSplit(text, group, kind);
    PointSplit(text, group, kind);
    if 0 < i < |text| - 1 {
      SlashSplit(text, text[..i], text[i + 1..]);
    } else {
      forall g, k
        ensures !BySlash(text, g, k)
      {
        SlashSplit(text, g, k);
      }
    }
  }

  lemma SlashSplit(text: string, group: string, kind: string)
    ensures var i := Text.Index(text, '/');
      BySlash(text, group, kind) <==> 0 < i < |text| - 1 && group == text[..i] && kind == text[i + 1..]
  {
    Text.SplitsOnce(text, '/', group, kind);
    assert group + "/" + kind == group + ['/'] + kind;
  }

  lemma PointSplit(text: string, group: string, kind: string)
    ensures var j := Text.Index(text, '.');
      ByPoint(text, group, kind) <==> 0 < j < |text| - 1 && group == text[j + 1..] && kind == text[..j]
  {
    Text.SplitsOnce(text, '.', kind, group);
    assert kind + "." + group == kind + ['.'] + group;
  }

  /** Which route a call takes, in this order: none for a blank kind, the version its
      apiVersion spells, the built-in entry of its kind in lower case, the group that
      qualifies its kind, and the full scan. */
  lemma RouteTaken(table: Table, kind: string, apiVersion: string, group: string, rest: string)
    ensures Blank(kind) ==> RouteOf(table, kind, apiVersion) == Rejected(EmptyKind)
    ensures !Blank(kind) && apiVersion != "" ==>
      var route := RouteOf(table, kind, apiVersion);
      && (Spells(apiVersion, group, rest) ==> route == InVersion(GroupVersion(group, rest), kind))
      && (route.InVersion? ==> Spells(apiVersion, route.gv.group, route.gv.version))
      && (!route.InVersion? ==> route == Rejected(BadApiVersion))
    ensures !Blank(kind) && apiVersion == "" ==>
      var route := RouteOf(table, kind, apiVersion);
      && (Text.Lower(kind) in table ==> route == Builtin(table[Text.Lower(kind)]))
      && (Text.Lower(kind) !in table ==>
            && (route == InOneGroup(group, rest) <==>
                  BySlash(kind, group, rest) || (ByPoint(kind, group, rest) && forall g, k :: !BySlash(kind, g, k)))
            && (route.InOneGroup? || route == Everywhere(kind)))
  {
    SpellsIff(apiVersion, group, rest);
    if ParseGroupVersion(apiVersion).Some? {
      var gv := ParseGroupVersion(apiVersion).value;
      SpellsIff(apiVersion, gv.group, gv.version);
    }
    QualifiedIff(kind, group, rest);
  }

  /** A main resource of that kind in a list of that version. */
  predicate Offers(list: ResourceList, text: string, kind: string) {
    list.groupVersion == text && exists ar :: ar in list.resources && '/' !in ar.name && ar.kind == kind
  }

  lemma {:induction false} MainKindsAre(resources: seq<ApiResource>, kind: string)
    ensures kind in MainKinds(resources) <==> exists ar :: ar in resources && '/' !in ar.name && ar.kind == kind
  {
    if resources != [] {
      var front, last := resources[..|resources| - 1], resources[|resources| - 1];
      assert resources == front + [last];
      MainKindsAre(front, kind);
    }
  }

  lemma {:induction false} AvailableAre(lists: Snapshot, text: string, kind: string)
    ensures kind in Available(lists, text) <==> exists list :: list in lists && Offers(list, text, kind)
  {
    if lists != [] {
      var front, last := lists[..|lists| - 1], lists[|lists| - 1];
      assert lists == front + [last];
      AvailableAre(front, text, kind);
      MainKindsAre(last.resources, kind);
      assert Offers(last, text, kind) <==> last.groupVersion == text && kind in MainKinds(last.resources);
      assert forall list :: list in lists <==> list in front || list == last;
    }
  }

  /** What a not-found answer tells about a version: the kinds it does offer, and that it
      is not served when it offers none. */
  lemma NotFoundTells(lists: Snapshot, kind: string, gv: GroupVersion, other: string)
    requires ByGroupVersion(lists, kind, gv).Failure?
    ensures var error := ByGroupVersion(lists, kind, gv).error;
      var text := if gv.group == "" then gv.version else gv.group + "/" + gv.version;
      && (error.KindNotFound? ==>
            (other in error.available <==> exists list :: list in lists && Offers(list, text, other)))
      && (error.NotServed? ==> forall list :: list in lists ==> !Offers(list, text, other))
      && (error.NotServed? || (error.KindNotFound? && error.available != []))
  {
    AvailableAre(lists, gv.ToText(), other);
  }

  /** What an ambiguous answer names: of each group that serves the kind, and of no other,
      what the lookup in that group finds; two at least. */
  lemma AmbiguousNames(lists: Snapshot, kind: string)
    requires ByDiscovery(lists, kind).Failure? && ByDiscovery(lists, kind).error.Ambiguous?
    ensures var matches := ByDiscovery(lists, kind).error.matches;
      && |matches| >= 2
      && (forall k :: 0 <= k < |matches| ==> ByGroup(lists, kind, matches[k].group) == Success(matches[k]))
      && (forall i :: 0 <= i < |lists| && ServesRoute(lists[i], Everywhere(kind)) ==>
            exists k :: 0 <= k < |matches| &&
                        matches[k].group == ParseGroupVersion(lists[i].groupVersion).value.group)
  {
    var n := |lists|;
    var matches := Matches(lists, kind, n);
    forall k | 0 <= k < |matches|
      ensures ByGroup(lists, kind, matches[k].group) == Success(matches[k])
    {
      var i := MatchComesFromLead(lists, kind, n, k);
      ServedGroupLeads(lists, kind, matches[k].group);
    }
    forall i | 0 <= i < n && ServesRoute(lists[i], Everywhere(kind))
      ensures exists k :: 0 <= k < |matches| && matches[k].group == ParseGroupVersion(lists[i].groupVersion).value.group
    {
      ServesRouteIff(lists[i], Everywhere(kind));
      var group := ParseGroupVersion(lists[i].groupVersion).value.group;
      assert ServesInGroup(lists[i], kind, group);
      ServedGroupLeads(lists, kind, group);
      LeadIsMatch(lists, kind, n, FirstInGroup(lists, kind, group));
    }
  }
}
