/** The server with resource types resolved by the three routes and created objects built
    of their parameters: what exactly the tokens of generic changes and of built creations
    bind. */
module ConcreteServer {
  import opened Wrappers
  import opened Operations
  import opened Dispatch
  import opened JsonValue
  import opened Resolve
  import opened ResolveRoutes
  import opened ChangeHandlers
  import opened ChangeServer
  import opened PlannedChange
  import opened Protocol = ChangeProtocol
  import BuiltObjects
  import Confirm
  import Text

  /** The resolution of a kind; None is a failed one. */
  function Resolved(lists: Option<Snapshot>, route: Route): Option<Gvr> {
    if route.NeedsDiscovery() && lists.None? then None
    else
      match ResolveOn(lists.GetOr([]), route)
      case Success(gvr) => Some(gvr)
      case Failure(_) => None
  }

  function NameIn(kind: string, gv: GroupVersion, lists: Option<Snapshot>): Option<string> {
    if Blank(kind) then None
    else
      match Resolved(lists, InVersion(gv, kind))
      case Some(gvr) => Some(gvr.resource)
      case None => None
  }

  /** The server that resolves kinds with that table, and builds the objects it creates. */
  function Concrete(cfg: Config, table: Table): Config {
    cfg.(named := NameIn, unversioned := (kind, lists) => Resolved(lists, RouteOf(table, kind, "")),
         build := BuiltObjects.Built)
  }

  /** The handlers of such a server resolve a kind as the three routes do. */
  lemma TypeIsResolved(cfg: Config, table: Table, kind: string, apiVersion: string, lists: Option<Snapshot>)
    ensures TypeOf(Concrete(cfg, table), kind, apiVersion, lists) == Resolved(lists, RouteOf(table, kind, apiVersion))
  {
  }

  function VersionOf(gvr: Gvr): GroupVersion { GroupVersion(gvr.group, gvr.version) }

  /** Which parameters the token of a built creation binds: an execute call prepares the
      planned operation exactly when it agrees on these. */
  lemma BuiltCreationBinds(cfg: Config, table: Table, h: Tool, p: ChangeParams, r: Reads, q: ChangeParams, t: Reads)
    requires Builds(h)
    requires Plan(Concrete(cfg, table), h, p, r).Some? && Prepare(Concrete(cfg, table), h, q, t).Some?
    ensures Prepare(Concrete(cfg, table), h, q, t).value.op == Plan(Concrete(cfg, table), h, p, r).value <==>
      BuiltObjects.SameParts(h, p, r.fullVersion, q, t.fullVersion) &&
      (h == CreateK3kCluster ==> p.targetCluster == q.targetCluster)
  {
    var server := Concrete(cfg, table);
    SameOperationIff(server, h, p, r, h, q, t);
    BuiltIsSome(server, h, p, r, q, t);
    var bare := Confirm.Wire.Malformed;
    BuiltObjects.SameBuiltIff(
      h, p.(confirmationToken := bare), r.fullVersion, q.(confirmationToken := bare), t.fullVersion);
  }

  lemma BuiltIsSome(cfg: Config, h: Tool, p: ChangeParams, r: Reads, q: ChangeParams, t: Reads)
    requires Builds(h) && Plan(cfg, h, p, r).Some? && Prepare(cfg, h, q, t).Some?
    ensures BuiltObject(cfg, h, p, r.fullVersion).Some? && BuiltObject(cfg, h, q, t.fullVersion).Some?
  {
  }

  predicate Plain(gv: GroupVersion) { '/' !in gv.group && '/' !in gv.version }

  /** A group and version read back from the text they print. */
  lemma ParsePrinted(gv: GroupVersion)
    requires Plain(gv) && gv.version != ""
    ensures ParseGroupVersion(gv.ToText()) == Some(gv) && gv.ToText() != ""
  {
    if gv.group != "" {
      ParseJoined(gv.group, gv.version);
    }
  }

  /** A creation is resolved on the printed group and version of its manifest. */
  lemma CreationIsResolved(cfg: Config, table: Table, kind: string, fields: Fields, lists: Option<Snapshot>)
    requires ManifestVersion(fields).version != ""
    ensures var gv := ManifestVersion(fields);
      TypeIn(Concrete(cfg, table), kind, gv, lists) == Resolved(lists, RouteOf(table, kind, gv.ToText()))
  {
    ParsedHasNoSlash(StringAt(fields, "apiVersion"));
    ParsePrinted(ManifestVersion(fields));
  }

  /** A snapshot with one list, of one resource. */
  function Single(gv: GroupVersion, kind: string, resource: string): Snapshot {
    [ResourceList(gv.ToText(), [ApiResource(resource, kind)])]
  }

  lemma SingleServes(gv: GroupVersion, kind: string, resource: string)
    requires '/' !in resource
    ensures ByGroupVersion(Single(gv, kind, resource), kind, gv) == Success(Gvr(gv.group, gv.version, resource))
  {
    var list := Single(gv, kind, resource)[0];
    assert Serves(list.resources[0], kind);
    assert ServesInVersion(list, kind, gv.ToText());
  }

  /** Which names some snapshot gives a kind in a group and version: all of main resources. */
  lemma SomeNameIff(cfg: Config, table: Table, kind: string, gv: GroupVersion, resource: string)
    ensures SomeName(Concrete(cfg, table), kind, gv, resource) <==> !Blank(kind) && '/' !in resource
  {
    var server := Concrete(cfg, table);
    if !Blank(kind) && '/' !in resource {
      SingleServes(gv, kind, resource);
      assert server.named(kind, gv, Some(Single(gv, kind, resource))) == Some(resource);
    } else if lists :| server.named(kind, gv, lists) == Some(resource) {
      FoundIff(lists.value, InVersion(gv, kind), Gvr(gv.group, gv.version, resource));
    }
  }

  predicate IsEntry(table: Table, kind: string, gvr: Gvr) {
    Text.Lower(kind) in table && table[Text.Lower(kind)] == gvr
  }

  /** Which types some apiVersion and snapshot give a kind: its table entry, and every
      main resource. */
  lemma SomeTypeIff(cfg: Config, table: Table, kind: string, gvr: Gvr)
    ensures SomeType(Concrete(cfg, table), kind, gvr) <==>
      !Blank(kind) &&
      (IsEntry(table, kind, gvr) || (Plain(VersionOf(gvr)) && '/' !in gvr.resource))
  {
    var server := Concrete(cfg, table);
    var gv := VersionOf(gvr);
    if !Blank(kind) && IsEntry(table, kind, gvr) {
      TypeIsResolved(cfg, table, kind, "", None);
      assert TypeOf(server, kind, "", None) == Some(gvr);
    } else if !Blank(kind) && Plain(gv) && '/' !in gvr.resource {
      ParseJoined(gv.group, gv.version);
      SingleServes(gv, kind, gvr.resource);
      assert TypeOf(server, kind, gv.group + "/" + gv.version, Some(Single(gv, kind, gvr.resource))) == Some(gvr);
    } else if SomeType(server, kind, gvr) {
      var apiVersion, lists :| TypeOf(server, kind, apiVersion, lists) == Some(gvr);
      TypeIsResolved(cfg, table, kind, apiVersion, lists);
      ResolvedIsPlain(table, kind, apiVersion, lists, gvr);
    }
  }

  lemma ResolvedIsPlain(table: Table, kind: string, apiVersion: string, lists: Option<Snapshot>, gvr: Gvr)
    requires Resolved(lists, RouteOf(table, kind, apiVersion)) == Some(gvr)
    ensures !Blank(kind)
    ensures IsEntry(table, kind, gvr) || (Plain(VersionOf(gvr)) && '/' !in gvr.resource)
  {
    if RouteOf(table, kind, apiVersion).NeedsDiscovery() {
      DiscoveredIsPlain(lists.value, RouteOf(table, kind, apiVersion), gvr);
      VersionIsPlain(table, kind, apiVersion);
    }
  }

  lemma VersionIsPlain(table: Table, kind: string, apiVersion: string)
    ensures var route := RouteOf(table, kind, apiVersion); route.InVersion? ==> Plain(route.gv)
  {
    if apiVersion != "" && ParseGroupVersion(apiVersion).Some? {
      ParsedHasNoSlash(apiVersion);
    }
  }

  lemma DiscoveredIsPlain(lists: Snapshot, route: Route, gvr: Gvr)
    requires route.NeedsDiscovery() && ResolveOn(lists, route) == Success(gvr)
    ensures '/' !in gvr.resource
    ensures if route.InVersion? then VersionOf(gvr) == route.gv else Plain(VersionOf(gvr))
  {
    FoundIff(lists, route, gvr);
    var i :| 0 <= i < |lists| && Decides(lists, route, i) && Names(lists[i], route, gvr);
  }

  /** What fixes the type in a call: its apiVersion fixes group and version, and a kind
      of the table without one has its table entry; both whatever the snapshot. */
  lemma TypeFollowsCall(cfg: Config, table: Table, kind: string, apiVersion: string, lists: Option<Snapshot>, gvr: Gvr)
    requires TypeOf(Concrete(cfg, table), kind, apiVersion, lists) == Some(gvr)
    ensures apiVersion != "" ==> ParseGroupVersion(apiVersion) == Some(VersionOf(gvr))
    ensures apiVersion == "" && Text.Lower(kind) in table ==> gvr == table[Text.Lower(kind)]
  {
  }

  /** Whatever route finds a type, the lookup in its own version finds it too. */
  lemma FoundByVersion(lists: Snapshot, route: Route, gvr: Gvr)
    requires Canonical(lists) && route.NeedsDiscovery() && ResolveOn(lists, route) == Success(gvr)
    ensures ByGroupVersion(lists, KindSought(route), VersionOf(gvr)) == Success(gvr)
  {
    match route
    case InVersion(_, _) =>
    case InOneGroup(group, kind) => RoutesAgree(lists, kind, group);
    case Everywhere(kind) =>
      ScanSucceedsIffOneGroup(lists, kind, gvr);
      RoutesAgree(lists, kind, gvr.group);
  }

  predicate SeeksKind(table: Table, kind: string, apiVersion: string) {
    var route := RouteOf(table, kind, apiVersion);
    route.NeedsDiscovery() && KindSought(route) == kind
  }

  /** A discovered type is the one its own version names. */
  lemma TypeIsByVersion(cfg: Config, table: Table, kind: string, apiVersion: string, lists: Snapshot, gvr: Gvr)
    requires Canonical(lists) && SeeksKind(table, kind, apiVersion)
    requires TypeOf(Concrete(cfg, table), kind, apiVersion, Some(lists)) == Some(gvr)
    ensures NameIn(kind, VersionOf(gvr), Some(lists)) == Some(gvr.resource)
    ensures apiVersion != "" ==> ParseGroupVersion(apiVersion) == Some(VersionOf(gvr))
  {
    TypeIsResolved(cfg, table, kind, apiVersion, Some(lists));
    TypeFollowsCall(cfg, table, kind, apiVersion, Some(lists), gvr);
    ResolvedOn(lists, RouteOf(table, kind, apiVersion), gvr);
    RouteFindsName(lists, RouteOf(table, kind, apiVersion), gvr);
  }

  lemma RouteFindsName(lists: Snapshot, route: Route, gvr: Gvr)
    requires Canonical(lists) && route.NeedsDiscovery() && ResolveOn(lists, route) == Success(gvr)
    requires !Blank(KindSought(route))
    ensures NameIn(KindSought(route), VersionOf(gvr), Some(lists)) == Some(gvr.resource)
  {
    FoundByVersion(lists, route, gvr);
    NameByVersion(lists, KindSought(route), gvr);
  }

  lemma ResolvedOn(lists: Snapshot, route: Route, gvr: Gvr)
    requires route.NeedsDiscovery()
    ensures Resolved(Some(lists), route) == Some(gvr) <==> ResolveOn(lists, route) == Success(gvr)
  {
  }

  lemma NameByVersion(lists: Snapshot, kind: string, gvr: Gvr)
    requires ByGroupVersion(lists, kind, VersionOf(gvr)) == Success(gvr) && !Blank(kind)
    ensures NameIn(kind, VersionOf(gvr), Some(lists)) == Some(gvr.resource)
  {
  }

  /** When an execute call finds the type of its plan: exactly when it resolves to the
      planned group and version, which its apiVersion says if it has one, and the
      snapshot it sees gives the kind the planned name there. */
  lemma ExecutedTypeIff(cfg: Config, table: Table, kind: string, apiVersion: string, lists: Snapshot, planned: Gvr,
                        executed: Gvr)
    requires Canonical(lists) && SeeksKind(table, kind, apiVersion)
    requires TypeOf(Concrete(cfg, table), kind, apiVersion, Some(lists)) == Some(executed)
    ensures executed == planned <==>
        (if apiVersion == "" then VersionOf(executed) == VersionOf(planned)
         else ParseGroupVersion(apiVersion) == Some(VersionOf(planned))) &&
        NameIn(kind, VersionOf(planned), Some(lists)) == Some(planned.resource)
  {
    TypeIsByVersion(cfg, table, kind, apiVersion, lists, executed);
  }

  /** On one snapshot, group and version decide: two calls find one type exactly when
      they resolve to the same ones. */
  lemma OneSnapshotOneType(cfg: Config, table: Table, kind: string, planned: string, executed: string, lists: Snapshot,
                           a: Gvr, b: Gvr)
    requires Canonical(lists) && SeeksKind(table, kind, planned) && SeeksKind(table, kind, executed)
    requires TypeOf(Concrete(cfg, table), kind, planned, Some(lists)) == Some(a)
    requires TypeOf(Concrete(cfg, table), kind, executed, Some(lists)) == Some(b)
    ensures a == b <==> VersionOf(a) == VersionOf(b)
    ensures executed != "" ==> (a == b <==> ParseGroupVersion(executed) == Some(VersionOf(a)))
  {
    TypeIsByVersion(cfg, table, kind, planned, lists, a);
    TypeIsByVersion(cfg, table, kind, executed, lists, b);
  }

  /** In every run, a generic creation that a plan grants is of the group and version of
      the planned manifest, and of a main resource; which one is up to the snapshot. */
  lemma GrantedCreationHasItsVersion(cfg: Config, table: Table, steps: seq<Step>, m: nat)
    requires GrantedAt(Run(Concrete(cfg, table), steps).log, m)
    ensures var log := Run(Concrete(cfg, table), steps).log; var e := log[m];
      e.op.tool == CreateResource ==>
        e.change.Create? && e.grant.plan < |log| && log[e.grant.plan].Planned? &&
        var p := log[e.grant.plan].params;
        p.manifest.Parsed? && e.change.json == Object(p.manifest.fields) && '/' !in e.change.gvr.resource &&
        Spells(TextAt(e.change.json, ["apiVersion"]), e.change.gvr.group, e.change.gvr.version)
  {
    var server := Concrete(cfg, table);
    GrantedChangeIsThePlannedOne(server, steps, m);
    var e := Run(server, steps).log[m];
    if e.op.tool == CreateResource {
      SomeNameIff(cfg, table, TextAt(e.change.json, ["kind"]), VersionOf(e.change.gvr), e.change.gvr.resource);
    }
  }

  /** Two lists that serve one kind in two versions. */
  function Both(kind: string, a: Gvr, b: Gvr): Snapshot {
    Single(VersionOf(a), kind, a.resource) + Single(VersionOf(b), kind, b.resource)
  }

  predicate PlainType(gvr: Gvr) {
    Plain(VersionOf(gvr)) && gvr.version != "" && '/' !in gvr.resource
  }

  lemma BothServe(kind: string, a: Gvr, b: Gvr)
    requires PlainType(a) && PlainType(b) && VersionOf(a) != VersionOf(b)
    ensures ByGroupVersion(Both(kind, a, b), kind, VersionOf(a)) == Success(a)
    ensures ByGroupVersion(Both(kind, a, b), kind, VersionOf(b)) == Success(b)
  {
    var lists := Both(kind, a, b);
    var x, y := VersionOf(a), VersionOf(b);
    ParsePrinted(x);
    ParsePrinted(y);
    assert Serves(lists[0].resources[0], kind) && Serves(lists[1].resources[0], kind);
    assert ServesInVersion(lists[0], kind, x.ToText()) && ServesInVersion(lists[1], kind, y.ToText());
    assert FirstInVersion(lists, kind, x.ToText()) == 0 && FirstInVersion(lists, kind, y.ToText()) == 1;
  }

  function VersionText(gvr: Gvr): string { VersionOf(gvr).ToText() }

  lemma ResolvesByVersion(cfg: Config, table: Table, kind: string, gvr: Gvr, lists: Snapshot)
    requires PlainType(gvr) && !Blank(kind)
    requires ByGroupVersion(lists, kind, VersionOf(gvr)) == Success(gvr)
    ensures TypeOf(Concrete(cfg, table), kind, VersionText(gvr), Some(lists)) == Some(gvr)
  {
    ParsePrinted(VersionOf(gvr));
    TypeIsResolved(cfg, table, kind, VersionText(gvr), Some(lists));
  }

  /** Both calls of that run see the same, and differ in the apiVersion only. */
  ghost predicate OneView(steps: seq<Step>, p: ChangeParams, r: Reads, apiVersion: string) {
    && 2 <= |steps| && steps[0].PlanChange? && steps[0].params == p && steps[0].seen == r
    && steps[1].ExecuteChange? && steps[1].seen == r
    && steps[1].params == p.(apiVersion := apiVersion, confirmationToken := steps[1].params.confirmationToken)
  }

  lemma DeletionPrepares(cfg: Config, p: ChangeParams, r: Reads, gvr: Gvr)
    requires TypeOf(cfg, p.kind, p.apiVersion, r.discovery) == Some(gvr) && r.found
    ensures Plan(cfg, DeleteResource, p, r) == Some(DeleteOperation(p))
    ensures Prepare(cfg, DeleteResource, p, r) ==
      Some(Prepared(DeleteOperation(p), Delete(p.cluster, p.namespace, gvr, p.name), p.name, false))
  {
  }

  lemma DeletionApprovable(cfg: Config, p: ChangeParams, r: Reads, a: Gvr, apiVersion: string, b: Gvr, o: Outcome)
    returns (prep: Prepared)
    requires Lookup(p) == Some(DeleteResource) && r.found && r.clusterId == Some(o.landed)
    requires TypeOf(cfg, p.kind, p.apiVersion, r.discovery) == Some(a)
    requires TypeOf(cfg, p.kind, apiVersion, r.discovery) == Some(b)
    requires Protocol.Answered(cfg, DeleteResource, p, o.reply) && Allowed({}, p.cluster, o.landed)
    ensures prep.change == Delete(p.cluster, p.namespace, b, p.name)
    ensures Approvable(cfg, {}, p, r, p.(apiVersion := apiVersion), r, prep, o)
  {
    var q := p.(apiVersion := apiVersion);
    DeletionPrepares(cfg, p, r, a);
    DeletionPrepares(cfg, q, r, b);
    LooseFieldsDispatch(DeleteResource, p, q);
    SeesAgain({}, p, r, q, r);
    prep := Prepared(DeleteOperation(p), Delete(p.cluster, p.namespace, b, p.name), p.name, false);
  }

  /** Planned with one apiVersion, a deletion is made with another. */
  lemma OtherVersionFollows(cfg: Config, p: ChangeParams, r: Reads, apiVersion: string, prep: Prepared, o: Outcome)
    returns (steps: seq<Step>)
    requires Approvable(cfg, {}, p, r, p.(apiVersion := apiVersion), r, prep, o)
    ensures OneView(steps, p, r, apiVersion) && PlansAndMakes(cfg, steps, p, r, prep.change, o.landed)
  {
    var q := p.(apiVersion := apiVersion);
    steps := ProtocolSteps(p, r, q, r, TokenFor(cfg, START, prep.op, 0), 0, o);
    FirstPlanGoesThrough(cfg, p, r, q, r, prep, o);
  }

  /** The failing case: with one snapshot throughout, a deletion planned with the
      apiVersion of one type is made, with another apiVersion, on another type. */
  lemma OtherVersionOtherType(cfg: Config, table: Table, p: ChangeParams, a: Gvr, b: Gvr, o: Outcome)
    returns (r: Reads, steps: seq<Step>)
    requires Lookup(p) == Some(DeleteResource) && p.apiVersion == VersionText(a) && !Blank(p.kind)
    requires PlainType(a) && PlainType(b) && VersionOf(a) != VersionOf(b)
    requires Protocol.Answered(Concrete(cfg, table), DeleteResource, p, o.reply) && Allowed({}, p.cluster, o.landed)
    ensures TypeOf(Concrete(cfg, table), p.kind, p.apiVersion, r.discovery) == Some(a)
    ensures OneView(steps, p, r, VersionText(b))
    ensures PlansAndMakes(Concrete(cfg, table), steps, p, r, Delete(p.cluster, p.namespace, b, p.name), o.landed)
  {
    var lists := Both(p.kind, a, b);
    BothServe(p.kind, a, b);
    ResolvesByVersion(cfg, table, p.kind, a, lists);
    ResolvesByVersion(cfg, table, p.kind, b, lists);
    r := Reads(Some(o.landed), Some(lists), true, true, None, None, None, None);
    var prep := DeletionApprovable(Concrete(cfg, table), p, r, a, VersionText(b), b, o);
    steps := OtherVersionFollows(Concrete(cfg, table), p, r, VersionText(b), prep, o);
  }
}
