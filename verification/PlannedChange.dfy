/** What a granted change submits, field by field, in the words of the plan that grants it. */
module PlannedChange {
  import opened Wrappers
  import opened Operations
  import opened Dispatch
  import opened JsonValue
  import opened Resolve
  import opened ResolveRoutes
  import opened ScaleNodePool
  import opened ChangeHandlers
  import opened ChangeServer
  import ExecPod
  import Text

  /** The change submits what these parameters and reads, those of a plan, asked for,
      field by field. */
  ghost predicate SubmitsThePlan(cfg: Config, p: ChangeParams, r: Reads, op: Operation, change: Change) {
    match op.tool
    case CreateResource => SubmitsManifest(cfg, p, change)
    case PatchResource => SubmitsPatch(cfg, p, change)
    case DeleteResource =>
      change.Delete? && p.cluster == change.cluster && p.namespace == change.namespace && p.name == change.name &&
      SomeType(cfg, p.kind, change.gvr)
    case ExecInPod =>
      change.Exec? && p.cluster == change.cluster && p.namespace == change.namespace && p.name == change.pod &&
      change.command != [] && ExecPod.Join(change.command) == ExecPod.Join(p.command.GetOr([]))
    case ScalePool => SubmitsScale(p, r, change)
    case MoveNs => SubmitsMove(p, r, change)
    case _ => SubmitsBuilt(cfg, op.tool, p, r, change)
  }

  /** The manifest, in the namespace of the call or else its own, under its own group and
      version, and of the kind and name that the call gave. */
  ghost predicate SubmitsManifest(cfg: Config, p: ChangeParams, change: Change) {
    && p.manifest.Parsed? && change.Create?
    && var manifest := Object(p.manifest.fields);
    && change.json == manifest && change.cluster == p.cluster
    && change.namespace == (if p.namespace != "" then p.namespace else TextAt(manifest, ["metadata", "namespace"]))
    && Text.SameUpToCase(p.kind, TextAt(manifest, ["kind"])) && TextAt(manifest, ["kind"]) != ""
    && (p.name != "" ==> p.name == TextAt(manifest, ["metadata", "name"]))
    && Spells(TextAt(manifest, ["apiVersion"]), change.gvr.group, change.gvr.version) && change.gvr.version != ""
    && SomeName(cfg, TextAt(manifest, ["kind"]), GroupVersion(change.gvr.group, change.gvr.version),
                change.gvr.resource)
  }

  ghost predicate SubmitsPatch(cfg: Config, p: ChangeParams, change: Change) {
    && change.Patch? && p.cluster == change.cluster && p.name == change.name && p.namespace == change.namespace
    && p.patch.Some? && p.patch.value.Ops? && change.patch == PatchList(p.patch.value.ops)
    && SomeType(cfg, p.kind, change.gvr)
  }

  /** The size asked for, of the pool asked for, in the provisioning cluster of that name. */
  predicate SubmitsScale(p: ChangeParams, r: Reads, change: Change) {
    && change.Patch? && change.cluster == "local" && change.name == p.cluster
    && change.gvr == Gvr("provisioning.cattle.io", "v1", "clusters")
    && change.namespace == (if p.namespace in {"", "default"} then "fleet-default" else p.namespace)
    && r.provCluster.Some? && change.patch.ReplaceQuantity?
    && AnswersRequest(r.provCluster.value, p.nodePoolName, p.desiredSize, p.amountToAdd, p.amountToSubtract,
                      change.patch.poolIndex, change.patch.size)
  }

  predicate SubmitsMove(p: ChangeParams, r: Reads, change: Change) {
    && change.UpdateNamespace? && r.clusterId == Some(change.cluster) && change.name == p.namespace
    && var tag := "field.cattle.io/projectId";
    && r.projectId.Some? && tag in change.labels && change.labels[tag] == r.projectId.value
    && tag in change.annotations && change.annotations[tag] == change.cluster + ":" + r.projectId.value
  }

  /** The object that was built of the parameters, where its tool puts it. */
  predicate SubmitsBuilt(cfg: Config, h: Tool, p: ChangeParams, r: Reads, change: Change) {
    && (change.Create? || change.Post?) && BuiltObject(cfg, h, p, r.fullVersion) == Some(change.json)
    && match h
       case CreateProject =>
         change == Create("local", p.cluster, Gvr("management.cattle.io", "v3", "projects"), change.json)
       case CreateCustomCluster =>
         change == Create("local", "fleet-default", Gvr("provisioning.cattle.io", "v1", "clusters"), change.json)
       case CreateImportedCluster => change == Post("v3/clusters", change.json)
       case CreateK3kCluster =>
         change == Create(p.targetCluster, p.namespace, Gvr("k3k.io", "v1beta1", "clusters"), change.json)
       case _ => false
  }

  /** Whatever happens to the clusters between plan and execute, a granted change submits
      everything the plan's operation binds, as planned. It is the very change that was
      planned, and reaches the cluster that was planned for, exactly when the parts that
      no operation binds are the same. */
  lemma GrantedChangeIsThePlannedOne(cfg: Config, steps: seq<Step>, m: nat)
    requires GrantedAt(Run(cfg, steps).log, m)
    ensures var log := Run(cfg, steps).log; var e := log[m];
      e.grant.plan < m && log[e.grant.plan].Planned? &&
      var plan := log[e.grant.plan];
      && SubmitsThePlan(cfg, plan.params, plan.seen, e.op, e.change)
      && SameExactlyWhen(e, Prepare(cfg, e.op.tool, plan.params, plan.seen), plan.seen.clusterId)
  {
    GrantedPlan(cfg, steps, m);
    var e := Run(cfg, steps).log[m];
    var plan := Run(cfg, steps).log[e.grant.plan];
    PlannedTool(cfg, Lookup(plan.params).value, plan.params, plan.seen);
    PlannedOperation(cfg, plan.params, plan.seen, e.op, e.change);
    PlannedComparison(cfg, plan.params, plan.seen, e);
  }

  /** The change is the one planned exactly when its loose parts are; with the cluster
      where it landed, too, when the plan looked its cluster up. */
  predicate SameExactlyWhen(e: Event, planned: Option<Prepared>, clusterId: Option<string>)
    requires e.Changed?
  {
    planned.Some? ==>
      var change := planned.value.change;
      && (e.change == change <==> LooseOf(e.op, e.change) == LooseOf(e.op, change))
      && (clusterId.Some? ==>
            ((e.change == change && e.landed == clusterId.value) <==>
             Loose(e.landed, LooseOf(e.op, e.change)) == Loose(clusterId.value, LooseOf(e.op, change))))
  }

  lemma PlannedComparison(cfg: Config, p: ChangeParams, r: Reads, e: Event)
    requires e.Changed? && Describes(cfg, e.op, e.change) && Plan(cfg, e.op.tool, p, r) == Some(e.op)
    ensures SameExactlyWhen(e, Prepare(cfg, e.op.tool, p, r), r.clusterId)
  {
    if Prepare(cfg, e.op.tool, p, r).Some? {
      var change := Prepare(cfg, e.op.tool, p, r).value.change;
      PreparedDescribes(cfg, e.op.tool, p, r);
      PlanAndExecuteAgree(cfg, e.op.tool, p, r);
      OperationFixesTheRest(cfg, e.op, e.change, e.landed, change, e.landed);
    }
  }

  /** The plan a granted change points at planned the operation that the change does. */
  lemma GrantedPlan(cfg: Config, steps: seq<Step>, m: nat)
    requires GrantedAt(Run(cfg, steps).log, m)
    ensures var log := Run(cfg, steps).log; var e := log[m];
      e.grant.plan < m && log[e.grant.plan].Planned? &&
      var plan := log[e.grant.plan];
      && Lookup(plan.params).Some? && Plan(cfg, Lookup(plan.params).value, plan.params, plan.seen) == Some(e.op)
      && Describes(cfg, e.op, e.change)
  {
    RunKeeps(cfg, steps);
    var log := Run(cfg, steps).log;
    assert GoodChange(cfg, log, m);
    assert Honest(cfg, log[log[m].grant.plan]);
  }

  lemma PlannedTool(cfg: Config, h: Tool, p: ChangeParams, r: Reads)
    requires Plan(cfg, h, p, r).Some?
    ensures Plan(cfg, h, p, r).value.tool == h
  {
  }

  lemma PlannedOperation(cfg: Config, p: ChangeParams, r: Reads, op: Operation, change: Change)
    requires Lookup(p).Some? && Plan(cfg, Lookup(p).value, p, r) == Some(op) && Describes(cfg, op, change)
    ensures SubmitsThePlan(cfg, p, r, op, change)
  {
    var h := Lookup(p).value;
    PlannedTool(cfg, h, p, r);
    match h {
      case CreateResource => PlannedManifest(cfg, p, r, op, change);
      case ScalePool => PlannedScale(cfg, p, r, op, change);
      case MoveNs =>
      case PatchResource =>
      case DeleteResource =>
      case ExecInPod =>
      case _ => PlannedObject(cfg, h, p, r, op, change);
    }
  }

  lemma PlannedManifest(cfg: Config, p: ChangeParams, r: Reads, op: Operation, change: Change)
    requires Plan(cfg, CreateResource, p, r) == Some(op) && Describes(cfg, op, change)
    ensures SubmitsManifest(cfg, p, change)
  {
    var fields := p.manifest.fields;
    ReadersReadPaths(fields, "kind");
    ReadersReadPaths(fields, "name");
    ReadersReadPaths(fields, "namespace");
    ReadersReadPaths(fields, "apiVersion");
    SpellsIff(StringAt(fields, "apiVersion"), change.gvr.group, change.gvr.version);
    Text.EqualFoldIff(p.kind, StringAt(fields, "kind"));
  }

  lemma PlannedScale(cfg: Config, p: ChangeParams, r: Reads, op: Operation, change: Change)
    requires Plan(cfg, ScalePool, p, r) == Some(op) && Describes(cfg, op, change)
    ensures SubmitsScale(p, r, change)
  {
    PatchAnswersRequest(
      r.provCluster.value, ScaleParams(p.nodePoolName, p.desiredSize, p.amountToAdd, p.amountToSubtract));
  }

  lemma PlannedObject(cfg: Config, h: Tool, p: ChangeParams, r: Reads, op: Operation, change: Change)
    requires Builds(h) && Plan(cfg, h, p, r) == Some(op) && Describes(cfg, op, change)
    ensures SubmitsBuilt(cfg, h, p, r, change)
  {
  }

  /** Where a granted change lands: a request for the local cluster, for an ID the
      handler resolved itself, or for a name its plan found to be an ID, goes there. */
  lemma GrantedChangeLands(cfg: Config, steps: seq<Step>, m: nat)
    requires GrantedAt(Run(cfg, steps).log, m)
    ensures var log := Run(cfg, steps).log; var e := log[m];
      e.grant.plan < m && log[e.grant.plan].Planned? && LandsWhereSent(e) && LandsAsSeen(log[e.grant.plan], e)
  {
    RunKeeps(cfg, steps);
    assert GoodChange(cfg, Run(cfg, steps).log, m);
  }

  /** In every run a granted change of a pool's size answers the plan's request: its pool
      is the first of the name asked for, in the cluster that the plan read, and with
      amounts in range its size is that pool's plus the amount to add, or minus the one to
      subtract, or the desired one. */
  lemma GrantedScaleAnswersItsPlan(cfg: Config, steps: seq<Step>, m: nat)
    requires GrantedAt(Run(cfg, steps).log, m) && Run(cfg, steps).log[m].op.tool == ScalePool
    ensures var log := Run(cfg, steps).log; var e := log[m];
      e.grant.plan < m && log[e.grant.plan].Planned? &&
      var p, r := log[e.grant.plan].params, log[e.grant.plan].seen;
      && r.provCluster.Some? && r.provCluster.value.rkeConfig.Some?
      && e.change.Patch? && e.change.name == p.cluster && e.change.patch.ReplaceQuantity?
      && var pools, k, size := r.provCluster.value.rkeConfig.value, e.change.patch.poolIndex, e.change.patch.size;
      && k < |pools| && IsCalled(r.provCluster.value, pools[k], p.nodePoolName)
      && (forall j :: 0 <= j < k ==> !IsCalled(r.provCluster.value, pools[j], p.nodePoolName))
      && (InRange(p) && 0 <= pools[k].quantity < 0x8000_0000 ==>
            size == if p.amountToAdd != 0 then pools[k].quantity + p.amountToAdd
                    else if p.amountToSubtract != 0 then pools[k].quantity - p.amountToSubtract
                    else p.desiredSize)
  {
    GrantedChangeIsThePlannedOne(cfg, steps, m);
  }

  predicate InRange(p: ChangeParams) { Fits32(p.desiredSize) && Fits32(p.amountToAdd) && Fits32(p.amountToSubtract) }

  /** And with amounts and quantities in range every request with such an answer gets it:
      exactly those that name a size or one amount. */
  lemma ScaleAnsweredIff(p: ChangeParams, r: Reads, k: nat, size: int)
    requires InRange(p) && r.provCluster.Some? && SaneQuantities(r.provCluster.value)
    ensures ScaleDoc(p, r) == Some(ReplaceQuantity(k, size)) <==>
      && AnswersRequest(r.provCluster.value, p.nodePoolName, p.desiredSize, p.amountToAdd, p.amountToSubtract, k, size)
      && size < 0x8000_0000 && p.desiredSize >= 0
  {
    var prov := r.provCluster.value;
    EmitsExactlyTheTrueSize(
      prov, ScaleParams(p.nodePoolName, p.desiredSize, p.amountToAdd, p.amountToSubtract), k, size);
    if prov.rkeConfig.Some? && k < |prov.rkeConfig.value| {
      assert prov.rkeConfig.value[k] in prov.rkeConfig.value;
    }
  }

  /** A moved namespace keeps the rest of what the execution read: all other labels and
      annotations, and everything else. */
  lemma MoveKeepsTheRest(cfg: Config, p: ChangeParams, r: Reads, key: string)
    requires Prepare(cfg, MoveNs, p, r).Some? && key != "field.cattle.io/projectId"
    ensures r.namespace.Some?
    ensures var change, found := Prepare(cfg, MoveNs, p, r).value.change, r.namespace.value;
      && change.UpdateNamespace? && change.rest == found.rest
      && (key in change.labels <==> found.labels.Some? && key in found.labels.value)
      && (key in change.labels ==> change.labels[key] == found.labels.value[key])
      && (key in change.annotations <==> found.annotations.Some? && key in found.annotations.value)
      && (key in change.annotations ==> change.annotations[key] == found.annotations.value[key])
  {
  }

  /** What a plan needs. */
  predicate Plannable(cfg: Config, h: Tool, p: ChangeParams, r: Reads) {
    match h
    case CreateResource => AcceptsManifest(p)
    case PatchResource =>
      p.patch.Some? && p.patch.value.Ops? && FindsType(cfg, p, r) && r.found && r.patchApplies
    case DeleteResource => FindsType(cfg, p, r) && r.found
    case ExecInPod => cfg.enableExec && p.command.Some? && |p.command.value| > 0 && r.found
    case ScalePool => ScaleDoc(p, r).Some?
    case MoveNs => r.clusterId.Some? && r.projectId.Some? && r.namespace.Some?
    case _ => BuiltObject(cfg, h, p, r.fullVersion).Some?
  }

  predicate FindsType(cfg: Config, p: ChangeParams, r: Reads) {
    TypeOf(cfg, p.kind, p.apiVersion, r.discovery).Some?
  }

  /** A manifest that names its kind and version, and agrees with the call. */
  ghost predicate AcceptsManifestText(p: ChangeParams) {
    && p.manifest.Parsed?
    && var manifest := Object(p.manifest.fields);
    && TextAt(manifest, ["kind"]) != "" && Text.SameUpToCase(p.kind, TextAt(manifest, ["kind"]))
    && (exists group, version :: Spells(TextAt(manifest, ["apiVersion"]), group, version) && version != "")
    && (p.name != "" ==> p.name == TextAt(manifest, ["metadata", "name"]))
  }

  predicate AcceptsManifest(p: ChangeParams) { CreateOperation(p).Some? }

  lemma ManifestAcceptedIff(p: ChangeParams)
    ensures AcceptsManifest(p) <==> AcceptsManifestText(p)
  {
    if p.manifest.Parsed? {
      var fields := p.manifest.fields;
      ReadersReadPaths(fields, "kind");
      ReadersReadPaths(fields, "name");
      ReadersReadPaths(fields, "apiVersion");
      Text.EqualFoldIff(p.kind, StringAt(fields, "kind"));
      VersionSpelled(StringAt(fields, "apiVersion"));
    }
  }

  lemma VersionSpelled(text: string)
    ensures (ParseGroupVersion(text).Some? && ParseGroupVersion(text).value.version != "") <==>
      exists group, version :: Spells(text, group, version) && version != ""
  {
    if ParseGroupVersion(text).Some? {
      var gv := ParseGroupVersion(text).value;
      SpellsIff(text, gv.group, gv.version);
    }
    if group, version :| Spells(text, group, version) && version != "" {
      SpellsIff(text, group, version);
    }
  }

  /** What a call needs to reach the gate: what its plan needs, except that the object
      need not be read again; a creation also needs a type for its manifest, and a scaling
      is refused for the local cluster. */
  lemma PreparedIffPlannable(cfg: Config, h: Tool, p: ChangeParams, r: Reads)
    ensures Plan(cfg, h, p, r).Some? <==> Plannable(cfg, h, p, r)
    ensures Prepare(cfg, h, p, r).Some? <==>
      && Plannable(cfg, h, p, r.(found := true, patchApplies := true))
      && (h == CreateResource ==>
            TypeIn(cfg, StringAt(p.manifest.fields, "kind"), ManifestVersion(p.manifest.fields), r.discovery).Some?)
      && (h == ScalePool ==> Text.Lower(p.cluster) != "local")
  {
  }

  /** The operation a plan names, and its token binds, for each tool. */
  predicate NamesOperation(h: Tool, p: ChangeParams, op: Operation) {
    op.tool == h &&
    match h
    case CreateResource =>
      && op.cluster == p.cluster && p.manifest.Parsed? && op.payload == Json(Document(Object(p.manifest.fields)))
      && op.kind == TextAt(Object(p.manifest.fields), ["kind"])
      && op.name == TextAt(Object(p.manifest.fields), ["metadata", "name"])
    case PatchResource =>
      op.cluster == p.cluster && op.namespace == p.namespace && op.kind == p.kind && op.name == p.name
    case DeleteResource =>
      && op.cluster == p.cluster && op.namespace == p.namespace && op.kind == p.kind && op.name == p.name
      && op.payload == Raw("")
    case ExecInPod =>
      op.cluster == p.cluster && op.namespace == p.namespace && op.kind == "pod" && op.name == p.name
    case ScalePool => op.cluster == p.cluster && op.kind == "nodepool" && op.name == p.nodePoolName
    case MoveNs =>
      op.cluster == p.cluster && op.namespace == p.namespace && op.kind == "namespace" && op.name == p.namespace
    case CreateProject => op.cluster == p.cluster && op.namespace == "" && op.kind == "project" && op.name == p.name
    case CreateCustomCluster =>
      op.cluster == "local" && op.namespace == "fleet-default" && op.kind == "cluster" && op.name == p.name
    case CreateImportedCluster =>
      op.cluster == "local" && op.namespace == "" && op.kind == "cluster" && op.name == p.name
    case CreateK3kCluster =>
      op.cluster == p.targetCluster && op.namespace == p.namespace && op.kind == "cluster" && op.name == p.name
  }

  lemma PlanNamesOperation(cfg: Config, h: Tool, p: ChangeParams, r: Reads)
    requires Plan(cfg, h, p, r).Some?
    ensures NamesOperation(h, p, Plan(cfg, h, p, r).value)
  {
    if h == CreateResource {
      ReadersReadPaths(p.manifest.fields, "kind");
      ReadersReadPaths(p.manifest.fields, "name");
    }
  }
}
