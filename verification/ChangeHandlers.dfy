/** The plan and execute handlers of the change operations. Answers of API reads are
    inputs, arbitrary at every call. */
module ChangeHandlers {
  import opened Wrappers
  import opened Operations
  import opened Confirm
  import opened Dispatch
  import opened JsonValue
  import opened Resolve
  import opened ScaleNodePool
  import ExecPod
  import Text

  /** The server's flags; how a kind is resolved on a discovery snapshot, with an
      apiVersion, which then gives group and version, and without; and what the create
      tools build of their parameters and the offered Kubernetes version. */
  datatype Config = Config(
    readOnly: bool, autoWrite: bool, enableExec: bool, ttl: int,
    named: (string, GroupVersion, Option<Snapshot>) -> Option<string>,
    unversioned: (string, Option<Snapshot>) -> Option<Gvr>,
    build: (Tool, ChangeParams, Option<string>) -> Option<Json>)

  type Tags = map<string, string>

  const PROJECT_TAG := "field.cattle.io/projectId"
  const LOCAL_CLUSTER := "local"
  const DEFAULT_NAMESPACE := "fleet-default"
  const CLUSTER_GVR := Gvr("provisioning.cattle.io", "v1", "clusters")
  const PROJECT_GVR := Gvr("management.cattle.io", "v3", "projects")
  const K3K_GVR := Gvr("k3k.io", "v1beta1", "clusters")
  /** Imported clusters are posted to this path of the Rancher API. */
  const CLUSTERS_PATH := "v3/clusters"

  /** A namespace: its labels and annotations (None is Go's nil map), and all the rest. */
  datatype NamespaceRead = NamespaceRead(labels: Option<Tags>, annotations: Option<Tags>, rest: string)

  /** What one call reads: the ID the cluster's name resolves to, the discovery snapshot
      of that cluster, whether the object to plan for is there and the patch applies to
      it, the provisioning cluster, the project's ID, the namespace, the full Kubernetes
      version. None is a failed read. */
  datatype Reads = Reads(
    clusterId: Option<string>, discovery: Option<Snapshot>,
    found: bool, patchApplies: bool,
    provCluster: Option<ProvCluster>,
    projectId: Option<string>, namespace: Option<NamespaceRead>,
    fullVersion: Option<string>)

  /** One request that changes a cluster. `cluster` is what the handler passes on: a name,
      which is resolved once more when the request is sent, or an ID it has resolved. */
  datatype Change =
    | Create(cluster: string, namespace: string, gvr: Gvr, json: Json)
    | Post(path: string, json: Json)
    | Patch(cluster: string, namespace: string, gvr: Gvr, name: string, patch: JsonDoc)
    | Delete(cluster: string, namespace: string, gvr: Gvr, name: string)
    | Exec(cluster: string, namespace: string, pod: string, container: string, command: seq<string>)
    | UpdateNamespace(cluster: string, name: string, labels: Tags, annotations: Tags, rest: string)
  {
    function Target(): string { if Post? then LOCAL_CLUSTER else cluster }
  }

  /** What an execute handler holds when it reaches the gate. */
  datatype Prepared = Prepared(op: Operation, change: Change, typedName: string, bypass: bool)

  /** The cluster name a handler looks up. */
  function ClusterNamed(h: Tool, p: ChangeParams): string {
    match h
    case CreateProject => LOCAL_CLUSTER
    case CreateCustomCluster => LOCAL_CLUSTER
    case CreateImportedCluster => LOCAL_CLUSTER
    case ScalePool => LOCAL_CLUSTER
    case CreateK3kCluster => p.targetCluster
    case _ => p.cluster
  }

  /** The type of a kind in that group and version. */
  function TypeIn(cfg: Config, kind: string, gv: GroupVersion, lists: Option<Snapshot>): Option<Gvr> {
    match cfg.named(kind, gv, lists)
    case None => None
    case Some(resource) => Some(Gvr(gv.group, gv.version, resource))
  }

  /** The type of a kind, as a call names it. */
  function TypeOf(cfg: Config, kind: string, apiVersion: string, lists: Option<Snapshot>): Option<Gvr> {
    if apiVersion == "" then cfg.unversioned(kind, lists)
    else
      match ParseGroupVersion(apiVersion)
      case None => None
      case Some(gv) => TypeIn(cfg, kind, gv, lists)
  }

  /** The group and version of a manifest; both "" when they do not parse. */
  function ManifestVersion(fields: Fields): GroupVersion {
    ParseGroupVersion(StringAt(fields, "apiVersion")).GetOr(GroupVersion("", ""))
  }

  function ManifestNamespace(p: ChangeParams, fields: Fields): string {
    if p.namespace == "" then MetadataAt(fields, "namespace") else p.namespace
  }

  function CreateOperation(p: ChangeParams): Option<Operation> {
    if !p.manifest.Parsed? then None
    else
      var fields := p.manifest.fields;
      var kind, name := StringAt(fields, "kind"), MetadataAt(fields, "name");
      if kind == "" || ManifestVersion(fields).version == "" then None
      else if !Text.EqualFold(p.kind, kind) then None
      else if p.name != "" && p.name != name then None
      else
        var payload := Json(Document(Object(fields)));
        Some(Operation(CreateResource, p.cluster, ManifestNamespace(p, fields), kind, name, payload))
  }

  function PatchOperation(p: ChangeParams, ops: string): Operation {
    Operation(PatchResource, p.cluster, p.namespace, p.kind, p.name, Json(PatchList(ops)))
  }

  predicate HasPatch(p: ChangeParams) { p.patch.Some? && p.patch.value.Ops? }

  function DeleteOperation(p: ChangeParams): Operation {
    Operation(DeleteResource, p.cluster, p.namespace, p.kind, p.name, NO_PAYLOAD)
  }

  function ExecOperation(p: ChangeParams, command: seq<string>): Operation {
    Operation(ExecInPod, p.cluster, p.namespace, "pod", p.name, Raw(ExecPod.Join(command)))
  }

  function ScaleNamespace(namespace: string): string {
    if namespace == "" || namespace == "default" then DEFAULT_NAMESPACE else namespace
  }

  function ScaleDoc(p: ChangeParams, r: Reads): Option<JsonDoc> {
    if r.provCluster.None? then None
    else
      var params := ScaleParams(p.nodePoolName, p.desiredSize, p.amountToAdd, p.amountToSubtract);
      match ScalePatch(r.provCluster.value, params)
      case Success(doc) => Some(doc)
      case Failure(_) => None
  }

  function ScaleOperation(p: ChangeParams, doc: JsonDoc): Operation {
    Operation(ScalePool, p.cluster, ScaleNamespace(p.namespace), "nodepool", p.nodePoolName, Json(doc))
  }

  predicate CanMove(r: Reads) { r.clusterId.Some? && r.projectId.Some? && r.namespace.Some? }

  function MoveOperation(p: ChangeParams, clusterId: string, projectId: string): Operation {
    Operation(MoveNs, p.cluster, p.namespace, "namespace", p.namespace,
              Json(MoveIds(clusterId, p.namespace, projectId)))
  }

  /** The tools that create an object they build themselves. */
  predicate Builds(h: Tool) {
    h in {CreateProject, CreateCustomCluster, CreateImportedCluster, CreateK3kCluster}
  }

  /** What is built of the parameters; the token is none of those. */
  function BuiltObject(cfg: Config, h: Tool, p: ChangeParams, fullVersion: Option<string>): Option<Json> {
    cfg.build(h, p.(confirmationToken := Wire.Malformed), fullVersion)
  }

  function BuiltOperation(h: Tool, p: ChangeParams, json: Json): Operation
    requires Builds(h)
  {
    var payload := Json(Document(json));
    match h
    case CreateProject => Operation(h, p.cluster, "", "project", p.name, payload)
    case CreateCustomCluster => Operation(h, LOCAL_CLUSTER, DEFAULT_NAMESPACE, "cluster", p.name, payload)
    case CreateImportedCluster => Operation(h, LOCAL_CLUSTER, "", "cluster", p.name, payload)
    case CreateK3kCluster => Operation(h, p.targetCluster, p.namespace, "cluster", p.name, payload)
  }

  function BuiltChange(h: Tool, p: ChangeParams, json: Json): Change
    requires Builds(h)
  {
    match h
    case CreateProject => Create(LOCAL_CLUSTER, p.cluster, PROJECT_GVR, json)
    case CreateCustomCluster => Create(LOCAL_CLUSTER, DEFAULT_NAMESPACE, CLUSTER_GVR, json)
    case CreateImportedCluster => Post(CLUSTERS_PATH, json)
    case CreateK3kCluster => Create(p.targetCluster, p.namespace, K3K_GVR, json)
  }

  /** The namespace as it looks after the move: two tags set, the rest kept. */
  function Moved(p: ChangeParams, r: Reads): Change
    requires CanMove(r)
  {
    var n := r.namespace.value;
    UpdateNamespace(
      r.clusterId.value, p.namespace,
      n.labels.GetOr(map[])[PROJECT_TAG := r.projectId.value],
      n.annotations.GetOr(map[])[PROJECT_TAG := r.clusterId.value + ":" + r.projectId.value],
      n.rest)
  }

  /** The operation a plan handler issues a token for. */
  function Plan(cfg: Config, h: Tool, p: ChangeParams, r: Reads): Option<Operation> {
    match h
    case CreateResource => CreateOperation(p)
    case PatchResource =>
      if !HasPatch(p) || TypeOf(cfg, p.kind, p.apiVersion, r.discovery).None? || !r.found || !r.patchApplies then None
      else Some(PatchOperation(p, p.patch.value.ops))
    case DeleteResource =>
      if TypeOf(cfg, p.kind, p.apiVersion, r.discovery).None? || !r.found then None else Some(DeleteOperation(p))
    case ExecInPod =>
      if !cfg.enableExec || p.command.GetOr([]) == [] || !r.found then None
      else Some(ExecOperation(p, p.command.GetOr([])))
    case ScalePool =>
      (match ScaleDoc(p, r)
       case None => None
       case Some(doc) => Some(ScaleOperation(p, doc)))
    case MoveNs =>
      if !CanMove(r) then None else Some(MoveOperation(p, r.clusterId.value, r.projectId.value))
    case _ =>
      (match BuiltObject(cfg, h, p, r.fullVersion)
       case None => None
       case Some(json) => Some(BuiltOperation(h, p, json)))
  }

  /** What an execute handler prepares before it reaches the gate. */
  function Prepare(cfg: Config, h: Tool, p: ChangeParams, r: Reads): Option<Prepared> {
    match h
    case CreateResource => PrepareCreate(cfg, p, r)
    case PatchResource =>
      if !HasPatch(p) then None
      else
        (match TypeOf(cfg, p.kind, p.apiVersion, r.discovery)
         case None => None
         case Some(gvr) =>
           var ops := p.patch.value.ops;
           Some(Prepared(PatchOperation(p, ops), Patch(p.cluster, p.namespace, gvr, p.name, PatchList(ops)),
                         "", cfg.autoWrite)))
    case DeleteResource =>
      (match TypeOf(cfg, p.kind, p.apiVersion, r.discovery)
       case None => None
       case Some(gvr) =>
         Some(Prepared(DeleteOperation(p), Delete(p.cluster, p.namespace, gvr, p.name), p.name, false)))
    case ExecInPod =>
      if !cfg.enableExec || p.command.GetOr([]) == [] then None
      else
        var command := p.command.GetOr([]);
        Some(Prepared(ExecOperation(p, command),
                      Exec(p.cluster, p.namespace, p.name, p.container, command), "", false))
    case ScalePool =>
      if Text.Lower(p.cluster) == LOCAL_CLUSTER then None
      else
        (match ScaleDoc(p, r)
         case None => None
         case Some(doc) =>
           Some(Prepared(ScaleOperation(p, doc),
                         Patch(LOCAL_CLUSTER, ScaleNamespace(p.namespace), CLUSTER_GVR, p.cluster, doc),
                         "", cfg.autoWrite)))
    case MoveNs =>
      if !CanMove(r) then None
      else Some(Prepared(MoveOperation(p, r.clusterId.value, r.projectId.value), Moved(p, r), "", cfg.autoWrite))
    case _ =>
      (match BuiltObject(cfg, h, p, r.fullVersion)
       case None => None
       case Some(json) => Some(Prepared(BuiltOperation(h, p, json), BuiltChange(h, p, json), "", cfg.autoWrite)))
  }

  function PrepareCreate(cfg: Config, p: ChangeParams, r: Reads): Option<Prepared> {
    match CreateOperation(p)
    case None => None
    case Some(op) =>
      var fields := p.manifest.fields;
      match TypeIn(cfg, op.kind, ManifestVersion(fields), r.discovery)
      case None => None
      case Some(gvr) => Some(Prepared(op, Create(p.cluster, op.namespace, gvr, Object(fields)), "", cfg.autoWrite))
  }

  /** Some snapshot serves the kind in that group and version under that name. */
  ghost predicate SomeName(cfg: Config, kind: string, gv: GroupVersion, resource: string) {
    exists lists :: cfg.named(kind, gv, lists) == Some(resource)
  }

  /** Some apiVersion and snapshot resolve the kind to that type. */
  ghost predicate SomeType(cfg: Config, kind: string, gvr: Gvr) {
    exists apiVersion, lists :: TypeOf(cfg, kind, apiVersion, lists) == Some(gvr)
  }

  /** A change does what its operation says: whatever the operation binds is what the
      change carries. */
  ghost predicate Describes(cfg: Config, op: Operation, change: Change) {
    match change
    case Create(cluster, namespace, gvr, json) =>
      op.payload == Json(Document(json)) && DescribesCreate(cfg, op, cluster, namespace, gvr, json)
    case Post(path, json) =>
      op.tool == CreateImportedCluster && op.payload == Json(Document(json)) && path == CLUSTERS_PATH
    case Patch(cluster, namespace, gvr, name, doc) =>
      op.payload == Json(doc) && op.namespace == namespace &&
      (if op.tool == ScalePool then cluster == LOCAL_CLUSTER && op.cluster == name && gvr == CLUSTER_GVR
       else op.tool == PatchResource && op.cluster == cluster && op.name == name && SomeType(cfg, op.kind, gvr))
    case Delete(cluster, namespace, gvr, name) =>
      op.tool == DeleteResource && op.cluster == cluster && op.namespace == namespace &&
      op.name == name && op.payload == NO_PAYLOAD && SomeType(cfg, op.kind, gvr)
    case Exec(cluster, namespace, pod, _, command) =>
      op.tool == ExecInPod && op.cluster == cluster && op.namespace == namespace && op.name == pod &&
      command != [] && op.payload == Raw(ExecPod.Join(command))
    case UpdateNamespace(cluster, name, labels, annotations, _) =>
      op.tool == MoveNs && op.name == name && PROJECT_TAG in labels && PROJECT_TAG in annotations &&
      op.payload == Json(MoveIds(cluster, name, labels[PROJECT_TAG])) &&
      annotations[PROJECT_TAG] == cluster + ":" + labels[PROJECT_TAG]
  }

  /** Where a creation goes. A generic one has the group and version of its manifest. */
  ghost predicate DescribesCreate(cfg: Config, op: Operation, cluster: string, namespace: string, gvr: Gvr,
                                  json: Json) {
    match op.tool
    case CreateResource =>
      cluster == op.cluster && namespace == op.namespace && json.Object? && TypedAs(cfg, op.kind, json.fields, gvr)
    case CreateProject => cluster == LOCAL_CLUSTER && namespace == op.cluster && gvr == PROJECT_GVR
    case CreateCustomCluster => cluster == op.cluster && namespace == op.namespace && gvr == CLUSTER_GVR
    case CreateK3kCluster => cluster == op.cluster && namespace == op.namespace && gvr == K3K_GVR
    case _ => false
  }

  ghost predicate TypedAs(cfg: Config, kind: string, fields: Fields, gvr: Gvr) {
    GroupVersion(gvr.group, gvr.version) == ManifestVersion(fields) &&
    SomeName(cfg, kind, ManifestVersion(fields), gvr.resource)
  }

  lemma PreparedDescribes(cfg: Config, h: Tool, p: ChangeParams, r: Reads)
    requires Prepare(cfg, h, p, r).Some?
    ensures var prep := Prepare(cfg, h, p, r).value;
      && prep.op.tool == h && Describes(cfg, prep.op, prep.change)
      && (prep.change.Delete? ==> h == DeleteResource && prep.typedName == prep.change.name && !prep.bypass)
      && (prep.change.Exec? ==> cfg.enableExec && !prep.bypass)
      && (prep.bypass ==> cfg.autoWrite)
      && prep.change.Target() == (if h == MoveNs then r.clusterId.GetOr("") else ClusterNamed(h, p))
      && (h == MoveNs ==> r.clusterId.Some?)
  {
  }

  /** What a change carries that its operation does not bind: the cluster the request is
      sent to in the end, and of each kind of change its own part. */
  datatype Loose = Loose(landed: string, part: LoosePart)

  datatype LoosePart =
    | Bound
    | ResourceName(resource: string)
    | ResourceType(gvr: Gvr)
    | Process(container: string, command: seq<string>)
    | RestOfNamespace(labels: Tags, annotations: Tags, rest: string)

  function LooseOf(op: Operation, change: Change): LoosePart {
    match change
    case Create(_, _, gvr, _) => if op.tool == CreateResource then ResourceName(gvr.resource) else Bound
    case Post(_, _) => Bound
    case Patch(_, _, gvr, _, _) => if op.tool == PatchResource then ResourceType(gvr) else Bound
    case Delete(_, _, gvr, _) => ResourceType(gvr)
    case Exec(_, _, _, container, command) => Process(container, command)
    case UpdateNamespace(_, _, labels, annotations, rest) =>
      RestOfNamespace(labels - {PROJECT_TAG}, annotations - {PROJECT_TAG}, rest)
  }

  /** Two changes of one operation are equal, and reach the same cluster, exactly when
      their unbound parts are equal. */
  lemma OperationFixesTheRest(cfg: Config, op: Operation, a: Change, landedA: string, b: Change, landedB: string)
    requires Describes(cfg, op, a) && Describes(cfg, op, b)
    ensures (a == b && landedA == landedB) <==> Loose(landedA, LooseOf(op, a)) == Loose(landedB, LooseOf(op, b))
  {
    if a.UpdateNamespace? && b.UpdateNamespace? && LooseOf(op, a) == LooseOf(op, b) {
      SameTags(a.labels, b.labels);
      SameTags(a.annotations, b.annotations);
    }
  }

  lemma SameTags(a: Tags, b: Tags)
    requires PROJECT_TAG in a && PROJECT_TAG in b && a[PROJECT_TAG] == b[PROJECT_TAG]
    requires a - {PROJECT_TAG} == b - {PROJECT_TAG}
    ensures a == b
  {
    forall k
      ensures k in a <==> k in b
      ensures k in a && k in b ==> a[k] == b[k]
    {
      if k != PROJECT_TAG {
        assert k in a <==> k in a - {PROJECT_TAG};
        assert k in b <==> k in b - {PROJECT_TAG};
      }
    }
  }

  /** The parameters and reads that go into the operation, as planned by `p` and `r` and
      as executed by `q` and `t`. The apiVersion, the container, the discovery snapshot,
      the cluster the name resolves to and the rest of a namespace are not among them. */
  predicate SameBoundParts(cfg: Config, h: Tool, p: ChangeParams, r: Reads, q: ChangeParams, t: Reads) {
    match h
    case CreateResource =>
      q.cluster == p.cluster && p.manifest.Parsed? && q.manifest == p.manifest &&
      ManifestNamespace(q, p.manifest.fields) == ManifestNamespace(p, p.manifest.fields)
    case PatchResource =>
      q.cluster == p.cluster && q.namespace == p.namespace && q.kind == p.kind && q.name == p.name && q.patch == p.patch
    case DeleteResource =>
      q.cluster == p.cluster && q.namespace == p.namespace && q.kind == p.kind && q.name == p.name
    case ExecInPod =>
      q.cluster == p.cluster && q.namespace == p.namespace && q.name == p.name &&
      ExecPod.Join(q.command.GetOr([])) == ExecPod.Join(p.command.GetOr([]))
    case ScalePool =>
      q.cluster == p.cluster && ScaleNamespace(q.namespace) == ScaleNamespace(p.namespace) &&
      q.nodePoolName == p.nodePoolName && ScaleDoc(q, t) == ScaleDoc(p, r)
    case MoveNs =>
      q.cluster == p.cluster && q.namespace == p.namespace && t.clusterId == r.clusterId && t.projectId == r.projectId
    case CreateProject => q.cluster == p.cluster && SameObject(cfg, h, p, r, q, t)
    case CreateK3kCluster =>
      q.targetCluster == p.targetCluster && q.namespace == p.namespace && SameObject(cfg, h, p, r, q, t)
    case _ => SameObject(cfg, h, p, r, q, t)
  }

  predicate SameObject(cfg: Config, h: Tool, p: ChangeParams, r: Reads, q: ChangeParams, t: Reads) {
    q.name == p.name && BuiltObject(cfg, h, q, t.fullVersion) == BuiltObject(cfg, h, p, r.fullVersion)
  }

  /** Exactly which execute calls prepare the planned operation. */
  lemma SameOperationIff(cfg: Config, h: Tool, p: ChangeParams, r: Reads, g: Tool, q: ChangeParams, t: Reads)
    requires Plan(cfg, h, p, r).Some? && Prepare(cfg, g, q, t).Some?
    ensures Prepare(cfg, g, q, t).value.op == Plan(cfg, h, p, r).value <==>
      g == h && SameBoundParts(cfg, h, p, r, q, t)
  {
    if g == h {
      SameToolOperation(cfg, h, p, r, q, t);
    }
  }

  lemma SameToolOperation(cfg: Config, h: Tool, p: ChangeParams, r: Reads, q: ChangeParams, t: Reads)
    requires Plan(cfg, h, p, r).Some? && Prepare(cfg, h, q, t).Some?
    ensures Prepare(cfg, h, q, t).value.op == Plan(cfg, h, p, r).value <==> SameBoundParts(cfg, h, p, r, q, t)
  {
  }

  /** What an execute call may differ in from the plan it executes. */
  predicate MayDiffer(h: Tool, p: ChangeParams, q: ChangeParams) {
    match h
    case PatchResource => q == p.(apiVersion := q.apiVersion)
    case DeleteResource => q == p.(apiVersion := q.apiVersion)
    case ExecInPod => q == p.(container := q.container, command := q.command) && q.command.Some?
    case _ => q == p
  }

  ghost predicate Prepares(cfg: Config, h: Tool, q: ChangeParams, t: Reads, op: Operation, change: Change) {
    Prepare(cfg, h, q, t).Some? && Prepare(cfg, h, q, t).value.op == op && Prepare(cfg, h, q, t).value.change == change
  }

  /** Every change a planned operation describes is one that some execute call prepares
      for it, with an apiVersion, a snapshot, a process or a namespace of its own. */
  lemma DescribedIsPrepared(cfg: Config, h: Tool, p: ChangeParams, r: Reads, change: Change)
    returns (q: ChangeParams, t: Reads)
    requires Plan(cfg, h, p, r).Some? && Describes(cfg, Plan(cfg, h, p, r).value, change)
    requires h == ScalePool ==> Text.Lower(p.cluster) != LOCAL_CLUSTER
    ensures MayDiffer(h, p, q) && Prepares(cfg, h, q, t, Plan(cfg, h, p, r).value, change)
    ensures t.clusterId == r.clusterId
  {
    match h
    case CreateResource => q, t := CreateIsPrepared(cfg, p, r, change);
    case PatchResource => q, t := PatchIsPrepared(cfg, p, r, change);
    case DeleteResource => q, t := DeleteIsPrepared(cfg, p, r, change);
    case ExecInPod =>
      q, t := p.(container := change.container, command := Some(change.command)), r;
    case MoveNs => q, t := MoveIsPrepared(cfg, p, r, change);
    case _ => q, t := p, r;
  }

  lemma CreateIsPrepared(cfg: Config, p: ChangeParams, r: Reads, change: Change) returns (q: ChangeParams, t: Reads)
    requires CreateOperation(p).Some? && Describes(cfg, CreateOperation(p).value, change)
    ensures q == p && t.clusterId == r.clusterId
    ensures Prepares(cfg, CreateResource, q, t, CreateOperation(p).value, change)
  {
    var op := CreateOperation(p).value;
    var gv := ManifestVersion(p.manifest.fields);
    var lists :| cfg.named(op.kind, gv, lists) == Some(change.gvr.resource);
    q, t := p, r.(discovery := lists);
    assert TypeIn(cfg, op.kind, gv, lists) == Some(change.gvr);
  }

  lemma PatchIsPrepared(cfg: Config, p: ChangeParams, r: Reads, change: Change) returns (q: ChangeParams, t: Reads)
    requires HasPatch(p) && Describes(cfg, PatchOperation(p, p.patch.value.ops), change)
    ensures MayDiffer(PatchResource, p, q) && t.clusterId == r.clusterId
    ensures Prepares(cfg, PatchResource, q, t, PatchOperation(p, p.patch.value.ops), change)
  {
    var apiVersion, lists :| TypeOf(cfg, p.kind, apiVersion, lists) == Some(change.gvr);
    q, t := p.(apiVersion := apiVersion), r.(discovery := lists);
  }

  lemma DeleteIsPrepared(cfg: Config, p: ChangeParams, r: Reads, change: Change) returns (q: ChangeParams, t: Reads)
    requires Describes(cfg, DeleteOperation(p), change)
    ensures MayDiffer(DeleteResource, p, q) && t.clusterId == r.clusterId
    ensures Prepares(cfg, DeleteResource, q, t, DeleteOperation(p), change)
  {
    var apiVersion, lists :| TypeOf(cfg, p.kind, apiVersion, lists) == Some(change.gvr);
    q, t := p.(apiVersion := apiVersion), r.(discovery := lists);
  }

  lemma MoveIsPrepared(cfg: Config, p: ChangeParams, r: Reads, change: Change) returns (q: ChangeParams, t: Reads)
    requires CanMove(r) && Describes(cfg, MoveOperation(p, r.clusterId.value, r.projectId.value), change)
    ensures q == p && t.clusterId == r.clusterId
    ensures Prepares(cfg, MoveNs, q, t, MoveOperation(p, r.clusterId.value, r.projectId.value), change)
  {
    var labels, annotations := change.labels, change.annotations;
    q, t := p, r.(namespace := Some(NamespaceRead(Some(labels), Some(annotations), change.rest)));
    assert labels[PROJECT_TAG := labels[PROJECT_TAG]] == labels;
    assert annotations[PROJECT_TAG := annotations[PROJECT_TAG]] == annotations;
  }

  /** Plan and execute build the same operation from the same parameters and reads. */
  lemma PlanAndExecuteAgree(cfg: Config, h: Tool, p: ChangeParams, r: Reads)
    requires Plan(cfg, h, p, r).Some? && Prepare(cfg, h, p, r).Some?
    ensures Plan(cfg, h, p, r).value == Prepare(cfg, h, p, r).value.op
  {
  }
}
