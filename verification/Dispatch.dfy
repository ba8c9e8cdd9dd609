/** The dispatch tables of planChange and executeChange. */
module Dispatch {
  import opened Wrappers
  import opened Confirm
  import opened JsonValue
  import opened Operations

  /** A manifest parameter: absent, not a YAML or JSON object, or its fields. */
  datatype ManifestText = NoManifest | Unparsable | Parsed(fields: Fields)

  /** A patch parameter that was sent: not a list of operations, or that list. */
  datatype PatchText = Undecodable | Ops(ops: string)

  datatype Limits = Limits(cpu: string, memory: string)

  datatype ProjectOptions = ProjectOptions(
    displayName: string, cpuLimit: int, cpuReservation: int, memoryLimit: int, memoryReservation: int)

  datatype K3kOptions = K3kOptions(
    mode: string, servers: int, agents: int, syncIngresses: bool, syncPriorityClasses: bool,
    serverLimit: Limits, workerLimit: Limits,
    persistenceType: string, storageClassName: string, storageRequest: string)

  /** Parameters of the two change tools. A list or raw-JSON parameter that was not
      sent is None, Go's nil. */
  datatype ChangeParams = ChangeParams(
    operation: string, cluster: string, namespace: string, name: string, confirmationToken: Wire,
    kind: string, apiVersion: string, manifest: ManifestText, patch: Option<PatchText>,
    project: string, nodePoolName: string, desiredSize: int, amountToAdd: int, amountToSubtract: int,
    container: string, command: Option<seq<string>>,
    cni: string, version: string, distribution: string, targetCluster: string,
    description: string, versionManagementSetting: string, projectOptions: ProjectOptions, k3k: K3kOptions)

  /** Whether the field of that JSON name holds its zero value; None for a name
      that no field carries. */
  function IsZero(p: ChangeParams, name: string): Option<bool> {
    match name
    case "operation" => Some(p.operation == "")
    case "cluster" => Some(p.cluster == "")
    case "namespace" => Some(p.namespace == "")
    case "name" => Some(p.name == "")
    case "kind" => Some(p.kind == "")
    case "apiVersion" => Some(p.apiVersion == "")
    case "manifest" => Some(p.manifest.NoManifest?)
    case "patch" => Some(p.patch.None?)
    case "project" => Some(p.project == "")
    case "nodePoolName" => Some(p.nodePoolName == "")
    case "desiredSize" => Some(p.desiredSize == 0)
    case "amountToAdd" => Some(p.amountToAdd == 0)
    case "amountToSubtract" => Some(p.amountToSubtract == 0)
    case "container" => Some(p.container == "")
    case "command" => Some(p.command.None?)
    case "CNI" => Some(p.cni == "")
    case "version" => Some(p.version == "")
    case "distribution" => Some(p.distribution == "")
    case "targetCluster" => Some(p.targetCluster == "")
    case _ => None
  }

  datatype Validation = Valid | UnknownField(name: string) | MissingFields(names: seq<string>)

  /** The first required name that no field carries, if any. */
  function FirstUnknown(p: ChangeParams, required: seq<string>): Option<string> {
    if required == [] then None
    else if IsZero(p, required[0]).None? then Some(required[0])
    else FirstUnknown(p, required[1..])
  }

  function ZeroFields(p: ChangeParams, required: seq<string>): seq<string> {
    if required == [] then []
    else
      var last := required[|required| - 1];
      ZeroFields(p, required[..|required| - 1]) + if IsZero(p, last) == Some(true) then [last] else []
  }

  method Validate(p: ChangeParams, required: seq<string>) returns (r: Validation)
    ensures r == ValidateSpec(p, required)
  {
    if |required| == 0 {
      return Valid;
    }
    var missing: seq<string> := [];
    for i := 0 to |required|
      invariant FirstUnknown(p, required) == FirstUnknown(p, required[i..])
      invariant missing == ZeroFields(p, required[..i])
    {
      var zero := IsZero(p, required[i]);
      assert required[..i + 1][..i] == required[..i];
      assert required[i..][1..] == required[i + 1..];
      if zero.None? {
        return UnknownField(required[i]);
      }
      if zero.value {
        missing := missing + [required[i]];
      }
    }
    assert required[..|required|] == required;
    r := if |missing| > 0 then MissingFields(missing) else Valid;
  }

  function ValidateSpec(p: ChangeParams, required: seq<string>): Validation {
    match FirstUnknown(p, required)
    case Some(name) => UnknownField(name)
    case None => if ZeroFields(p, required) == [] then Valid else MissingFields(ZeroFields(p, required))
  }

  /** Validation passes exactly when every required field is known and set. */
  lemma {:induction false} ValidMeansSet(p: ChangeParams, required: seq<string>)
    ensures ValidateSpec(p, required) == Valid <==> forall name :: name in required ==> IsZero(p, name) == Some(false)
  {
    NoUnknown(p, required);
    NoZero(p, required);
    if FirstUnknown(p, required).None? && ZeroFields(p, required) == [] {
      forall name | name in required
        ensures IsZero(p, name) == Some(false)
      {
        assert IsZero(p, name).Some?;
      }
    }
  }

  lemma {:induction false} NoUnknown(p: ChangeParams, required: seq<string>)
    ensures FirstUnknown(p, required).None? <==> forall name :: name in required ==> IsZero(p, name).Some?
  {
    if required != [] {
      assert required == [required[0]] + required[1..];
      NoUnknown(p, required[1..]);
    }
  }

  lemma {:induction false} NoZero(p: ChangeParams, required: seq<string>)
    ensures ZeroFields(p, required) == [] <==> forall name :: name in required ==> IsZero(p, name) != Some(true)
  {
    if required != [] {
      var front := required[..|required| - 1];
      assert required == front + [required[|required| - 1]];
      NoZero(p, front);
    }
  }

  datatype Case = Case(required: seq<string>, handler: Tool)

  type Cases = map<string, Case>

  /** MergeMaps: the union, or None where the source panics on a repeated key. */
  function Merge(maps: seq<Cases>): Option<Cases> {
    if maps == [] then Some(map[])
    else
      var m := maps[|maps| - 1];
      match Merge(maps[..|maps| - 1])
      case None => None
      case Some(out) => if out.Keys * m.Keys != {} then None else Some(out + m)
  }

  method MergeMaps(maps: seq<Cases>) returns (r: Option<Cases>)
    ensures r == Merge(maps)
  {
    var out: Cases := map[];
    for i := 0 to |maps|
      invariant Merge(maps[..i]) == Some(out)
    {
      var m := maps[i];
      assert maps[..i + 1][..i] == maps[..i];
      ghost var before := out;
      var todo := m.Keys;
      while todo != {}
        invariant todo <= m.Keys
        invariant before.Keys !! (m.Keys - todo)
        invariant out.Keys == before.Keys + (m.Keys - todo)
        invariant forall k :: k in before ==> out[k] == before[k]
        invariant forall k :: k in m && k !in todo ==> out[k] == m[k]
        decreases todo
      {
        var k :| k in todo;
        if k in out {
          assert k in before.Keys * m.Keys;
          MergeFails(maps, i + 1);
          return None;
        }
        out := out[k := m[k]];
        todo := todo - {k};
      }
      assert out == before + m;
    }
    assert maps[..|maps|] == maps;
    r := Some(out);
  }

  lemma {:induction false} MergeFails(maps: seq<Cases>, n: nat)
    requires n <= |maps| && Merge(maps[..n]).None?
    ensures Merge(maps).None?
    decreases |maps| - n
  {
    if n == |maps| {
      assert maps[..n] == maps;
    } else {
      assert maps[..n + 1][..n] == maps[..n];
      MergeFails(maps, n + 1);
    }
  }

  predicate Disjoint(maps: seq<Cases>) { forall i, j :: 0 <= i < j < |maps| ==> maps[i].Keys !! maps[j].Keys }

  /** A successful merge keeps every case, and has no others. */
  lemma {:induction false} MergeKeepsCases(maps: seq<Cases>, k: string)
    requires Merge(maps).Some?
    ensures k in Merge(maps).value <==> exists i :: 0 <= i < |maps| && k in maps[i]
    ensures forall i :: 0 <= i < |maps| && k in maps[i] ==> k in Merge(maps).value && Merge(maps).value[k] == maps[i][k]
  {
    if maps != [] {
      var last := |maps| - 1;
      var front := maps[..last];
      MergeKeepsCases(front, k);
      assert forall i :: 0 <= i < last ==> front[i] == maps[i];
      var out := Merge(front).value;
      assert out.Keys * maps[last].Keys == {};
      if k in out {
        assert k !in out.Keys * maps[last].Keys;
        var i :| 0 <= i < last && k in front[i];
        assert k in maps[i];
      }
    }
  }

  /** The merge succeeds exactly when no key appears twice. */
  lemma {:induction false} MergeIffDisjoint(maps: seq<Cases>)
    ensures Merge(maps).Some? <==> Disjoint(maps)
  {
    if maps != [] {
      var last := |maps| - 1;
      var front := maps[..last];
      MergeIffDisjoint(front);
      assert forall i :: 0 <= i < last ==> front[i] == maps[i];
      if Merge(front).Some? {
        var out := Merge(front).value;
        if k :| k in out.Keys * maps[last].Keys {
          MergeKeepsCases(front, k);
          var i :| 0 <= i < last && k in front[i];
          assert !(maps[i].Keys !! maps[last].Keys);
        } else {
          forall i | 0 <= i < last
            ensures maps[i].Keys !! maps[last].Keys
          {
            forall k | k in front[i] && k in maps[last]
              ensures k in out.Keys * maps[last].Keys
            {
              MergeKeepsCases(front, k);
            }
          }
        }
      }
    }
  }

  const CORE_CASES: Cases := map[
    "createKubernetesResource" := Case(["cluster", "kind", "name", "manifest"], CreateResource),
    "patchKubernetesResource" := Case(["cluster", "kind", "name", "patch"], PatchResource),
    "deleteKubernetesResource" := Case(["cluster", "kind", "name"], DeleteResource),
    "execPod" := Case(["cluster", "namespace", "name", "command"], ExecInPod)]

  const PROJECT_CASES: Cases := map[
    "createProject" := Case(["cluster", "name"], CreateProject),
    "moveNamespace" := Case(["cluster", "namespace", "project"], MoveNs)]

  const PROVISIONING_CASES: Cases := map[
    "createCustomCluster" := Case(["name", "CNI", "version", "distribution"], CreateCustomCluster),
    "createImportedCluster" := Case(["name"], CreateImportedCluster),
    "createK3kCluster" := Case(["name", "namespace", "targetCluster"], CreateK3kCluster),
    "scaleClusterNodePool" := Case(["cluster", "namespace", "nodePoolName"], ScalePool)]

  const CHANGE_CASES: Cases := CORE_CASES + PROJECT_CASES + PROVISIONING_CASES

  /** The two levels of the table, the core toolset's and the server's, are each built
      without a repeated key. */
  lemma TableMerges()
    ensures Merge([CORE_CASES, PROJECT_CASES]) == Some(CORE_CASES + PROJECT_CASES)
    ensures Merge([CORE_CASES + PROJECT_CASES, PROVISIONING_CASES]) == Some(CHANGE_CASES)
  {
    MergePair(CORE_CASES, PROJECT_CASES);
    CoreAndProvisioningDisjoint();
    MergePair(CORE_CASES + PROJECT_CASES, PROVISIONING_CASES);
  }

  lemma CoreAndProvisioningDisjoint()
    ensures (CORE_CASES + PROJECT_CASES).Keys !! PROVISIONING_CASES.Keys
  {
    assert CORE_CASES.Keys !! PROVISIONING_CASES.Keys;
    assert PROJECT_CASES.Keys !! PROVISIONING_CASES.Keys;
  }

  lemma MergePair(m: Cases, n: Cases)
    requires m.Keys !! n.Keys
    ensures Merge([m, n]) == Some(m + n)
  {
    MergeSnoc([], m);
    assert [] + [m] == [m] && map[] + m == m;
    MergeSnoc([m], n);
    assert [m] + [n] == [m, n];
  }

  lemma MergeSnoc(maps: seq<Cases>, m: Cases)
    requires Merge(maps).Some? && Merge(maps).value.Keys !! m.Keys
    ensures Merge(maps + [m]) == Some(Merge(maps).value + m)
  {
    assert (maps + [m])[..|maps|] == maps;
  }

  /** Dispatch: the case of the key, once its required fields are set. */
  function Lookup(p: ChangeParams): Option<Tool> {
    if p.operation !in CHANGE_CASES then None
    else
      var c := CHANGE_CASES[p.operation];
      if ValidateSpec(p, c.required) == Valid then Some(c.handler) else None
  }

  /** What a request for an operation is: its name, and every field it needs set. */
  predicate Requests(p: ChangeParams, h: Tool) {
    match h
    case CreateResource =>
      p.operation == "createKubernetesResource" &&
      p.cluster != "" && p.kind != "" && p.name != "" && p.manifest != NoManifest
    case PatchResource =>
      p.operation == "patchKubernetesResource" && p.cluster != "" && p.kind != "" && p.name != "" && p.patch != None
    case DeleteResource =>
      p.operation == "deleteKubernetesResource" && p.cluster != "" && p.kind != "" && p.name != ""
    case ExecInPod =>
      p.operation == "execPod" && p.cluster != "" && p.namespace != "" && p.name != "" && p.command != None
    case ScalePool =>
      p.operation == "scaleClusterNodePool" && p.cluster != "" && p.namespace != "" && p.nodePoolName != ""
    case MoveNs => p.operation == "moveNamespace" && p.cluster != "" && p.namespace != "" && p.project != ""
    case CreateProject => p.operation == "createProject" && p.cluster != "" && p.name != ""
    case CreateCustomCluster =>
      p.operation == "createCustomCluster" && p.name != "" && p.cni != "" && p.version != "" && p.distribution != ""
    case CreateImportedCluster => p.operation == "createImportedCluster" && p.name != ""
    case CreateK3kCluster =>
      p.operation == "createK3kCluster" && p.name != "" && p.namespace != "" && p.targetCluster != ""
  }

  function OperationName(h: Tool): string {
    match h
    case CreateResource => "createKubernetesResource"
    case PatchResource => "patchKubernetesResource"
    case DeleteResource => "deleteKubernetesResource"
    case ExecInPod => "execPod"
    case ScalePool => "scaleClusterNodePool"
    case MoveNs => "moveNamespace"
    case CreateProject => "createProject"
    case CreateCustomCluster => "createCustomCluster"
    case CreateImportedCluster => "createImportedCluster"
    case CreateK3kCluster => "createK3kCluster"
  }

  /** The table has one case for each operation, under its name, and no others. */
  lemma CaseOfHandler(operation: string, h: Tool)
    requires operation in CHANGE_CASES && CHANGE_CASES[operation].handler == h
    ensures operation == OperationName(h)
  {
    if operation in PROVISIONING_CASES {
      ProvisioningCase(operation, h);
    } else if operation in PROJECT_CASES {
      ProjectCase(operation, h);
    } else {
      CoreCase(operation, h);
    }
  }

  lemma CoreCase(operation: string, h: Tool)
    requires operation in CORE_CASES && CORE_CASES[operation].handler == h
    ensures operation == OperationName(h)
  {
  }

  lemma ProjectCase(operation: string, h: Tool)
    requires operation in PROJECT_CASES && PROJECT_CASES[operation].handler == h
    ensures operation == OperationName(h)
  {
  }

  lemma ProvisioningCase(operation: string, h: Tool)
    requires operation in PROVISIONING_CASES && PROVISIONING_CASES[operation].handler == h
    ensures operation == OperationName(h)
  {
  }

  lemma ChangeCase(operation: string)
    requires operation in CORE_CASES || operation in PROJECT_CASES || operation in PROVISIONING_CASES
    ensures operation in CHANGE_CASES
    ensures operation in PROVISIONING_CASES ==> CHANGE_CASES[operation] == PROVISIONING_CASES[operation]
    ensures operation in PROJECT_CASES ==> CHANGE_CASES[operation] == PROJECT_CASES[operation]
    ensures operation in CORE_CASES ==> CHANGE_CASES[operation] == CORE_CASES[operation]
  {
    CoreAndProvisioningDisjoint();
    assert operation !in CORE_CASES.Keys * PROJECT_CASES.Keys;
    assert operation !in (CORE_CASES + PROJECT_CASES).Keys * PROVISIONING_CASES.Keys;
  }

  lemma OneSet(p: ChangeParams, a: string)
    ensures ValidateSpec(p, [a]) == Valid <==> IsZero(p, a) == Some(false)
  {
    ValidMeansSet(p, [a]);
    assert a in [a];
  }

  lemma TwoSet(p: ChangeParams, a: string, b: string)
    ensures ValidateSpec(p, [a, b]) == Valid <==> IsZero(p, a) == Some(false) && IsZero(p, b) == Some(false)
  {
    ValidMeansSet(p, [a, b]);
    assert a in [a, b] && b in [a, b];
  }

  lemma ThreeSet(p: ChangeParams, a: string, b: string, c: string)
    ensures ValidateSpec(p, [a, b, c]) == Valid <==>
      IsZero(p, a) == Some(false) && IsZero(p, b) == Some(false) && IsZero(p, c) == Some(false)
  {
    ValidMeansSet(p, [a, b, c]);
    assert a in [a, b, c] && b in [a, b, c] && c in [a, b, c];
  }

  lemma FourSet(p: ChangeParams, a: string, b: string, c: string, d: string)
    ensures ValidateSpec(p, [a, b, c, d]) == Valid <==>
      IsZero(p, a) == Some(false) && IsZero(p, b) == Some(false) &&
      IsZero(p, c) == Some(false) && IsZero(p, d) == Some(false)
  {
    ValidMeansSet(p, [a, b, c, d]);
    assert a in [a, b, c, d] && b in [a, b, c, d] && c in [a, b, c, d] && d in [a, b, c, d];
  }

  lemma CreateRequests(p: ChangeParams)
    requires p.operation == "createKubernetesResource"
    ensures p.operation in CORE_CASES && CORE_CASES[p.operation].handler == CreateResource
    ensures ValidateSpec(p, CORE_CASES[p.operation].required) == Valid <==> Requests(p, CreateResource)
  {
    FourSet(p, "cluster", "kind", "name", "manifest");
  }

  lemma PatchRequests(p: ChangeParams)
    requires p.operation == "patchKubernetesResource"
    ensures p.operation in CORE_CASES && CORE_CASES[p.operation].handler == PatchResource
    ensures ValidateSpec(p, CORE_CASES[p.operation].required) == Valid <==> Requests(p, PatchResource)
  {
    FourSet(p, "cluster", "kind", "name", "patch");
  }

  lemma DeleteRequests(p: ChangeParams)
    requires p.operation == "deleteKubernetesResource"
    ensures p.operation in CORE_CASES && CORE_CASES[p.operation].handler == DeleteResource
    ensures ValidateSpec(p, CORE_CASES[p.operation].required) == Valid <==> Requests(p, DeleteResource)
  {
    ThreeSet(p, "cluster", "kind", "name");
  }

  lemma ExecRequests(p: ChangeParams)
    requires p.operation == "execPod"
    ensures p.operation in CORE_CASES && CORE_CASES[p.operation].handler == ExecInPod
    ensures ValidateSpec(p, CORE_CASES[p.operation].required) == Valid <==> Requests(p, ExecInPod)
  {
    FourSet(p, "cluster", "namespace", "name", "command");
  }

  lemma ProjectRequests(p: ChangeParams)
    requires p.operation == "createProject"
    ensures p.operation in PROJECT_CASES && PROJECT_CASES[p.operation].handler == CreateProject
    ensures ValidateSpec(p, PROJECT_CASES[p.operation].required) == Valid <==> Requests(p, CreateProject)
  {
    TwoSet(p, "cluster", "name");
  }

  lemma MoveRequests(p: ChangeParams)
    requires p.operation == "moveNamespace"
    ensures p.operation in PROJECT_CASES && PROJECT_CASES[p.operation].handler == MoveNs
    ensures ValidateSpec(p, PROJECT_CASES[p.operation].required) == Valid <==> Requests(p, MoveNs)
  {
    ThreeSet(p, "cluster", "namespace", "project");
  }

  lemma CustomRequests(p: ChangeParams)
    requires p.operation == "createCustomCluster"
    ensures p.operation in PROVISIONING_CASES && PROVISIONING_CASES[p.operation].handler == CreateCustomCluster
    ensures ValidateSpec(p, PROVISIONING_CASES[p.operation].required) == Valid <==> Requests(p, CreateCustomCluster)
  {
    FourSet(p, "name", "CNI", "version", "distribution");
  }

  lemma ImportedRequests(p: ChangeParams)
    requires p.operation == "createImportedCluster"
    ensures p.operation in PROVISIONING_CASES && PROVISIONING_CASES[p.operation].handler == CreateImportedCluster
    ensures ValidateSpec(p, PROVISIONING_CASES[p.operation].required) == Valid <==> Requests(p, CreateImportedCluster)
  {
    OneSet(p, "name");
  }

  lemma K3kRequests(p: ChangeParams)
    requires p.operation == "createK3kCluster"
    ensures p.operation in PROVISIONING_CASES && PROVISIONING_CASES[p.operation].handler == CreateK3kCluster
    ensures ValidateSpec(p, PROVISIONING_CASES[p.operation].required) == Valid <==> Requests(p, CreateK3kCluster)
  {
    ThreeSet(p, "name", "namespace", "targetCluster");
  }

  lemma ScaleRequests(p: ChangeParams)
    requires p.operation == "scaleClusterNodePool"
    ensures p.operation in PROVISIONING_CASES && PROVISIONING_CASES[p.operation].handler == ScalePool
    ensures ValidateSpec(p, PROVISIONING_CASES[p.operation].required) == Valid <==> Requests(p, ScalePool)
  {
    ThreeSet(p, "cluster", "namespace", "nodePoolName");
  }

  lemma FieldsAreSet(p: ChangeParams, h: Tool)
    requires p.operation == OperationName(h)
    ensures Lookup(p) == Some(h) <==> Requests(p, h)
  {
    match h {
      case CreateResource => CreateRequests(p);
      case PatchResource => PatchRequests(p);
      case DeleteResource => DeleteRequests(p);
      case ExecInPod => ExecRequests(p);
      case ScalePool => ScaleRequests(p);
      case MoveNs => MoveRequests(p);
      case CreateProject => ProjectRequests(p);
      case CreateCustomCluster => CustomRequests(p);
      case CreateImportedCluster => ImportedRequests(p);
      case CreateK3kCluster => K3kRequests(p);
    }
    ChangeCase(p.operation);
  }

  /** A request reaches an operation exactly when it names it and every field it needs is
      set, for all ten of them. */
  lemma LookupIff(p: ChangeParams, h: Tool)
    ensures Lookup(p) == Some(h) <==> Requests(p, h)
  {
    if p.operation == OperationName(h) {
      FieldsAreSet(p, h);
    } else if p.operation in CHANGE_CASES && CHANGE_CASES[p.operation].handler == h {
      CaseOfHandler(p.operation, h);
      assert false;
    }
  }

  /** The missing fields of a list are those of its parts, in order. */
  lemma {:induction false} MissingOfParts(p: ChangeParams, a: seq<string>, b: seq<string>)
    ensures ZeroFields(p, a + b) == ZeroFields(p, a) + ZeroFields(p, b)
  {
    if b == [] {
      assert a + b == a;
    } else {
      var front := b[..|b| - 1];
      assert (a + b)[..|a + b| - 1] == a + front;
      MissingOfParts(p, a, front);
    }
  }

  /** What a refused request is told: the first name that no field carries; otherwise,
      one by one, the required names whose fields are not set. */
  lemma {:induction false} RefusalNames(p: ChangeParams, required: seq<string>, more: seq<string>, name: string)
    ensures ValidateSpec(p, required) == UnknownField(name) <==>
      exists i :: 0 <= i < |required| && required[i] == name && IsZero(p, name).None? &&
                  forall j :: 0 <= j < i ==> IsZero(p, required[j]).Some?
    ensures ZeroFields(p, [name]) == (if IsZero(p, name) == Some(true) then [name] else [])
    ensures ZeroFields(p, required + more) == ZeroFields(p, required) + ZeroFields(p, more)
  {
    FirstUnknownIsFirst(p, required, name);
    MissingOfParts(p, required, more);
    assert [name][..0] == [];
  }

  lemma {:induction false} FirstUnknownIsFirst(p: ChangeParams, required: seq<string>, name: string)
    ensures FirstUnknown(p, required) == Some(name) <==>
      exists i :: 0 <= i < |required| && required[i] == name && IsZero(p, name).None? &&
                  forall j :: 0 <= j < i ==> IsZero(p, required[j]).Some?
  {
    if required != [] && IsZero(p, required[0]).Some? {
      var rest := required[1..];
      FirstUnknownIsFirst(p, rest, name);
      if FirstUnknown(p, rest) == Some(name) {
        var i :| 0 <= i < |rest| && rest[i] == name && IsZero(p, name).None? &&
          forall j :: 0 <= j < i ==> IsZero(p, rest[j]).Some?;
        assert forall j :: 0 < j < i + 1 ==> required[j] == rest[j - 1];
        assert required[i + 1] == name;
      }
      if i :| 0 <= i < |required| && required[i] == name && IsZero(p, name).None? &&
              forall j :: 0 <= j < i ==> IsZero(p, required[j]).Some? {
        assert i > 0 && rest[i - 1] == name;
        assert forall j :: 0 <= j < i - 1 ==> rest[j] == required[j + 1];
      }
    }
  }

  /** The names that no operation requires read their own fields, too. */
  lemma OtherNamesReadTheirFields(p: ChangeParams, text: string, n: int, name: string)
    ensures IsZero(p.(apiVersion := text), name) == if name == "apiVersion" then Some(text == "") else IsZero(p, name)
    ensures IsZero(p.(container := text), name) == if name == "container" then Some(text == "") else IsZero(p, name)
    ensures IsZero(p.(desiredSize := n), name) == if name == "desiredSize" then Some(n == 0) else IsZero(p, name)
    ensures IsZero(p.(amountToAdd := n), name) == if name == "amountToAdd" then Some(n == 0) else IsZero(p, name)
    ensures IsZero(p.(amountToSubtract := n), name) ==
      if name == "amountToSubtract" then Some(n == 0) else IsZero(p, name)
  {
  }

  /** A dispatched deletion names its object. */
  lemma DispatchedDeleteIsNamed(p: ChangeParams)
    requires Lookup(p) == Some(DeleteResource)
    ensures p.operation == "deleteKubernetesResource" && p.cluster != "" && p.kind != "" && p.name != ""
  {
    LookupIff(p, DeleteResource);
  }
}
