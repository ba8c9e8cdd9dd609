/** The objects the create tools build of their own parameters, and which parameters
    they, and so the tokens that hash them, bind. */
module BuiltObjects {
  import opened Wrappers
  import opened Dispatch
  import opened JsonValue
  import opened Operations
  import Text

  function Digit(n: nat): char
    requires n < 10
  {
    '0' + n as char
  }

  function Decimal(n: int): string
    decreases if n < 0 then 1 - n else n
  {
    if n < 0 then "-" + Decimal(-n)
    else if n < 10 then [Digit(n)]
    else Decimal(n / 10) + [Digit(n % 10)]
  }

  /** One assignment to a field of an object under construction, made or not. */
  datatype Entry = Entry(key: string, value: Option<Json>)

  function Assigned(entries: seq<Entry>): Fields {
    if entries == [] then map[]
    else
      var last := entries[|entries| - 1];
      var front := Assigned(entries[..|entries| - 1]);
      if last.value.Some? then front[last.key := last.value.value] else front
  }

  function Always(key: string, value: Json): Entry { Entry(key, Some(value)) }

  /** Set unless empty. */
  function Filled(key: string, text: string): Entry { Entry(key, if text == "" then None else Some(String(text))) }

  function Amount(key: string, n: int, unit: string): Entry {
    Entry(key, if n == 0 then None else Some(String(Decimal(n) + unit)))
  }

  function Count(key: string, n: int): Entry { Entry(key, if n > 0 then Some(Number(Decimal(n))) else None) }

  function Enabled(key: string, on: bool): Entry {
    Entry(key, if on then Some(Object(map["enabled" := Bool(true)])) else None)
  }

  /** The object of these entries, unless it would have no fields. */
  function Nested(key: string, entries: seq<Entry>): Entry {
    Entry(key, if Assigned(entries) == map[] then None else Some(Object(Assigned(entries))))
  }

  /** A Kubernetes object. */
  function TopLevel(kind: string, apiVersion: string, metadata: seq<Entry>, spec: seq<Entry>): seq<Entry> {
    [Always("kind", String(kind)), Always("apiVersion", String(apiVersion)),
     Always("metadata", Object(Assigned(metadata))), Always("spec", Object(Assigned(spec)))]
  }

  function QuotaEntries(o: ProjectOptions): seq<Entry> {
    [Amount("limitsCpu", o.cpuLimit, "m"), Amount("requestsCpu", o.cpuReservation, "m"),
     Amount("limitsMemory", o.memoryLimit, "Mi"), Amount("requestsMemory", o.memoryReservation, "Mi")]
  }

  function ProjectSpec(p: ChangeParams): seq<Entry> {
    [Always("clusterName", String(p.cluster)), Filled("description", p.description),
     Filled("displayName", p.projectOptions.displayName),
     Always("containerDefaultResourceLimit", Object(Assigned(QuotaEntries(p.projectOptions))))]
  }

  function ProjectMetadata(p: ChangeParams): seq<Entry> { [Filled("name", p.name), Filled("namespace", p.cluster)] }

  function ProjectEntries(p: ChangeParams): seq<Entry> {
    TopLevel("Project", "management.cattle.io/v3", ProjectMetadata(p), ProjectSpec(p))
  }

  const VERSION_MANAGEMENT := "rancher.io/imported-cluster-version-management"

  function EffectiveSetting(p: ChangeParams): string {
    if p.versionManagementSetting == "" then "system-default" else p.versionManagementSetting
  }

  function ImportedEntries(p: ChangeParams): seq<Entry> {
    var annotations := map[VERSION_MANAGEMENT := String(EffectiveSetting(p))];
    [Always("metadata", Object(map["annotations" := Object(annotations)])), Always("type", String("cluster")),
     Always("name", String(p.name)), Always("description", String(p.description))]
  }

  predicate AcceptsImported(p: ChangeParams) {
    p.versionManagementSetting in {"", "true", "false", "system-default"} && p.name != ""
  }

  const SUPPORTED_CNIS: set<string> := {
    "calico", "canal", "cilium", "flannel", "multus,canal", "multus,cilium", "multus,calico", "none"}

  /** `fullVersion` is the release that the version catalogue offers for the request. */
  predicate AcceptsCustom(p: ChangeParams, fullVersion: Option<string>) {
    p.name != "" && p.distribution in {"rke2", "k3s"} && Text.Lower(p.cni) in SUPPORTED_CNIS && fullVersion.Some?
  }

  function CustomMetadata(p: ChangeParams): seq<Entry> {
    [Always("name", String(p.name)), Always("namespace", String("fleet-default")),
     Always("annotations", Object(map["field.cattle.io/description" := String(p.description)]))]
  }

  /** The parts of the configuration that never vary are left out. */
  function CustomSpec(p: ChangeParams, fullVersion: string): seq<Entry> {
    var config := Object(map["cni" := String(p.cni)]);
    [Always("kubernetesVersion", String(fullVersion)),
     Always("rkeConfig", Object(map["machineGlobalConfig" := config]))]
  }

  function CustomEntries(p: ChangeParams, fullVersion: string): seq<Entry> {
    TopLevel("Cluster", "provisioning.cattle.io/v1", CustomMetadata(p), CustomSpec(p, fullVersion))
  }

  function LimitEntries(l: Limits): seq<Entry> { [Filled("cpu", l.cpu), Filled("memory", l.memory)] }

  function SyncEntries(o: K3kOptions): seq<Entry> {
    [Enabled("ingresses", o.syncIngresses), Enabled("priorityClasses", o.syncPriorityClasses)]
  }

  function PersistenceEntries(o: K3kOptions): seq<Entry> {
    [Filled("type", o.persistenceType), Filled("storageClassName", o.storageClassName),
     Filled("storageRequest", o.storageRequest)]
  }

  function K3kSpec(p: ChangeParams): seq<Entry> {
    var o := p.k3k;
    [Filled("version", p.version), Filled("mode", o.mode), Count("servers", o.servers), Count("agents", o.agents),
     Nested("sync", SyncEntries(o)), Nested("serverLimit", LimitEntries(o.serverLimit)),
     Nested("workerLimit", LimitEntries(o.workerLimit)), Nested("persistence", PersistenceEntries(o))]
  }

  function K3kMetadata(p: ChangeParams): seq<Entry> {
    [Always("name", String(p.name)), Always("namespace", String(p.namespace))]
  }

  function K3kEntries(p: ChangeParams): seq<Entry> {
    TopLevel("Cluster", "k3k.io/v1beta1", K3kMetadata(p), K3kSpec(p))
  }

  /** What the tool assigns to its object; None when it rejects the parameters. */
  function Entries(h: Tool, p: ChangeParams, fullVersion: Option<string>): Option<seq<Entry>> {
    match h
    case CreateProject => Some(ProjectEntries(p))
    case CreateCustomCluster =>
      if AcceptsCustom(p, fullVersion) then Some(CustomEntries(p, fullVersion.value)) else None
    case CreateImportedCluster => if AcceptsImported(p) then Some(ImportedEntries(p)) else None
    case CreateK3kCluster => Some(K3kEntries(p))
    case _ => None
  }

  function Built(h: Tool, p: ChangeParams, fullVersion: Option<string>): Option<Json> {
    match Entries(h, p, fullVersion)
    case None => None
    case Some(entries) => Some(Object(Assigned(entries)))
  }

  lemma {:induction false} DecimalDigits(n: nat)
    ensures Decimal(n) != "" && '-' !in Decimal(n)
  {
    if n >= 10 {
      DecimalDigits(n / 10);
    }
  }

  /** Different numbers are written differently. */
  lemma DecimalInjective(m: int, n: int)
    requires Decimal(m) == Decimal(n)
    ensures m == n
  {
    SignShows(m);
    SignShows(n);
    if m < 0 {
      assert Decimal(m)[1..] == Decimal(-m) && Decimal(n)[1..] == Decimal(-n);
      NaturalInjective(-m, -n);
    } else {
      NaturalInjective(m, n);
    }
  }

  lemma SignShows(n: int)
    ensures '-' in Decimal(n) <==> n < 0
  {
    if n < 0 {
      assert Decimal(n)[0] == '-';
    } else {
      DecimalDigits(n);
    }
  }

  lemma {:induction false} NaturalInjective(m: nat, n: nat)
    requires Decimal(m) == Decimal(n)
    ensures m == n
  {
    LastDigit(m);
    LastDigit(n);
    if m >= 10 {
      DecimalDigits(m / 10);
    }
    if n >= 10 {
      DecimalDigits(n / 10);
    }
    if m >= 10 && n >= 10 {
      assert Decimal(m)[..|Decimal(m)| - 1] == Decimal(m / 10) && Decimal(n)[..|Decimal(n)| - 1] == Decimal(n / 10);
      NaturalInjective(m / 10, n / 10);
    }
  }

  lemma LastDigit(n: nat)
    ensures Decimal(n) != "" && Decimal(n)[|Decimal(n)| - 1] == Digit(n % 10)
  {
  }

  ghost predicate DistinctKeys(entries: seq<Entry>) {
    forall i, j :: 0 <= i < j < |entries| ==> entries[i].key != entries[j].key
  }

  /** With distinct keys, what an entry assigned is what its field holds in the end. */
  lemma {:induction false} AssignedAt(entries: seq<Entry>, key: string)
    requires DistinctKeys(entries)
    ensures key in Assigned(entries) ==> exists i :: 0 <= i < |entries| && entries[i].key == key
    ensures forall i :: 0 <= i < |entries| && entries[i].key == key ==>
      entries[i].value == if key in Assigned(entries) then Some(Assigned(entries)[key]) else None
  {
    if entries != [] {
      var front := entries[..|entries| - 1];
      AssignedAt(front, key);
      assert forall i :: 0 <= i < |front| ==> front[i] == entries[i];
    }
  }

  ghost predicate SameKeys(a: seq<Entry>, b: seq<Entry>) {
    |a| == |b| && forall i :: 0 <= i < |a| ==> a[i].key == b[i].key
  }

  /** Objects of the same distinct keys are equal exactly when they are entry by entry. */
  lemma SameAssigned(a: seq<Entry>, b: seq<Entry>)
    requires DistinctKeys(a) && SameKeys(a, b)
    ensures Assigned(a) == Assigned(b) <==> a == b
  {
    if Assigned(a) == Assigned(b) {
      forall i | 0 <= i < |a|
        ensures a[i] == b[i]
      {
        AssignedAt(a, a[i].key);
        AssignedAt(b, a[i].key);
      }
    }
  }

  lemma SameAmount(key: string, m: int, n: int, unit: string)
    requires unit != ""
    ensures Amount(key, m, unit) == Amount(key, n, unit) <==> m == n
  {
    if m != 0 && n != 0 && Decimal(m) + unit == Decimal(n) + unit {
      assert (Decimal(m) + unit)[..|Decimal(m)|] == Decimal(m) && (Decimal(n) + unit)[..|Decimal(n)|] == Decimal(n);
      DecimalInjective(m, n);
    }
  }

  function AtLeastZero(n: int): nat { if n > 0 then n else 0 }

  lemma SameCount(key: string, m: int, n: int)
    ensures Count(key, m) == Count(key, n) <==> AtLeastZero(m) == AtLeastZero(n)
  {
    if m > 0 && n > 0 && Decimal(m) == Decimal(n) {
      DecimalInjective(m, n);
    }
  }

  lemma SameNested(key: string, a: seq<Entry>, b: seq<Entry>)
    requires DistinctKeys(a) && SameKeys(a, b)
    ensures Nested(key, a) == Nested(key, b) <==> a == b
  {
    SameAssigned(a, b);
  }

  lemma SameTopLevel(kind: string, apiVersion: string, m: seq<Entry>, s: seq<Entry>, n: seq<Entry>, t: seq<Entry>)
    ensures Assigned(TopLevel(kind, apiVersion, m, s)) == Assigned(TopLevel(kind, apiVersion, n, t)) <==>
      Assigned(m) == Assigned(n) && Assigned(s) == Assigned(t)
  {
    var a, b := TopLevel(kind, apiVersion, m, s), TopLevel(kind, apiVersion, n, t);
    TopLevelKeys(kind, apiVersion, m, s);
    SameAssigned(a, b);
    assert a == b <==> a[2] == b[2] && a[3] == b[3];
  }

  lemma QuotaKeys(o: ProjectOptions)
    ensures DistinctKeys(QuotaEntries(o))
  {
    assert "limitsCpu"[0] != "requestsCpu"[0] && "limitsMemory"[0] != "requestsMemory"[0];
  }

  lemma ProjectKeys(p: ChangeParams)
    ensures DistinctKeys(ProjectSpec(p)) && DistinctKeys(ProjectMetadata(p))
  {
    assert "clusterName"[0] != "description"[0] && "clusterName"[0] != "displayName"[0];
    assert "description"[1] != "displayName"[1];
  }

  lemma TopLevelKeys(kind: string, apiVersion: string, metadata: seq<Entry>, spec: seq<Entry>)
    ensures DistinctKeys(TopLevel(kind, apiVersion, metadata, spec))
  {
    assert "kind"[0] != "spec"[0];
  }

  lemma ImportedKeys(p: ChangeParams)
    ensures DistinctKeys(ImportedEntries(p))
  {
    assert "type"[0] != "name"[0];
  }

  lemma SameQuotas(o: ProjectOptions, u: ProjectOptions)
    ensures Assigned(QuotaEntries(o)) == Assigned(QuotaEntries(u)) <==> o == u.(displayName := o.displayName)
  {
    var a, b := QuotaEntries(o), QuotaEntries(u);
    QuotaKeys(o);
    SameAssigned(a, b);
    SameAmount("limitsCpu", o.cpuLimit, u.cpuLimit, "m");
    SameAmount("requestsCpu", o.cpuReservation, u.cpuReservation, "m");
    SameAmount("limitsMemory", o.memoryLimit, u.memoryLimit, "Mi");
    SameAmount("requestsMemory", o.memoryReservation, u.memoryReservation, "Mi");
    assert a == b <==> a[0] == b[0] && a[1] == b[1] && a[2] == b[2] && a[3] == b[3];
  }

  predicate SameProject(p: ChangeParams, q: ChangeParams) {
    p.name == q.name && p.cluster == q.cluster && p.description == q.description && p.projectOptions == q.projectOptions
  }

  lemma SameProjectSpec(p: ChangeParams, q: ChangeParams)
    ensures Assigned(ProjectSpec(p)) == Assigned(ProjectSpec(q)) <==>
      p.cluster == q.cluster && p.description == q.description && p.projectOptions == q.projectOptions
  {
    var a, b := ProjectSpec(p), ProjectSpec(q);
    ProjectKeys(p);
    SameAssigned(a, b);
    SameQuotas(p.projectOptions, q.projectOptions);
    assert a == b <==> a[0] == b[0] && a[1] == b[1] && a[2] == b[2] && a[3] == b[3];
  }

  lemma SameProjectIff(p: ChangeParams, q: ChangeParams)
    ensures Assigned(ProjectEntries(p)) == Assigned(ProjectEntries(q)) <==> SameProject(p, q)
  {
    SameProjectMetadata(p, q);
    SameProjectSpec(p, q);
    SameTopLevel("Project", "management.cattle.io/v3",
                 ProjectMetadata(p), ProjectSpec(p), ProjectMetadata(q), ProjectSpec(q));
  }

  lemma SameProjectMetadata(p: ChangeParams, q: ChangeParams)
    ensures Assigned(ProjectMetadata(p)) == Assigned(ProjectMetadata(q)) <==> p.name == q.name && p.cluster == q.cluster
  {
    var a, b := ProjectMetadata(p), ProjectMetadata(q);
    SameAssigned(a, b);
    assert a == b <==> a[0] == b[0] && a[1] == b[1];
  }

  /** All but the sign of counts that are not positive. */
  predicate SameK3k(p: ChangeParams, q: ChangeParams) {
    p.name == q.name && p.namespace == q.namespace && p.version == q.version && SameOptions(p.k3k, q.k3k)
  }

  predicate SameOptions(o: K3kOptions, u: K3kOptions) {
    && o == u.(servers := o.servers, agents := o.agents)
    && AtLeastZero(o.servers) == AtLeastZero(u.servers) && AtLeastZero(o.agents) == AtLeastZero(u.agents)
  }

  lemma K3kKeys(p: ChangeParams)
    ensures DistinctKeys(K3kSpec(p))
  {
    assert "version"[0] == 'v' && "servers"[0] == 's' && "mode"[0] == 'm' && "sync"[0] == 's';
    assert "serverLimit"[0] == 's' && "workerLimit"[0] == 'w' && "persistence"[0] == 'p';
  }

  lemma SameLimits(key: string, l: Limits, k: Limits)
    ensures Nested(key, LimitEntries(l)) == Nested(key, LimitEntries(k)) <==> l == k
  {
    var a, b := LimitEntries(l), LimitEntries(k);
    SameNested(key, a, b);
    assert a == b <==> a[0] == b[0] && a[1] == b[1];
  }

  lemma SameSync(key: string, o: K3kOptions, u: K3kOptions)
    ensures Nested(key, SyncEntries(o)) == Nested(key, SyncEntries(u)) <==>
      o.syncIngresses == u.syncIngresses && o.syncPriorityClasses == u.syncPriorityClasses
  {
    var a, b := SyncEntries(o), SyncEntries(u);
    SameNested(key, a, b);
    assert a == b <==> a[0] == b[0] && a[1] == b[1];
  }

  lemma SamePersistence(key: string, o: K3kOptions, u: K3kOptions)
    ensures Nested(key, PersistenceEntries(o)) == Nested(key, PersistenceEntries(u)) <==>
      o.persistenceType == u.persistenceType && o.storageClassName == u.storageClassName &&
      o.storageRequest == u.storageRequest
  {
    var a, b := PersistenceEntries(o), PersistenceEntries(u);
    SameNested(key, a, b);
    assert a == b <==> a[0] == b[0] && a[1] == b[1] && a[2] == b[2];
  }

  lemma SameK3kSpec(p: ChangeParams, q: ChangeParams)
    ensures Assigned(K3kSpec(p)) == Assigned(K3kSpec(q)) <==> p.version == q.version && SameOptions(p.k3k, q.k3k)
  {
    var a, b := K3kSpec(p), K3kSpec(q);
    var o, u := p.k3k, q.k3k;
    K3kKeys(p);
    SameAssigned(a, b);
    EightEqual(a, b);
    SameCount("servers", o.servers, u.servers);
    SameCount("agents", o.agents, u.agents);
    SameSync("sync", o, u);
    SameLimits("serverLimit", o.serverLimit, u.serverLimit);
    SameLimits("workerLimit", o.workerLimit, u.workerLimit);
    SamePersistence("persistence", o, u);
  }

  lemma EightEqual(a: seq<Entry>, b: seq<Entry>)
    requires |a| == |b| == 8
    ensures a == b <==>
      a[0] == b[0] && a[1] == b[1] && a[2] == b[2] && a[3] == b[3] &&
      a[4] == b[4] && a[5] == b[5] && a[6] == b[6] && a[7] == b[7]
  {
  }

  lemma SameK3kIff(p: ChangeParams, q: ChangeParams)
    ensures Assigned(K3kEntries(p)) == Assigned(K3kEntries(q)) <==> SameK3k(p, q)
  {
    SameK3kMetadata(p, q);
    SameK3kSpec(p, q);
    SameTopLevel("Cluster", "k3k.io/v1beta1", K3kMetadata(p), K3kSpec(p), K3kMetadata(q), K3kSpec(q));
  }

  lemma SameK3kMetadata(p: ChangeParams, q: ChangeParams)
    ensures Assigned(K3kMetadata(p)) == Assigned(K3kMetadata(q)) <==> p.name == q.name && p.namespace == q.namespace
  {
    var a, b := K3kMetadata(p), K3kMetadata(q);
    SameAssigned(a, b);
    assert a == b <==> a[0] == b[0] && a[1] == b[1];
  }

  predicate SameImported(p: ChangeParams, q: ChangeParams) {
    p.name == q.name && p.description == q.description && EffectiveSetting(p) == EffectiveSetting(q)
  }

  lemma SingleField(key: string, x: Json, y: Json)
    ensures map[key := x] == map[key := y] <==> x == y
  {
    assert map[key := x][key] == x && map[key := y][key] == y;
  }

  lemma SameImportedIff(p: ChangeParams, q: ChangeParams)
    ensures Assigned(ImportedEntries(p)) == Assigned(ImportedEntries(q)) <==> SameImported(p, q)
  {
    var a, b := ImportedEntries(p), ImportedEntries(q);
    var x, y := String(EffectiveSetting(p)), String(EffectiveSetting(q));
    SingleField(VERSION_MANAGEMENT, x, y);
    SingleField("annotations", Object(map[VERSION_MANAGEMENT := x]), Object(map[VERSION_MANAGEMENT := y]));
    ImportedKeys(p);
    SameAssigned(a, b);
    assert a == b <==> a[0] == b[0] && a[2] == b[2] && a[3] == b[3];
  }

  predicate SameCustom(p: ChangeParams, v: string, q: ChangeParams, w: string) {
    p.name == q.name && p.description == q.description && p.cni == q.cni && v == w
  }

  lemma SameCustomMetadata(p: ChangeParams, q: ChangeParams)
    ensures Assigned(CustomMetadata(p)) == Assigned(CustomMetadata(q)) <==>
      p.name == q.name && p.description == q.description
  {
    var a, b := CustomMetadata(p), CustomMetadata(q);
    SingleField("field.cattle.io/description", String(p.description), String(q.description));
    SameAssigned(a, b);
    assert a == b <==> a[0] == b[0] && a[2] == b[2];
  }

  lemma SameCustomSpec(p: ChangeParams, v: string, q: ChangeParams, w: string)
    ensures Assigned(CustomSpec(p, v)) == Assigned(CustomSpec(q, w)) <==> v == w && p.cni == q.cni
  {
    var a, b := CustomSpec(p, v), CustomSpec(q, w);
    var x, y := Object(map["cni" := String(p.cni)]), Object(map["cni" := String(q.cni)]);
    SingleField("cni", String(p.cni), String(q.cni));
    SingleField("machineGlobalConfig", x, y);
    SameAssigned(a, b);
    assert a == b <==> a[0] == b[0] && a[1] == b[1];
  }

  lemma SameCustomIff(p: ChangeParams, v: string, q: ChangeParams, w: string)
    ensures Assigned(CustomEntries(p, v)) == Assigned(CustomEntries(q, w)) <==> SameCustom(p, v, q, w)
  {
    SameCustomMetadata(p, q);
    SameCustomSpec(p, v, q, w);
    SameTopLevel("Cluster", "provisioning.cattle.io/v1",
                 CustomMetadata(p), CustomSpec(p, v), CustomMetadata(q), CustomSpec(q, w));
  }

  predicate SameParts(h: Tool, p: ChangeParams, v: Option<string>, q: ChangeParams, w: Option<string>) {
    match h
    case CreateProject => SameProject(p, q)
    case CreateCustomCluster => SameCustom(p, v.GetOr(""), q, w.GetOr(""))
    case CreateImportedCluster => SameImported(p, q)
    case CreateK3kCluster => SameK3k(p, q)
    case _ => false
  }

  /** Which parameters the object of a create tool binds: two calls build the same one
      exactly when they agree on these. */
  lemma SameBuiltIff(h: Tool, p: ChangeParams, v: Option<string>, q: ChangeParams, w: Option<string>)
    requires Built(h, p, v).Some? && Built(h, q, w).Some?
    ensures Built(h, p, v) == Built(h, q, w) <==> SameParts(h, p, v, q, w)
  {
    BuiltOfEntries(h, p, v);
    BuiltOfEntries(h, q, w);
    SameEntries(h, p, v, q, w);
  }

  lemma BuiltOfEntries(h: Tool, p: ChangeParams, v: Option<string>)
    requires Built(h, p, v).Some?
    ensures Entries(h, p, v).Some? && Built(h, p, v) == Some(Object(Assigned(Entries(h, p, v).value)))
  {
  }

  lemma SameEntries(h: Tool, p: ChangeParams, v: Option<string>, q: ChangeParams, w: Option<string>)
    requires Entries(h, p, v).Some? && Entries(h, q, w).Some?
    ensures Assigned(Entries(h, p, v).value) == Assigned(Entries(h, q, w).value) <==> SameParts(h, p, v, q, w)
  {
    match h {
      case CreateProject => SameProjectIff(p, q);
      case CreateCustomCluster => SameCustomIff(p, v.value, q, w.value);
      case CreateImportedCluster => SameImportedIff(p, q);
      case CreateK3kCluster => SameK3kIff(p, q);
      case _ =>
    }
  }
}
