/** What the create tools write: the value at every path of the documents they build. */
module BuiltDocuments {
  import opened Wrappers
  import opened Dispatch
  import opened JsonValue
  import opened Operations
  import opened BuiltObjects
  import Text

  function DigitsValue(digits: string): int {
    if digits == "" then 0
    else
      var last := |digits| - 1;
      10 * DigitsValue(digits[..last]) + (digits[last] as int - '0' as int)
  }

  predicate IsNumeral(text: string) {
    text != "" && (forall c :: c in text ==> '0' <= c <= '9') && (text[0] == '0' ==> |text| == 1)
  }

  /** The text is the numeral of that number in base ten, behind a sign if it is negative. */
  predicate Denotes(text: string, n: int) {
    if n < 0 then text != "" && text[0] == '-' && IsNumeral(text[1..]) && DigitsValue(text[1..]) == -n
    else IsNumeral(text) && DigitsValue(text) == n
  }

  lemma {:induction false} NaturalDenotes(n: nat)
    ensures IsNumeral(Decimal(n)) && DigitsValue(Decimal(n)) == n && (n > 0 ==> Decimal(n)[0] != '0')
  {
    if n >= 10 {
      NaturalDenotes(n / 10);
      assert Decimal(n)[..|Decimal(n)| - 1] == Decimal(n / 10);
      assert Decimal(n)[0] == Decimal(n / 10)[0];
    } else {
      assert [Digit(n)][..0] == "";
      assert DigitsValue([Digit(n)]) == 10 * DigitsValue("") + n;
    }
  }

  /** The decimal form of a number denotes it. */
  lemma DecimalDenotes(n: int)
    ensures Denotes(Decimal(n), n)
  {
    if n < 0 {
      NaturalDenotes(-n);
      assert Decimal(n)[1..] == Decimal(-n);
    } else {
      NaturalDenotes(n);
    }
  }

  /** Absent if zero, and otherwise that number of units. */
  ghost predicate IsAmount(value: Option<Json>, n: int, unit: string) {
    if n == 0 then value == None
    else exists text :: Denotes(text, n) && value == Some(String(text + unit))
  }

  /** Absent unless positive, and otherwise that number. */
  ghost predicate IsCount(value: Option<Json>, n: int) {
    if n <= 0 then value == None else exists text :: Denotes(text, n) && value == Some(Number(text))
  }

  /** Absent if empty, and otherwise that text. */
  predicate IsText(value: Option<Json>, text: string) { value == if text == "" then None else Some(String(text)) }

  function At(json: Json, key: string): Option<Json> {
    if json.Object? && key in json.fields then Some(json.fields[key]) else None
  }

  /** An object without other keys. */
  predicate HasOnly(json: Json, keys: set<string>) { json.Object? && json.fields.Keys <= keys }

  function ObjectOf(entries: seq<Entry>): Json { Object(Assigned(entries)) }

  /** With distinct keys, a field is what its entry assigned. */
  lemma FieldIs(entries: seq<Entry>, i: nat)
    requires DistinctKeys(entries) && i < |entries|
    ensures At(ObjectOf(entries), entries[i].key) == entries[i].value
  {
    AssignedAt(entries, entries[i].key);
  }

  lemma KeysWithin(entries: seq<Entry>, keys: set<string>)
    requires DistinctKeys(entries) && forall i :: 0 <= i < |entries| ==> entries[i].key in keys
    ensures HasOnly(ObjectOf(entries), keys)
  {
    forall key | key in Assigned(entries)
      ensures key in keys
    {
      AssignedAt(entries, key);
    }
  }

  lemma AmountIs(key: string, n: int, unit: string)
    ensures IsAmount(Amount(key, n, unit).value, n, unit)
  {
    DecimalDenotes(n);
  }

  lemma CountIs(key: string, n: int)
    ensures IsCount(Count(key, n).value, n)
  {
    DecimalDenotes(n);
  }

  /** A Kubernetes object of that kind and apiVersion, with these two parts and no more. */
  predicate IsObject(json: Json, kind: string, apiVersion: string, metadata: Json, spec: Json) {
    && At(json, "kind") == Some(String(kind)) && At(json, "apiVersion") == Some(String(apiVersion))
    && At(json, "metadata") == Some(metadata) && At(json, "spec") == Some(spec)
    && HasOnly(json, {"kind", "apiVersion", "metadata", "spec"})
  }

  lemma TopLevelIs(kind: string, apiVersion: string, metadata: seq<Entry>, spec: seq<Entry>)
    ensures IsObject(ObjectOf(TopLevel(kind, apiVersion, metadata, spec)), kind, apiVersion,
                     ObjectOf(metadata), ObjectOf(spec))
  {
    var entries := TopLevel(kind, apiVersion, metadata, spec);
    TopLevelKeys(kind, apiVersion, metadata, spec);
    FieldIs(entries, 0);
    FieldIs(entries, 1);
    FieldIs(entries, 2);
    FieldIs(entries, 3);
    KeysWithin(entries, {"kind", "apiVersion", "metadata", "spec"});
  }

  /** Milli-CPUs and mebibytes, each absent if zero. */
  ghost predicate IsQuotas(json: Json, o: ProjectOptions) {
    && IsAmount(At(json, "limitsCpu"), o.cpuLimit, "m") && IsAmount(At(json, "requestsCpu"), o.cpuReservation, "m")
    && IsAmount(At(json, "limitsMemory"), o.memoryLimit, "Mi")
    && IsAmount(At(json, "requestsMemory"), o.memoryReservation, "Mi")
    && HasOnly(json, {"limitsCpu", "requestsCpu", "limitsMemory", "requestsMemory"})
  }

  lemma QuotasAre(o: ProjectOptions)
    ensures IsQuotas(ObjectOf(QuotaEntries(o)), o)
  {
    var entries := QuotaEntries(o);
    QuotaKeys(o);
    FieldIs(entries, 0);
    FieldIs(entries, 1);
    FieldIs(entries, 2);
    FieldIs(entries, 3);
    AmountIs("limitsCpu", o.cpuLimit, "m");
    AmountIs("requestsCpu", o.cpuReservation, "m");
    AmountIs("limitsMemory", o.memoryLimit, "Mi");
    AmountIs("requestsMemory", o.memoryReservation, "Mi");
    KeysWithin(entries, {"limitsCpu", "requestsCpu", "limitsMemory", "requestsMemory"});
  }

  ghost predicate IsProjectSpec(json: Json, p: ChangeParams) {
    && At(json, "clusterName") == Some(String(p.cluster)) && IsText(At(json, "description"), p.description)
    && IsText(At(json, "displayName"), p.projectOptions.displayName)
    && At(json, "containerDefaultResourceLimit").Some?
    && IsQuotas(At(json, "containerDefaultResourceLimit").value, p.projectOptions)
    && HasOnly(json, {"clusterName", "description", "displayName", "containerDefaultResourceLimit"})
  }

  lemma ProjectSpecIs(p: ChangeParams)
    ensures IsProjectSpec(ObjectOf(ProjectSpec(p)), p)
  {
    var entries := ProjectSpec(p);
    ProjectKeys(p);
    FieldIs(entries, 0);
    FieldIs(entries, 1);
    FieldIs(entries, 2);
    FieldIs(entries, 3);
    QuotasAre(p.projectOptions);
    KeysWithin(entries, {"clusterName", "description", "displayName", "containerDefaultResourceLimit"});
  }

  predicate IsProjectMetadata(json: Json, p: ChangeParams) {
    IsText(At(json, "name"), p.name) && IsText(At(json, "namespace"), p.cluster) && HasOnly(json, {"name", "namespace"})
  }

  lemma ProjectMetadataIs(p: ChangeParams)
    ensures IsProjectMetadata(ObjectOf(ProjectMetadata(p)), p)
  {
    ProjectKeys(p);
    FieldIs(ProjectMetadata(p), 0);
    FieldIs(ProjectMetadata(p), 1);
    KeysWithin(ProjectMetadata(p), {"name", "namespace"});
  }

  /** The document of a project: what every path of it holds. */
  lemma ProjectDocument(p: ChangeParams, v: Option<string>) returns (metadata: Json, spec: Json)
    ensures Built(CreateProject, p, v).Some?
    ensures IsObject(Built(CreateProject, p, v).value, "Project", "management.cattle.io/v3", metadata, spec)
    ensures IsProjectMetadata(metadata, p) && IsProjectSpec(spec, p)
  {
    metadata, spec := ObjectOf(ProjectMetadata(p)), ObjectOf(ProjectSpec(p));
    TopLevelIs("Project", "management.cattle.io/v3", ProjectMetadata(p), ProjectSpec(p));
    ProjectMetadataIs(p);
    ProjectSpecIs(p);
  }

  predicate IsImported(json: Json, p: ChangeParams) {
    && At(json, "type") == Some(String("cluster")) && At(json, "name") == Some(String(p.name))
    && At(json, "description") == Some(String(p.description))
    && HasOnly(json, {"metadata", "type", "name", "description"})
    && var setting := if p.versionManagementSetting == "" then "system-default" else p.versionManagementSetting;
    && var annotations := map["rancher.io/imported-cluster-version-management" := String(setting)];
       At(json, "metadata") == Some(Object(map["annotations" := Object(annotations)]))
  }

  /** The document of an imported cluster, and when it is built: for a name and a setting
      that is empty or one of three. */
  lemma ImportedDocument(p: ChangeParams, v: Option<string>)
    ensures var setting := p.versionManagementSetting;
      Built(CreateImportedCluster, p, v).Some? <==>
        p.name != "" && (setting == "" || setting == "true" || setting == "false" || setting == "system-default")
    ensures Built(CreateImportedCluster, p, v).Some? ==> IsImported(Built(CreateImportedCluster, p, v).value, p)
  {
    var entries := ImportedEntries(p);
    ImportedKeys(p);
    FieldIs(entries, 0);
    FieldIs(entries, 1);
    FieldIs(entries, 2);
    FieldIs(entries, 3);
    KeysWithin(entries, {"metadata", "type", "name", "description"});
  }

  predicate IsCustomMetadata(json: Json, p: ChangeParams) {
    && At(json, "name") == Some(String(p.name)) && At(json, "namespace") == Some(String("fleet-default"))
    && At(json, "annotations") == Some(Object(map["field.cattle.io/description" := String(p.description)]))
    && HasOnly(json, {"name", "namespace", "annotations"})
  }

  predicate IsCustomSpec(json: Json, p: ChangeParams, fullVersion: string) {
    && At(json, "kubernetesVersion") == Some(String(fullVersion))
    && HasOnly(json, {"kubernetesVersion", "rkeConfig"})
    && var config := Object(map["cni" := String(p.cni)]);
       At(json, "rkeConfig") == Some(Object(map["machineGlobalConfig" := config]))
  }

  predicate IsCni(name: string) {
    || name == "calico" || name == "canal" || name == "cilium" || name == "flannel" || name == "none"
    || name == "multus,canal" || name == "multus,cilium" || name == "multus,calico"
  }

  /** The document of a custom cluster, its unvarying parts aside, and when it is built:
      for a name, one of two distributions, a supported network plug-in and a release. */
  lemma CustomDocument(p: ChangeParams, v: Option<string>) returns (metadata: Json, spec: Json)
    ensures Built(CreateCustomCluster, p, v).Some? <==>
      p.name != "" && (p.distribution == "rke2" || p.distribution == "k3s") && IsCni(Text.Lower(p.cni)) && v.Some?
    ensures Built(CreateCustomCluster, p, v).Some? ==>
      && IsObject(Built(CreateCustomCluster, p, v).value, "Cluster", "provisioning.cattle.io/v1", metadata, spec)
      && IsCustomMetadata(metadata, p) && IsCustomSpec(spec, p, v.value)
  {
    metadata, spec := ObjectOf(CustomMetadata(p)), ObjectOf(CustomSpec(p, v.GetOr("")));
    TopLevelIs("Cluster", "provisioning.cattle.io/v1", CustomMetadata(p), CustomSpec(p, v.GetOr("")));
    CustomMetadataIs(p);
    CustomSpecIs(p, v.GetOr(""));
  }

  lemma CustomMetadataIs(p: ChangeParams)
    ensures IsCustomMetadata(ObjectOf(CustomMetadata(p)), p)
  {
    var entries := CustomMetadata(p);
    FieldIs(entries, 0);
    FieldIs(entries, 1);
    FieldIs(entries, 2);
    KeysWithin(entries, {"name", "namespace", "annotations"});
  }

  lemma CustomSpecIs(p: ChangeParams, fullVersion: string)
    ensures IsCustomSpec(ObjectOf(CustomSpec(p, fullVersion)), p, fullVersion)
  {
    var entries := CustomSpec(p, fullVersion);
    FieldIs(entries, 0);
    FieldIs(entries, 1);
    KeysWithin(entries, {"kubernetesVersion", "rkeConfig"});
  }

  predicate IsLimits(value: Option<Json>, l: Limits) {
    if l.cpu == "" && l.memory == "" then value == None
    else
      value.Some? && IsText(At(value.value, "cpu"), l.cpu) && IsText(At(value.value, "memory"), l.memory) &&
      HasOnly(value.value, {"cpu", "memory"})
  }

  predicate IsSwitch(value: Option<Json>, on: bool) {
    value == if on then Some(Object(map["enabled" := Bool(true)])) else None
  }

  predicate IsSync(value: Option<Json>, o: K3kOptions) {
    if !o.syncIngresses && !o.syncPriorityClasses then value == None
    else
      && value.Some? && IsSwitch(At(value.value, "ingresses"), o.syncIngresses)
      && IsSwitch(At(value.value, "priorityClasses"), o.syncPriorityClasses)
      && HasOnly(value.value, {"ingresses", "priorityClasses"})
  }

  predicate IsPersistence(value: Option<Json>, o: K3kOptions) {
    if o.persistenceType == "" && o.storageClassName == "" && o.storageRequest == "" then value == None
    else
      && value.Some? && IsText(At(value.value, "type"), o.persistenceType)
      && IsText(At(value.value, "storageClassName"), o.storageClassName)
      && IsText(At(value.value, "storageRequest"), o.storageRequest)
      && HasOnly(value.value, {"type", "storageClassName", "storageRequest"})
  }

  ghost predicate K3kScalars(json: Json, p: ChangeParams) {
    && IsText(At(json, "version"), p.version) && IsText(At(json, "mode"), p.k3k.mode)
    && IsCount(At(json, "servers"), p.k3k.servers) && IsCount(At(json, "agents"), p.k3k.agents)
  }

  ghost predicate IsK3kSpec(json: Json, p: ChangeParams) {
    && K3kScalars(json, p)
    && IsSync(At(json, "sync"), p.k3k) && IsLimits(At(json, "serverLimit"), p.k3k.serverLimit)
    && IsLimits(At(json, "workerLimit"), p.k3k.workerLimit) && IsPersistence(At(json, "persistence"), p.k3k)
    && HasOnly(json, {"version", "mode", "servers", "agents", "sync", "serverLimit", "workerLimit", "persistence"})
  }

  predicate IsK3kMetadata(json: Json, p: ChangeParams) {
    && At(json, "name") == Some(String(p.name)) && At(json, "namespace") == Some(String(p.namespace))
    && HasOnly(json, {"name", "namespace"})
  }

  /** The document of a K3k cluster: what every path of it holds, and that whatever is
      empty, off or not positive is absent. */
  lemma K3kDocument(p: ChangeParams, v: Option<string>) returns (metadata: Json, spec: Json)
    ensures Built(CreateK3kCluster, p, v).Some?
    ensures IsObject(Built(CreateK3kCluster, p, v).value, "Cluster", "k3k.io/v1beta1", metadata, spec)
    ensures IsK3kMetadata(metadata, p) && IsK3kSpec(spec, p)
  {
    metadata, spec := ObjectOf(K3kMetadata(p)), ObjectOf(K3kSpec(p));
    TopLevelIs("Cluster", "k3k.io/v1beta1", K3kMetadata(p), K3kSpec(p));
    K3kMetadataIs(p);
    K3kSpecIs(p);
  }

  lemma K3kMetadataIs(p: ChangeParams)
    ensures IsK3kMetadata(ObjectOf(K3kMetadata(p)), p)
  {
    FieldIs(K3kMetadata(p), 0);
    FieldIs(K3kMetadata(p), 1);
    KeysWithin(K3kMetadata(p), {"name", "namespace"});
  }

  lemma LimitsAre(key: string, l: Limits)
    ensures IsLimits(Nested(key, LimitEntries(l)).value, l)
  {
    var entries := LimitEntries(l);
    FieldIs(entries, 0);
    FieldIs(entries, 1);
    KeysWithin(entries, {"cpu", "memory"});
    NoneLeft(entries);
  }

  /** Nothing is assigned exactly when every entry is skipped. */
  lemma NoneLeft(entries: seq<Entry>)
    requires DistinctKeys(entries)
    ensures Assigned(entries) == map[] <==> forall i :: 0 <= i < |entries| ==> entries[i].value.None?
  {
    forall i | 0 <= i < |entries|
      ensures entries[i].value.Some? <==> entries[i].key in Assigned(entries)
    {
      FieldIs(entries, i);
    }
    if key :| key in Assigned(entries) {
      AssignedAt(entries, key);
    }
  }

  lemma SyncIs(o: K3kOptions)
    ensures IsSync(Nested("sync", SyncEntries(o)).value, o)
  {
    var entries := SyncEntries(o);
    FieldIs(entries, 0);
    FieldIs(entries, 1);
    KeysWithin(entries, {"ingresses", "priorityClasses"});
    NoneLeft(entries);
  }

  lemma PersistenceIs(o: K3kOptions)
    ensures IsPersistence(Nested("persistence", PersistenceEntries(o)).value, o)
  {
    var entries := PersistenceEntries(o);
    FieldIs(entries, 0);
    FieldIs(entries, 1);
    FieldIs(entries, 2);
    KeysWithin(entries, {"type", "storageClassName", "storageRequest"});
    NoneLeft(entries);
  }

  lemma K3kScalarsAre(p: ChangeParams)
    ensures K3kScalars(ObjectOf(K3kSpec(p)), p)
  {
    var entries := K3kSpec(p);
    K3kKeys(p);
    FieldIs(entries, 0);
    FieldIs(entries, 1);
    FieldIs(entries, 2);
    FieldIs(entries, 3);
    CountIs("servers", p.k3k.servers);
    CountIs("agents", p.k3k.agents);
  }

  lemma K3kSpecIs(p: ChangeParams)
    ensures IsK3kSpec(ObjectOf(K3kSpec(p)), p)
  {
    var entries, o := K3kSpec(p), p.k3k;
    K3kKeys(p);
    K3kScalarsAre(p);
    FieldIs(entries, 4);
    FieldIs(entries, 5);
    FieldIs(entries, 6);
    FieldIs(entries, 7);
    SyncIs(o);
    LimitsAre("serverLimit", o.serverLimit);
    LimitsAre("workerLimit", o.workerLimit);
    PersistenceIs(o);
    KeysWithin(
      entries, {"version", "mode", "servers", "agents", "sync", "serverLimit", "workerLimit", "persistence"});
  }
}
