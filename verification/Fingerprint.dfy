/** The two fingerprints of a sandbox and the create request they stand for.

    The 64-bit hash of the rendered material is taken to be injective, so a recorded hash
    is represented by the material itself. */
module Fingerprint {
  import opened Wrappers
  import opened Json
  import opened Crd

  // ----- Material -----

  function QuantitiesJson(q: Quantities): Json {
    Object(Field("cpu", Text(q.cpu)) + Field("memory", Text(q.memory)))
  }

  predicate HasQuantity(section: Option<Quantities>) {
    section.Some? && (section.value.cpu.Some? || section.value.memory.Some?)
  }

  function Section(section: Option<Quantities>): Option<Json> {
    if section.Some? then Some(QuantitiesJson(section.value)) else None
  }

  /** The resources as sent; none when no quantity is set. */
  function ResourcesJson(resources: Option<Resources>): Option<Json> {
    if resources.None? || (!HasQuantity(resources.value.requests) && !HasQuantity(resources.value.limits)) then None
    else
      var r := resources.value;
      Some(Object(Field("requests", Section(r.requests)) + Field("limits", Section(r.limits))))
  }

  function NonEmpty(text: string): Option<Json> {
    if text == "" then None else Some(String(text))
  }

  function LandlockJson(policy: Option<Policy>): Json {
    if policy.Some? && policy.value.landlock.Some? then
      Object(Field("compatibility", NonEmpty(policy.value.landlock.value.compatibility)))
    else Null
  }

  function ProcessJson(policy: Option<Policy>): Json {
    if policy.Some? && policy.value.process.Some? then
      var process := policy.value.process.value;
      Object(Field("runAsUser", NonEmpty(process.runAsUser)) + Field("runAsGroup", NonEmpty(process.runAsGroup)))
    else Null
  }

  function VolumeJson(volume: Volume): Json {
    Object(map[
      "name" := String(volume.name),
      "mountPath" := String(volume.mountPath),
      "subPath" := Nullable(volume.subPath),
      "readOnly" := Bool(volume.readOnly)])
  }

  function VolumesJson(volumes: seq<Volume>): Json {
    Array(seq(|volumes|, i requires 0 <= i < |volumes| => VolumeJson(volumes[i])))
  }

  /** The GPU count that counts: none without a GPU. */
  function GpuCount(spec: SandboxSpec): Option<u32> {
    if spec.gpu then spec.gpuCount else None
  }

  function NonEmptyStrings(texts: map<string, string>): Option<Json> {
    if texts == map[] then None else Some(Strings(texts))
  }

  /** The JSON keys of the immutable material. */
  datatype Key =
    | Image | Environment | Gpu | LandlockKey | ProcessKey | Volumes
    | GpuCountKey | LogLevel | ResourcesKey | RuntimeClassName | Labels | Annotations

  type Material = map<Key, Json>

  const ALL_KEYS: set<Key> := {
    Image, Environment, Gpu, LandlockKey, ProcessKey, Volumes,
    GpuCountKey, LogLevel, ResourcesKey, RuntimeClassName, Labels, Annotations}

  /** What the material records under a key, if anything. */
  function Content(spec: SandboxSpec, policy: Option<Policy>, key: Key): Option<Json> {
    match key
    case Image => Some(Nullable(spec.image))
    case Environment => Some(Strings(spec.environment))
    case Gpu => Some(Bool(spec.gpu))
    case LandlockKey => Some(LandlockJson(policy))
    case ProcessKey => Some(ProcessJson(policy))
    case Volumes => Some(VolumesJson(spec.volumes))
    case GpuCountKey => if GpuCount(spec).Some? then Some(Number(GpuCount(spec).value)) else None
    case LogLevel => Text(spec.logLevel)
    case ResourcesKey => ResourcesJson(spec.resources)
    case RuntimeClassName => Text(spec.runtimeClassName)
    case Labels => NonEmptyStrings(spec.labels)
    case Annotations => NonEmptyStrings(spec.annotations)
  }

  function ImmutableMaterial(spec: SandboxSpec, policy: Option<Policy>): Material {
    map key <- ALL_KEYS | Content(spec, policy, key).Some? :: Content(spec, policy, key).value
  }

  /** The fields of the first schema are always recorded; one added later when it is set, as
      the gateway counts. */
  predicate Recorded(spec: SandboxSpec, key: Key) {
    match key
    case GpuCountKey => spec.gpu && spec.gpuCount.Some?
    case LogLevel => spec.logLevel.Some?
    case ResourcesKey => !SetsNoQuantity(spec.resources)
    case RuntimeClassName => spec.runtimeClassName.Some?
    case Labels => spec.labels != map[]
    case Annotations => spec.annotations != map[]
    case _ => true
  }

  /** So a sandbox that uses none of the later fields keeps the fingerprint it had before
      they were added: one over the first six. */
  lemma LaterFieldsOnlyWhenSet(spec: SandboxSpec, policy: Option<Policy>, key: Key)
    ensures key in ImmutableMaterial(spec, policy) <==> Recorded(spec, key)
  {
    ContentWhenRecorded(spec, policy, key);
  }

  lemma ContentWhenRecorded(spec: SandboxSpec, policy: Option<Policy>, key: Key)
    ensures Content(spec, policy, key).Some? <==> Recorded(spec, key)
    ensures key in ALL_KEYS
  {
    match key
    case Image => case Environment => case Gpu => case LandlockKey => case ProcessKey => case Volumes =>
    case GpuCountKey => case LogLevel => case RuntimeClassName => case Annotations =>
    case ResourcesKey => assert ResourcesJson(spec.resources).Some? <==> !SetsNoQuantity(spec.resources);
    case Labels => assert NonEmptyStrings(spec.labels).Some? <==> spec.labels != map[];
  }

  function FilesystemJson(policy: Option<Policy>): Json {
    if policy.Some? && policy.value.filesystem.Some? then
      var f := policy.value.filesystem.value;
      Object(
        map["includeWorkdir" := Bool(f.includeWorkdir)]
        + Field("readOnly", if f.readOnly == [] then None else Some(StringList(f.readOnly)))
        + Field("readWrite", if f.readWrite == [] then None else Some(StringList(f.readWrite))))
    else Null
  }

  /** The sections converged in place. Without a policy both are `null`. */
  datatype MutableMaterial = MutableMaterial(networkPolicies: Json, filesystem: Json)

  function PolicyMaterial(policy: Option<Policy>): MutableMaterial {
    MutableMaterial(if policy.Some? then Object(policy.value.networkPolicies) else Null, FilesystemJson(policy))
  }

  const NO_POLICY := PolicyMaterial(None)

  lemma StringListsAgree(a: seq<string>, b: seq<string>)
    ensures StringList(a) == StringList(b) <==> a == b
  {
    if StringList(a) == StringList(b) {
      var x, y := StringList(a).items, StringList(b).items;
      assert |a| == |x| == |y| == |b|;
      forall i | 0 <= i < |a| ensures a[i] == b[i] {
        assert x[i] == y[i];
      }
    }
  }

  lemma FilesystemsAgree(p: Policy, q: Policy)
    ensures FilesystemJson(Some(p)) == FilesystemJson(Some(q)) <==> p.filesystem == q.filesystem
  {
    if p.filesystem.Some? && q.filesystem.Some? {
      var f, g := p.filesystem.value, q.filesystem.value;
      StringListsAgree(f.readOnly, g.readOnly);
      StringListsAgree(f.readWrite, g.readWrite);
      var x, y := FilesystemJson(Some(p)).fields, FilesystemJson(Some(q)).fields;
      if x == y {
        assert x["includeWorkdir"] == y["includeWorkdir"];
        assert "readOnly" in x <==> "readOnly" in y;
        assert "readWrite" in x <==> "readWrite" in y;
      }
    }
  }

  /** The second fingerprint stands for the two mutable sections exactly, and a document
      never looks like no document, so removing a policy and adding one back is seen. */
  lemma PolicyFingerprintExact(p: Policy, q: Policy)
    ensures PolicyMaterial(Some(p)) == PolicyMaterial(Some(q)) <==>
      p.networkPolicies == q.networkPolicies && p.filesystem == q.filesystem
    ensures PolicyMaterial(Some(p)) != NO_POLICY
  {
    FilesystemsAgree(p, q);
  }

  // ----- The create request -----

  datatype Template = Template(
    image: string,
    runtimeClassName: string,
    labels: map<string, string>,
    annotations: map<string, string>,
    resources: Option<Struct>,
    driverConfig: Option<Struct>)

  datatype GpuRequirements = GpuRequirements(count: Option<u32>)

  /** The parsed policy is represented by the document it was parsed from. */
  datatype CreateRequest = CreateRequest(
    name: string,
    workspace: string,
    logLevel: string,
    environment: map<string, string>,
    template: Option<Template>,
    policy: Option<Policy>,
    providers: seq<string>,
    gpu: Option<GpuRequirements>)

  function PvcName(sandbox: string, volume: Volume): string {
    sandbox + "-" + volume.name
  }

  function VolumeEntry(sandbox: string, volume: Volume): Json {
    Object(map[
      "name" := String(volume.name),
      "persistent_volume_claim" := Object(map[
        "claim_name" := String(PvcName(sandbox, volume)),
        "read_only" := Bool(volume.readOnly)])])
  }

  function MountEntry(volume: Volume): Json {
    Object(
      map[
        "name" := String(volume.name),
        "mount_path" := String(volume.mountPath),
        "read_only" := Bool(volume.readOnly)]
      + Field("sub_path", Text(volume.subPath)))
  }

  function DriverConfig(sandbox: string, volumes: seq<Volume>): Option<Json> {
    if volumes == [] then None
    else
      var entries := seq(|volumes|, i requires 0 <= i < |volumes| => VolumeEntry(sandbox, volumes[i]));
      var mounts := seq(|volumes|, i requires 0 <= i < |volumes| => MountEntry(volumes[i]));
      Some(Object(map["kubernetes" := Object(map[
        "volumes" := Array(entries),
        "containers" := Object(map["agent" := Object(map["volume_mounts" := Array(mounts)])])])]))
  }

  function OrEmpty(text: Option<string>): string {
    if text.Some? then text.value else ""
  }

  function AsStruct(j: Option<Json>): Option<Struct> {
    if j.Some? then Some(ToStruct(j.value)) else None
  }

  /** The request the gateway receives for a spec and its resolved policy. */
  function RequestFor(name: string, spec: SandboxSpec, policy: Option<Policy>): CreateRequest {
    var driverConfig := DriverConfig(name, spec.volumes);
    var resources := ResourcesJson(spec.resources);
    var needsTemplate :=
      || spec.image.Some? || driverConfig.Some? || resources.Some? || spec.runtimeClassName.Some?
      || spec.labels != map[] || spec.annotations != map[];
    var template :=
      if needsTemplate then
        Some(Template(OrEmpty(spec.image), OrEmpty(spec.runtimeClassName), spec.labels, spec.annotations,
          AsStruct(resources), AsStruct(driverConfig)))
      else None;
    CreateRequest(
      name, WorkspaceName(WorkspaceOf(spec)), OrEmpty(spec.logLevel), spec.environment, template,
      policy, spec.providers, if spec.gpu then Some(GpuRequirements(spec.gpuCount)) else None)
  }

  /** What of a request cannot change on a live sandbox: everything but the providers, the
      workspace, and the policy's version, filesystem and networkPolicies. */
  datatype ImmutableView = ImmutableView(
    name: string,
    logLevel: string,
    environment: map<string, string>,
    template: Option<Template>,
    landlock: Option<Landlock>,
    process: Option<Process>,
    gpu: Option<GpuRequirements>)

  function View(r: CreateRequest): ImmutableView {
    ImmutableView(r.name, r.logLevel, r.environment, r.template, LandlockOf(r.policy), ProcessOf(r.policy), r.gpu)
  }

  // ----- What a request carries -----

  /** The text of a field, "" when unset. */
  predicate Sends(sent: string, field: Option<string>) {
    if field.Some? then sent == field.value else sent == ""
  }

  /** A request carries the spec's own values, unset texts as "", the workspace by name, and
      a GPU count only with a GPU. */
  lemma RequestCarriesSpec(name: string, spec: SandboxSpec, policy: Option<Policy>)
    ensures var r := RequestFor(name, spec, policy);
      && r.name == name && r.environment == spec.environment && r.providers == spec.providers && r.policy == policy
      && Sends(r.logLevel, spec.logLevel)
      && r.workspace == (if spec.workspace in {None, Some("")} then "default" else spec.workspace.value)
      && r.gpu == (if spec.gpu then Some(GpuRequirements(spec.gpuCount)) else None)
  {
  }

  /** There is a template exactly if some field of it is set, and it carries their values. */
  lemma TemplateCarriesSpec(name: string, spec: SandboxSpec, policy: Option<Policy>)
    ensures var template := RequestFor(name, spec, policy).template;
      && (template.None? <==>
            && spec.image.None? && spec.runtimeClassName.None? && spec.labels == map[] && spec.annotations == map[]
            && SetsNoQuantity(spec.resources) && spec.volumes == [])
      && (template.Some? ==>
            && Sends(template.value.image, spec.image)
            && Sends(template.value.runtimeClassName, spec.runtimeClassName)
            && template.value.labels == spec.labels && template.value.annotations == spec.annotations
            && (template.value.resources.None? <==> SetsNoQuantity(spec.resources))
            && (template.value.driverConfig.None? <==> spec.volumes == []))
  {
  }

  /** Exactly the quantities that are set are sent, as texts. */
  predicate CarriesQuantities(v: Value, q: Quantities) {
    && v.StructValue?
    && v.struct.fields.Keys == (if q.cpu.Some? then {"cpu"} else {}) + (if q.memory.Some? then {"memory"} else {})
    && (q.cpu.Some? ==> v.struct.fields["cpu"] == StringValue(q.cpu.value))
    && (q.memory.Some? ==> v.struct.fields["memory"] == StringValue(q.memory.value))
  }

  lemma QuantitiesCarry(q: Quantities)
    ensures CarriesQuantities(ToValue(QuantitiesJson(q)), q)
  {
    ObjectSent(QuantitiesJson(q));
    if q.cpu.Some? { TextSent(q.cpu.value); }
    if q.memory.Some? { TextSent(q.memory.value); }
  }

  lemma SectionsCarry(resources: Resources)
    requires !SetsNoQuantity(Some(resources))
    ensures var j := ResourcesJson(Some(resources));
      && j.Some? && ToStruct(j.value).fields.Keys == j.value.fields.Keys
      && j.value.fields.Keys == (if resources.requests.Some? then {"requests"} else {})
                                + (if resources.limits.Some? then {"limits"} else {})
      && (resources.requests.Some? ==>
            ToStruct(j.value).fields["requests"] == ToValue(QuantitiesJson(resources.requests.value)))
      && (resources.limits.Some? ==>
            ToStruct(j.value).fields["limits"] == ToValue(QuantitiesJson(resources.limits.value)))
  {
    ObjectSent(ResourcesJson(Some(resources)).value);
  }

  /** And likewise the two sections. */
  lemma ResourcesCarry(name: string, spec: SandboxSpec, policy: Option<Policy>)
    requires !SetsNoQuantity(spec.resources)
    ensures var template, resources := RequestFor(name, spec, policy).template, spec.resources.value;
      && template.Some? && template.value.resources.Some?
      && var sent := template.value.resources.value.fields;
         && sent.Keys == (if resources.requests.Some? then {"requests"} else {})
                         + (if resources.limits.Some? then {"limits"} else {})
         && (resources.requests.Some? ==> CarriesQuantities(sent["requests"], resources.requests.value))
         && (resources.limits.Some? ==> CarriesQuantities(sent["limits"], resources.limits.value))
  {
    var resources := spec.resources.value;
    SectionsCarry(resources);
    if resources.requests.Some? { QuantitiesCarry(resources.requests.value); }
    if resources.limits.Some? { QuantitiesCarry(resources.limits.value); }
  }

  // ----- Exactness -----

  /** Which of the three text fields that the request sends as "" when unset are set. */
  predicate SameTextsSet(a: SandboxSpec, b: SandboxSpec) {
    && (a.image.Some? <==> b.image.Some?)
    && (a.logLevel.Some? <==> b.logLevel.Some?)
    && (a.runtimeClassName.Some? <==> b.runtimeClassName.Some?)
  }

  /** Two materials are equal exactly if they record the same under every key. */
  lemma MaterialIsItsContents(a: SandboxSpec, p: Option<Policy>, b: SandboxSpec, q: Option<Policy>)
    ensures ImmutableMaterial(a, p) == ImmutableMaterial(b, q) <==>
      forall key <- ALL_KEYS :: Content(a, p, key) == Content(b, q, key)
  {
    var m, n := ImmutableMaterial(a, p), ImmutableMaterial(b, q);
    if m == n {
      forall key | key in ALL_KEYS ensures Content(a, p, key) == Content(b, q, key) {
        assert key in m <==> key in n;
        assert key in m ==> m[key] == n[key];
      }
    }
  }

  // The values under each key, against the part of the request they stand for.

  lemma TextsAgree(a: Option<string>, b: Option<string>)
    ensures Nullable(a) == Nullable(b) <==> a == b
    ensures Text(a) == Text(b) <==> a == b
    ensures OrEmpty(a) == OrEmpty(b) && (a.Some? <==> b.Some?) <==> a == b
  {
  }

  lemma MapsAgree(a: map<string, string>, b: map<string, string>)
    ensures NonEmptyStrings(a) == NonEmptyStrings(b) <==> a == b
  {
    StringsInjective(a, b);
  }

  lemma LandlocksAgree(p: Option<Policy>, q: Option<Policy>)
    ensures LandlockJson(p) == LandlockJson(q) <==> LandlockOf(p) == LandlockOf(q)
  {
    var a, b := LandlockJson(p), LandlockJson(q);
    if a == b && a.Object? {
      assert a.fields == b.fields;
      assert "compatibility" in a.fields <==> "compatibility" in b.fields;
    }
  }

  lemma ProcessesAgree(p: Option<Policy>, q: Option<Policy>)
    ensures ProcessJson(p) == ProcessJson(q) <==> ProcessOf(p) == ProcessOf(q)
  {
    var a, b := ProcessJson(p), ProcessJson(q);
    if a == b && a.Object? {
      assert a.fields == b.fields;
      assert "runAsUser" in a.fields <==> "runAsUser" in b.fields;
      assert "runAsGroup" in a.fields <==> "runAsGroup" in b.fields;
    }
  }

  lemma QuantitiesExact(section: Option<Quantities>)
    requires section.Some?
    ensures Exact(Section(section).value)
  {
  }

  lemma ResourcesExact(resources: Option<Resources>)
    ensures var j := ResourcesJson(resources); j.Some? ==> j.value.Object? && Exact(j.value)
  {
    if ResourcesJson(resources).Some? {
      var r := resources.value;
      if r.requests.Some? { QuantitiesExact(r.requests); }
      if r.limits.Some? { QuantitiesExact(r.limits); }
    }
  }

  predicate SetsNoQuantity(resources: Option<Resources>) {
    resources.Some? ==>
      && resources.value.requests in {None, Some(Quantities(None, None))}
      && resources.value.limits in {None, Some(Quantities(None, None))}
  }

  /** Alike to the last quantity, or none is set. */
  predicate SameResources(a: Option<Resources>, b: Option<Resources>) {
    a == b || (SetsNoQuantity(a) && SetsNoQuantity(b))
  }

  lemma QuantitiesAgree(a: Quantities, b: Quantities)
    ensures QuantitiesJson(a) == QuantitiesJson(b) <==> a == b
  {
    var x, y := QuantitiesJson(a).fields, QuantitiesJson(b).fields;
    if x == y {
      assert "cpu" in x <==> "cpu" in y;
      assert "memory" in x <==> "memory" in y;
    }
  }

  lemma SectionsAgree(a: Option<Quantities>, b: Option<Quantities>)
    ensures Section(a) == Section(b) <==> a == b
  {
    if a.Some? && b.Some? {
      QuantitiesAgree(a.value, b.value);
    }
  }

  lemma ResourcesRecorded(a: Option<Resources>, b: Option<Resources>)
    ensures ResourcesJson(a) == ResourcesJson(b) <==> SameResources(a, b)
  {
    if ResourcesJson(a).Some? && ResourcesJson(b).Some? {
      SectionsAgree(a.value.requests, b.value.requests);
      SectionsAgree(a.value.limits, b.value.limits);
      var x, y := ResourcesJson(a).value.fields, ResourcesJson(b).value.fields;
      if x == y {
        assert "requests" in x <==> "requests" in y;
        assert "limits" in x <==> "limits" in y;
      }
    }
  }

  /** Resources are equal on the wire exactly if they are alike to the last quantity, or
      none is set. */
  lemma ResourcesAgree(a: Option<Resources>, b: Option<Resources>)
    ensures AsStruct(ResourcesJson(a)) == AsStruct(ResourcesJson(b)) <==> SameResources(a, b)
  {
    ResourcesExact(a);
    ResourcesExact(b);
    ResourcesRecorded(a, b);
    if ResourcesJson(a).Some? && ResourcesJson(b).Some? {
      ToStructInjective(ResourcesJson(a).value, ResourcesJson(b).value);
    }
  }

  /** What of a volume is mounted: everything but the claim. */
  datatype Mount = Mount(name: string, mountPath: string, subPath: Option<string>, readOnly: bool)

  function MountOf(volume: Volume): Mount {
    Mount(volume.name, volume.mountPath, volume.subPath, volume.readOnly)
  }

  predicate SameMounts(a: seq<Volume>, b: seq<Volume>) {
    |a| == |b| && forall i :: 0 <= i < |a| ==> MountOf(a[i]) == MountOf(b[i])
  }

  lemma VolumeEntriesAgree(a: Volume, b: Volume)
    ensures VolumeJson(a) == VolumeJson(b) <==> MountOf(a) == MountOf(b)
  {
    if VolumeJson(a) == VolumeJson(b) {
      assert VolumeJson(a).fields["name"] == VolumeJson(b).fields["name"];
      assert VolumeJson(a).fields["mountPath"] == VolumeJson(b).fields["mountPath"];
      assert VolumeJson(a).fields["subPath"] == VolumeJson(b).fields["subPath"];
      assert VolumeJson(a).fields["readOnly"] == VolumeJson(b).fields["readOnly"];
    }
  }

  lemma VolumesAgree(a: seq<Volume>, b: seq<Volume>)
    ensures VolumesJson(a) == VolumesJson(b) <==> SameMounts(a, b)
  {
    var x, y := VolumesJson(a).items, VolumesJson(b).items;
    forall i | 0 <= i < |a| && i < |b| ensures x[i] == y[i] <==> MountOf(a[i]) == MountOf(b[i]) {
      VolumeEntriesAgree(a[i], b[i]);
    }
    if SameMounts(a, b) {
      assert x == y;
    }
  }

  lemma MountEntriesAgree(a: Volume, b: Volume)
    ensures MountEntry(a) == MountEntry(b) <==> MountOf(a) == MountOf(b)
  {
    if MountEntry(a) == MountEntry(b) {
      assert MountEntry(a).fields["name"] == MountEntry(b).fields["name"];
      assert MountEntry(a).fields["mount_path"] == MountEntry(b).fields["mount_path"];
      assert MountEntry(a).fields["read_only"] == MountEntry(b).fields["read_only"];
      assert "sub_path" in MountEntry(a).fields <==> "sub_path" in MountEntry(b).fields;
    }
  }

  function MountEntries(volumes: seq<Volume>): seq<Json> {
    seq(|volumes|, i requires 0 <= i < |volumes| => MountEntry(volumes[i]))
  }

  function AgentMounts(volumes: seq<Volume>): Json {
    Object(map["agent" := Object(map["volume_mounts" := Array(MountEntries(volumes))])])
  }

  lemma EntriesExact(sandbox: string, volume: Volume)
    ensures Exact(VolumeEntry(sandbox, volume)) && Exact(MountEntry(volume))
  {
    assert Exact(VolumeEntry(sandbox, volume).fields["persistent_volume_claim"]);
  }

  lemma OneFieldExact(key: string, j: Json)
    requires Exact(j)
    ensures Exact(Object(map[key := j]))
  {
  }

  lemma AgentMountsExact(volumes: seq<Volume>)
    ensures Exact(AgentMounts(volumes))
  {
    forall i | 0 <= i < |volumes| ensures Exact(MountEntries(volumes)[i]) {
      EntriesExact("", volumes[i]);
    }
    OneFieldExact("volume_mounts", Array(MountEntries(volumes)));
    OneFieldExact("agent", Object(map["volume_mounts" := Array(MountEntries(volumes))]));
  }

  /** The mounts inside a driver configuration. */
  lemma DriverMounts(sandbox: string, volumes: seq<Volume>)
    requires volumes != []
    ensures var d := DriverConfig(sandbox, volumes).value;
      && d.Object? && Exact(d) && "kubernetes" in d.fields
      && d.fields["kubernetes"].Object? && "containers" in d.fields["kubernetes"].fields
      && d.fields["kubernetes"].fields["containers"] == AgentMounts(volumes)
  {
    var entries := seq(|volumes|, i requires 0 <= i < |volumes| => VolumeEntry(sandbox, volumes[i]));
    forall i | 0 <= i < |volumes| ensures Exact(entries[i]) {
      EntriesExact(sandbox, volumes[i]);
    }
    AgentMountsExact(volumes);
    var driver := Object(map["volumes" := Array(entries), "containers" := AgentMounts(volumes)]);
    OneFieldExact("kubernetes", driver);
    assert DriverConfig(sandbox, volumes) == Some(Object(map["kubernetes" := driver]));
  }

  lemma DriversAgree(sandbox: string, a: seq<Volume>, b: seq<Volume>)
    ensures AsStruct(DriverConfig(sandbox, a)) == AsStruct(DriverConfig(sandbox, b)) <==> SameMounts(a, b)
  {
    if a != [] && b != [] {
      DriverMounts(sandbox, a);
      DriverMounts(sandbox, b);
      ToStructInjective(DriverConfig(sandbox, a).value, DriverConfig(sandbox, b).value);
      if DriverConfig(sandbox, a) == DriverConfig(sandbox, b) {
        MountListsAgree(a, b);
      }
      if SameMounts(a, b) {
        SameDriver(sandbox, a, b);
      }
    }
  }

  lemma MountListsAgree(a: seq<Volume>, b: seq<Volume>)
    requires AgentMounts(a) == AgentMounts(b)
    ensures SameMounts(a, b)
  {
    var x := map["volume_mounts" := Array(MountEntries(a))];
    var y := map["volume_mounts" := Array(MountEntries(b))];
    assert map["agent" := Object(x)]["agent"] == map["agent" := Object(y)]["agent"];
    assert x["volume_mounts"] == y["volume_mounts"];
    assert |a| == |MountEntries(a)| == |MountEntries(b)| == |b|;
    forall i | 0 <= i < |a| ensures MountOf(a[i]) == MountOf(b[i]) {
      assert MountEntries(a)[i] == MountEntries(b)[i];
      MountEntriesAgree(a[i], b[i]);
    }
  }

  lemma SameDriver(sandbox: string, a: seq<Volume>, b: seq<Volume>)
    requires SameMounts(a, b) && a != []
    ensures DriverConfig(sandbox, a) == DriverConfig(sandbox, b)
  {
    var x := seq(|a|, i requires 0 <= i < |a| => VolumeEntry(sandbox, a[i]));
    var y := seq(|b|, i requires 0 <= i < |b| => VolumeEntry(sandbox, b[i]));
    forall i | 0 <= i < |a| ensures x[i] == y[i] && MountEntries(a)[i] == MountEntries(b)[i] {
      assert MountOf(a[i]) == MountOf(b[i]);
    }
    assert x == y && MountEntries(a) == MountEntries(b);
  }

  /** The template, seen as a whole: which of its parts are equal. */
  lemma TemplatesAgree(name: string, a: SandboxSpec, p: Option<Policy>, b: SandboxSpec, q: Option<Policy>)
    requires a.image.Some? <==> b.image.Some?
    requires a.runtimeClassName.Some? <==> b.runtimeClassName.Some?
    ensures RequestFor(name, a, p).template == RequestFor(name, b, q).template <==>
      && a.image == b.image && a.runtimeClassName == b.runtimeClassName
      && a.labels == b.labels && a.annotations == b.annotations
      && SameResources(a.resources, b.resources)
      && SameMounts(a.volumes, b.volumes)
  {
    TextsAgree(a.image, b.image);
    TextsAgree(a.runtimeClassName, b.runtimeClassName);
    ResourcesAgree(a.resources, b.resources);
    DriversAgree(name, a.volumes, b.volumes);
  }

  function LandlockOf(policy: Option<Policy>): Option<Landlock> {
    if policy.Some? then policy.value.landlock else None
  }

  function ProcessOf(policy: Option<Policy>): Option<Process> {
    if policy.Some? then policy.value.process else None
  }

  /** The part of spec and policy recorded under a key. */
  predicate SamePart(a: SandboxSpec, p: Option<Policy>, b: SandboxSpec, q: Option<Policy>, key: Key) {
    match key
    case Image => a.image == b.image
    case Environment => a.environment == b.environment
    case Gpu => a.gpu == b.gpu
    case LandlockKey => LandlockOf(p) == LandlockOf(q)
    case ProcessKey => ProcessOf(p) == ProcessOf(q)
    case Volumes => SameMounts(a.volumes, b.volumes)
    case GpuCountKey => GpuCount(a) == GpuCount(b)
    case LogLevel => a.logLevel == b.logLevel
    case ResourcesKey => SameResources(a.resources, b.resources)
    case RuntimeClassName => a.runtimeClassName == b.runtimeClassName
    case Labels => a.labels == b.labels
    case Annotations => a.annotations == b.annotations
  }

  lemma PartsAgree(a: SandboxSpec, p: Option<Policy>, b: SandboxSpec, q: Option<Policy>, key: Key)
    ensures Content(a, p, key) == Content(b, q, key) <==> SamePart(a, p, b, q, key)
  {
    match key
    case Image => TextsAgree(a.image, b.image);
    case Environment => StringsInjective(a.environment, b.environment);
    case LandlockKey => LandlocksAgree(p, q);
    case ProcessKey => ProcessesAgree(p, q);
    case Volumes => VolumesAgree(a.volumes, b.volumes);
    case LogLevel => TextsAgree(a.logLevel, b.logLevel);
    case ResourcesKey => ResourcesRecorded(a.resources, b.resources);
    case RuntimeClassName => TextsAgree(a.runtimeClassName, b.runtimeClassName);
    case Labels => MapsAgree(a.labels, b.labels);
    case Annotations => MapsAgree(a.annotations, b.annotations);
    case _ =>
  }

  predicate SameParts(a: SandboxSpec, p: Option<Policy>, b: SandboxSpec, q: Option<Policy>) {
    && a.image == b.image && a.environment == b.environment && a.gpu == b.gpu
    && LandlockOf(p) == LandlockOf(q) && ProcessOf(p) == ProcessOf(q)
    && SameMounts(a.volumes, b.volumes) && GpuCount(a) == GpuCount(b) && a.logLevel == b.logLevel
    && SameResources(a.resources, b.resources)
    && a.runtimeClassName == b.runtimeClassName && a.labels == b.labels && a.annotations == b.annotations
  }

  lemma PartByPart(a: SandboxSpec, p: Option<Policy>, b: SandboxSpec, q: Option<Policy>)
    ensures (forall key <- ALL_KEYS :: SamePart(a, p, b, q, key)) <==> SameParts(a, p, b, q)
  {
    if forall key <- ALL_KEYS :: SamePart(a, p, b, q, key) {
      assert SamePart(a, p, b, q, Image) && SamePart(a, p, b, q, Environment) && SamePart(a, p, b, q, Gpu);
      assert SamePart(a, p, b, q, LandlockKey) && SamePart(a, p, b, q, ProcessKey) && SamePart(a, p, b, q, Volumes);
      assert SamePart(a, p, b, q, GpuCountKey) && SamePart(a, p, b, q, LogLevel) && SamePart(a, p, b, q, ResourcesKey);
      assert SamePart(a, p, b, q, RuntimeClassName) && SamePart(a, p, b, q, Labels);
      assert SamePart(a, p, b, q, Annotations);
    }
  }

  lemma MaterialIsItsParts(a: SandboxSpec, p: Option<Policy>, b: SandboxSpec, q: Option<Policy>)
    ensures ImmutableMaterial(a, p) == ImmutableMaterial(b, q) <==> SameParts(a, p, b, q)
  {
    MaterialIsItsContents(a, p, b, q);
    PartByPart(a, p, b, q);
    forall key | key in ALL_KEYS ensures Content(a, p, key) == Content(b, q, key) <==> SamePart(a, p, b, q, key) {
      PartsAgree(a, p, b, q, key);
    }
  }

  lemma ViewIsItsParts(name: string, a: SandboxSpec, p: Option<Policy>, b: SandboxSpec, q: Option<Policy>)
    requires SameTextsSet(a, b)
    ensures View(RequestFor(name, a, p)) == View(RequestFor(name, b, q)) <==> SameParts(a, p, b, q)
  {
    TemplatesAgree(name, a, p, b, q);
    TextsAgree(a.logLevel, b.logLevel);
  }

  /** The fingerprint is exact: it stands still exactly when the create request stays the
      same outside what is converged in place, and none of image, logLevel and
      runtimeClassName goes from unset to set or back. */
  lemma FingerprintExact(name: string, a: SandboxSpec, p: Option<Policy>, b: SandboxSpec, q: Option<Policy>)
    ensures ImmutableMaterial(a, p) == ImmutableMaterial(b, q) <==>
      View(RequestFor(name, a, p)) == View(RequestFor(name, b, q)) && SameTextsSet(a, b)
  {
    MaterialIsItsParts(a, p, b, q);
    if SameTextsSet(a, b) {
      ViewIsItsParts(name, a, p, b, q);
    }
  }

  /** Where the fingerprint is not normalised: with a label set, an empty image and no image
      give the same request but different material, so the edit recreates the sandbox and
      changes nothing. */
  lemma EmptyImageMovesFingerprint(name: string, spec: SandboxSpec, policy: Option<Policy>)
    requires spec.labels != map[]
    ensures var a, b := spec.(image := None), spec.(image := Some(""));
      && RequestFor(name, a, policy) == RequestFor(name, b, policy)
      && ImmutableMaterial(a, policy) != ImmutableMaterial(b, policy)
  {
    var a, b := spec.(image := None), spec.(image := Some(""));
    FingerprintExact(name, a, policy, b, policy);
  }

  /** Without empty strings the fingerprint stands for the request both ways. */
  lemma FingerprintStandsForRequest(name: string, a: SandboxSpec, p: Option<Policy>, b: SandboxSpec, q: Option<Policy>)
    requires forall spec <- {a, b} ::
      spec.image != Some("") && spec.logLevel != Some("") && spec.runtimeClassName != Some("")
    ensures ImmutableMaterial(a, p) == ImmutableMaterial(b, q) <==>
      View(RequestFor(name, a, p)) == View(RequestFor(name, b, q))
  {
    FingerprintExact(name, a, p, b, q);
    assert a in {a, b} && b in {a, b};
    var r, s := RequestFor(name, a, p), RequestFor(name, b, q);
    if View(r) == View(s) {
      assert r.template == s.template && r.logLevel == s.logLevel;
    }
  }
}
