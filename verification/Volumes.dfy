/** Volume plumbing: which volume lists are accepted, the PVCs they become and the driver
    configuration that mounts them. */
module Volumes {
  import opened Wrappers
  import opened Json
  import opened Crd
  import opened Fingerprint

  datatype VolumeError = EmptyName | DuplicateName(name: string) | RelativeMount(name: string) | BlockMode(name: string)

  predicate IsSpace(c: char) {
    || '\t' <= c <= '\r' || c == ' ' || c == '\U{85}' || c == '\U{A0}' || c == '\U{1680}'
    || '\U{2000}' <= c <= '\U{200A}' || c == '\U{2028}' || c == '\U{2029}' || c == '\U{202F}'
    || c == '\U{205F}' || c == '\U{3000}'
  }

  /** The characters that count as white space, one by one. */
  lemma SpacesAre(c: char)
    ensures IsSpace(c) <==> c as int in {
      9, 10, 11, 12, 13, 32, 0x85, 0xA0, 0x1680, 0x2000, 0x2001, 0x2002, 0x2003, 0x2004, 0x2005, 0x2006, 0x2007,
      0x2008, 0x2009, 0x200A, 0x2028, 0x2029, 0x202F, 0x205F, 0x3000}
  {
  }

  predicate Blank(name: string) {
    forall c <- name :: IsSpace(c)
  }

  predicate Absolute(path: string) {
    path != "" && path[0] == '/'
  }

  predicate IsBlock(volume: Volume) {
    volume.claim.volumeMode == Some("Block")
  }

  predicate Sound(volume: Volume) {
    !Blank(volume.name) && Absolute(volume.mountPath) && !IsBlock(volume)
  }

  predicate NameTaken(volumes: seq<Volume>, i: nat)
    requires i < |volumes|
  {
    exists j :: 0 <= j < i && volumes[j].name == volumes[i].name
  }

  /** Every volume is sound and no name comes twice. */
  predicate Accepted(volumes: seq<Volume>) {
    forall i: nat :: i < |volumes| ==> Sound(volumes[i]) && !NameTaken(volumes, i)
  }

  /** The error the first unacceptable volume is rejected with. */
  predicate RejectedWith(volumes: seq<Volume>, i: nat, e: VolumeError)
    requires i < |volumes|
  {
    var v := volumes[i];
    if Blank(v.name) then e == EmptyName
    else if NameTaken(volumes, i) then e == DuplicateName(v.name)
    else if !Absolute(v.mountPath) then e == RelativeMount(v.name)
    else IsBlock(v) && e == BlockMode(v.name)
  }

  /** And it is the first. */
  ghost predicate Rejects(volumes: seq<Volume>, e: VolumeError) {
    exists i: nat :: i < |volumes| && Accepted(volumes[..i]) && RejectedWith(volumes, i, e)
  }

  method Validate(volumes: seq<Volume>) returns (r: Result<(), VolumeError>)
    ensures r.Ok? <==> Accepted(volumes)
    ensures r.Err? ==> Rejects(volumes, r.error)
  {
    var seen: set<string> := {};
    for i := 0 to |volumes|
      invariant forall name :: name in seen <==> exists j :: 0 <= j < i && volumes[j].name == name
      invariant forall j: nat :: j < i ==> Sound(volumes[j]) && !NameTaken(volumes, j)
    {
      var volume := volumes[i];
      assert volume.name in seen <==> NameTaken(volumes, i);
      assert Accepted(volumes[..i]) by {
        forall j: nat | j < i ensures !NameTaken(volumes[..i], j) {
          assert !NameTaken(volumes, j);
        }
      }
      if forall c <- volume.name :: IsSpace(c) {
        assert RejectedWith(volumes, i, EmptyName);
        return Err(EmptyName);
      }
      if volume.name in seen {
        assert RejectedWith(volumes, i, DuplicateName(volume.name));
        return Err(DuplicateName(volume.name));
      }
      seen := seen + {volume.name};
      if volume.mountPath == "" || volume.mountPath[0] != '/' {
        assert RejectedWith(volumes, i, RelativeMount(volume.name));
        return Err(RelativeMount(volume.name));
      }
      if volume.claim.volumeMode == Some("Block") {
        assert RejectedWith(volumes, i, BlockMode(volume.name));
        return Err(BlockMode(volume.name));
      }
    }
    return Ok(());
  }

  // ----- PVCs -----

  const ATTACHABLE_LABEL := "openshell.ai/sandbox-attachable"
  const ATTACHABLE_WORKSPACE_LABEL := "openshell.ai/sandbox-attachable-workspace"
  const MANAGED_BY_LABEL := "app.kubernetes.io/managed-by"
  const MANAGED_BY_VALUE := "openshell-operator"
  const SANDBOX_LABEL := "openshell.lenshq.io/sandbox"

  function AdmissionLabels(workspace: string): map<string, string> {
    map[ATTACHABLE_LABEL := "true", ATTACHABLE_WORKSPACE_LABEL := WorkspaceName(workspace)]
  }

  predicate HasLabels(labels: map<string, string>, wanted: map<string, string>) {
    forall k <- wanted :: k in labels && labels[k] == wanted[k]
  }

  /** A claim with the identity the API server gave it. */
  datatype Pvc = Pvc(uid: nat, claim: Claim, labels: map<string, string>)

  function PvcLabels(sandbox: string, workspace: string): map<string, string> {
    AdmissionLabels(workspace)[MANAGED_BY_LABEL := MANAGED_BY_VALUE][SANDBOX_LABEL := sandbox]
  }

  // What the labels are to say, label by label.

  /** The gateway attaches a PVC with these labels to sandboxes of the workspace, and only to
      those; "" is the workspace called default. */
  predicate Attachable(labels: map<string, string>, workspace: string) {
    && "openshell.ai/sandbox-attachable" in labels && labels["openshell.ai/sandbox-attachable"] == "true"
    && "openshell.ai/sandbox-attachable-workspace" in labels
    && labels["openshell.ai/sandbox-attachable-workspace"] == if workspace == "" then "default" else workspace
  }

  predicate AdmissionLabel(key: string) {
    key == "openshell.ai/sandbox-attachable" || key == "openshell.ai/sandbox-attachable-workspace"
  }

  /** Apart from the two admission labels nothing is added, changed or removed. */
  predicate OtherLabelsKept(before: map<string, string>, after: map<string, string>) {
    && (forall k <- before :: AdmissionLabel(k) || (k in after && after[k] == before[k]))
    && (forall k <- after :: AdmissionLabel(k) || k in before)
  }

  /** Labels of a PVC provisioned for this sandbox: managed by the operator, found again by
      the sandbox's name, and attachable. */
  predicate ProvisionedFor(labels: map<string, string>, sandbox: string, workspace: string) {
    && Attachable(labels, workspace)
    && "app.kubernetes.io/managed-by" in labels && labels["app.kubernetes.io/managed-by"] == "openshell-operator"
    && "openshell.lenshq.io/sandbox" in labels && labels["openshell.lenshq.io/sandbox"] == sandbox
    && |labels| == 4
  }

  lemma PvcLabelsAdmit(sandbox: string, workspace: string)
    ensures ProvisionedFor(PvcLabels(sandbox, workspace), sandbox, workspace)
  {
    var labels := PvcLabels(sandbox, workspace);
    assert labels.Keys == {ATTACHABLE_LABEL, ATTACHABLE_WORKSPACE_LABEL, MANAGED_BY_LABEL, SANDBOX_LABEL};
    assert |labels| == |labels.Keys|;
  }

  /** The check for the admission labels, and the patch that adds them, do what they are for. */
  lemma LabelledAdmits(labels: map<string, string>, workspace: string)
    ensures HasLabels(labels, AdmissionLabels(workspace)) <==> Attachable(labels, workspace)
    ensures Attachable(labels + AdmissionLabels(workspace), workspace)
    ensures OtherLabelsKept(labels, labels + AdmissionLabels(workspace))
  {
    var wanted := AdmissionLabels(workspace);
    assert wanted.Keys == {ATTACHABLE_LABEL, ATTACHABLE_WORKSPACE_LABEL};
  }

  lemma PvcNamesInjective(sandbox: string, a: Volume, b: Volume)
    ensures PvcName(sandbox, a) == PvcName(sandbox, b) <==> a.name == b.name
  {
    var prefix := sandbox + "-";
    assert PvcName(sandbox, a)[|prefix|..] == a.name;
    assert PvcName(sandbox, b)[|prefix|..] == b.name;
  }

  /** The volumes of an accepted list get claims of their own. */
  lemma PvcNamesDistinct(sandbox: string, volumes: seq<Volume>, i: nat, j: nat)
    requires Accepted(volumes) && i < j < |volumes|
    ensures PvcName(sandbox, volumes[i]) != PvcName(sandbox, volumes[j])
  {
    assert !NameTaken(volumes, j);
    PvcNamesInjective(sandbox, volumes[i], volumes[j]);
  }

  /** Volumes of two sandboxes share a claim exactly when both names agree, or the longer
      sandbox name is the shorter one, a dash, and what the other volume's name starts with. */
  lemma PvcNamesAcrossSandboxes(sandbox: string, a: Volume, other: string, b: Volume)
    requires |sandbox| <= |other|
    ensures PvcName(sandbox, a) == PvcName(other, b) <==>
      if |sandbox| == |other| then sandbox == other && a.name == b.name
      else sandbox + "-" <= other && a.name == other[|sandbox| + 1..] + "-" + b.name
  {
    var n := |sandbox|;
    var left, right := PvcName(sandbox, a), PvcName(other, b);
    if n == |other| {
      assert left[..n] == sandbox && left[n + 1..] == a.name;
      assert right[..n] == other && right[n + 1..] == b.name;
    } else {
      assert left[..n + 1] == sandbox + "-" && left[n + 1..] == a.name;
      assert right[..n + 1] == other[..n + 1] && right[n + 1..] == other[n + 1..] + "-" + b.name;
      assert left == left[..n + 1] + left[n + 1..] && right == right[..n + 1] + right[n + 1..];
    }
  }

  /** Such names exist. */
  lemma PvcNamesMeet(a: Volume, b: Volume)
    requires a.name == "cache-data" && b.name == "data"
    ensures PvcName("dev", a) == PvcName("dev-cache", b) == "dev-cache-data"
  {
  }

  // ----- The driver configuration refers to them -----

  function Item(j: Json, key: string): Json {
    if j.Object? && key in j.fields then j.fields[key] else Null
  }

  function Items(j: Json): seq<Json> {
    if j.Array? then j.items else []
  }

  function DeclaredVolumes(config: Json): seq<Json> {
    Items(Item(Item(config, "kubernetes"), "volumes"))
  }

  function MountedVolumes(config: Json): seq<Json> {
    Items(Item(Item(Item(Item(config, "kubernetes"), "containers"), "agent"), "volume_mounts"))
  }

  function ClaimName(entry: Json): Json {
    Item(Item(entry, "persistent_volume_claim"), "claim_name")
  }

  function VolumeEntries(sandbox: string, volumes: seq<Volume>): seq<Json> {
    seq(|volumes|, i requires 0 <= i < |volumes| => VolumeEntry(sandbox, volumes[i]))
  }

  lemma DriverLists(sandbox: string, volumes: seq<Volume>)
    requires volumes != []
    ensures var config := DriverConfig(sandbox, volumes).value;
      DeclaredVolumes(config) == VolumeEntries(sandbox, volumes) && MountedVolumes(config) == MountEntries(volumes)
  {
  }

  lemma EntryFields(sandbox: string, volume: Volume)
    ensures Item(VolumeEntry(sandbox, volume), "name") == String(volume.name)
    ensures ClaimName(VolumeEntry(sandbox, volume)) == String(PvcName(sandbox, volume))
    ensures Item(MountEntry(volume), "name") == String(volume.name)
    ensures Item(MountEntry(volume), "mount_path") == String(volume.mountPath)
    ensures MountOptions(MountEntry(volume), VolumeEntry(sandbox, volume), volume)
  {
  }

  /** Mounted read-only, and from a path within, as the volume says. */
  predicate MountOptions(mount: Json, declared: Json, volume: Volume) {
    && Item(mount, "read_only") == Bool(volume.readOnly)
    && Item(Item(declared, "persistent_volume_claim"), "read_only") == Bool(volume.readOnly)
    && Item(mount, "sub_path") == if volume.subPath.Some? then String(volume.subPath.value) else Null
  }

  /** Mount `i` puts the PVC of volume `i` at its path. */
  predicate MountServes(sandbox: string, volumes: seq<Volume>, mount: Json, declared: Json, i: nat)
    requires i < |volumes|
  {
    && Item(mount, "mount_path") == String(volumes[i].mountPath)
    && Item(mount, "name") == Item(declared, "name")
    && ClaimName(declared) == String(PvcName(sandbox, volumes[i]))
    && MountOptions(mount, declared, volumes[i])
  }

  /** Every mount of an accepted list names exactly one declared volume, which is attached
      from the PVC provisioned for it, and carries that volume's path. */
  lemma MountsResolve(sandbox: string, volumes: seq<Volume>)
    requires Accepted(volumes) && volumes != []
    ensures var config := DriverConfig(sandbox, volumes).value;
      var declared, mounts := DeclaredVolumes(config), MountedVolumes(config);
      && |declared| == |mounts| == |volumes|
      && (forall i: nat :: i < |mounts| ==> MountServes(sandbox, volumes, mounts[i], declared[i], i))
      && (forall i: nat, j: nat ::
            i < |mounts| && j < |declared| && Item(mounts[i], "name") == Item(declared[j], "name") ==> i == j)
  {
    DriverLists(sandbox, volumes);
    var declared, mounts := VolumeEntries(sandbox, volumes), MountEntries(volumes);
    forall i: nat | i < |mounts| ensures MountServes(sandbox, volumes, mounts[i], declared[i], i) {
      EntryFields(sandbox, volumes[i]);
    }
    forall i: nat, j: nat | i < |mounts| && j < |declared| && Item(mounts[i], "name") == Item(declared[j], "name")
      ensures i == j
    {
      EntryFields(sandbox, volumes[i]);
      EntryFields(sandbox, volumes[j]);
      assert !NameTaken(volumes, i) && !NameTaken(volumes, j);
    }
  }
}
