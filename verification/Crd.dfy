/** The custom resource fields the sandbox controller reads. */
module Crd {
  import opened Wrappers
  import Json

  type u32 = n: nat | n < 0x1_0000_0000

  datatype Quantities = Quantities(cpu: Option<string>, memory: Option<string>)

  datatype Resources = Resources(requests: Option<Quantities>, limits: Option<Quantities>)

  /** The claim body is passed through; only its volume mode is looked at. */
  datatype Claim = Claim(volumeMode: Option<string>, body: Json.Json)

  datatype Volume = Volume(name: string, mountPath: string, subPath: Option<string>, readOnly: bool, claim: Claim)

  datatype Retention = Retain | Delete

  datatype Filesystem = Filesystem(includeWorkdir: bool, readOnly: seq<string>, readWrite: seq<string>)

  datatype Landlock = Landlock(compatibility: string)

  datatype Process = Process(runAsUser: string, runAsGroup: string)

  datatype Policy = Policy(
    version: u32,
    filesystem: Option<Filesystem>,
    landlock: Option<Landlock>,
    process: Option<Process>,
    networkPolicies: map<string, Json.Json>)

  datatype SandboxSpec = SandboxSpec(
    image: Option<string>,
    environment: map<string, string>,
    providers: seq<string>,
    gpu: bool,
    gpuCount: Option<u32>,
    policy: Option<Policy>,
    policyRef: Option<string>,
    volumes: seq<Volume>,
    retention: Retention,
    logLevel: Option<string>,
    resources: Option<Resources>,
    runtimeClassName: Option<string>,
    labels: map<string, string>,
    annotations: map<string, string>,
    workspace: Option<string>)

  /** The gateway workspace of a spec; empty when unset. */
  function WorkspaceOf(spec: SandboxSpec): string {
    if spec.workspace.Some? then spec.workspace.value else ""
  }

  const DEFAULT_WORKSPACE := "default"

  function WorkspaceName(workspace: string): string {
    if workspace == "" then DEFAULT_WORKSPACE else workspace
  }
}
