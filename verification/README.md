# OpenShell operator: verified models

This project models the parts of the OpenShell Kubernetes operator (and of the issuer beside
it) that keep state consistent while calls fail, answers are lost and replicas overlap, and
proves what they keep. `dafny verify dfyconfig.toml` checks everything.

| modules | subject |
|---|---|
| `Lease`, `LeaseProtocol`, `LeaseRefinement`, `LeaseSafety`, `LeaseTiming` | leader election over a Lease: one replica's code, all replicas as a state machine, safety, real-time bounds |
| `Json`, `Crd`, `Fingerprint` | the create request of a sandbox and the two fingerprints standing for it |
| `SandboxDrift`, `SandboxEdits`, `SandboxCourse` | reconciles of one sandbox interleaved call by call, the moments its spec and its policies may be edited in, and what a reconcile on its own comes to |
| `Volumes`, `Sandbox` | volume plumbing, and the sandbox controller as it changes gateway, PVCs and status |
| `Utf8`, `Credentials`, `ProviderSync`, `HashFraming` | provider credentials: selection, plan, sync, change hash |
| `Members` | workspace members on a gateway whose add is create-only |
| `Mint` | publication of the operator's token and its verification key |
| `WebhookCert` | agreement of all replicas on one webhook serving certificate |

## How the system is represented

- Code that changes a store becomes a class whose methods are proved against what the store
  holds afterwards; a call's fate (`Fine`, `Failed`: no effect, `AnswerLost`: effect but an
  error) is drawn from an arbitrary list, so every contract covers every pattern of
  failures; a ghost counter of the failures shows that none is swallowed.
- Code that several replicas or reconciles run at once becomes a state machine with one action
  per call. Requests may be delayed, may be lost, and may take effect after their sender gave up.
- Clock readings, stamps, generated keys and certificates, the outcome of policy lookup and
  parsing, and everything written by others are arguments or actions.
- A 64-bit hash is represented by the material it is taken of.

## Assumptions

- Wall-clock stamps never repeat, and only electors write the Lease. Without either, an unchanged
  `renewTime` says nothing about whether the holder has written.
- `leaseTransitions` does not overflow 32 bits.
- In `LeaseTiming` an attempt takes at most `l` seconds and a loop sleeps exactly RETRY_PERIOD.
- The hash of the fingerprints is injective on the materials that occur.
- The gateway's workspace of a sandbox does not change (the resource declares it immutable).
- In `Mint`, runs do not overlap; a generated key or CA differs from all earlier ones. Up to
  `OldUrlNeverRepairs` a write takes effect at once or never; `VerifiesThroughout` drops that, and
  says exactly which late writes are harmless.
- Nobody deletes or edits the webhook's certificate Secret.

## Where the code differs from what is written about it

- Leader election has a branch for re-taking a lapsed lease while leading
  (`crates/operator/src/leader.rs:238-244`). It cannot be reached: `LeaderNeverAcquires`.
- Reconciles are called harmless when they overlap (`crates/operator/src/leader.rs:14-16`), and
  drift is measured against recorded hashes. That holds as long as nothing is edited, and for edits
  that come in harmless states. An edit of the spec is harmless when no create or update is under way
  or yet to be sent, and every hash that is recorded, on its way to be recorded, or may still be
  recorded, is true of the sandbox (`SandboxDrift.Harmless`). A policy referred to by name is read
  only after the gateway was looked at (`crates/operator/src/controllers/sandbox.rs:263-264`), so a
  reconcile under way may still see an edit of it; `SandboxDrift.PolicyHarmless` says which edits
  that makes harmless and which not. Both conditions are exact: for every state reachable by runs
  whose earlier edits came in harmless states, all edits are survived, whatever then happens,
  exactly if the state is harmless (`SafeSpecEdits`, `SafePolicyEdits`); deleting a policy is always
  survived (`SafeDeletions`). The shortest failures are a first create whose status write is lost
  followed by one edit (`UnrecordedCreateLosesDrift`), an edit whose recreate goes unrecorded
  followed by the edit back (`EditBackLosesDrift`), and, with everything as wanted and recorded, an
  edit of the policy while a reconcile that started before anything was recorded stands between
  looking at the gateway and reading the policy (`PolicyEditLosesDrift`).
- The fingerprint is said to be taken over the values sent, so that a field set but empty moves
  nothing (`docs/architecture.md:162-165`). An empty image, log level or runtime
  class is not normalised, so setting one recreates a sandbox to the same request:
  `EmptyImageMovesFingerprint`; `FingerprintExact` says exactly when.
- A credential with no material supplied is said to be simply unused
  (`crates/operator/src/credentials.rs:148-150`). If all its material is optional it is configured
  nevertheless, with no seed, and the mode becomes Mixed: `NothingSupplied`,
  `UnusedCredentialConfigured`.
- A token Secret is said to imply its key is served (`crates/issuer/src/mint.rs:200-204`). That
  holds for runs of one issuer URL whose writes take effect at once or never (`TokenImpliesKey`). A
  run for another URL that stops between its two writes breaks it, and going back to the old URL
  never repairs it: `ServedThroughout`, `OldUrlNeverRepairs`, `SwitchAndBackLosesToken`. So does a
  write that timed out and lands after a retry has published: `VerifiesThroughout`,
  `LateKeySetLosesToken`.
- The stream hashed for a provider is said to separate its two maps
  (`crates/operator/src/controllers/provider.rs:321`). Two streams are equal exactly if both maps
  are, or one side has no credentials and the other an unnamed one whose entries, paired up one
  place along, are the first side's configuration: `StreamStandsForMaps`. Kubernetes admits no empty
  key in a Secret, so no credential map that `resolve_credentials` returns has one, and the stream
  separates all maps that occur.
- PVC names are derived from names only (`crates/operator/src/volumes.rs:76-82`). Within a sandbox
  they are distinct; across two sandboxes they can meet, and `PvcNamesAcrossSandboxes` says when.

## Model

| member | source | states |
|---|---|---|
| Lease.Tracker.Observe | crates/operator/src/leader.rs:114-127 | the timer restarts exactly when the stamp read differs from the one remembered, and otherwise tells how long that one has stood still |
| Lease.LeaseServer.Write | crates/operator/src/leader.rs:157-172 | a write lands exactly if it is sent and the version it was read at is current; a stale one is answered by a conflict |
| Lease.Elector.Step | crates/operator/src/leader.rs:140-178 | one attempt, with any peer writes before its read and between its read and its write and any failing call, has the outcome, timer and lease of the specification: it waits, renews or acquires by the holder and the timer, and a conflict is a wait |
| Lease.Elector.Campaign | crates/operator/src/leader.rs:213-230 | retries until an attempt renews or acquires, and only then leads; a first attempt that is clean and finds the lease free is enough |
| Lease.CampaigningAttempt | crates/operator/src/leader.rs:213-230 | a campaigning replica leads, counting from the end of the attempt, exactly after an attempt in which no call fails and no peer writes in between, on a lease that is absent, unheld, its own, or unchanged for LEASE_DURATION |
| Lease.Elector.KeepLeadership | crates/operator/src/leader.rs:232-257 | leads through every attempt until one waits or fails a full lease after the last renewal, then stops |
| Lease.LeadingAttempt | crates/operator/src/leader.rs:232-257 | after such an attempt a leading replica goes on; it stops at once on a lease that is not free or a conflict, and after a failed attempt exactly if its last renewal is LEASE_DURATION ago |
| Lease.CleanAttemptWrites | crates/operator/src/leader.rs:195-210 | whoever wrote the lease before, such an attempt leaves this holder, the stamp, the duration, the holder changes counted on, and the start of the tenure kept or stamped |
| Lease.AttemptSetsTimer | crates/operator/src/leader.rs:114-127 | what an attempt has read keeps the timer running or starts it anew |
| LeaseRefinement.AttemptIsSegment | crates/operator/src/leader.rs:140-178 | every attempt of the code, a process's first one included, whatever fails and whatever runs of the protocol the others make before its read and between its read and its write, is a sequence of actions of the protocol that ends in the code's standing, timer and lease |
| LeaseRefinement.LifeIsSegment | crates/operator/src/leader.rs:213-257 | however many attempts a process makes, campaigning and leading, the protocol leads from where it starts to where its code puts it |
| LeaseRefinement.PeerWritesTwice | crates/operator/src/leader.rs:140-178 | from an initial state, a peer can win and renew the lease while another process waits for the answer to its read |
| LeaseRefinement.RunGoesOn | crates/operator/src/leader.rs:213-257 | such a sequence prolongs any run that ends where it starts |
| LeaseRefinement.AnyoneCanLead | crates/operator/src/leader.rs:213-230 | from every state, whatever is under way, each process can come to lead within LEASE_DURATION |
| LeaseSafety.JudgementOk | crates/operator/src/leader.rs:81-95 | the write a replica sends after a read carries the spec the version it read calls for, and takes the lease from a peer only a full lease after that peer's write |
| LeaseSafety.NextKeeps | crates/operator/src/leader.rs:140-257 | every action of every replica, and every late or refused write, keeps the safety invariant |
| LeaseSafety.TakeoverSpacing | crates/operator/src/leader.rs:16-18 | in every run, a landed write that changes the holder lands at least LEASE_DURATION after the displaced holder's last landed write |
| LeaseSafety.WriteTells | crates/operator/src/leader.rs:195-210 | a landed write extends the count of holder changes and the start of the current tenure correctly |
| LeaseSafety.Bookkeeping | crates/operator/src/leader.rs:181-210 | in every reachable state the holder is the last writer, `leaseTransitions` is the number of holder changes and `acquireTime` the stamp of the first write of the current tenure, even if its acknowledgement was lost |
| LeaseSafety.LeaderNeverAcquires | crates/operator/src/leader.rs:232-245 | a leading replica that reads its own lease renews, and one that reads a peer's stops; it never decides to acquire |
| LeaseSafety.AcknowledgedLeads | crates/operator/src/leader.rs:219-224 | in every run, an acknowledged write, renewal or takeover, makes its sender lead from that moment |
| LeaseSafety.TenureEndsExactly | crates/operator/src/leader.rs:232-257 | in every run a leading process stops exactly by reading a peer's lease, by a conflict, by a failed attempt LEASE_DURATION after its last acknowledgement, or by a crash |
| LeaseSafety.CampaignEndsExactly | crates/operator/src/leader.rs:213-230 | in every run a campaigning process sends a write exactly if the lease it has read is free, and leads exactly from its acknowledgement on |
| LeaseSafety.AttemptsApart | crates/operator/src/leader.rs:213-257 | two attempts of one process begin at least RETRY_PERIOD apart |
| LeaseSafety.ContiguousTenure | crates/operator/src/leader.rs:232-257 | no peer's write lands between two acknowledged renewals of one leading process |
| LeaseTiming.BoundedOverlap | crates/operator/src/leader.rs:232-257 | a displaced leader leads for less than RETRY_PERIOD + 2l after the takeover landed |
| LeaseTiming.LeaderHoldsOrLost | crates/operator/src/leader.rs:213-257 | a leading replica holds the lease or has been displaced since |
| LeaseTiming.AtMostTwoLeaders | crates/operator/src/leader.rs:30-34 | with 2l at most LEASE_DURATION - RETRY_PERIOD, no three replicas ever lead at once |
| LeaseTiming.BoundedTakeover | crates/operator/src/leader.rs:213-230 | while a standby campaigns without errors and does not hold the lease, someone's write lands within LEASE_DURATION + 2 RETRY_PERIOD + 4l of the last write or of the standby's first clean attempt, whichever is later |
| LeaseTiming.TakeoverInTime | crates/operator/src/leader.rs:213-230 | if the holder has stopped writing, that write changes the holder |
| Json.SameStructExactly | crates/operator/src/gateway.rs:1129-1156 | two objects become equal Structs exactly if they are alike up to numbers a double does not tell apart |
| Json.ToStructInjective | crates/operator/src/gateway.rs:1129-1156 | where every number is an integer a double holds exactly, two objects become equal Structs exactly if they are equal |
| Json.StructReadsBack | crates/operator/src/gateway.rs:1129-1156 | reading the Struct gives the object sent, where every number is an integer a double holds exactly |
| Json.RoundedIsNearest | crates/operator/src/gateway.rs:1147 | any other integer becomes the nearest double, of two the even one |
| Json.RoundingCollides | crates/operator/src/gateway.rs:1142-1149 | two integers past that bound, and an integer and an equal double, become the same |
| Fingerprint.PolicyFingerprintExact | crates/operator/src/controllers/sandbox.rs:561-567 | the second fingerprint is equal exactly if both mutable sections are, and a document never looks like no document |
| Fingerprint.MaterialIsItsParts | crates/operator/src/controllers/sandbox.rs:495-552 | equal material means equal image, environment, GPU, landlock, process, mounts, effective GPU count, log level, resources to the last quantity, runtime class, labels and annotations, and conversely |
| Fingerprint.LaterFieldsOnlyWhenSet | crates/operator/src/controllers/sandbox.rs:526-549 | fields added after the first schema are recorded exactly when set, so a sandbox that uses none keeps its earlier fingerprint |
| Fingerprint.RequestCarriesSpec | crates/operator/src/controllers/sandbox.rs:648-667 | the request carries the spec's own name, environment, providers, policy, log level, GPU and workspace, the unset workspace as the default one |
| Fingerprint.TemplateCarriesSpec | crates/operator/src/gateway.rs:1076-1095 | there is a template exactly if a field of it is set, with the spec's image, runtime class, labels and annotations, and resources and driver configuration exactly if there are any |
| Fingerprint.ResourcesCarry | crates/operator/src/controllers/sandbox.rs:675-684 | on the wire exactly the quantities that are set are sent, each under its section and name as the spec's text |
| Fingerprint.ResourcesAgree | crates/operator/src/controllers/sandbox.rs:675-684 | resources reach the gateway equal exactly if requests and limits are, cpu and memory included, or neither spec sets a quantity |
| Fingerprint.DriversAgree | crates/operator/src/volumes.rs:131-169 | driver configurations are equal on the wire exactly if the volume lists agree outside the claims |
| Fingerprint.TemplatesAgree | crates/operator/src/gateway.rs:1076-1095 | which spec fields two equal templates agree on, including whether a template is sent at all |
| Fingerprint.FingerprintExact | crates/operator/src/controllers/sandbox.rs:484-552 | the immutable fingerprint is equal exactly if the create requests are, outside what is converged in place, and none of image, log level and runtime class is set or unset |
| Fingerprint.FingerprintStandsForRequest | crates/operator/src/controllers/sandbox.rs:648-667 | without empty strings, equal fingerprints and equal requests are the same thing |
| Fingerprint.EmptyImageMovesFingerprint | crates/operator/src/controllers/sandbox.rs:500-530 | an empty image gives the same request as none but another fingerprint |
| SandboxDrift.NextKeeps | crates/operator/src/controllers/sandbox.rs:245-310 | every call of every reconcile, in any interleaving, lost, late or unanswered, every edit of the spec or of a policy in a state harmless for it, and every edit after which no policy resolves, keeps the drift invariant |
| SandboxDrift.CallsHaveReasons | crates/operator/src/controllers/sandbox.rs:245-310 | no create is sent unless the reconcile found no sandbox when it looked or last polled, no removal without a differing immutable hash, no update without a policy and a differing policy hash |
| SandboxDrift.NoLostDrift | crates/operator/src/controllers/sandbox.rs:140-310 | in every run, while the present spec's policy resolves, the sandbox is absent or as desired or a recorded hash differs, for the immutable part and for the policy sections; edits come in harmless states, with reconciles under way or not |
| SandboxEdits.SafeSpecEdits | crates/operator/src/controllers/sandbox.rs:435-443 | at any moment of any run, every edit of the spec is survived, over every continuation, exactly if the state is harmless |
| SandboxEdits.SafePolicyEdits | crates/operator/src/controllers/sandbox.rs:620-645 | at any moment of any run, every edit of a named policy, whoever refers to it, is survived, over every continuation, exactly if the state is harmless for it |
| SandboxEdits.SafeDeletions | crates/operator/src/controllers/sandbox.rs:271-283 | deleting a policy, or making it invalid, is survived at any moment |
| SandboxEdits.PolicyEditLosesDrift | crates/operator/src/controllers/sandbox.rs:263-264 | with everything as wanted and recorded, an edit of the policy between a reconcile's look and its lookup hides the difference |
| SandboxEdits.NothingRebuilt | crates/operator/src/controllers/sandbox.rs:285-310 | over any run of overlapping reconciles and of edits that leave the immutable part alone, whatever fails, no create or delete is sent and the sandbox keeps what it was built from |
| SandboxEdits.SenderLoses | crates/operator/src/controllers/sandbox.rs:245-310 | a reconcile that may still create or update, left over from before an edit, can be led to undo the new spec unseen |
| SandboxEdits.UnrecordedCreateLosesDrift | crates/operator/src/controllers/sandbox.rs:140-203 | the status write after the first create is lost, one edit follows, and the next reconcile hides the difference |
| SandboxEdits.EditBackLosesDrift | crates/operator/src/controllers/sandbox.rs:140-203 | after an edit whose recreate went unrecorded, editing back hides the difference |
| SandboxEdits.HiddenStays | crates/operator/src/controllers/sandbox.rs:245-310 | a hidden difference outlives every further reconcile |
| SandboxCourse.CourseIsRun | crates/operator/src/controllers/sandbox.rs:245-310 | what failing, building anew, replacing, and converging in place end in, with the status write landing or lost, is where runs of the interleaved protocol lead, from idle to idle |
| Volumes.Validate | crates/operator/src/volumes.rs:46-74 | a list is accepted exactly if all names are non-blank and distinct, all mounts absolute and no claim a block device; otherwise the first offender's first fault is reported |
| Volumes.PvcLabelsAdmit | crates/operator/src/volumes.rs:92-121 | a provisioned PVC carries exactly four labels: attachable, attachable for the sandbox's workspace by name or "default", managed by the operator, and the sandbox's name |
| Volumes.LabelledAdmits | crates/operator/src/controllers/sandbox.rs:708-730 | an existing PVC passes the label check exactly if the gateway attaches it for the workspace, and after the patch it does, its other labels untouched |
| Volumes.PvcNamesDistinct | crates/operator/src/volumes.rs:80-82 | the volumes of an accepted list get PVCs of distinct names |
| Volumes.PvcNamesAcrossSandboxes | crates/operator/src/volumes.rs:76-82 | exactly when volumes of two sandboxes get the same PVC name |
| Volumes.PvcNamesMeet | crates/operator/src/volumes.rs:80-82 | two such volumes |
| Volumes.MountsResolve | crates/operator/src/volumes.rs:131-169 | each mount names exactly one declared volume, attached from the PVC provisioned for it, at the volume's path and sub-path and read-only as it says |
| Sandbox.World.EnsurePvcs | crates/operator/src/controllers/sandbox.rs:690-720 | whatever fails, PVCs keep identity, claim and all labels but the two for admission, new ones are those of the spec, and only missing ones are created and only unattachable ones labelled; on success all are attachable for the spec's workspace, and if all were, nothing is written |
| Sandbox.World.ConvergeProviders | crates/operator/src/controllers/sandbox.rs:395-433 | on success the attached providers are the desired ones; no wanted one is detached nor an unwanted one attached on the way, and none is detached before all wanted ones are attached |
| Sandbox.NothingToDo | crates/operator/src/controllers/sandbox.rs:419-433 | there is nothing to attach or detach exactly if the two lists name the same providers |
| Sandbox.World.UpdatePolicyIfDrifted | crates/operator/src/controllers/sandbox.rs:359-386 | the policy is pushed exactly if there is one and its recorded hash differs |
| Sandbox.World.Recreate | crates/operator/src/controllers/sandbox.rs:453-471 | at no point does anything but the old object, none, or the new one exist; without faults it times out exactly if the old one takes 30 polls or more to go |
| Sandbox.World.ConvergeGateway | crates/operator/src/controllers/sandbox.rs:266-310 | every changing call has its reason in what was read; a sandbox nothing immutable calls to replace stays; drift stays visible; without faults it succeeds exactly when the policy resolves and the polls suffice |
| Sandbox.World.ConvergeFound | crates/operator/src/controllers/sandbox.rs:285-310 | the same for a sandbox that is there and a policy that resolves: without faults the only error is a recreate that times out |
| Sandbox.World.ConvergeInPlace | crates/operator/src/controllers/sandbox.rs:294-306 | in place, only providers and the policy change, the policy exactly on drift and only once the providers are as desired; if neither differs nothing is called |
| Sandbox.World.Converge | crates/operator/src/controllers/sandbox.rs:245-310 | the same with volumes: no sandbox is created before its PVCs exist with both labels; the error of a fault-free reconcile is determined |
| Sandbox.World.Apply | crates/operator/src/controllers/sandbox.rs:140-203 | what a reconcile ends in is an outcome of the interleaved protocol, and the sandbox stays one made from a known spec and policy; from any state that hides no drift a successful reconcile leaves everything as desired and recorded; success means that no call failed; a reconcile of a settled sandbox makes no changing call, whatever fails |
| Sandbox.World.Reconciles | crates/operator/src/controllers/sandbox.rs:121-203 | over any run of reconciles PVCs keep identity and claim; for a fixed goal no drift is hidden; edits of nothing immutable and unresolved policies never create or delete the sandbox |
| Sandbox.World.Cleanup | crates/operator/src/controllers/sandbox.rs:731-765 | the sandbox is asked to go first; volumes are released only with retention Delete |
| Sandbox.AnyEditIsNoticed | crates/operator/src/controllers/sandbox.rs:294-310 | after a successful reconcile any edit of spec or policy is already satisfied or shows in a recorded hash |
| Sandbox.ReconcileIsRun | crates/operator/src/controllers/sandbox.rs:140-310 | where a reconcile ends is where the protocol's own steps lead from the same gateway and status |
| Sandbox.RoundMeans | crates/operator/src/controllers/sandbox.rs:591-645 | which policy source a spec has, and whether it resolves to which target, is the same for the reconcile and for the protocol |
| Sandbox.ResolvesExactly | crates/operator/src/controllers/sandbox.rs:591-645 | a policy is resolved exactly if one acceptable document is at hand, none exactly if no source is named, and each other case has its own error |
| Sandbox.BuiltIsMaterial | crates/operator/src/controllers/sandbox.rs:484-552 | the immutable hash is equal exactly if the spec's own part and the policy's two immutable sections are |
| Sandbox.DriftKeptIsSafe | crates/operator/src/controllers/sandbox.rs:484-567 | what interleaved reconciles keep about recorded hashes holds of the create request the sandbox was really made from |
| Sandbox.RebuildIsForTheRequest | crates/operator/src/controllers/sandbox.rs:285-292 | a rebuild is called for exactly if the create request changes outside what is converged in place, or one of three texts is set or unset |
| Sandbox.MutableEdits | crates/operator/src/controllers/sandbox.rs:484-530 | edits of providers, claim bodies, retention, workspace, values dropped by normalisation and the mutable policy sections, in any combination, call for no rebuild |
| Sandbox.RequestNamesReadyPvcs | crates/operator/src/controllers/sandbox.rs:251-252 | every PVC named in the driver configuration the gateway reads exists and carries both admission labels |
| Sandbox.ReleasedExactly | crates/operator/src/controllers/sandbox.rs:751-765 | releasing volumes removes exactly the PVCs labelled with the sandbox's name, among them all provisioned for it |
| Credentials.ExtractCredentials | crates/operator/src/secret.rs:69-96 | the values are those of exactly the keys asked for, or with none named of all, each decoding the stored bytes; it succeeds exactly if these keys are all readable, and otherwise names the first that is not |
| Credentials.ResolveCredentials | crates/operator/src/secret.rs:26-64 | values are read only from a Secret that exists and says in its annotation that providers may; then the same holds of them |
| Credentials.BuildRefreshMaterial | crates/operator/src/credentials.rs:98-129 | succeeds exactly if no required material is missing, with the supplied values as seed and exactly the sensitive ones marked, in order; otherwise lists exactly what is missing, in order |
| Credentials.PlanCredentials | crates/operator/src/credentials.rs:220-277 | configures exactly the fully supplied refreshes other than AWS roles, reports exactly the partly supplied ones, and copies exactly what no configured refresh takes |
| Credentials.Conservation | crates/operator/src/credentials.rs:220-277 | every selected value goes out unchanged, copied or as seed, and nothing else does |
| Credentials.Separation | crates/operator/src/credentials.rs:205-212 | no seed of a configured refresh is also copied |
| Credentials.OrderDoesNotMatter | crates/operator/src/credentials.rs:220-277 | what is copied and what is minted does not depend on the order of the profile |
| Credentials.ModeMeans | crates/operator/src/credentials.rs:189-198 | which Secrets and profiles give each mode |
| Credentials.NothingSupplied | crates/operator/src/credentials.rs:146-150 | a credential with no material supplied is left alone exactly if it requires some or is an AWS role |
| Credentials.UnusedCredentialConfigured | crates/operator/src/credentials.rs:148-150 | a Secret that has nothing to do with a credential is reported as Mixed |
| ProviderSync.FindProfile | crates/operator/src/controllers/provider.rs:261-270 | the first profile whose id is exactly the type, if any |
| ProviderSync.ProviderGateway.SyncToGateway | crates/operator/src/controllers/provider.rs:195-256 | if the profiles cannot be listed nothing is sent; otherwise the calls sent are a prefix of upsert then configures, all in effect but perhaps the last, and all of them on success; success means that no call failed |
| ProviderSync.NoSeedStored | crates/operator/src/controllers/provider.rs:227-251 | wherever a sync stops, no seed of a planned refresh has been sent or is stored as a static credential |
| ProviderSync.SyncConverges | crates/operator/src/controllers/provider.rs:240-244 | a complete sync leaves the same provider however far earlier attempts got |
| HashFraming.HashMaterial | crates/operator/src/controllers/provider.rs:312-328 | the bytes fed are both maps in order, strings closed by 0xFF, with a lone 0xFF between the maps |
| HashFraming.StreamReadsBack | crates/operator/src/controllers/provider.rs:312-328 | a reader recovers both maps' entries from the bytes if every credential is named |
| HashFraming.StreamsEqualExactly | crates/operator/src/controllers/provider.rs:312-328 | of entry lists with at most the first credential unnamed, two streams are equal exactly if both lists are, or one pair is the other with the boundary moved |
| HashFraming.StreamStandsForMaps | crates/operator/src/controllers/provider.rs:309-328 | of ordered maps, two streams are equal exactly if both maps are or the boundary has moved, for which one side must have no credentials and the other an unnamed one |
| HashFraming.MovedCollides | crates/operator/src/controllers/provider.rs:316-323 | moving the boundary leaves the bytes as they are, for every list with an unnamed first credential |
| HashFraming.UnnamedCredentialCollides | crates/operator/src/controllers/provider.rs:316-323 | a pair of ordered maps for every value that collides in this way |
| Utf8.DecodeExact | crates/operator/src/secret.rs:87-92 | decoding inverts encoding and accepts nothing else |
| Utf8.NeverFF | crates/operator/src/controllers/provider.rs:317-323 | the separator byte never occurs in a string |
| Members.Workspace.ConvergeMembers | crates/operator/src/controllers/workspace.rs:172-193 | wherever it stops, every call was needed, none met a member it did not expect and members at their role were not touched; on success the members are exactly the declared ones |
| Members.Workspace.ConvergeUntilDone | crates/operator/src/controllers/workspace.rs:172-193 | attempts cut short do no harm: the next complete one reaches the declared members |
| Members.AddsAreAbsent | crates/operator/src/controllers/workspace.rs:199-228 | after the removes no add meets a member, and the adds complete the declared members exactly |
| Members.AddFirstFails | crates/operator/src/controllers/workspace.rs:168-171 | adding first would meet a member exactly if some role changes |
| Members.NoDifference | crates/operator/src/controllers/workspace.rs:199-228 | nothing is called for exactly if the members are as declared |
| Members.LastEntryCounts | crates/operator/src/controllers/workspace.rs:203-206 | of several entries for a subject the last one counts |
| Mint.Cluster.EnsureServingCert | crates/issuer/src/mint.rs:126-164 | a certificate is issued only if none for this URL can be read, and the CA published is the one of the stored certificate |
| Mint.Cluster.EnsureToken | crates/issuer/src/mint.rs:166-228 | wherever it stops: nothing changed, a fresh key set, or that and the token signed with it; a token for this URL is left alone |
| Mint.Cluster.MintRun | crates/issuer/src/mint.rs:112-122 | a run is the certificate's part and, if that completes, the token's |
| Mint.TokenImpliesKey | crates/issuer/src/mint.rs:171-173 | over any runs for one URL, each cut off anywhere, a token for that URL is one the published set verifies |
| Mint.CompletedRunLasts | crates/issuer/src/mint.rs:124-204 | once a run completed, token, key set, certificate and published CA agree, and later runs for the URL keep them |
| Mint.ServedThroughout | crates/issuer/src/mint.rs:200-222 | over any runs the stored token stays verifiable throughout exactly if no run for another URL stops between its two writes |
| Mint.CompletedRunRepairs | crates/issuer/src/mint.rs:189-222 | a completed run that mints leaves a verifiable token |
| Mint.OldUrlNeverRepairs | crates/issuer/src/mint.rs:178-188 | runs for the URL of an unverifiable token never change it |
| Mint.SwitchAndBackLosesToken | crates/issuer/src/mint.rs:178-222 | such a state is reached by a switch, a cut and a switch back |
| Mint.VerifiesThroughout | crates/issuer/src/mint.rs:196-222 | over runs for one URL whose failed writes may land later, a token verifies throughout exactly if every late key set comes before a token or repeats the published one, and every late token finds its own key published |
| Mint.LateKeySetLosesToken | crates/issuer/src/mint.rs:200-222 | a key set that lands after a retry has published leaves an unverifiable token |
| WebhookCert.ReadsExactly | crates/operator/src/webhook.rs:537-548 | a Secret yields a bundle exactly if it holds certificate, key and CA as text, and these are the bundle |
| WebhookCert.ReadsBack | crates/operator/src/webhook.rs:509-548 | the bundle stored in a Secret is the one read from it |
| WebhookCert.NextKeeps | crates/operator/src/webhook.rs:499-629 | every step of every replica, and every late call, keeps the agreement invariant |
| WebhookCert.SecretStays | crates/operator/src/webhook.rs:522-534 | the Secret is never replaced |
| WebhookCert.Agreement | crates/operator/src/webhook.rs:527-534 | replicas that are ready, at whatever times, hold one bundle: the stored one |
| WebhookCert.ConfigurationsTrust | crates/operator/src/webhook.rs:602-629 | when a replica is ready, both configurations carry the CA of what it serves, in whatever order patches took effect |
| WebhookCert.MalformedNeverReady | crates/operator/src/webhook.rs:529-548 | if the Secret at the start cannot be read no replica becomes ready and no configuration changes |
| WebhookCert.AdoptionSucceeds | crates/operator/src/webhook.rs:527-534 | otherwise adopting a peer's bundle never fails |
| WebhookCert.BecomesReady | crates/operator/src/webhook.rs:158-179 | from every state whose Secret is absent or readable, a new replica can become ready with the stored bundle and both configurations trusting its CA |
| WebhookCert.CreatesAndServes | crates/operator/src/webhook.rs:499-526 | with no Secret, by storing the bundle it generated |
| WebhookCert.ReadsAndServes | crates/operator/src/webhook.rs:499-505 | with a readable Secret, at once, leaving it as it is |
| WebhookCert.AdoptsAndServes | crates/operator/src/webhook.rs:527-534 | and when a peer's create comes first, with the peer's bundle |
| WebhookCert.ExitsOnlyThen | crates/operator/src/webhook.rs:527-548 | in every run a replica exits only by giving up or because the Secret the run starts with cannot be read |
| WebhookCert.PatchesInSequence | crates/operator/src/webhook.rs:602-627 | the validating configuration is patched only once the mutating one has the CA |

## Left out

- gRPC, TLS, token refresh, certificate and key generation, JWT signing: keys and certificates are abstract values.
- The policy and profile parsers: whether a document is valid is an argument, and a parsed policy is represented by its document.
- Page-by-page listing of members and profiles: a list arrives whole.
- Watches, requeue intervals, events, conditions, phases and the sandbox id in the status.
- Sandboxes with no recorded hash that were built by someone else: they are adopted as they are, so `Safe` excludes those that differ.
- Sandbox.World.Apply: one reconcile at a time; overlapping reconciles are covered by `SandboxDrift`, where provider calls only appear as a step that can fail. `ReconcileIsRun` connects what the two end in, not their calls one by one.
- Sandbox.World.GetSandbox: a gateway object does not vanish on its own between two reads of one reconcile, unless it was asked to go.
- Fingerprint.FingerprintExact: the material is compared, not its 64-bit hash; `immutable_fingerprint` inserts into a map key by key, and here the map is given by its content under each key, so the order of insertion is not modelled.
- Fractional JSON numbers stand for the doubles the parser reads; what the parser itself rounds is not modelled.
- Two sandboxes at once: `World` holds one sandbox and the PVCs it sees, so what two sandboxes whose PVC names meet do to each other is not modelled.
- Members.Workspace.ConvergeMembers: calls go out in any order within the removes and within the adds; the source's order is one of them.
- ProviderSync.ProviderGateway.SyncToGateway: refreshes configured earlier and no longer planned stay configured, as in the source, which never removes one.
- Workspace creation and deletion guards, profile upsert, health, exec admission decisions, Helm chart and CRD generation: single branches or configuration.
