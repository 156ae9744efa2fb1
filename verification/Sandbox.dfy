/** The sandbox controller at work on one sandbox: its gateway object, its PVCs and its
    status, changed call by call by reconciles that run one after the other. Overlapping
    reconciles are the subject of module `SandboxDrift`.

    Every call draws its fate from `faults`; once they are used up, calls succeed. */
module Sandbox {
  import opened Wrappers
  import opened Json
  import opened Crd
  import opened Fingerprint
  import opened Volumes
  import opened SandboxDrift
  import opened SandboxCourse

  datatype Error =
    | VolumeInvalid(reason: VolumeError)
    | PolicySourceConflict
    | PolicyNotFound
    | PolicyInvalid
    | CallFailed
    | RecreateTimeout

  /** The gateway's sandbox. A removed one stays visible for `leaving` more reads. */
  datatype Live = Live(
    uid: nat, request: CreateRequest, policy: Option<Policy>, providers: seq<string>, leaving: Option<nat>)

  datatype Write =
    | Make(request: CreateRequest)
    | Drop
    | Attach(provider: string)
    | Detach(provider: string)
    | UpdatePolicy(policy: Policy)
    | CreatePvc(pvc: string)
    | LabelPvc(pvc: string)
    | DeletePvcs

  /** What one reconcile is given: the spec, what looking up the referenced policy brings,
      and whether the gateway's parser accepts the document. */
  datatype Round = Round(spec: SandboxSpec, lookup: Result<Option<Policy>, Error>, valid: bool)

  /** The policy document of a round: inline, by reference, or none. */
  function Resolved(round: Round): Result<Option<Policy>, Error> {
    var spec := round.spec;
    if spec.policy.Some? && spec.policyRef.Some? then Err(PolicySourceConflict)
    else if spec.policy.None? && spec.policyRef.None? then Ok(None)
    else if spec.policyRef.Some? && round.lookup.Err? then round.lookup
    else if spec.policyRef.Some? && round.lookup.value.None? then Err(PolicyNotFound)
    else if !round.valid then Err(PolicyInvalid)
    else if spec.policy.Some? then Ok(spec.policy)
    else round.lookup
  }

  /** A document is at hand: inline, or found under the name referred to. */
  predicate Documented(round: Round, policy: Policy) {
    if round.spec.policy.Some? then round.spec.policyRef.None? && policy == round.spec.policy.value
    else round.spec.policyRef.Some? && round.lookup == Ok(Some(policy))
  }

  /** A round has a policy exactly if there is an acceptable document at hand, and has none
      exactly if it names no source; every other case is an error, and which one is given. */
  lemma ResolvesExactly(round: Round)
    ensures var spec, r := round.spec, Resolved(round);
      && (forall policy :: r == Ok(Some(policy)) <==> Documented(round, policy) && round.valid)
      && (r == Ok(None) <==> spec.policy.None? && spec.policyRef.None?)
      && (spec.policy.Some? && spec.policyRef.Some? ==> r == Err(PolicySourceConflict))
      && (spec.policy.None? && spec.policyRef.Some? && round.lookup == Ok(None) ==> r == Err(PolicyNotFound))
      && (spec.policy.None? && spec.policyRef.Some? && round.lookup.Err? ==> r == Err(round.lookup.error))
      && (forall policy :: Documented(round, policy) && !round.valid ==> r == Err(PolicyInvalid))
  {
  }

  const POLL_ATTEMPTS := 30

  // ----- Providers -----

  ghost predicate SameTexts(a: seq<string>, b: seq<string>) {
    forall text :: text in a <==> text in b
  }

  predicate AllIn(texts: seq<string>, others: seq<string>) {
    forall text <- texts :: text in others
  }

  function Without(texts: seq<string>, others: seq<string>): (r: seq<string>)
    ensures forall t :: t in r <==> t in texts && t !in others
  {
    if texts == [] then []
    else if texts[0] in others then Without(texts[1..], others)
    else [texts[0]] + Without(texts[1..], others)
  }

  /** What to attach and what to detach. */
  function ProviderDelta(desired: seq<string>, current: seq<string>): (seq<string>, seq<string>) {
    (Without(desired, current), Without(current, desired))
  }

  function Attached(providers: seq<string>, provider: string): seq<string> {
    if provider in providers then providers else providers + [provider]
  }

  // ----- Volumes -----

  predicate Provisioned(pvcs: map<string, Pvc>, pvc: string, workspace: string) {
    pvc in pvcs && Attachable(pvcs[pvc].labels, workspace)
  }

  predicate AllProvisioned(pvcs: map<string, Pvc>, name: string, spec: SandboxSpec) {
    var workspace := if spec.workspace.Some? then spec.workspace.value else "";
    forall v <- spec.volumes :: Provisioned(pvcs, PvcName(name, v), workspace)
  }

  predicate PvcKept(before: Pvc, after: Pvc, workspace: string) {
    && after.uid == before.uid && after.claim == before.claim
    && (after.labels == before.labels
        || (Attachable(after.labels, workspace) && OtherLabelsKept(before.labels, after.labels)))
  }

  predicate PvcsKept(before: map<string, Pvc>, after: map<string, Pvc>, workspace: string) {
    forall n <- before :: n in after && PvcKept(before[n], after[n], workspace)
  }

  /** A PVC provisioned for one of the spec's volumes, and attachable. */
  predicate NewPvc(pvc: Pvc, n: string, name: string, spec: SandboxSpec) {
    && ProvisionedFor(pvc.labels, name, if spec.workspace.Some? then spec.workspace.value else "")
    && exists v <- spec.volumes :: n == PvcName(name, v) && pvc.claim == v.claim
  }

  // ----- What a reconcile is to achieve and to keep -----

  /** The sandbox is there to stay, and was built as the spec and its policy ask. */
  predicate AsBuilt(name: string, sandbox: Live, spec: SandboxSpec, policy: Option<Policy>) {
    sandbox.leaving.None? && View(sandbox.request) == View(RequestFor(name, spec, policy))
  }

  predicate PolicyInForce(sandbox: Live, policy: Option<Policy>) {
    policy.Some? ==> PolicyMaterial(sandbox.policy) == PolicyMaterial(policy)
  }

  /** The immutable hash, split into the spec's own part and the policy's two sections. */
  function BuiltOf(spec: SandboxSpec, policy: Option<Policy>): Built {
    Built(ImmutableMaterial(spec, None), LandlockJson(policy), ProcessJson(policy))
  }

  /** Split or not, the hash stands for the same parts. */
  lemma BuiltIsMaterial(a: SandboxSpec, p: Option<Policy>, b: SandboxSpec, q: Option<Policy>)
    ensures BuiltOf(a, p) == BuiltOf(b, q) <==> ImmutableMaterial(a, p) == ImmutableMaterial(b, q)
  {
    MaterialIsItsParts(a, p, b, q);
    MaterialIsItsParts(a, None, b, None);
    LandlocksAgree(p, q);
    ProcessesAgree(p, q);
  }

  function Hashes(spec: SandboxSpec, policy: Option<Policy>): Status {
    Status(Some(BuiltOf(spec, policy)), Some(PolicyMaterial(policy)))
  }

  predicate Rebuild(status: Status, spec: SandboxSpec, policy: Option<Policy>) {
    Drifted(status.built, BuiltOf(spec, policy))
  }

  /** No difference is hidden: the sandbox is absent or as desired, or a recorded hash tells. */
  predicate Safe(name: string, sandbox: Option<Live>, status: Status, spec: SandboxSpec, policy: Option<Policy>) {
    sandbox.Some? ==>
      && (AsBuilt(name, sandbox.value, spec, policy) || Rebuild(status, spec, policy))
      && (PolicyInForce(sandbox.value, policy) || Drifted(status.policy, PolicyMaterial(policy)))
  }

  /** The gateway has what the spec asks for. */
  ghost predicate Achieved(name: string, sandbox: Option<Live>, spec: SandboxSpec, policy: Option<Policy>) {
    && sandbox.Some? && AsBuilt(name, sandbox.value, spec, policy) && PolicyInForce(sandbox.value, policy)
    && SameTexts(sandbox.value.providers, spec.providers)
  }

  ghost predicate Quiescent(
    name: string, sandbox: Option<Live>, pvcs: map<string, Pvc>, status: Status,
    spec: SandboxSpec, policy: Option<Policy>)
  {
    && Accepted(spec.volumes) && AllProvisioned(pvcs, name, spec)
    && Achieved(name, sandbox, spec, policy) && status == Hashes(spec, policy)
  }

  /** Nothing a round asks for is left to do. */
  ghost predicate QuiescentFor(
    name: string, sandbox: Option<Live>, pvcs: map<string, Pvc>, status: Status, round: Round)
  {
    Resolved(round).Ok? && Quiescent(name, sandbox, pvcs, status, round.spec, Resolved(round).value)
  }

  /** How many more reads show the sandbox once it has been asked to go. */
  function Remaining(sandbox: Option<Live>, delay: nat): nat {
    if sandbox.None? then 0 else if sandbox.value.leaving.Some? then sandbox.value.leaving.value else delay
  }

  /** A read lets the time of a leaving sandbox pass. */
  function Ticked(sandbox: Option<Live>): Option<Live> {
    if sandbox.None? || sandbox.value.leaving.None? then sandbox
    else if sandbox.value.leaving.value == 0 then None
    else Some(sandbox.value.(leaving := Some(sandbox.value.leaving.value - 1)))
  }

  /** The same object, but for its attached providers. */
  predicate SameButProviders(before: Option<Live>, after: Option<Live>) {
    before.Some? && after.Some? && after.value == before.value.(providers := after.value.providers)
  }

  /** Still the object it was, though perhaps leaving. */
  predicate SameObject(before: Option<Live>, after: Option<Live>) {
    before.Some? && after.Some? && after.value == before.value.(leaving := after.value.leaving)
  }

  predicate BuiltFresh(sandbox: Option<Live>, request: CreateRequest) {
    sandbox.Some? && sandbox.value == Live(sandbox.value.uid, request, request.policy, request.providers, None)
  }

  /** An attach or detach that the difference between desired and current calls for. */
  predicate Needed(w: Write, desired: seq<string>, current: seq<string>) {
    || (w.Attach? && w.provider in desired && w.provider !in current)
    || (w.Detach? && w.provider in current && w.provider !in desired)
  }

  lemma NothingToDo(desired: seq<string>, current: seq<string>)
    ensures SameTexts(current, desired) <==> ProviderDelta(desired, current) == ([], [])
  {
    var (attach, detach) := ProviderDelta(desired, current);
    assert |attach| > 0 ==> attach[0] in attach;
    assert |detach| > 0 ==> detach[0] in detach;
  }

  /** Only the PVC of one volume may have changed: provisioned, or labelled. */
  predicate OneEnsured(
      before: map<string, Pvc>, after: map<string, Pvc>, name: string, workspace: string, volume: Volume)
  {
    var n := PvcName(name, volume);
    && (forall m <- before :: m != n ==> m in after && after[m] == before[m])
    && (forall m <- after :: m != n ==> m in before)
    && (n in before ==> n in after && PvcKept(before[n], after[n], workspace))
    && (n !in before && n in after ==>
          after[n].claim == volume.claim && ProvisionedFor(after[n].labels, name, workspace))
  }

  lemma ProvisionedOne(before: map<string, Pvc>, uid: nat, name: string, workspace: string, volume: Volume)
    requires PvcName(name, volume) !in before
    ensures var n := PvcName(name, volume);
      var after := before[n := Pvc(uid, volume.claim, PvcLabels(name, workspace))];
      OneEnsured(before, after, name, workspace, volume) && Provisioned(after, n, workspace)
  {
    PvcLabelsAdmit(name, workspace);
  }

  function Relabelled(pvcs: map<string, Pvc>, n: string, wanted: map<string, string>): map<string, Pvc>
    requires n in pvcs
  {
    pvcs[n := pvcs[n].(labels := pvcs[n].labels + wanted)]
  }

  lemma LabelledOne(before: map<string, Pvc>, name: string, workspace: string, volume: Volume)
    requires PvcName(name, volume) in before
    ensures var n := PvcName(name, volume);
      var after := Relabelled(before, n, AdmissionLabels(workspace));
      && OneEnsured(before, after, name, workspace, volume) && Provisioned(after, n, workspace)
      && (HasLabels(before[n].labels, AdmissionLabels(workspace)) <==> Provisioned(before, n, workspace))
  {
    LabelledAdmits(before[PvcName(name, volume)].labels, workspace);
  }

  /** Old PVCs are kept, and new ones are those of the spec's volumes. */
  predicate Grown(before: map<string, Pvc>, after: map<string, Pvc>, name: string, spec: SandboxSpec) {
    && PvcsKept(before, after, WorkspaceOf(spec))
    && (forall n <- after :: n in before || NewPvc(after[n], n, name, spec))
  }

  /** A PVC that is not there is created, one that is there but not attachable is labelled. */
  predicate PvcCall(w: Write, before: map<string, Pvc>, n: string, workspace: string) {
    || (w == CreatePvc(n) && n !in before)
    || (w == LabelPvc(n) && n in before && !Attachable(before[n].labels, workspace))
  }

  /** For a volume of the spec. */
  predicate PvcNeeded(w: Write, before: map<string, Pvc>, name: string, spec: SandboxSpec) {
    exists v <- spec.volumes :: PvcCall(w, before, PvcName(name, v), WorkspaceOf(spec))
  }

  lemma KeptTwice(a: Pvc, b: Pvc, c: Pvc, workspace: string)
    requires PvcKept(a, b, workspace) && PvcKept(b, c, workspace)
    ensures PvcKept(a, c, workspace)
  {
  }

  lemma StillProvisioned(b: map<string, string>, c: map<string, string>, name: string, workspace: string)
    requires ProvisionedFor(b, name, workspace) && Attachable(c, workspace) && OtherLabelsKept(b, c)
    ensures c == b
  {
    forall k | k in b ensures k in c && c[k] == b[k] {
    }
    assert b.Keys == c.Keys;
  }

  lemma StillGrown(
    a: map<string, Pvc>, b: map<string, Pvc>, c: map<string, Pvc>, name: string, spec: SandboxSpec, volume: Volume)
    requires Grown(a, b, name, spec) && OneEnsured(b, c, name, WorkspaceOf(spec), volume) && volume in spec.volumes
    ensures Grown(a, c, name, spec)
    ensures forall n :: Provisioned(b, n, WorkspaceOf(spec)) ==> Provisioned(c, n, WorkspaceOf(spec))
  {
    var n, workspace := PvcName(name, volume), WorkspaceOf(spec);
    forall m | m in b ensures m in c && PvcKept(b[m], c[m], workspace) {
    }
    forall m | m in a ensures m in c && PvcKept(a[m], c[m], workspace) {
      KeptTwice(a[m], b[m], c[m], workspace);
    }
    forall m | m in c && m !in a ensures NewPvc(c[m], m, name, spec) {
      if m in b && m == n {
        var v :| v in spec.volumes && n == PvcName(name, v) && b[n].claim == v.claim;
        StillProvisioned(b[n].labels, c[n].labels, name, workspace);
      }
    }
  }

  /** What a PVC lacks after some others were seen to, it lacked before. */
  lemma StillNeeded(
    a: map<string, Pvc>, b: map<string, Pvc>, name: string, spec: SandboxSpec, volume: Volume, w: Write)
    requires Grown(a, b, name, spec) && volume in spec.volumes
    requires PvcCall(w, b, PvcName(name, volume), WorkspaceOf(spec))
    ensures PvcNeeded(w, a, name, spec)
  {
    assert PvcCall(w, a, PvcName(name, volume), WorkspaceOf(spec));
  }

  // ----- Which calls a reconcile may make -----

  /** Every changing call has its reason in what the reconcile saw. */
  predicate Warranted(w: Write, name: string, round: Round, seen: Option<Live>, status: Status) {
    var spec, resolved := round.spec, Resolved(round);
    match w
    case Make(request) =>
      && resolved.Ok? && request == RequestFor(name, spec, resolved.value)
      && (seen.None? || Rebuild(status, spec, resolved.value))
    case Drop => resolved.Ok? && seen.Some? && Rebuild(status, spec, resolved.value)
    case UpdatePolicy(policy) =>
      && resolved == Ok(Some(policy)) && seen.Some? && !Rebuild(status, spec, resolved.value)
      && Drifted(status.policy, PolicyMaterial(resolved.value))
    case Attach(_) => seen.Some? && Needed(w, spec.providers, seen.value.providers)
    case Detach(_) => seen.Some? && Needed(w, spec.providers, seen.value.providers)
    case _ => false
  }

  /** The sandbox is up, and nothing calls for another: no immutable difference, or no
      policy to compare with. */
  predicate StaysFor(sandbox: Option<Live>, round: Round, status: Status) {
    && sandbox.Some? && sandbox.value.leaving.None?
    && (Resolved(round).Ok? ==> !Rebuild(status, round.spec, Resolved(round).value))
  }

  /** The same object, perhaps with other providers and another policy in force. */
  predicate SameSandbox(before: Option<Live>, after: Option<Live>) {
    && before.Some? && after.Some?
    && after.value == before.value.(providers := after.value.providers, policy := after.value.policy)
  }

  /** Nothing to converge in place either. */
  ghost predicate AsWanted(sandbox: Live, round: Round, status: Status) {
    && SameTexts(sandbox.providers, round.spec.providers)
    && (Resolved(round).Ok? && Resolved(round).value.Some? ==>
          !Drifted(status.policy, PolicyMaterial(Resolved(round).value)))
  }

  ghost predicate Rests(sandbox: Option<Live>, round: Round, status: Status) {
    StaysFor(sandbox, round, status) && AsWanted(sandbox.value, round, status)
  }

  /** When a reconcile succeeds if no call fails: the policy resolves, and a sandbox that
      must go is gone within the polls. */
  predicate Completes(round: Round, seen: Option<Live>, status: Status, delay: nat) {
    && Resolved(round).Ok?
    && (seen.Some? && Rebuild(status, round.spec, Resolved(round).value) ==> Remaining(seen, delay) < POLL_ATTEMPTS)
  }

  predicate Succeeds(round: Round, sandbox: Option<Live>, status: Status, delay: nat) {
    Accepted(round.spec.volumes) && Completes(round, Ticked(sandbox), status, delay)
  }

  ghost predicate FailsWith(round: Round, e: Error) {
    if !Accepted(round.spec.volumes) then e.VolumeInvalid? && Rejects(round.spec.volumes, e.reason)
    else if Resolved(round).Err? then e == Resolved(round).error
    else e == RecreateTimeout
  }

  /** A gateway call has its reason, and a sandbox is only created once its PVCs are ready. */
  predicate Justified(
      w: Write, name: string, round: Round, before: Option<Live>, status: Status, pvcs: map<string, Pvc>)
  {
    || w.CreatePvc? || w.LabelPvc?
    || (Warranted(w, name, round, Ticked(before), status) && (w.Make? ==> AllProvisioned(pvcs, name, round.spec)))
  }

  /** Without a policy to go by, nothing but the providers changes. */
  predicate OnlyProviders(before: Option<Live>, after: Option<Live>) {
    after == before || after == Ticked(before) || SameButProviders(Ticked(before), after)
  }

  function Released(pvcs: map<string, Pvc>, name: string): map<string, Pvc> {
    map n <- pvcs | !HasLabels(pvcs[n].labels, map[SANDBOX_LABEL := name]) :: pvcs[n]
  }

  predicate SamePvcs(before: map<string, Pvc>, after: map<string, Pvc>) {
    forall n <- before :: n in after && after[n].uid == before[n].uid && after[n].claim == before[n].claim
  }

  /** A round that works toward a fixed goal, or cannot resolve its policy. */
  predicate Toward(round: Round, spec: SandboxSpec, policy: Option<Policy>) {
    round.spec == spec && (Resolved(round).Ok? ==> Resolved(round).value == policy)
  }

  /** A round whose spec differs from `spec` in nothing immutable, or without a policy. */
  predicate NoRebuildAsked(round: Round, spec: SandboxSpec, policy: Option<Policy>) {
    Resolved(round).Ok? ==> SameParts(spec, policy, round.spec, Resolved(round).value)
  }

  predicate AllToward(rounds: seq<Round>, spec: SandboxSpec, policy: Option<Policy>) {
    forall round <- rounds :: Toward(round, spec, policy)
  }

  predicate NoneAsks(rounds: seq<Round>, spec: SandboxSpec, policy: Option<Policy>) {
    forall round <- rounds :: NoRebuildAsked(round, spec, policy)
  }

  predicate BuiltAndRecorded(sandbox: Option<Live>, status: Status, spec: SandboxSpec, policy: Option<Policy>) {
    sandbox.Some? && sandbox.value.leaving.None? && status.built == Some(BuiltOf(spec, policy))
  }

  /** No sandbox is created or deleted. */
  predicate Keeping(calls: seq<Write>) {
    forall w <- calls :: !w.Make? && !w.Drop?
  }

  lemma NothingRebuilt(
    name: string, before: Option<Live>, status: Status, round: Round, spec: SandboxSpec, policy: Option<Policy>,
    writes: seq<Write>, pvcs: map<string, Pvc>)
    requires NoRebuildAsked(round, spec, policy) && BuiltAndRecorded(before, status, spec, policy)
    requires forall w <- writes :: Justified(w, name, round, before, status, pvcs)
    ensures StaysFor(before, round, status) && Keeping(writes)
  {
    if Resolved(round).Ok? {
      MaterialIsItsParts(spec, policy, round.spec, Resolved(round).value);
      BuiltIsMaterial(spec, policy, round.spec, Resolved(round).value);
    }
  }

  lemma UnresolvedKeeps(
    name: string, before: Option<Live>, after: Option<Live>, status: Status, spec: SandboxSpec, policy: Option<Policy>)
    requires OnlyProviders(before, after) && Safe(name, before, status, spec, policy)
    ensures Safe(name, after, status, spec, policy)
  {
  }

  // ----- The same, in terms of materials -----

  /** The spec and policy a gateway sandbox was created from. */
  datatype Origin = Origin(spec: SandboxSpec, policy: Option<Policy>)

  function Seen(sandbox: Option<Live>, origin: Origin): Option<SandboxDrift.Sandbox> {
    if sandbox.None? then None
    else Some(SandboxDrift.Sandbox(BuiltOf(origin.spec, origin.policy), PolicyMaterial(sandbox.value.policy)))
  }

  predicate MadeFrom(name: string, sandbox: Option<Live>, origin: Origin) {
    sandbox.Some? ==> sandbox.value.request == RequestFor(name, origin.spec, origin.policy)
  }

  /** Just created for a round. */
  predicate MadeFor(name: string, sandbox: Option<Live>, origin: Origin, round: Round)
    requires Resolved(round).Ok?
  {
    && BuiltFresh(sandbox, RequestFor(name, round.spec, Resolved(round).value))
    && origin == Origin(round.spec, Resolved(round).value)
  }

  lemma MadeIsAchieved(name: string, sandbox: Option<Live>, origin: Origin, round: Round)
    requires Resolved(round).Ok? && MadeFor(name, sandbox, origin, round)
    ensures Achieved(name, sandbox, round.spec, Resolved(round).value)
    ensures Seen(sandbox, origin) == Some(SandboxDrift.Sandbox(GoalOf(round).built, GoalOf(round).policy))
  {
  }

  /** What a round works for. */
  function GoalOf(round: Round): Target
    requires Resolved(round).Ok?
  {
    Target(BuiltOf(round.spec, Resolved(round).value), PolicyMaterial(Resolved(round).value))
  }

  /** A reconcile has taken the gateway along a course of the protocol; without a policy it
      has failed, and changed nothing the protocol looks at. */
  predicate Takes(
    round: Round, g: Option<SandboxDrift.Sandbox>, st: Status, g': Option<SandboxDrift.Sandbox>, ok: bool)
  {
    if Resolved(round).Ok? then Course(g, st, GoalOf(round), g', ok) else !ok && (g' == g || g' == None)
  }

  /** And recorded what it came to, unless that was lost. */
  ghost predicate Follows(
    round: Round, g: Option<SandboxDrift.Sandbox>, st: Status, g': Option<SandboxDrift.Sandbox>, st': Status)
  {
    exists ok :: Takes(round, g, st, g', ok) && (st' == st || (ok && st' == Wanted(GoalOf(round))))
  }

  class World {
    const name: string
    const delay: nat
    var sandbox: Option<Live>
    /** What the sandbox was created from; meaningful while there is one. */
    ghost var origin: Origin
    var pvcs: map<string, Pvc>
    var status: Status
    /** The changing calls the current reconcile has issued. */
    var writes: seq<Write>
    var faults: seq<Fate>
    /** How many calls have failed or gone unanswered. */
    ghost var failures: nat
    var nextUid: nat

    constructor (name: string, delay: nat, faults: seq<Fate>, ghost origin: Origin)
      ensures this.name == name && this.delay == delay && this.faults == faults
      ensures sandbox == None && pvcs == map[] && status == Status(None, None)
    {
      this.name, this.delay, this.faults, this.origin := name, delay, faults, origin;
      sandbox, pvcs, status, writes, nextUid := None, map[], Status(None, None), [], 0;
    }

    // ----- The calls -----

    method Call() returns (fate: Fate)
      modifies this`faults, this`failures
      ensures fate == if old(faults) == [] then Fine else old(faults)[0]
      ensures faults == if old(faults) == [] then [] else old(faults)[1..]
      ensures AllFine(old(faults)) ==> AllFine(faults) && fate == Fine
      ensures failures == old(failures) + if fate == Fine then 0 else 1
    {
      if faults == [] {
        return Fine;
      }
      fate, faults := faults[0], faults[1..];
      failures := failures + if fate == Fine then 0 else 1;
    }

    method GetSandbox() returns (r: Result<Option<Live>, Error>)
      modifies this`faults, this`failures, this`sandbox
      ensures sandbox == Ticked(old(sandbox))
      ensures r == Ok(sandbox) || r == Err(CallFailed)
      ensures AllFine(old(faults)) ==> AllFine(faults) && r.Ok?
      ensures r.Ok? ==> failures == old(failures)
    {
      var fate := Call();
      sandbox := Ticked(sandbox);
      r := if fate == Fine then Ok(sandbox) else Err(CallFailed);
    }

    method CreateSandbox(request: CreateRequest, ghost from: Origin) returns (r: Result<(), Error>)
      modifies this`faults, this`failures, this`sandbox, this`origin, this`writes, this`nextUid
      ensures sandbox != old(sandbox) ==> origin == from
      ensures sandbox == old(sandbox) ==> origin == old(origin)
      ensures writes == old(writes) + [Make(request)] && nextUid >= old(nextUid)
      ensures sandbox == old(sandbox)
        || (old(sandbox).None? && BuiltFresh(sandbox, request) && sandbox.value.uid == old(nextUid))
      ensures r.Ok? ==> old(sandbox).None? && sandbox.Some?
      ensures AllFine(old(faults)) ==> AllFine(faults) && (r.Ok? <==> old(sandbox).None?)
      ensures r.Ok? ==> failures == old(failures)
    {
      writes := writes + [Make(request)];
      var fate := Call();
      if fate == Failed || sandbox.Some? {
        return Err(CallFailed);
      }
      sandbox, origin := Some(Live(nextUid, request, request.policy, request.providers, None)), from;
      nextUid := nextUid + 1;
      r := if fate == Fine then Ok(()) else Err(CallFailed);
    }

    method DeleteSandbox() returns (r: Result<bool, Error>)
      modifies this`faults, this`failures, this`sandbox, this`writes
      ensures writes == old(writes) + [Drop]
      ensures sandbox == old(sandbox) || SameObject(old(sandbox), sandbox)
      ensures r.Ok? ==> r.value == old(sandbox).Some?
      ensures r.Ok? && sandbox.Some? ==> sandbox.value.leaving == Some(Remaining(old(sandbox), delay))
      ensures AllFine(old(faults)) ==> AllFine(faults) && r.Ok?
      ensures r.Ok? ==> failures == old(failures)
    {
      writes := writes + [Drop];
      var fate := Call();
      var found := sandbox.Some?;
      if fate != Failed && found {
        sandbox := Some(sandbox.value.(leaving := Some(Remaining(sandbox, delay))));
      }
      r := if fate == Fine then Ok(found) else Err(CallFailed);
    }

    method AttachProvider(provider: string) returns (r: Result<(), Error>)
      requires sandbox.Some?
      modifies this`faults, this`failures, this`sandbox, this`writes
      ensures writes == old(writes) + [Attach(provider)]
      ensures sandbox == old(sandbox)
        || sandbox == Some(old(sandbox).value.(providers := Attached(old(sandbox).value.providers, provider)))
      ensures r.Ok? ==>
        sandbox == Some(old(sandbox).value.(providers := Attached(old(sandbox).value.providers, provider)))
      ensures AllFine(old(faults)) ==> AllFine(faults) && r.Ok?
      ensures r.Ok? ==> failures == old(failures)
    {
      writes := writes + [Attach(provider)];
      var fate := Call();
      if fate != Failed {
        sandbox := Some(sandbox.value.(providers := Attached(sandbox.value.providers, provider)));
      }
      r := if fate == Fine then Ok(()) else Err(CallFailed);
    }

    method DetachProvider(provider: string) returns (r: Result<(), Error>)
      requires sandbox.Some?
      modifies this`faults, this`failures, this`sandbox, this`writes
      ensures writes == old(writes) + [Detach(provider)]
      ensures sandbox == old(sandbox)
        || sandbox == Some(old(sandbox).value.(providers := Without(old(sandbox).value.providers, [provider])))
      ensures r.Ok? ==>
        sandbox == Some(old(sandbox).value.(providers := Without(old(sandbox).value.providers, [provider])))
      ensures AllFine(old(faults)) ==> AllFine(faults) && r.Ok?
      ensures r.Ok? ==> failures == old(failures)
    {
      writes := writes + [Detach(provider)];
      var fate := Call();
      if fate != Failed {
        sandbox := Some(sandbox.value.(providers := Without(sandbox.value.providers, [provider])));
      }
      r := if fate == Fine then Ok(()) else Err(CallFailed);
    }

    method PushPolicy(policy: Policy) returns (r: Result<(), Error>)
      requires sandbox.Some?
      modifies this`faults, this`failures, this`sandbox, this`writes
      ensures writes == old(writes) + [UpdatePolicy(policy)]
      ensures sandbox == old(sandbox) || sandbox == Some(old(sandbox).value.(policy := Some(policy)))
      ensures r.Ok? ==> sandbox == Some(old(sandbox).value.(policy := Some(policy)))
      ensures AllFine(old(faults)) ==> AllFine(faults) && r.Ok?
      ensures r.Ok? ==> failures == old(failures)
    {
      writes := writes + [UpdatePolicy(policy)];
      var fate := Call();
      if fate != Failed {
        sandbox := Some(sandbox.value.(policy := Some(policy)));
      }
      r := if fate == Fine then Ok(()) else Err(CallFailed);
    }

    method PatchStatus(patch: Status) returns (r: Result<(), Error>)
      modifies this`faults, this`failures, this`status
      ensures status == old(status) || status == Merged(old(status), patch)
      ensures r.Ok? ==> status == Merged(old(status), patch)
      ensures AllFine(old(faults)) ==> AllFine(faults) && r.Ok?
      ensures r.Ok? ==> failures == old(failures)
    {
      var fate := Call();
      if fate != Failed {
        status := Merged(status, patch);
      }
      r := if fate == Fine then Ok(()) else Err(CallFailed);
    }

    // ----- Volumes -----

    method PostPvc(n: string, claim: Claim, labels: map<string, string>) returns (r: Result<(), Error>)
      requires n !in pvcs
      modifies this`faults, this`failures, this`pvcs, this`writes, this`nextUid
      ensures writes == old(writes) + [CreatePvc(n)] && nextUid >= old(nextUid)
      ensures pvcs == old(pvcs) || pvcs == old(pvcs)[n := Pvc(old(nextUid), claim, labels)]
      ensures r.Ok? ==> pvcs == old(pvcs)[n := Pvc(old(nextUid), claim, labels)] && failures == old(failures)
      ensures AllFine(old(faults)) ==> AllFine(faults) && r.Ok?
    {
      writes := writes + [CreatePvc(n)];
      var fate := Call();
      if fate != Failed {
        pvcs := pvcs[n := Pvc(nextUid, claim, labels)];
        nextUid := nextUid + 1;
      }
      r := if fate == Fine then Ok(()) else Err(CallFailed);
    }

    method PatchPvc(n: string, wanted: map<string, string>) returns (r: Result<(), Error>)
      requires n in pvcs
      modifies this`faults, this`failures, this`pvcs, this`writes
      ensures writes == old(writes) + [LabelPvc(n)]
      ensures pvcs == old(pvcs) || pvcs == Relabelled(old(pvcs), n, wanted)
      ensures r.Ok? ==> pvcs == Relabelled(old(pvcs), n, wanted) && failures == old(failures)
      ensures AllFine(old(faults)) ==> AllFine(faults) && r.Ok?
    {
      writes := writes + [LabelPvc(n)];
      var fate := Call();
      if fate != Failed {
        pvcs := pvcs[n := pvcs[n].(labels := pvcs[n].labels + wanted)];
      }
      r := if fate == Fine then Ok(()) else Err(CallFailed);
    }

    /** Provision or label the PVC of one volume. */
    method EnsurePvc(workspace: string, volume: Volume) returns (r: Result<(), Error>)
      modifies this`faults, this`failures, this`pvcs, this`writes, this`nextUid
      ensures OneEnsured(old(pvcs), pvcs, name, workspace, volume)
      ensures r.Ok? ==> Provisioned(pvcs, PvcName(name, volume), workspace)
      ensures Provisioned(old(pvcs), PvcName(name, volume), workspace) ==> pvcs == old(pvcs) && writes == old(writes)
      ensures forall w <- writes :: w in old(writes) || PvcCall(w, old(pvcs), PvcName(name, volume), workspace)
      ensures AllFine(old(faults)) ==> AllFine(faults) && r.Ok?
      ensures nextUid >= old(nextUid)
      ensures r.Ok? ==> failures == old(failures)
    {
      var n := PvcName(name, volume);
      var read := Call();
      if read != Fine {
        return Err(CallFailed);
      }
      if n !in pvcs {
        ProvisionedOne(pvcs, nextUid, name, workspace, volume);
        r := PostPvc(n, volume.claim, PvcLabels(name, workspace));
      } else {
        LabelledOne(pvcs, name, workspace, volume);
        if HasLabels(pvcs[n].labels, AdmissionLabels(workspace)) {
          return Ok(());
        }
        r := PatchPvc(n, AdmissionLabels(workspace));
      }
    }

    method EnsurePvcs(spec: SandboxSpec) returns (r: Result<(), Error>)
      modifies this`faults, this`failures, this`pvcs, this`writes, this`nextUid
      ensures Grown(old(pvcs), pvcs, name, spec)
      ensures r.Ok? ==> AllProvisioned(pvcs, name, spec)
      ensures AllProvisioned(old(pvcs), name, spec) ==> pvcs == old(pvcs) && writes == old(writes)
      ensures forall w <- writes :: w in old(writes) || PvcNeeded(w, old(pvcs), name, spec)
      ensures AllFine(old(faults)) ==> AllFine(faults) && r.Ok?
      ensures r.Ok? ==> failures == old(failures)
    {
      var workspace := WorkspaceOf(spec);
      for i := 0 to |spec.volumes|
        invariant failures == old(failures)
        invariant Grown(old(pvcs), pvcs, name, spec)
        invariant forall j :: 0 <= j < i ==> Provisioned(pvcs, PvcName(name, spec.volumes[j]), workspace)
        invariant AllProvisioned(old(pvcs), name, spec) ==> pvcs == old(pvcs) && writes == old(writes)
        invariant forall w <- writes :: w in old(writes) || PvcNeeded(w, old(pvcs), name, spec)
        invariant AllFine(old(faults)) ==> AllFine(faults)
      {
        var volume := spec.volumes[i];
        ghost var before := pvcs;
        var done := EnsurePvc(workspace, volume);
        StillGrown(old(pvcs), before, pvcs, name, spec, volume);
        forall w | PvcCall(w, before, PvcName(name, volume), workspace) ensures PvcNeeded(w, old(pvcs), name, spec) {
          StillNeeded(old(pvcs), before, name, spec, volume, w);
        }
        if done.Err? {
          return done;
        }
      }
      return Ok(());
    }

    /** Attach what is missing, then detach what is not wanted: wherever it stops, nothing
        has been detached unless all that is wanted is attached. */
    method ConvergeProviders(desired: seq<string>) returns (r: Result<(), Error>)
      requires sandbox.Some?
      modifies this`faults, this`failures, this`sandbox, this`writes
      ensures SameButProviders(old(sandbox), sandbox)
      ensures AllIn(old(sandbox).value.providers, sandbox.value.providers) || AllIn(desired, sandbox.value.providers)
      ensures r.Ok? ==> SameTexts(sandbox.value.providers, desired)
      ensures forall w <- writes :: w in old(writes) || Needed(w, desired, old(sandbox).value.providers)
      ensures SameTexts(old(sandbox).value.providers, desired) ==>
        sandbox == old(sandbox) && writes == old(writes) && r.Ok?
      ensures AllFine(old(faults)) ==> AllFine(faults) && r.Ok?
      ensures r.Ok? ==> failures == old(failures)
    {
      ghost var current := sandbox.value.providers;
      var (attach, detach) := ProviderDelta(desired, sandbox.value.providers);
      NothingToDo(desired, current);
      r := AttachAll(attach);
      if r.Ok? {
        r := DetachAll(detach);
      }
    }

    method AttachAll(attach: seq<string>) returns (r: Result<(), Error>)
      requires sandbox.Some?
      modifies this`faults, this`failures, this`sandbox, this`writes
      ensures SameButProviders(old(sandbox), sandbox)
      ensures AllIn(old(sandbox).value.providers, sandbox.value.providers)
      ensures r.Ok? ==> forall t :: t in sandbox.value.providers <==> t in old(sandbox).value.providers || t in attach
      ensures forall w <- writes :: w in old(writes) || (w.Attach? && w.provider in attach)
      ensures attach == [] ==> sandbox == old(sandbox) && writes == old(writes) && r.Ok?
      ensures AllFine(old(faults)) ==> AllFine(faults) && r.Ok?
      ensures r.Ok? ==> failures == old(failures)
    {
      for i := 0 to |attach|
        invariant failures == old(failures)
        invariant SameButProviders(old(sandbox), sandbox)
        invariant forall t :: t in sandbox.value.providers <==> t in old(sandbox).value.providers || t in attach[..i]
        invariant forall w <- writes :: w in old(writes) || (w.Attach? && w.provider in attach)
        invariant i == 0 ==> sandbox == old(sandbox) && writes == old(writes)
        invariant AllFine(old(faults)) ==> AllFine(faults)
      {
        var done := AttachProvider(attach[i]);
        if done.Err? {
          return done;
        }
        assert attach[..i + 1] == attach[..i] + [attach[i]];
      }
      assert attach[..|attach|] == attach;
      return Ok(());
    }

    method DetachAll(detach: seq<string>) returns (r: Result<(), Error>)
      requires sandbox.Some?
      modifies this`faults, this`failures, this`sandbox, this`writes
      ensures SameButProviders(old(sandbox), sandbox)
      ensures forall t <- old(sandbox).value.providers :: t in sandbox.value.providers || t in detach
      ensures r.Ok? ==> forall t :: t in sandbox.value.providers <==> t in old(sandbox).value.providers && t !in detach
      ensures forall w <- writes :: w in old(writes) || (w.Detach? && w.provider in detach)
      ensures detach == [] ==> sandbox == old(sandbox) && writes == old(writes) && r.Ok?
      ensures AllFine(old(faults)) ==> AllFine(faults) && r.Ok?
      ensures r.Ok? ==> failures == old(failures)
    {
      for i := 0 to |detach|
        invariant failures == old(failures)
        invariant SameButProviders(old(sandbox), sandbox)
        invariant forall t :: t in sandbox.value.providers <==> t in old(sandbox).value.providers && t !in detach[..i]
        invariant forall w <- writes :: w in old(writes) || (w.Detach? && w.provider in detach)
        invariant i == 0 ==> sandbox == old(sandbox) && writes == old(writes)
        invariant AllFine(old(faults)) ==> AllFine(faults)
      {
        var done := DetachProvider(detach[i]);
        if done.Err? {
          return done;
        }
        assert detach[..i + 1] == detach[..i] + [detach[i]];
      }
      assert detach[..|detach|] == detach;
      return Ok(());
    }

    method UpdatePolicyIfDrifted(policy: Option<Policy>) returns (r: Result<(), Error>)
      requires sandbox.Some?
      modifies this`faults, this`failures, this`sandbox, this`writes
      ensures var drifted := policy.Some? && Drifted(status.policy, PolicyMaterial(policy));
        && (sandbox == old(sandbox) || (drifted && sandbox == Some(old(sandbox).value.(policy := policy))))
        && (drifted && r.Ok? ==> sandbox.value.policy == policy)
        && (if drifted then writes == old(writes) + [UpdatePolicy(policy.value)] else writes == old(writes) && r.Ok?)
      ensures AllFine(old(faults)) ==> AllFine(faults) && r.Ok?
      ensures r.Ok? ==> failures == old(failures)
    {
      if policy.Some? && Drifted(status.policy, PolicyMaterial(policy)) {
        r := PushPolicy(policy.value);
      } else {
        r := Ok(());
      }
    }

    /** Delete, wait for the sandbox to be gone, create. */
    method Recreate(request: CreateRequest, ghost from: Origin) returns (r: Result<(), Error>)
      modifies this`faults, this`failures, this`sandbox, this`origin, this`writes, this`nextUid
      ensures (BuiltFresh(sandbox, request) && origin == from)
        || (r.Err? && origin == old(origin) && (sandbox.None? || SameObject(old(sandbox), sandbox)))
      ensures forall w <- writes :: w in old(writes) || w == Drop || w == Make(request)
      ensures sandbox.None? || SameObject(old(sandbox), sandbox) || BuiltFresh(sandbox, request)
      ensures r.Ok? ==> BuiltFresh(sandbox, request)
      ensures AllFine(old(faults)) ==> AllFine(faults) && (r.Ok? <==> Remaining(old(sandbox), delay) < POLL_ATTEMPTS)
      ensures AllFine(old(faults)) && r.Err? ==> r.error == RecreateTimeout
      ensures r.Ok? ==> failures == old(failures)
    {
      ghost var left := Remaining(sandbox, delay);
      var dropped := DeleteSandbox();
      if dropped.Err? {
        return Err(CallFailed);
      }
      for i := 0 to POLL_ATTEMPTS
        invariant failures == old(failures)
        invariant forall w <- writes :: w in old(writes) || w == Drop || w == Make(request)
        invariant origin == old(origin) && (sandbox.None? || SameObject(old(sandbox), sandbox))
        invariant sandbox.Some? ==> left >= i && sandbox.value.leaving == Some(left - i)
        invariant sandbox.None? ==> i == 0 && left == 0
        invariant AllFine(old(faults)) ==> AllFine(faults)
      {
        var found := GetSandbox();
        if found.Err? {
          return Err(CallFailed);
        }
        if found.value.None? {
          r := CreateSandbox(request, from);
          return;
        }
      }
      return Err(RecreateTimeout);
    }

    // ----- A reconcile -----

    /** The gateway's part of a reconcile: create, recreate, or converge in place. */
    method ConvergeGateway(round: Round) returns (r: Result<Status, Error>)
      modifies this`faults, this`failures, this`sandbox, this`origin, this`writes, this`nextUid
      ensures Takes(round, Seen(old(sandbox), old(origin)), status, Seen(sandbox, origin), r.Ok?)
      ensures MadeFrom(name, old(sandbox), old(origin)) ==> MadeFrom(name, sandbox, origin)
      ensures r.Ok? ==> Resolved(round).Ok? && r.value == Hashes(round.spec, Resolved(round).value)
      ensures forall w <- writes :: w in old(writes) || Warranted(w, name, round, Ticked(old(sandbox)), status)
      ensures Resolved(round).Ok? && Safe(name, old(sandbox), status, round.spec, Resolved(round).value) ==>
        && Safe(name, sandbox, status, round.spec, Resolved(round).value)
        && (r.Ok? ==> Achieved(name, sandbox, round.spec, Resolved(round).value))
      ensures StaysFor(old(sandbox), round, status) ==> SameSandbox(old(sandbox), sandbox)
      ensures Rests(old(sandbox), round, status) ==>
        sandbox == old(sandbox) && writes == old(writes)
      ensures Resolved(round).Err? ==>
        sandbox == Ticked(old(sandbox)) || SameButProviders(Ticked(old(sandbox)), sandbox)
      ensures AllFine(old(faults)) ==>
        AllFine(faults) && (r.Ok? <==> Completes(round, Ticked(old(sandbox)), status, delay))
      ensures AllFine(old(faults)) && r.Err? ==>
        r.error == if Resolved(round).Err? then Resolved(round).error else RecreateTimeout
      ensures AllFine(old(faults)) && Resolved(round).Err? && sandbox.Some? ==>
        SameTexts(sandbox.value.providers, round.spec.providers)
      ensures r.Ok? ==> failures == old(failures)
    {
      var spec := round.spec;
      var found := GetSandbox();
      if found.Err? {
        return Err(CallFailed);
      }
      var resolved := Resolved(round);
      if found.value.None? {
        if resolved.Err? {
          return Err(resolved.error);
        }
        r := CreateConverged(round);
        if sandbox.Some? { MadeIsAchieved(name, sandbox, origin, round); }
        return;
      }
      if resolved.Err? {
        var attached := ConvergeProviders(spec.providers);
        return Err(if attached.Err? then attached.error else resolved.error);
      }
      r := ConvergeFound(round);
    }

    /** Of a sandbox that is there and a policy that resolves. */
    method ConvergeFound(round: Round) returns (r: Result<Status, Error>)
      requires sandbox.Some? && Resolved(round).Ok?
      modifies this`faults, this`failures, this`sandbox, this`origin, this`writes, this`nextUid
      ensures Takes(round, Seen(old(sandbox), old(origin)), status, Seen(sandbox, origin), r.Ok?)
      ensures MadeFrom(name, old(sandbox), old(origin)) ==> MadeFrom(name, sandbox, origin)
      ensures r.Ok? ==> r.value == Hashes(round.spec, Resolved(round).value)
      ensures forall w <- writes :: w in old(writes) || Warranted(w, name, round, old(sandbox), status)
      ensures Safe(name, old(sandbox), status, round.spec, Resolved(round).value) ==>
        && Safe(name, sandbox, status, round.spec, Resolved(round).value)
        && (r.Ok? ==> Achieved(name, sandbox, round.spec, Resolved(round).value))
      ensures StaysFor(old(sandbox), round, status) ==> SameSandbox(old(sandbox), sandbox)
      ensures Rests(old(sandbox), round, status) ==> sandbox == old(sandbox) && writes == old(writes)
      ensures AllFine(old(faults)) ==>
        AllFine(faults) && (r.Ok? <==> Completes(round, old(sandbox), status, delay))
      ensures AllFine(old(faults)) && r.Err? ==> r.error == RecreateTimeout
      ensures r.Ok? ==> failures == old(failures)
    {
      var spec, policy := round.spec, Resolved(round).value;
      if Rebuild(status, spec, policy) {
        r := RecreateConverged(round);
        if MadeFor(name, sandbox, origin, round) { MadeIsAchieved(name, sandbox, origin, round); }
        return;
      }
      var done := ConvergeInPlace(spec.providers, policy);
      return if done.Ok? then Ok(Hashes(spec, policy)) else Err(done.error);
    }

    method CreateConverged(round: Round) returns (r: Result<Status, Error>)
      requires sandbox.None? && Resolved(round).Ok?
      modifies this`faults, this`failures, this`sandbox, this`origin, this`writes, this`nextUid
      ensures sandbox.None? || MadeFor(name, sandbox, origin, round)
      ensures r.Ok? ==> sandbox.Some? && r.value == Hashes(round.spec, Resolved(round).value)
      ensures forall w <- writes :: w in old(writes) || w == Make(RequestFor(name, round.spec, Resolved(round).value))
      ensures AllFine(old(faults)) ==> AllFine(faults) && r.Ok?
      ensures r.Ok? ==> failures == old(failures)
    {
      var spec, policy := round.spec, Resolved(round).value;
      var created := CreateSandbox(RequestFor(name, spec, policy), Origin(spec, policy));
      r := if created.Ok? then Ok(Hashes(spec, policy)) else Err(CallFailed);
    }

    method RecreateConverged(round: Round) returns (r: Result<Status, Error>)
      requires sandbox.Some? && Resolved(round).Ok?
      modifies this`faults, this`failures, this`sandbox, this`origin, this`writes, this`nextUid
      ensures r.Ok? ==> MadeFor(name, sandbox, origin, round) && r.value == Hashes(round.spec, Resolved(round).value)
      ensures sandbox.None? || MadeFor(name, sandbox, origin, round)
        || (r.Err? && origin == old(origin) && SameObject(old(sandbox), sandbox))
      ensures forall w <- writes ::
        w in old(writes) || w == Drop || w == Make(RequestFor(name, round.spec, Resolved(round).value))
      ensures AllFine(old(faults)) ==> AllFine(faults) && (r.Ok? <==> Remaining(old(sandbox), delay) < POLL_ATTEMPTS)
      ensures AllFine(old(faults)) && r.Err? ==> r.error == RecreateTimeout
      ensures r.Ok? ==> failures == old(failures)
    {
      var spec, policy := round.spec, Resolved(round).value;
      var recreated := Recreate(RequestFor(name, spec, policy), Origin(spec, policy));
      r := if recreated.Ok? then Ok(Hashes(spec, policy)) else Err(recreated.error);
    }

    /** Providers first, then the policy's mutable sections. */
    method ConvergeInPlace(desired: seq<string>, policy: Option<Policy>) returns (r: Result<(), Error>)
      requires sandbox.Some?
      modifies this`faults, this`failures, this`sandbox, this`writes
      ensures var drifted := policy.Some? && Drifted(status.policy, PolicyMaterial(policy));
        && SameSandbox(old(sandbox), sandbox)
        && (sandbox.value.policy == old(sandbox).value.policy
            || (drifted && sandbox.value.policy == policy && SameTexts(sandbox.value.providers, desired)))
        && (r.Ok? ==> SameTexts(sandbox.value.providers, desired) && (drifted ==> sandbox.value.policy == policy))
        && (forall w <- writes :: w in old(writes)
              || Needed(w, desired, old(sandbox).value.providers) || (drifted && w == UpdatePolicy(policy.value)))
        && (SameTexts(old(sandbox).value.providers, desired) && !drifted ==>
              sandbox == old(sandbox) && writes == old(writes) && r.Ok?)
      ensures AllFine(old(faults)) ==> AllFine(faults) && r.Ok?
      ensures r.Ok? ==> failures == old(failures)
    {
      r := ConvergeProviders(desired);
      if r.Ok? {
        r := UpdatePolicyIfDrifted(policy);
      }
    }

    method Converge(round: Round) returns (r: Result<Status, Error>)
      modifies this`faults, this`failures, this`sandbox, this`origin, this`pvcs, this`writes, this`nextUid
      ensures Takes(round, Seen(old(sandbox), old(origin)), status, Seen(sandbox, origin), r.Ok?)
      ensures MadeFrom(name, old(sandbox), old(origin)) ==> MadeFrom(name, sandbox, origin)
      ensures Grown(old(pvcs), pvcs, name, round.spec)
      ensures r.Ok? ==> Resolved(round).Ok? && r.value == Hashes(round.spec, Resolved(round).value)
      ensures r.Ok? ==> Accepted(round.spec.volumes) && AllProvisioned(pvcs, name, round.spec)
      ensures forall w <- writes :: w in old(writes) || Justified(w, name, round, old(sandbox), status, pvcs)
      ensures Resolved(round).Ok? && Safe(name, old(sandbox), status, round.spec, Resolved(round).value) ==>
        && Safe(name, sandbox, status, round.spec, Resolved(round).value)
        && (r.Ok? ==> Achieved(name, sandbox, round.spec, Resolved(round).value))
      ensures StaysFor(old(sandbox), round, status) ==> SameSandbox(old(sandbox), sandbox)
      ensures AllProvisioned(old(pvcs), name, round.spec) && Rests(old(sandbox), round, status) ==>
        sandbox == old(sandbox) && writes == old(writes) && pvcs == old(pvcs)
      ensures Resolved(round).Err? ==> OnlyProviders(old(sandbox), sandbox)
      ensures AllFine(old(faults)) ==> AllFine(faults)
      ensures AllFine(old(faults)) ==> (r.Ok? <==> Succeeds(round, old(sandbox), status, delay))
      ensures AllFine(old(faults)) && r.Err? ==> FailsWith(round, r.error)
      ensures AllFine(old(faults)) && Resolved(round).Err? && Accepted(round.spec.volumes) && sandbox.Some? ==>
        SameTexts(sandbox.value.providers, round.spec.providers)
      ensures r.Ok? ==> failures == old(failures)
    {
      var valid := Validate(round.spec.volumes);
      if valid.Err? {
        return Err(VolumeInvalid(valid.error));
      }
      var ensured := EnsurePvcs(round.spec);
      if ensured.Err? {
        return Err(ensured.error);
      }
      r := ConvergeGateway(round);
    }

    /** One reconcile: converge, and record the outcome. */
    method Apply(round: Round) returns (r: Result<(), Error>)
      modifies this`faults, this`failures, this`sandbox, this`origin, this`pvcs, this`writes, this`nextUid, this`status
      ensures Follows(round, Seen(old(sandbox), old(origin)), old(status), Seen(sandbox, origin), status)
      ensures MadeFrom(name, old(sandbox), old(origin)) ==> MadeFrom(name, sandbox, origin)
      ensures Grown(old(pvcs), pvcs, name, round.spec)
      ensures forall w <- writes :: Justified(w, name, round, old(sandbox), old(status), pvcs)
      ensures Resolved(round).Ok? && Safe(name, old(sandbox), old(status), round.spec, Resolved(round).value) ==>
        && Safe(name, sandbox, status, round.spec, Resolved(round).value)
        && (r.Ok? ==> Quiescent(name, sandbox, pvcs, status, round.spec, Resolved(round).value))
      ensures StaysFor(old(sandbox), round, old(status)) ==>
        SameSandbox(old(sandbox), sandbox) && (old(status).built.Some? ==> status.built == old(status).built)
      ensures QuiescentFor(name, old(sandbox), old(pvcs), old(status), round) ==>
        writes == [] && sandbox == old(sandbox) && pvcs == old(pvcs) && status == old(status)
      ensures Resolved(round).Err? ==> r.Err? && status == old(status) && OnlyProviders(old(sandbox), sandbox)
      ensures AllFine(old(faults)) ==> AllFine(faults)
      ensures AllFine(old(faults)) ==> (r.Ok? <==> Succeeds(round, old(sandbox), old(status), delay))
      ensures AllFine(old(faults)) && r.Err? ==> FailsWith(round, r.error) && status == old(status)
      ensures AllFine(old(faults)) && Resolved(round).Err? && Accepted(round.spec.volumes) && sandbox.Some? ==>
        SameTexts(sandbox.value.providers, round.spec.providers)
      ensures r.Ok? ==> failures == old(failures)
    {
      writes := [];
      var prior := status;
      var converged := Converge(round);
      if converged.Ok? {
        r := PatchStatus(converged.value);
      } else {
        var recorded := PatchStatus(prior);
        r := Err(converged.error);
      }
    }

    /** Release the sandbox, and its volumes if they are not to be retained. */
    method Cleanup(spec: SandboxSpec) returns (r: Result<(), Error>)
      modifies this`faults, this`failures, this`sandbox, this`pvcs, this`writes
      ensures pvcs == old(pvcs) || (spec.retention == Retention.Delete && pvcs == Released(old(pvcs), name))
      ensures r.Ok? ==> pvcs == if spec.retention == Retention.Delete then Released(old(pvcs), name) else old(pvcs)
      ensures r.Ok? && sandbox.Some? ==> sandbox.value.leaving.Some?
      ensures sandbox == old(sandbox) || SameObject(old(sandbox), sandbox)
      ensures AllFine(old(faults)) ==> r.Ok?
      ensures r.Ok? ==> failures == old(failures)
    {
      writes := [];
      var dropped := DeleteSandbox();
      if dropped.Err? {
        return Err(dropped.error);
      }
      if spec.retention != Retention.Delete {
        return Ok(());
      }
      writes := writes + [DeletePvcs];
      var fate := Call();
      if fate != Failed {
        pvcs := Released(pvcs, name);
      }
      r := if fate == Fine then Ok(()) else Err(CallFailed);
    }

    /** A run of reconciles, whatever their specs, policies and faults. `spec` and `policy`
        are a goal the run is measured against. */
    method Reconciles(
        rounds: seq<Round>, ghost spec: SandboxSpec, ghost policy: Option<Policy>)
      returns (calls: seq<Write>)
      modifies this`faults, this`failures, this`sandbox, this`origin, this`pvcs, this`writes, this`nextUid, this`status
      ensures SamePvcs(old(pvcs), pvcs) && DeletePvcs !in calls
      ensures AllToward(rounds, spec, policy) && Safe(name, old(sandbox), old(status), spec, policy) ==>
        Safe(name, sandbox, status, spec, policy)
      ensures NoneAsks(rounds, spec, policy) && BuiltAndRecorded(old(sandbox), old(status), spec, policy) ==>
        SameSandbox(old(sandbox), sandbox) && Keeping(calls)
    {
      calls := [];
      ghost var toward := AllToward(rounds, spec, policy) && Safe(name, sandbox, status, spec, policy);
      ghost var keeping := NoneAsks(rounds, spec, policy) && BuiltAndRecorded(sandbox, status, spec, policy);
      for i := 0 to |rounds|
        invariant SamePvcs(old(pvcs), pvcs) && DeletePvcs !in calls
        invariant toward ==> Safe(name, sandbox, status, spec, policy)
        invariant keeping ==>
          BuiltAndRecorded(sandbox, status, spec, policy) && SameSandbox(old(sandbox), sandbox) && Keeping(calls)
      {
        var round := rounds[i];
        assert toward ==> Toward(round, spec, policy);
        assert keeping ==> NoRebuildAsked(round, spec, policy);
        ghost var before, recorded := sandbox, status;
        var done := Apply(round);
        if toward && Resolved(round).Err? {
          UnresolvedKeeps(name, before, sandbox, status, spec, policy);
        }
        if keeping {
          NothingRebuilt(name, before, recorded, round, spec, policy, writes, pvcs);
        }
        calls := calls + writes;
      }
    }
  }

  // ----- Consequences -----

  /** Where a reconcile ends is where the interleaved protocol can: from the same gateway and
      status, with nothing else under way and the same wanted, its own steps lead there. */
  lemma ReconcileIsRun(
    round: Round, g: Option<SandboxDrift.Sandbox>, g': Option<SandboxDrift.Sandbox>, st': Status, s: State)
    returns (t: State)
    requires Idle(s) && s.gateway == g && Follows(round, g, s.status, g', st')
    requires Resolved(round).Ok? ==> Aimed(s) && Goal(s) == GoalOf(round)
    ensures Leads(s, t) && Idle(t) && t.spec == s.spec && t.docs == s.docs && t.gateway == g' && t.status == st'
  {
    var ok :| Takes(round, g, s.status, g', ok) && (st' == s.status || (ok && st' == Wanted(GoalOf(round))));
    if Resolved(round).Ok? {
      t := CourseIsRun(s, g', ok, st' != s.status);
    } else {
      t := FailureIsRun(s, g' == None, false);
    }
  }

  function DocOf(policy: Option<Policy>): Doc {
    Doc(LandlockJson(policy), ProcessJson(policy), PolicyMaterial(policy))
  }

  /** A spec as the protocol sees it. */
  function SpecOf(round: Round): Spec {
    var spec := round.spec;
    Spec(ImmutableMaterial(spec, None),
      if spec.policyRef.None? && (spec.policy.None? || round.valid) then Inline(DocOf(spec.policy))
      else if spec.policy.None? then Named(spec.policyRef.value)
      else Unusable)
  }

  /** The protocol's documents agree with what a round's lookup brings. */
  predicate Agrees(round: Round, docs: Docs) {
    round.spec.policy.None? && round.spec.policyRef.Some? ==>
      var name, found := round.spec.policyRef.value, round.lookup;
      if found.Ok? && found.value.Some? && round.valid then name in docs && docs[name] == DocOf(found.value)
      else name !in docs
  }

  /** The protocol wants what a round works for, and resolves a policy exactly if the round
      does. */
  lemma RoundMeans(round: Round, docs: Docs)
    requires Agrees(round, docs)
    ensures Resolvable(SpecOf(round), docs) <==> Resolved(round).Ok?
    ensures Resolved(round).Ok? ==> TargetOf(SpecOf(round), docs) == GoalOf(round)
  {
  }

  /** After a successful reconcile no edit of spec or policy goes unnoticed: whatever the
      next spec asks for is in place already, or a recorded hash tells. */
  lemma AnyEditIsNoticed(
    name: string, sandbox: Option<Live>, pvcs: map<string, Pvc>, status: Status,
    spec: SandboxSpec, policy: Option<Policy>, edited: SandboxSpec, another: Option<Policy>)
    requires Quiescent(name, sandbox, pvcs, status, spec, policy)
    ensures Safe(name, sandbox, status, edited, another)
  {
    FingerprintExact(name, spec, policy, edited, another);
    BuiltIsMaterial(spec, policy, edited, another);
    if another.Some? {
      PolicyFingerprintExact(another.value, another.value);
    }
  }

  /** What the interleaved model keeps in terms of materials holds of the create requests
      themselves: if the sandbox was made from some spec and policy and no drift is lost, then
      none is hidden. */
  lemma DriftKeptIsSafe(
    name: string, sandbox: Live, built: SandboxSpec, with: Option<Policy>,
    spec: SandboxSpec, policy: Option<Policy>, s: State)
    requires sandbox.leaving.None? && sandbox.request == RequestFor(name, built, with)
    requires s.gateway == Some(SandboxDrift.Sandbox(BuiltOf(built, with), PolicyMaterial(sandbox.policy)))
    requires Aimed(s) && Goal(s) == Target(BuiltOf(spec, policy), PolicyMaterial(policy))
    requires DriftKept(s)
    ensures Safe(name, Some(sandbox), s.status, spec, policy)
  {
    FingerprintExact(name, built, with, spec, policy);
    BuiltIsMaterial(built, with, spec, policy);
    if policy.Some? {
      PolicyFingerprintExact(policy.value, policy.value);
    }
  }

  /** The rounds a rebuild is not asked for are exactly those whose spec and policy leave
      the create request as it is, outside what is converged in place, and do not set or
      unset image, log level or runtime class. */
  lemma RebuildIsForTheRequest(name: string, round: Round, status: Status, spec: SandboxSpec, policy: Option<Policy>)
    requires Resolved(round).Ok? && status.built == Some(BuiltOf(spec, policy))
    ensures var resolved := Resolved(round).value;
      var before, after := View(RequestFor(name, spec, policy)), View(RequestFor(name, round.spec, resolved));
      Rebuild(status, round.spec, resolved) <==> !(before == after && SameTextsSet(spec, round.spec))
  {
    FingerprintExact(name, spec, policy, round.spec, Resolved(round).value);
    BuiltIsMaterial(spec, policy, round.spec, Resolved(round).value);
  }

  predicate SameButClaims(a: seq<Volume>, b: seq<Volume>) {
    |a| == |b| && forall i :: 0 <= i < |a| ==> b[i] == a[i].(claim := b[i].claim)
  }

  /** Edits of providers, claim bodies, retention and workspace, a GPU count without a GPU,
      resources without a quantity, and of the policy's version, networkPolicies and
      filesystem, in any combination, ask for no rebuild. */
  lemma MutableEdits(
    spec: SandboxSpec, policy: Option<Policy>, providers: seq<string>, volumes: seq<Volume>, retention: Retention,
    workspace: Option<string>, gpuCount: Option<u32>, resources: Option<Resources>, round: Round)
    requires SameButClaims(spec.volumes, volumes)
    requires spec.gpu ==> gpuCount == spec.gpuCount
    requires SameResources(resources, spec.resources)
    requires Resolved(round).Ok? ==>
      && LandlockOf(Resolved(round).value) == LandlockOf(policy)
      && ProcessOf(Resolved(round).value) == ProcessOf(policy)
    requires round.spec == spec.(
      providers := providers, volumes := volumes, retention := retention, workspace := workspace,
      gpuCount := gpuCount, resources := resources, policy := round.spec.policy, policyRef := round.spec.policyRef)
    ensures NoRebuildAsked(round, spec, policy)
    ensures Resolved(round).Ok? ==>
      ImmutableMaterial(spec, policy) == ImmutableMaterial(round.spec, Resolved(round).value)
  {
    forall i | 0 <= i < |volumes| ensures MountOf(spec.volumes[i]) == MountOf(volumes[i]) {
      assert volumes[i] == spec.volumes[i].(claim := volumes[i].claim);
    }
    if Resolved(round).Ok? {
      MaterialIsItsParts(spec, policy, round.spec, Resolved(round).value);
      BuiltIsMaterial(spec, policy, round.spec, Resolved(round).value);
    }
  }

  /** Every PVC a create request refers to exists and carries both admission labels: the
      gateway reads the driver configuration in which it is declared. */
  lemma RequestNamesReadyPvcs(
    w: Write, name: string, round: Round, before: Option<Live>, status: Status, pvcs: map<string, Pvc>, i: nat)
    requires Justified(w, name, round, before, status, pvcs) && w.Make?
    requires Accepted(round.spec.volumes) && i < |round.spec.volumes|
    ensures var config := DriverConfig(name, round.spec.volumes).value;
      var n := PvcName(name, round.spec.volumes[i]);
      && w.request.template.Some? && w.request.template.value.driverConfig.Some?
      && ReadStruct(w.request.template.value.driverConfig.value) == config
      && |DeclaredVolumes(config)| == |round.spec.volumes| && ClaimName(DeclaredVolumes(config)[i]) == String(n)
      && Provisioned(pvcs, n, WorkspaceOf(round.spec))
  {
    MountsResolve(name, round.spec.volumes);
    DriverMounts(name, round.spec.volumes);
    StructReadsBack(DriverConfig(name, round.spec.volumes).value);
    assert MountServes(name, round.spec.volumes, MountedVolumes(DriverConfig(name, round.spec.volumes).value)[i],
      DeclaredVolumes(DriverConfig(name, round.spec.volumes).value)[i], i);
  }

  /** Deleting a sandbox that does not retain its volumes releases exactly those that carry
      its name, among them every one provisioned for it. */
  lemma ReleasedExactly(pvcs: map<string, Pvc>, name: string, n: string)
    requires n in pvcs
    ensures n !in Released(pvcs, name) <==> SANDBOX_LABEL in pvcs[n].labels && pvcs[n].labels[SANDBOX_LABEL] == name
    ensures n in Released(pvcs, name) ==> Released(pvcs, name)[n] == pvcs[n]
    ensures forall spec :: NewPvc(pvcs[n], n, name, spec) ==> n !in Released(pvcs, name)
  {
  }
}
