/** Sandbox convergence under faults and overlap: any number of reconciles of one sandbox,
    interleaved call by call. Each works from the spec and the status it started with (one
    that is handed an outdated object from a cache is one that began earlier); a policy its
    spec refers to by name it reads later, after looking at the gateway.

    A call is a request that may be lost, may take effect late, even after its sender gave
    up or died, and whose answer may be lost. Recorded hashes are the materials themselves.
    Provider calls touch neither fingerprint and appear only as a step that can fail. */
module SandboxDrift {
  import opened Wrappers
  import opened Json
  import opened Fingerprint

  // ----- Specs and policies -----

  /** The immutable material: the spec's own part, and the two sections of its policy. */
  datatype Built = Built(core: Material, landlock: Json, process: Json)

  /** What a spec and its policy call for. */
  datatype Target = Target(built: Built, policy: MutableMaterial)

  /** A policy document that the parser accepts. */
  datatype Doc = Doc(landlock: Json, process: Json, sections: MutableMaterial)

  const NO_DOC := Doc(Null, Null, NO_POLICY)

  /** What is written down is never like nothing: a document always has a rules section. */
  predicate Proper(doc: Doc) {
    doc.sections != NO_POLICY
  }

  /** Where a spec's policy comes from; `Inline(NO_DOC)` without one. `Unusable` are both
      sources at once, and an inline document that the parser rejects. */
  datatype Source = Inline(doc: Doc) | Named(name: string) | Unusable

  datatype Spec = Spec(core: Material, source: Source)

  /** The named policies, where there is one and the parser accepts it. */
  type Docs = map<string, Doc>

  predicate Resolvable(spec: Spec, docs: Docs) {
    spec.source.Inline? || (spec.source.Named? && spec.source.name in docs)
  }

  function With(core: Material, doc: Doc): Target {
    Target(Built(core, doc.landlock, doc.process), doc.sections)
  }

  function TargetOf(spec: Spec, docs: Docs): Target
    requires Resolvable(spec, docs)
  {
    With(spec.core, if spec.source.Inline? then spec.source.doc else docs[spec.source.name])
  }

  predicate Carries(t: Target) {
    t.policy != NO_POLICY
  }

  // ----- The protocol -----

  /** The gateway sandbox: what it was built from, and the policy sections in force. */
  datatype Sandbox = Sandbox(built: Built, policy: MutableMaterial)

  /** The two recorded hashes. */
  datatype Status = Status(built: Option<Built>, policy: Option<MutableMaterial>)

  type Id = nat

  datatype Call =
    | Create(id: Id, target: Target)
    | Remove(id: Id)
    | Update(id: Id, policy: MutableMaterial)
    | Record(id: Id, status: Status)

  /** Where a reconcile is. `Settling` covers the provider calls of the in-place path. */
  datatype Place =
    | Looking
    | Deciding(found: bool)
    | Removing
    | Polling
    | Creating
    | Settling
    | Updating
    | Recording

  /** A reconcile has a `target` once it has resolved its policy. `edited` marks one that is
      left over: an edit since has changed what is wanted, and it will not see that. */
  datatype Reconcile = Reconcile(spec: Spec, prior: Status, place: Place, target: Target, edited: bool)

  datatype State = State(
    spec: Spec,
    docs: Docs,
    gateway: Option<Sandbox>,
    status: Status,
    runs: map<Id, Reconcile>,
    inflight: set<Call>,
    done: set<Call>,
    nextId: Id)

  datatype Action =
    | Begin
    | Look(id: Id)
    | Resolve(id: Id, ok: bool)
    | Removed(id: Id)
    | Poll(id: Id)
    | Created(id: Id)
    | Settled(id: Id)
    | Updated(id: Id)
    | GiveUp(id: Id)
    | Finish(id: Id)
    | TakeUp(call: Call, accepted: bool)
    | Lose(call: Call)
    | Vanish
    | EditSpec(spec: Spec)
    | EditPolicy(name: string, doc: Option<Doc>)

  /** Something definite is wanted: the present spec's policy resolves. */
  predicate Aimed(s: State) {
    Resolvable(s.spec, s.docs)
  }

  function Goal(s: State): Target
    requires Aimed(s)
  {
    TargetOf(s.spec, s.docs)
  }

  /** A recorded hash calls for action only when there is one and it differs. */
  predicate Drifted<T(==)>(recorded: Option<T>, desired: T) {
    recorded.Some? && recorded.value != desired
  }

  function Wanted(t: Target): Status {
    Status(Some(t.built), Some(t.policy))
  }

  predicate Complete(status: Status) {
    status.built.Some? && status.policy.Some?
  }

  predicate Unresolved(place: Place) {
    place.Looking? || place.Deciding?
  }

  predicate Pushes(prior: Status, t: Target) {
    Carries(t) && Drifted(prior.policy, t.policy)
  }

  /** The sandbox, if there is one, is built from what is wanted. */
  predicate BuiltSafe(s: State)
    requires Aimed(s)
  {
    s.gateway.Some? ==> s.gateway.value.built == Goal(s).built
  }

  predicate PolicySafe(s: State)
    requires Aimed(s)
  {
    s.gateway.Some? && Carries(Goal(s)) ==> s.gateway.value.policy == Goal(s).policy
  }

  // ----- When an edit is harmless -----

  /** Every hash a status carries is true of the gateway sandbox; a policy hash may also be
      the one recorded while no policy was set. */
  predicate Truthful(gateway: Option<Sandbox>, status: Status) {
    gateway.Some? ==>
      && (status.built.Some? ==> status.built.value == gateway.value.built)
      && (status.policy.Some? ==> status.policy.value == gateway.value.policy || status.policy.value == NO_POLICY)
  }

  /** A reconcile that may still send a create or an update of its own. */
  predicate MaySend(s: State, id: Id, r: Reconcile) {
    match r.place
    case Looking => Resolvable(r.spec, s.docs)
    case Deciding(found) =>
      && Resolvable(r.spec, s.docs)
      && var t := TargetOf(r.spec, s.docs);
         !found || Drifted(r.prior.built, t.built) || Pushes(r.prior, t)
    case Removing => Remove(id) in s.inflight || Remove(id) in s.done
    case Polling => true
    case Settling => Pushes(r.prior, r.target)
    case _ => false
  }

  /** A reconcile that may still record what it works for without sending either. */
  predicate MayClaim(s: State, id: Id, r: Reconcile) {
    match r.place
    case Deciding(found) => found && Resolvable(r.spec, s.docs)
    case Settling => true
    case Creating => Create(id, r.target) in s.done
    case Updating => Update(id, r.target.policy) in s.done
    case _ => false
  }

  /** What a reconcile works for. */
  function AimOf(s: State, r: Reconcile): Target
    requires Unresolved(r.place) ==> Resolvable(r.spec, s.docs)
  {
    if Unresolved(r.place) then TargetOf(r.spec, s.docs) else r.target
  }

  /** Nothing a reconcile still does can turn against another spec: it has no create or
      update to send, and whatever it may record is true. */
  predicate RunHarmless(s: State, id: Id, r: Reconcile) {
    r.place.Recording? || (!MaySend(s, id, r) && Truthful(s.gateway, r.prior)
                           && (MayClaim(s, id, r) ==> Truthful(s.gateway, Wanted(AimOf(s, r)))))
  }

  /** The states in which the spec may be edited. No create or update is under way or yet to
      be sent, and what is recorded, under way to be recorded, or may yet be recorded, is
      true. */
  predicate Harmless(s: State) {
    && (forall id <- s.runs :: RunHarmless(s, id, s.runs[id]))
    && (forall c <- s.inflight :: !c.Create? && !c.Update?)
    && (forall c <- s.inflight :: c.Record? ==> Truthful(s.gateway, c.status))
    && (s.gateway.Some? ==> Complete(s.status)) && Truthful(s.gateway, s.status)
  }

  /** A status that is true of the sandbox as far as a spec with this core could tell. */
  predicate TrueFor(core: Material, gateway: Option<Sandbox>, status: Status) {
    gateway.Some? ==>
      && (status.built.Some? ==> status.built.value == gateway.value.built || status.built.value.core != core)
      && (status.policy.Some? ==> status.policy.value == gateway.value.policy || status.policy.value == NO_POLICY)
  }

  /** And by which a reconcile of a spec with this core cannot take the sandbox for another. */
  predicate Sure(core: Material, gateway: Option<Sandbox>, status: Status) {
    gateway.Some? ==> status.built.Some? && (status.built.value.core != core || status.policy.Some?)
  }

  /** A reconcile that has yet to read the policy under the present spec. */
  predicate WillRead(s: State, r: Reconcile) {
    Unresolved(r.place) && r.spec == s.spec
  }

  /** A reconcile left over from an older spec has yet to read this policy. */
  predicate OldReader(s: State, name: string, r: Reconcile) {
    Unresolved(r.place) && r.spec.source == Named(name) && r.spec != s.spec
  }

  /** It will not build: it has found the sandbox, and started with no immutable hash recorded,
      so it will adopt it. What it pushes, if anything, is what is wanted or of no account, and
      what it records is true, or claims what is not wanted. */
  predicate OldReaderHarmless(s: State, name: string, r: Reconcile) {
    && r.place == Deciding(true) && r.prior.built.None?
    && if s.spec.source == Named(name) then
         s.gateway.Some? ==>
           r.prior.policy.Some? && (r.prior.policy.value == s.gateway.value.policy || r.prior.policy.value == NO_POLICY)
       else
         Aimed(s) ==>
           && (r.spec.core == s.spec.core ==> BuiltSafe(s))
           && (Carries(Goal(s)) ==> r.prior.policy.None? && PolicySafe(s))
  }

  /** Of a reconcile that is no old reader, when the present spec refers to the policy. */
  predicate PolicyRunHarmless(s: State, id: Id, r: Reconcile) {
    var core := s.spec.core;
    if r.place.Recording? then true
    else if WillRead(s, r) then
      TrueFor(core, s.gateway, r.prior) && (r.place != Deciding(false) ==> Sure(core, s.gateway, r.prior))
    else
      && !MaySend(s, id, r) && TrueFor(core, s.gateway, r.prior)
      && (MayClaim(s, id, r) ==> TrueFor(core, s.gateway, Wanted(AimOf(s, r))))
  }

  /** The states in which a named policy may be edited: any, if the present spec does not
      refer to it and no old reader will; otherwise much as for the spec, but a reconcile that
      has yet to read the policy will see the edit, and only has to start from a status it can
      rely on. */
  predicate PolicyHarmless(s: State, name: string) {
    var core, refers := s.spec.core, s.spec.source == Named(name);
    && (refers || Aimed(s) ==> forall id <- s.runs ::
          OldReader(s, name, s.runs[id]) ==> OldReaderHarmless(s, name, s.runs[id]))
    && (refers ==>
          && (forall id <- s.runs :: OldReader(s, name, s.runs[id]) || PolicyRunHarmless(s, id, s.runs[id]))
          && (forall c <- s.inflight :: !c.Create? && !c.Update?)
          && (forall c <- s.inflight :: c.Record? ==> TrueFor(core, s.gateway, c.status))
          && (s.gateway.Some? ==> Complete(s.status)) && TrueFor(core, s.gateway, s.status))
  }

  function SpecEdited(s: State, spec: Spec): State {
    s.(spec := spec, runs := map id <- s.runs :: s.runs[id].(edited := true))
  }

  /** A policy is edited, or, with `None`, deleted or made unacceptable. */
  function PolicyEdited(s: State, name: string, doc: Option<Doc>): State {
    var docs := if doc.Some? then s.docs[name := doc.value] else s.docs - {name};
    if s.spec.source == Named(name) then
      s.(docs := docs, runs := map id <- s.runs :: s.runs[id].(edited := !WillRead(s, s.runs[id])))
    else
      s.(docs := docs)
  }

  // ----- Steps -----

  predicate At(s: State, id: Id, place: Place) {
    id in s.runs && s.runs[id].place == place
  }

  /** An edit after which nothing definite is wanted may come at any time. */
  predicate Enabled(s: State, a: Action) {
    match a
    case Begin => true
    case Look(id) => At(s, id, Looking)
    case Resolve(id, ok) => id in s.runs && s.runs[id].place.Deciding? && (ok ==> Resolvable(s.runs[id].spec, s.docs))
    case Removed(id) => At(s, id, Removing) && Remove(id) in s.done
    case Poll(id) => At(s, id, Polling)
    case Created(id) => At(s, id, Creating) && Create(id, s.runs[id].target) in s.done
    case Settled(id) => At(s, id, Settling)
    case Updated(id) => At(s, id, Updating) && Update(id, s.runs[id].target.policy) in s.done
    case GiveUp(id) => id in s.runs && !s.runs[id].place.Recording?
    case Finish(id) => id in s.runs
    case TakeUp(call, accepted) => call in s.inflight
    case Lose(call) => call in s.inflight
    case Vanish => true
    case EditSpec(spec) => Resolvable(spec, s.docs) ==> Harmless(s)
    case EditPolicy(name, doc) =>
      doc.Some? ==> PolicyHarmless(s, name)
  }

  predicate IsEdit(a: Action) {
    a.EditSpec? || a.EditPolicy?
  }

  /** Reconcile `id` goes on as `r`. */
  function GoesOn(s: State, id: Id, r: Reconcile): State {
    s.(runs := s.runs[id := r])
  }

  function GoesOnSending(s: State, id: Id, r: Reconcile, call: Call): State {
    s.(runs := s.runs[id := r], inflight := s.inflight + {call})
  }

  function Move(s: State, id: Id, place: Place): State
    requires id in s.runs
  {
    GoesOn(s, id, s.runs[id].(place := place))
  }

  function Send(s: State, id: Id, call: Call, place: Place): State
    requires id in s.runs
  {
    GoesOnSending(s, id, s.runs[id].(place := place), call)
  }

  /** A status patch leaves the fields it does not carry alone. */
  function Merged(before: Status, patch: Status): Status {
    Status(if patch.built.Some? then patch.built else before.built,
           if patch.policy.Some? then patch.policy else before.policy)
  }

  /** The server takes a call up: a create succeeds only when there is no sandbox, an
      update only when there is one and the gateway accepts it. A removal takes effect
      later, as `Vanish`. */
  function Effect(s: State, call: Call, accepted: bool): State {
    match call
    case Create(_, t) =>
      if s.gateway.None? && accepted then
        s.(gateway := Some(Sandbox(t.built, t.policy)), done := s.done + {call})
      else s
    case Remove(_) => s.(done := s.done + {call})
    case Update(_, p) =>
      if s.gateway.Some? && accepted then
        s.(gateway := Some(s.gateway.value.(policy := p)), done := s.done + {call})
      else s
    case Record(_, st) => s.(status := Merged(s.status, st))
  }

  /** The policy is read, and with it what to work for. */
  function Decided(s: State, id: Id): State
    requires id in s.runs && s.runs[id].place.Deciding? && Resolvable(s.runs[id].spec, s.docs)
  {
    var r := s.runs[id].(target := TargetOf(s.runs[id].spec, s.docs));
    if !r.place.found then GoesOnSending(s, id, r.(place := Creating), Create(id, r.target))
    else if Drifted(r.prior.built, r.target.built) then GoesOnSending(s, id, r.(place := Removing), Remove(id))
    else GoesOn(s, id, r.(place := Settling))
  }

  function Next(s: State, a: Action): State
    requires Enabled(s, a)
  {
    match a
    case Begin =>
      var r := Reconcile(s.spec, s.status, Looking, With(s.spec.core, NO_DOC), false);
      s.(runs := s.runs[s.nextId := r], nextId := s.nextId + 1)
    case Look(id) => Move(s, id, Deciding(s.gateway.Some?))
    case Resolve(id, ok) => if ok then Decided(s, id) else Send(s, id, Record(id, s.runs[id].prior), Recording)
    case Removed(id) => Move(s, id, Polling)
    case Poll(id) =>
      if s.gateway.None? then Send(s, id, Create(id, s.runs[id].target), Creating) else s
    case Created(id) => Send(s, id, Record(id, Wanted(s.runs[id].target)), Recording)
    case Settled(id) =>
      var r := s.runs[id];
      if Pushes(r.prior, r.target) then Send(s, id, Update(id, r.target.policy), Updating)
      else Send(s, id, Record(id, Wanted(r.target)), Recording)
    case Updated(id) => Send(s, id, Record(id, Wanted(s.runs[id].target)), Recording)
    case GiveUp(id) => Send(s, id, Record(id, s.runs[id].prior), Recording)
    case Finish(id) => s.(runs := s.runs - {id})
    case TakeUp(call, accepted) => Effect(s, call, accepted).(inflight := s.inflight - {call})
    case Lose(call) => s.(inflight := s.inflight - {call})
    case Vanish => s.(gateway := None)
    case EditSpec(spec) => SpecEdited(s, spec)
    case EditPolicy(name, doc) => PolicyEdited(s, name, doc)
  }

  /** A create has its reason: the reconcile found no sandbox, when it looked or when it last
      polled. So has a removal, a hash that differs from what the policy just read calls for;
      and an update, a policy and a recorded hash that differs from it. */
  predicate HasReason(s: State, a: Action, call: Call) {
    match call
    case Create(id, t) =>
      || (a == Resolve(id, true) && At(s, id, Deciding(false)) && With(s.runs[id].spec.core, DocFor(s, id)) == t)
      || (a == Poll(id) && At(s, id, Polling) && s.gateway.None? && t == s.runs[id].target)
    case Remove(id) =>
      && a == Resolve(id, true) && At(s, id, Deciding(true)) && s.runs[id].prior.built.Some?
      && s.runs[id].prior.built.value != With(s.runs[id].spec.core, DocFor(s, id)).built
    case Update(id, p) =>
      && a == Settled(id) && id in s.runs && p == s.runs[id].target.policy && p != NO_POLICY
      && s.runs[id].prior.policy.Some? && s.runs[id].prior.policy.value != p
    case Record(id, st) => id in s.runs && (st == s.runs[id].prior || st == Wanted(s.runs[id].target))
  }

  /** The document a reconcile reads now. */
  function DocFor(s: State, id: Id): Doc
    requires id in s.runs
  {
    var source := s.runs[id].spec.source;
    match source
    case Inline(doc) => doc
    case Named(name) => if name in s.docs then s.docs[name] else NO_DOC
    case Unusable => NO_DOC
  }

  /** No call is sent without its reason, and none by an edit or by the gateway. */
  lemma CallsHaveReasons(s: State, a: Action, call: Call)
    requires Enabled(s, a) && call in Next(s, a).inflight && call !in s.inflight
    ensures HasReason(s, a, call) && !IsEdit(a)
  {
  }

  predicate Init(s: State) {
    s.gateway.None? && s.runs == map[] && s.inflight == {} && s.done == {}
  }

  predicate StepAt(states: seq<State>, actions: seq<Action>, i: nat)
    requires |states| == |actions| + 1 && i < |actions|
  {
    Enabled(states[i], actions[i]) && states[i + 1] == Next(states[i], actions[i])
  }

  predicate Run(states: seq<State>, actions: seq<Action>) {
    && |states| == |actions| + 1 && Init(states[0])
    && forall i: nat :: i < |actions| ==> StepAt(states, actions, i)
  }

  // ----- No drift is lost -----

  /** Where something definite is wanted, the sandbox is absent or as desired, or a recorded
      hash gives the difference away. */
  predicate DriftKept(s: State) {
    Aimed(s) ==>
      && (BuiltSafe(s) || Drifted(s.status.built, Goal(s).built))
      && (PolicySafe(s) || Drifted(s.status.policy, Goal(s).policy))
  }

  /** A status that would hide a difference is only ever about to be written when there
      is none to hide. */
  predicate Honest(s: State, status: Status)
    requires Aimed(s)
  {
    && (status.built == Some(Goal(s).built) ==> BuiltSafe(s))
    && (status.policy == Some(Goal(s).policy) ==> PolicySafe(s))
  }

  /** A missing hash hides a difference too, once it is what a reconcile starts from. */
  predicate Trusted(s: State, status: Status)
    requires Aimed(s)
  {
    && (!Drifted(status.built, Goal(s).built) ==> BuiltSafe(s))
    && (!Drifted(status.policy, Goal(s).policy) ==> PolicySafe(s))
  }

  /** What a reconcile that may converge in place can rely on: the policy hash only counts
      if the other does not drift. */
  predicate Reliable(s: State, status: Status)
    requires Aimed(s)
  {
    !Drifted(status.built, Goal(s).built) ==>
      BuiltSafe(s) && (!Drifted(status.policy, Goal(s).policy) ==> PolicySafe(s))
  }

  predicate InPlace(place: Place) {
    place.Settling? || place.Updating?
  }

  /** A reconcile working for what is wanted now. */
  predicate Current(s: State, r: Reconcile)
    requires Aimed(s)
  {
    && (if Unresolved(r.place) then r.spec == s.spec else r.target == Goal(s))
    && Honest(s, r.prior)
    && (r.place.Looking? || r.place == Deciding(true) || InPlace(r.place) ==> Reliable(s, r.prior))
    && (InPlace(r.place) ==> !Drifted(r.prior.built, r.target.built))
  }

  /** A left-over reconcile has nothing to send but an update that does no harm. */
  predicate MaySendOnly(s: State, id: Id, r: Reconcile)
    requires Aimed(s)
  {
    MaySend(s, id, r) ==>
      && (r.place == Deciding(true) || r.place.Settling?) && r.prior.built.None?
      && (Carries(Goal(s)) ==> AimOf(s, r).policy == Goal(s).policy)
  }

  predicate MayUpdate(s: State, id: Id, r: Reconcile) {
    r.place.Updating? && Update(id, r.target.policy) in s.inflight
  }

  /** And it records nothing false. */
  predicate Spent(s: State, id: Id, r: Reconcile)
    requires Aimed(s)
  {
    && MaySendOnly(s, id, r) && Honest(s, r.prior)
    && (MayClaim(s, id, r) || MayUpdate(s, id, r) ==> AimOf(s, r).built == Goal(s).built ==> BuiltSafe(s))
    && (MayClaim(s, id, r) && !MaySend(s, id, r) ==> AimOf(s, r).policy == Goal(s).policy ==> PolicySafe(s))
  }

  predicate RunOk(s: State, id: Id, r: Reconcile)
    requires Aimed(s)
  {
    !r.place.Recording? ==> if r.edited then Spent(s, id, r) else Current(s, r)
  }

  predicate LeftOver(s: State, id: Id) {
    id in s.runs && s.runs[id].edited
  }

  predicate CallOk(s: State, c: Call)
    requires Aimed(s)
  {
    && (c.Create? ==> c.target == Goal(s) && !LeftOver(s, c.id))
    && (c.Update? && Carries(Goal(s)) ==> c.policy == Goal(s).policy)
    && (c.Record? ==> Honest(s, c.status))
  }

  predicate Working(s: State, id: Id) {
    id in s.runs && !s.runs[id].place.Recording? && !s.runs[id].edited
  }

  /** Calls that took effect on behalf of a running reconcile left their mark. */
  predicate DoneOk(s: State, c: Call)
    requires Aimed(s)
  {
    Working(s, c.id) ==>
      && (c.Create? ==> BuiltSafe(s) && PolicySafe(s))
      && (c.Update? ==> PolicySafe(s))
  }

  predicate Unsent(place: Place) {
    Unresolved(place) || place.Settling?
  }

  /** Calls and reconciles carry the numbers given out so far, and a reconcile that has not
      resolved its policy, or is at its providers, has sent nothing. */
  predicate Known(s: State, c: Call) {
    c.id < s.nextId && (c.id in s.runs ==> !Unsent(s.runs[c.id].place))
  }

  predicate Numbered(s: State) {
    && (forall id <- s.runs :: id < s.nextId)
    && (forall c <- s.inflight :: Known(s, c))
    && (forall c <- s.done :: Known(s, c))
  }

  ghost predicate Consistent(s: State)
    requires Aimed(s)
  {
    && Trusted(s, s.status)
    && (forall id <- s.runs :: RunOk(s, id, s.runs[id]))
    && (forall c <- s.inflight :: CallOk(s, c))
    && (forall c <- s.done :: DoneOk(s, c))
  }

  ghost predicate Inv(s: State) {
    Numbered(s) && (Aimed(s) ==> Consistent(s))
  }

  /** The same is wanted as before, and no difference appears. */
  predicate Smooth(s: State, t: State) {
    && t.spec == s.spec && t.docs == s.docs && Aimed(s)
    && (BuiltSafe(s) ==> BuiltSafe(t)) && (PolicySafe(s) ==> PolicySafe(t))
  }

  predicate Untouched(s: State, t: State, id: Id) {
    id in s.runs && id in t.runs && t.runs[id] == s.runs[id]
  }

  /** The call has just taken effect. */
  predicate JustDone(s: State, t: State, c: Call) {
    && c in s.inflight && !c.Create?
    && (c.Update? ==> t.gateway.Some? && t.gateway.value.policy == c.policy)
  }

  /** A left-over reconcile stays one: nothing was sent on its behalf. */
  predicate NothingSentFor(s: State, t: State, id: Id) {
    && (forall c <- t.inflight :: c.id == id ==> c in s.inflight || c.Record?)
    && (forall c <- t.done :: c.id == id ==> c in s.done || JustDone(s, t, c))
  }

  lemma SpentStays(s: State, t: State, id: Id, r: Reconcile)
    requires Smooth(s, t) && NothingSentFor(s, t, id) && id in t.runs && t.runs[id] == r && r.edited
    requires RunOk(s, id, r)
    ensures RunOk(t, id, r)
  {
  }

  lemma SmoothKeeps(s: State, t: State)
    requires Smooth(s, t) && Consistent(s) && Trusted(t, t.status)
    requires forall id <- t.runs ::
      (Untouched(s, t, id) && (LeftOver(s, id) ==> NothingSentFor(s, t, id))) || RunOk(t, id, t.runs[id])
    requires forall c <- t.inflight :: (c in s.inflight && (LeftOver(t, c.id) ==> LeftOver(s, c.id))) || CallOk(t, c)
    requires forall c <- t.done :: c in s.done || DoneOk(t, c)
    requires forall c <- s.done :: Working(t, c.id) ==> Working(s, c.id)
    ensures Consistent(t)
  {
    forall id | id in t.runs ensures RunOk(t, id, t.runs[id]) {
      if Untouched(s, t, id) && (LeftOver(s, id) ==> NothingSentFor(s, t, id)) {
        assert RunOk(s, id, s.runs[id]);
        if t.runs[id].edited { SpentStays(s, t, id, t.runs[id]); }
      }
    }
    forall c | c in t.inflight ensures CallOk(t, c) {
      assert c in s.inflight ==> CallOk(s, c);
    }
    forall c | c in t.done ensures DoneOk(t, c) {
      assert c in s.done ==> DoneOk(s, c);
    }
  }

  lemma GoingOnKeeps(s: State, id: Id, r: Reconcile)
    requires Aimed(s) && Consistent(s) && id in s.runs && !s.runs[id].place.Recording? && r.edited == s.runs[id].edited
    requires RunOk(GoesOn(s, id, r), id, r)
    ensures Consistent(GoesOn(s, id, r))
  {
    SmoothKeeps(s, GoesOn(s, id, r));
  }

  lemma SendingKeeps(s: State, id: Id, r: Reconcile, call: Call)
    requires Aimed(s) && Consistent(s) && id in s.runs && !s.runs[id].place.Recording? && r.edited == s.runs[id].edited
    requires var t := GoesOnSending(s, id, r, call);
      RunOk(t, id, r) && call.id == id && CallOk(t, call)
    ensures Consistent(GoesOnSending(s, id, r, call))
  {
    SmoothKeeps(s, GoesOnSending(s, id, r, call));
  }

  /** A current reconcile reads the policy and finds what is wanted now; a left-over one
      adopts the sandbox. */
  lemma Reads(s: State, id: Id)
    requires Aimed(s) && Consistent(s) && Enabled(s, Resolve(id, true))
    ensures var r := s.runs[id];
      var t := TargetOf(r.spec, s.docs);
      && (!r.edited ==> t == Goal(s))
      && (r.edited ==> r.place.found && !Drifted(r.prior.built, t.built))
      && Honest(s, r.prior) && (!r.edited && r.place.found ==> Reliable(s, r.prior))
  {
    assert RunOk(s, id, s.runs[id]);
  }

  lemma DecidedKeeps(s: State, id: Id)
    requires Aimed(s) && Consistent(s) && Enabled(s, Resolve(id, true))
    ensures Consistent(Decided(s, id))
  {
    Reads(s, id);
    var r := s.runs[id];
    var r' := r.(target := TargetOf(r.spec, s.docs));
    if !r.place.found {
      SendingKeeps(s, id, r'.(place := Creating), Create(id, r'.target));
    } else if Drifted(r.prior.built, r'.target.built) {
      SendingKeeps(s, id, r'.(place := Removing), Remove(id));
    } else {
      GoingOnKeeps(s, id, r'.(place := Settling));
    }
  }

  lemma SettledKeeps(s: State, id: Id)
    requires Numbered(s) && Aimed(s) && Consistent(s) && Enabled(s, Settled(id))
    ensures Consistent(Next(s, Settled(id)))
  {
    var r := s.runs[id];
    assert RunOk(s, id, r);
    if Pushes(r.prior, r.target) {
      forall c | c in s.done ensures c.id != id {
        assert Known(s, c);
      }
      SendingKeeps(s, id, s.runs[id].(place := Updating), Update(id, r.target.policy));
    } else {
      SendingKeeps(s, id, s.runs[id].(place := Recording), Record(id, Wanted(r.target)));
    }
  }

  lemma LookKeeps(s: State, id: Id)
    requires Aimed(s) && Consistent(s) && Enabled(s, Look(id))
    ensures Consistent(Next(s, Look(id)))
  {
    assert RunOk(s, id, s.runs[id]);
    GoingOnKeeps(s, id, s.runs[id].(place := Deciding(s.gateway.Some?)));
  }

  /** A reconcile that removes and creates works for what is wanted now. */
  lemma RebuildKeeps(s: State, a: Action)
    requires Aimed(s) && Consistent(s) && Enabled(s, a) && (a.Removed? || a.Poll?)
    ensures Consistent(Next(s, a))
  {
    var id := a.id;
    assert RunOk(s, id, s.runs[id]);
    if a.Removed? {
      GoingOnKeeps(s, id, s.runs[id].(place := Polling));
    } else if s.gateway.None? {
      SendingKeeps(s, id, s.runs[id].(place := Creating), Create(id, s.runs[id].target));
    }
  }

  /** A reconcile records what it started from, or what it has come to. */
  lemma RecordKeeps(s: State, id: Id, status: Status)
    requires Aimed(s) && Consistent(s) && id in s.runs && !s.runs[id].place.Recording? && Honest(s, status)
    ensures Consistent(Send(s, id, Record(id, status), Recording))
  {
    SendingKeeps(s, id, s.runs[id].(place := Recording), Record(id, status));
  }

  lemma RunStepKeeps(s: State, a: Action)
    requires Aimed(s) && Consistent(s) && Enabled(s, a)
    requires a.Created? || a.Updated? || a.GiveUp? || (a.Resolve? && !a.ok)
    ensures Consistent(Next(s, a))
  {
    var id := a.id;
    var r := s.runs[id];
    assert RunOk(s, id, r);
    if a.Created? {
      assert DoneOk(s, Create(id, r.target));
      RecordKeeps(s, id, Wanted(r.target));
    } else if a.Updated? {
      assert DoneOk(s, Update(id, r.target.policy));
      RecordKeeps(s, id, Wanted(r.target));
    } else {
      RecordKeeps(s, id, r.prior);
    }
  }

  lemma EffectKeeps(s: State, call: Call, accepted: bool)
    requires Aimed(s) && Consistent(s) && call in s.inflight
    ensures Consistent(Next(s, TakeUp(call, accepted)))
  {
    assert CallOk(s, call);
    SmoothKeeps(s, Next(s, TakeUp(call, accepted)));
  }

  lemma SpecEditKeeps(s: State, spec: Spec)
    requires Numbered(s) && Harmless(s) && Resolvable(spec, s.docs)
    ensures Consistent(SpecEdited(s, spec))
  {
    var t := SpecEdited(s, spec);
    forall id | id in t.runs ensures RunOk(t, id, t.runs[id]) {
      assert RunHarmless(s, id, s.runs[id]);
    }
  }

  lemma PolicyRunKeeps(s: State, name: string, doc: Doc, id: Id)
    requires s.spec.source == Named(name) && id in s.runs && !OldReader(s, name, s.runs[id])
    requires PolicyRunHarmless(s, id, s.runs[id]) && forall c <- s.inflight :: !c.Create? && !c.Update?
    ensures var t := PolicyEdited(s, name, Some(doc)); Aimed(t) && RunOk(t, id, t.runs[id])
  {
  }

  lemma OldReaderKeeps(s: State, name: string, doc: Doc, id: Id)
    requires s.spec.source == Named(name) && id in s.runs
    requires OldReader(s, name, s.runs[id]) && OldReaderHarmless(s, name, s.runs[id])
    ensures var t := PolicyEdited(s, name, Some(doc)); Aimed(t) && RunOk(t, id, t.runs[id])
  {
  }

  /** The same when the present spec does not refer to the policy: it is none of its runs. */
  lemma OldReaderStays(s: State, name: string, doc: Option<Doc>, id: Id)
    requires s.spec.source != Named(name) && id in s.runs && Aimed(s) && RunOk(s, id, s.runs[id])
    requires OldReader(s, name, s.runs[id]) && (doc.Some? ==> OldReaderHarmless(s, name, s.runs[id]))
    ensures var t := PolicyEdited(s, name, doc); Aimed(t) && RunOk(t, id, t.runs[id])
  {
  }

  /** Of the policy the present spec refers to. */
  lemma PolicyEditKeeps(s: State, name: string, doc: Doc)
    requires Numbered(s) && PolicyHarmless(s, name) && s.spec.source == Named(name)
    ensures var t := PolicyEdited(s, name, Some(doc)); Aimed(t) && Consistent(t)
  {
    var t := PolicyEdited(s, name, Some(doc));
    forall id | id in t.runs ensures RunOk(t, id, t.runs[id]) {
      if OldReader(s, name, s.runs[id]) {
        OldReaderKeeps(s, name, doc, id);
      } else {
        PolicyRunKeeps(s, name, doc, id);
      }
    }
    forall c | c in t.done ensures DoneOk(t, c) {
      assert Known(s, c);
    }
  }

  /** Of another policy. */
  lemma OtherPolicyEditKeeps(s: State, name: string, doc: Option<Doc>)
    requires Aimed(s) && Consistent(s) && s.spec.source != Named(name)
    requires doc.Some? ==> PolicyHarmless(s, name)
    ensures var t := PolicyEdited(s, name, doc); Aimed(t) && Consistent(t)
  {
    var t := PolicyEdited(s, name, doc);
    forall id | id in t.runs ensures RunOk(t, id, t.runs[id]) {
      assert RunOk(s, id, s.runs[id]);
      if OldReader(s, name, s.runs[id]) {
        OldReaderStays(s, name, doc, id);
      }
    }
    forall c | c in t.inflight ensures CallOk(t, c) {
      assert CallOk(s, c);
    }
    forall c | c in t.done ensures DoneOk(t, c) {
      assert DoneOk(s, c);
    }
  }

  lemma EditKeeps(s: State, a: Action)
    requires Inv(s) && Enabled(s, a) && IsEdit(a) && Aimed(Next(s, a))
    ensures Consistent(Next(s, a))
  {
    match a
    case EditSpec(spec) => SpecEditKeeps(s, spec);
    case EditPolicy(name, doc) =>
      if s.spec.source == Named(name) {
        PolicyEditKeeps(s, name, doc.value);
      } else {
        OtherPolicyEditKeeps(s, name, doc);
      }
  }

  lemma StepKeeps(s: State, a: Action)
    requires Numbered(s) && Aimed(s) && Consistent(s) && Enabled(s, a) && !IsEdit(a)
    ensures Consistent(Next(s, a))
  {
    match a
    case Begin =>
      forall c | c in s.done ensures c.id != s.nextId {
        assert Known(s, c);
      }
      forall c | c in s.inflight ensures c.id != s.nextId {
        assert Known(s, c);
      }
      SmoothKeeps(s, Next(s, a));
    case TakeUp(call, accepted) => EffectKeeps(s, call, accepted);
    case Lose(_) => SmoothKeeps(s, Next(s, a));
    case Vanish => SmoothKeeps(s, Next(s, a));
    case Finish(_) => SmoothKeeps(s, Next(s, a));
    case Resolve(id, ok) => if ok { DecidedKeeps(s, id); } else { RunStepKeeps(s, a); }
    case Settled(id) => SettledKeeps(s, id);
    case Look(id) => LookKeeps(s, id);
    case Removed(_) => RebuildKeeps(s, a);
    case Poll(_) => RebuildKeeps(s, a);
    case _ => RunStepKeeps(s, a);
  }

  lemma EffectNumbers(s: State, call: Call, accepted: bool)
    requires Numbered(s) && call in s.inflight
    ensures Numbered(Next(s, TakeUp(call, accepted)))
  {
    assert Known(s, call);
  }

  lemma SendingNumbers(s: State, id: Id, r: Reconcile, call: Call)
    requires Numbered(s) && id in s.runs && call.id == id && !Unsent(r.place)
    ensures Numbered(GoesOnSending(s, id, r, call))
  {
  }

  lemma GoingOnNumbers(s: State, id: Id, r: Reconcile)
    requires Numbered(s) && id in s.runs && (Unsent(r.place) ==> Unsent(s.runs[id].place))
    ensures Numbered(GoesOn(s, id, r))
  {
  }

  lemma RunNumbers(s: State, a: Action)
    requires Numbered(s) && Enabled(s, a) && !IsEdit(a)
    requires !a.Begin? && !a.TakeUp? && !a.Lose? && !a.Vanish? && !a.Finish?
    ensures Numbered(Next(s, a))
  {
    var r, t := s.runs[a.id], Next(s, a);
    var r' := t.runs[a.id];
    if t.inflight == s.inflight {
      GoingOnNumbers(s, a.id, r');
    } else {
      var call :| call in t.inflight && call !in s.inflight;
      SendingNumbers(s, a.id, r', call);
    }
  }

  lemma NumbersKeep(s: State, a: Action)
    requires Numbered(s) && Enabled(s, a)
    ensures Numbered(Next(s, a))
  {
    match a
    case TakeUp(call, accepted) => EffectNumbers(s, call, accepted);
    case Begin =>
    case Lose(_) =>
    case Vanish =>
    case Finish(_) =>
    case EditSpec(_) =>
    case EditPolicy(_, _) =>
    case _ => RunNumbers(s, a);
  }

  lemma NextKeeps(s: State, a: Action)
    requires Inv(s) && Enabled(s, a)
    ensures Inv(Next(s, a))
  {
    NumbersKeep(s, a);
    if Aimed(Next(s, a)) {
      if IsEdit(a) {
        EditKeeps(s, a);
      } else {
        StepKeeps(s, a);
      }
    }
  }

  /** No drift is lost, in any run of overlapping and failing reconciles and of edits of spec
      and policies that come in harmless states. */
  lemma {:induction false} NoLostDrift(states: seq<State>, actions: seq<Action>, i: nat)
    requires Run(states, actions) && i < |states|
    ensures Inv(states[i]) && DriftKept(states[i])
  {
    if i > 0 {
      NoLostDrift(states, actions, i - 1);
      assert StepAt(states, actions, i - 1);
      NextKeeps(states[i - 1], actions[i - 1]);
    }
  }

  // ----- Steps from a given state -----

  ghost predicate Steps(states: seq<State>, actions: seq<Action>) {
    |states| == |actions| + 1 && forall i: nat :: i < |actions| ==> StepAt(states, actions, i) && !IsEdit(actions[i])
  }

  /** Steps without an edit lead from `s` to `t`. */
  ghost predicate Leads(s: State, t: State) {
    exists states: seq<State>, actions: seq<Action> ::
      Steps(states, actions) && states[0] == s && states[|actions|] == t
  }

  lemma LeadsNowhere(s: State)
    ensures Leads(s, s)
  {
    var states: seq<State>, actions: seq<Action> := [s], [];
    assert Steps(states, actions) && states[0] == s && states[|actions|] == s;
  }

  lemma LeadsOn(s: State, t: State, a: Action)
    requires Leads(s, t) && Enabled(t, a) && !IsEdit(a)
    ensures Leads(s, Next(t, a))
  {
    var states: seq<State>, actions: seq<Action> :|
      Steps(states, actions) && states[0] == s && states[|actions|] == t;
    var states', actions' := states + [Next(t, a)], actions + [a];
    forall i: nat | i < |actions'| ensures StepAt(states', actions', i) && !IsEdit(actions'[i]) {
      assert i < |actions| ==> StepAt(states, actions, i);
    }
    assert Steps(states', actions') && states'[0] == s && states'[|actions'|] == Next(t, a);
  }

  /** Reachable by a run: every edit so far has come in a harmless state. */
  ghost predicate Reachable(s: State) {
    exists states: seq<State>, actions: seq<Action> :: Run(states, actions) && states[|actions|] == s
  }

  lemma InitReachable(s: State)
    requires Init(s)
    ensures Reachable(s)
  {
    var states: seq<State>, actions: seq<Action> := [s], [];
    assert Run(states, actions) && states[|actions|] == s;
  }

  lemma NextReachable(s: State, a: Action)
    requires Reachable(s) && Enabled(s, a)
    ensures Reachable(Next(s, a))
  {
    var states: seq<State>, actions: seq<Action> :| Run(states, actions) && states[|actions|] == s;
    var states', actions' := states + [Next(s, a)], actions + [a];
    forall i: nat | i < |actions'| ensures StepAt(states', actions', i) {
      assert i < |actions| ==> StepAt(states, actions, i);
    }
    assert Run(states', actions') && states'[|actions'|] == Next(s, a);
  }

  lemma ReachableInv(s: State)
    requires Reachable(s)
    ensures Inv(s) && DriftKept(s)
  {
    var states: seq<State>, actions: seq<Action> :| Run(states, actions) && states[|actions|] == s;
    NoLostDrift(states, actions, |actions|);
  }

  lemma {:induction false} StepsKeep(states: seq<State>, actions: seq<Action>, i: nat)
    requires Steps(states, actions) && Inv(states[0]) && i < |states|
    ensures Inv(states[i])
  {
    if i > 0 {
      StepsKeep(states, actions, i - 1);
      assert StepAt(states, actions, i - 1);
      NextKeeps(states[i - 1], actions[i - 1]);
    }
  }

  lemma LeadsKeeps(s: State, t: State)
    requires Inv(s) && Leads(s, t)
    ensures Inv(t) && DriftKept(t)
  {
    var states: seq<State>, actions: seq<Action> :|
      Steps(states, actions) && states[0] == s && states[|actions|] == t;
    StepsKeep(states, actions, |actions|);
  }

  lemma {:induction false} StepsNumbered(states: seq<State>, actions: seq<Action>, i: nat)
    requires Steps(states, actions) && Numbered(states[0]) && i < |states|
    ensures Numbered(states[i])
  {
    if i > 0 {
      StepsNumbered(states, actions, i - 1);
      assert StepAt(states, actions, i - 1);
      NumbersKeep(states[i - 1], actions[i - 1]);
    }
  }

  lemma LeadsNumbered(s: State, t: State)
    requires Numbered(s) && Leads(s, t)
    ensures Numbered(t)
  {
    var states: seq<State>, actions: seq<Action> :|
      Steps(states, actions) && states[0] == s && states[|actions|] == t;
    StepsNumbered(states, actions, |actions|);
  }
}
