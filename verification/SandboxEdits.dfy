/** When a sandbox's spec, or a policy it refers to, may be edited without drift ever getting
    lost: exactly in the states the protocol of module SandboxDrift admits the edit in. */
module SandboxEdits {
  import opened Wrappers
  import opened Json
  import opened Fingerprint
  import opened SandboxDrift
  import opened SandboxCourse

  /** Whatever happens from here on short of another edit, no drift is lost. */
  ghost predicate Survives(s: State) {
    forall t :: Leads(s, t) ==> DriftKept(t)
  }

  // ----- After an edit anywhere else, some continuation loses drift -----

  lemma Loses(s: State, q: State)
    requires Leads(s, q) && !DriftKept(q)
    ensures !Survives(s)
  {
  }

  /** The sandbox disappears, and one clean reconcile creates and records it anew. What was
      under way is under way still. */
  lemma BuildAnew(s: State, q: State) returns (r: State)
    requires Numbered(s) && Leads(s, q) && Aimed(q)
    ensures Leads(s, r)
    ensures r.spec == q.spec && r.docs == q.docs && r.gateway == Some(Sandbox(Goal(q).built, Goal(q).policy))
    ensures r.status == Wanted(Goal(q)) && q.inflight <= r.inflight
  {
    var id, t := q.nextId, Goal(q);
    LeadsNumbered(s, q);
    forall c | c in q.inflight ensures c.id != id {
      assert Known(q, c);
    }
    r := Go(s, q, Vanish);
    r := BeginsAndLooks(s, r);
    r := Go(s, r, Resolve(id, true));
    r := CreatesAndAnswers(s, r, id);
    r := Go(s, r, TakeUp(Record(id, Wanted(t)), true));
  }

  lemma StrayCreateLoses(s: State, q: State, c: Call)
    requires Numbered(s) && Leads(s, q) && Aimed(q) && c in q.inflight && c.Create? && c.target.built != Goal(q).built
    ensures !Survives(s)
  {
    var r := BuildAnew(s, q);
    r := Go(s, r, Vanish);
    r := Go(s, r, TakeUp(c, true));
    Loses(s, r);
  }

  lemma StrayUpdateLoses(s: State, q: State, c: Call)
    requires Numbered(s) && Leads(s, q) && Aimed(q) && c in q.inflight && c.Update?
    requires c.policy != Goal(q).policy && Carries(Goal(q))
    ensures !Survives(s)
  {
    var r := BuildAnew(s, q);
    r := Go(s, r, TakeUp(c, true));
    Loses(s, r);
  }

  /** A hash that is not true of the sandbox, and is what the target asks for. */
  predicate Deceives(g: Sandbox, status: Status, target: Target) {
    || (status.built == Some(target.built) && g.built != target.built)
    || (status.policy == Some(target.policy) && Carries(target) && g.policy != target.policy)
  }

  lemma StrayRecordLoses(s: State, q: State, c: Call)
    requires Numbered(s) && Leads(s, q) && Aimed(q) && c in q.inflight && c.Record?
    requires q.gateway.Some? && Deceives(q.gateway.value, c.status, Goal(q))
    ensures !Survives(s)
  {
    var r := Go(s, q, TakeUp(c, true));
    Loses(s, r);
  }

  predicate Unlike(t: Target, u: Target) {
    t.built != u.built && t.policy != u.policy && Carries(t)
  }

  predicate Sends(s: State, id: Id) {
    id in s.runs && MaySend(s, id, s.runs[id])
  }

  /** What a reconcile sends first that cannot be undone. */
  lemma PollerLoses(s: State, q: State, id: Id)
    requires Numbered(s) && Leads(s, q) && Aimed(q) && At(q, id, Polling) && q.runs[id].target.built != Goal(q).built
    ensures !Survives(s)
  {
    var q' := Go(s, q, Vanish);
    q' := Go(s, q', Poll(id));
    StrayCreateLoses(s, q', Create(id, q.runs[id].target));
  }

  lemma RemoverLoses(s: State, q: State, id: Id)
    requires Numbered(s) && Leads(s, q) && Aimed(q) && At(q, id, Removing) && Sends(q, id)
    requires q.runs[id].target.built != Goal(q).built
    ensures !Survives(s)
  {
    var q' := q;
    if Remove(id) !in q.done {
      q' := Go(s, q, TakeUp(Remove(id), true));
    }
    q' := Go(s, q', Removed(id));
    PollerLoses(s, q', id);
  }

  lemma PusherLoses(s: State, q: State, id: Id)
    requires Numbered(s) && Leads(s, q) && Aimed(q) && At(q, id, Settling) && Sends(q, id)
    requires Unlike(Goal(q), q.runs[id].target)
    ensures !Survives(s)
  {
    var q' := Go(s, q, Settled(id));
    StrayUpdateLoses(s, q', Update(id, q.runs[id].target.policy));
  }

  lemma DeciderLoses(s: State, q: State, id: Id)
    requires Numbered(s) && Leads(s, q) && Aimed(q) && Sends(q, id) && q.runs[id].place.Deciding?
    requires Unlike(Goal(q), AimOf(q, q.runs[id]))
    ensures !Survives(s)
  {
    var q' := Go(s, q, Resolve(id, true));
    match q'.runs[id].place {
      case Creating => StrayCreateLoses(s, q', Create(id, AimOf(q, q.runs[id])));
      case Removing => RemoverLoses(s, q', id);
      case _ => PusherLoses(s, q', id);
    }
  }

  /** A reconcile that may still send a create or update is led to send it, for what is no
      longer wanted. */
  lemma SenderLoses(s: State, q: State, id: Id)
    requires Numbered(s) && Leads(s, q) && Aimed(q) && Sends(q, id) && Unlike(Goal(q), AimOf(q, q.runs[id]))
    ensures !Survives(s)
  {
    match q.runs[id].place {
      case Looking =>
        var q' := Go(s, q, Vanish);
        q' := Go(s, q', Look(id));
        DeciderLoses(s, q', id);
      case Deciding(_) => DeciderLoses(s, q, id);
      case Removing => RemoverLoses(s, q, id);
      case Polling => PollerLoses(s, q, id);
      case _ => PusherLoses(s, q, id);
    }
  }

  /** A reconcile that has yet to read its policy, and will build what is not wanted. */
  lemma BuilderLoses(s: State, q: State, id: Id)
    requires Numbered(s) && Leads(s, q) && Aimed(q) && id in q.runs && Unresolved(q.runs[id].place)
    requires Resolvable(q.runs[id].spec, q.docs) && AimOf(q, q.runs[id]).built != Goal(q).built
    requires q.runs[id].place == Deciding(true) ==> Drifted(q.runs[id].prior.built, AimOf(q, q.runs[id]).built)
    ensures !Survives(s)
  {
    var t := AimOf(q, q.runs[id]);
    var q' := q;
    if q.runs[id].place.Looking? {
      q' := Go(s, q, Vanish);
      q' := Go(s, q', Look(id));
    }
    q' := Go(s, q', Resolve(id, true));
    if q'.runs[id].place.Creating? {
      StrayCreateLoses(s, q', Create(id, t));
    } else {
      RemoverLoses(s, q', id);
    }
  }

  /** A reconcile gives up, and records what it started from. */
  lemma PriorLoses(s: State, q: State, id: Id)
    requires Numbered(s) && Leads(s, q) && Aimed(q) && id in q.runs && !q.runs[id].place.Recording?
    requires q.gateway.Some? && Deceives(q.gateway.value, q.runs[id].prior, Goal(q))
    ensures !Survives(s)
  {
    var q' := Go(s, q, GiveUp(id));
    StrayRecordLoses(s, q', Record(id, q.runs[id].prior));
  }

  predicate Claims(s: State, id: Id) {
    id in s.runs && MayClaim(s, id, s.runs[id]) && !MaySend(s, id, s.runs[id])
  }

  /** Or it goes on, and records what it works for. */
  lemma ClaimLoses(s: State, q: State, id: Id)
    requires Numbered(s) && Leads(s, q) && Aimed(q) && Claims(q, id)
    requires q.gateway.Some? && Deceives(q.gateway.value, Wanted(AimOf(q, q.runs[id])), Goal(q))
    ensures !Survives(s)
  {
    var r, t := q.runs[id], AimOf(q, q.runs[id]);
    var q' := q;
    if r.place.Deciding? {
      q' := Go(s, q, Resolve(id, true));
    }
    if r.place.Creating? {
      q' := Go(s, q', Created(id));
    } else if r.place.Updating? {
      q' := Go(s, q', Updated(id));
    } else {
      q' := Go(s, q', Settled(id));
    }
    StrayRecordLoses(s, q', Record(id, Wanted(t)));
  }

  /** A status by which the sandbox is taken for what is wanted, and is not. */
  predicate Misleads(g: Sandbox, status: Status, target: Target) {
    && !Drifted(status.built, target.built)
    && (g.built != target.built
        || (!Drifted(status.policy, target.policy) && Carries(target) && g.policy != target.policy))
  }

  /** A reconcile reads the policy and goes on to converge in place. */
  lemma ReaderSettles(s: State, q: State, id: Id) returns (r: State)
    requires Leads(s, q) && Aimed(q) && id in q.runs && q.runs[id].spec == q.spec && q.gateway.Some?
    requires q.runs[id].place == Looking || q.runs[id].place == Deciding(true)
    requires !Drifted(q.runs[id].prior.built, Goal(q).built)
    ensures Leads(s, r) && r.spec == q.spec && r.docs == q.docs && r.gateway == q.gateway && r.status == q.status
    ensures At(r, id, Settling) && r.runs[id].target == Goal(q) && r.runs[id].prior == q.runs[id].prior
  {
    r := q;
    if q.runs[id].place.Looking? {
      r := Go(s, q, Look(id));
    }
    r := Go(s, r, Resolve(id, true));
  }

  /** It converges in place, and records what it works for. */
  lemma SettlerRecords(s: State, q: State, id: Id) returns (r: State)
    requires Leads(s, q) && At(q, id, Settling) && q.gateway.Some?
    ensures var reconcile := q.runs[id];
      && Leads(s, r) && r.spec == q.spec && r.docs == q.docs && r.status == Wanted(reconcile.target)
      && r.gateway == Some(
           if Pushes(reconcile.prior, reconcile.target) then q.gateway.value.(policy := reconcile.target.policy)
           else q.gateway.value)
  {
    var t := q.runs[id].target;
    r := Go(s, q, Settled(id));
    if Pushes(q.runs[id].prior, t) {
      r := Go(s, r, TakeUp(Update(id, t.policy), true));
      r := Go(s, r, Updated(id));
    }
    r := Go(s, r, TakeUp(Record(id, Wanted(t)), true));
  }

  /** A reconcile that reads the new policy, but cannot tell that the sandbox differs, adopts
      it and records what is wanted. */
  lemma WatcherLoses(s: State, q: State, id: Id)
    requires Leads(s, q) && Aimed(q) && id in q.runs && q.runs[id].spec == q.spec
    requires q.runs[id].place == Looking || q.runs[id].place == Deciding(true)
    requires q.gateway.Some? && Misleads(q.gateway.value, q.runs[id].prior, Goal(q))
    ensures !Survives(s)
  {
    var q' := ReaderSettles(s, q, id);
    q' := SettlerRecords(s, q', id);
    Loses(s, q');
  }

  // ----- The edit that does it -----

  function Other(j: Json): (r: Json)
    ensures r != j
  {
    if j == Null then Object(map[]) else Null
  }

  function OtherSections(p: MutableMaterial): (r: MutableMaterial)
    ensures r != p && r != NO_POLICY
  {
    var none, one := Object(map[]), Object(map["egress" := Object(map[])]);
    assert "egress" in one.fields;
    p.(networkPolicies := if p.networkPolicies == none then one else none)
  }

  function Something(p: MutableMaterial): (r: MutableMaterial)
    ensures r != NO_POLICY && (p != NO_POLICY ==> r == p)
  {
    if p == NO_POLICY then OtherSections(p) else p
  }

  const ANY_DOC := Doc(Null, Null, OtherSections(NO_POLICY))

  function OtherDoc(t: Target): (r: Doc)
    ensures Proper(r) && forall core :: Unlike(With(core, r), t)
  {
    Doc(Other(t.built.landlock), t.built.process, OtherSections(t.policy))
  }

  /** What a status claims, filled up from the sandbox. */
  function ClaimedDoc(core: Material, g: Sandbox, status: Status): (r: Doc)
    ensures Proper(r) && (!TrueFor(core, Some(g), status) ==> Deceives(g, status, With(core, r)))
  {
    var b := if status.built.Some? && status.built.value.core == core then status.built.value else g.built;
    Doc(b.landlock, b.process, Something(if status.policy.Some? then status.policy.value else g.policy))
  }

  /** What differs from the sandbox where the status is silent. */
  function SilentDoc(g: Sandbox, status: Status): (r: Doc)
    ensures Proper(r)
  {
    Doc(if status.built.None? then Other(g.built.landlock) else g.built.landlock, g.built.process,
      if status.policy.None? then OtherSections(g.policy) else Something(g.policy))
  }

  /** A spec that comes with its policy. */
  function SpecWith(core: Material, doc: Doc): Spec {
    Spec(core, Inline(doc))
  }

  lemma StartOf(s: State, q: State)
    requires Inv(s) && q.nextId == s.nextId && q.inflight == s.inflight && q.done == s.done
    requires q.runs.Keys == s.runs.Keys && forall id <- s.runs :: q.runs[id].place == s.runs[id].place
    ensures Numbered(q) && Leads(q, q)
  {
    forall c | c in q.inflight || c in q.done ensures Known(q, c) {
      assert Known(s, c);
    }
    LeadsNowhere(q);
  }

  /** A state right after an edit in state `s`: calls, gateway and status are as they were,
      and so are the reconciles but for the mark. */
  predicate JustEdited(s: State, q: State) {
    && Aimed(q) && q.gateway == s.gateway && q.status == s.status
    && q.nextId == s.nextId && q.inflight == s.inflight && q.done == s.done
    && q.runs.Keys == s.runs.Keys
    && forall id <- s.runs :: q.runs[id] == s.runs[id].(edited := q.runs[id].edited)
  }

  lemma HarmfulCall(s: State, q: State, c: Call)
    requires Inv(s) && JustEdited(s, q) && c in s.inflight && !c.Remove?
    requires c.Create? ==> c.target.built != Goal(q).built
    requires c.Update? ==> c.policy != Goal(q).policy && Carries(Goal(q))
    requires c.Record? ==> s.gateway.Some? && Deceives(s.gateway.value, c.status, Goal(q))
    ensures !Survives(q)
  {
    StartOf(s, q);
    match c
    case Create(_, _) => StrayCreateLoses(q, q, c);
    case Update(_, _) => StrayUpdateLoses(q, q, c);
    case Record(_, _) => StrayRecordLoses(q, q, c);
  }

  /** What a reconcile started from, or what it may claim, deceives. */
  predicate DeceivesBy(s: State, id: Id, target: Target)
    requires id in s.runs && s.gateway.Some?
  {
    var r := s.runs[id];
    || Deceives(s.gateway.value, r.prior, target)
    || (MayClaim(s, id, r) && Deceives(s.gateway.value, Wanted(AimOf(s, r)), target))
  }

  /** Of a reconcile to which the edit makes no difference. */
  lemma HarmfulRun(s: State, q: State, id: Id)
    requires Inv(s) && JustEdited(s, q) && id in s.runs && !s.runs[id].place.Recording?
    requires var r := s.runs[id];
      && (Unresolved(r.place) && Resolvable(r.spec, s.docs) ==>
            Resolvable(r.spec, q.docs) && TargetOf(r.spec, q.docs) == TargetOf(r.spec, s.docs))
      && (MaySend(s, id, r) ==> Unlike(Goal(q), AimOf(s, r)))
      && (!MaySend(s, id, r) ==> s.gateway.Some? && DeceivesBy(s, id, Goal(q)))
    ensures !Survives(q)
  {
    StartOf(s, q);
    var r := s.runs[id];
    if MaySend(s, id, r) {
      SenderLoses(q, q, id);
    } else if Deceives(s.gateway.value, r.prior, Goal(q)) {
      PriorLoses(q, q, id);
    } else {
      ClaimLoses(q, q, id);
    }
  }

  // ----- Edits of the spec -----

  /** The policy with which an edited spec shows that a call does harm. */
  function AgainstCall(core: Material, s: State, c: Call): (r: Doc)
    requires c.Record? ==> s.gateway.Some?
    ensures Proper(r)
  {
    match c
    case Create(_, t) => OtherDoc(t)
    case Update(_, p) => Doc(Null, Null, OtherSections(p))
    case Record(_, st) => ClaimedDoc(core, s.gateway.value, st)
    case Remove(_) => ANY_DOC
  }

  function AgainstRun(core: Material, s: State, id: Id): (r: Doc)
    requires id in s.runs && (!MaySend(s, id, s.runs[id]) ==> s.gateway.Some?)
    ensures Proper(r)
  {
    var r := s.runs[id];
    if MaySend(s, id, r) then OtherDoc(AimOf(s, r))
    else if !TrueFor(core, s.gateway, r.prior) then ClaimedDoc(core, s.gateway.value, r.prior)
    else if MayClaim(s, id, r) then ClaimedDoc(core, s.gateway.value, Wanted(AimOf(s, r)))
    else ANY_DOC
  }

  function AgainstStatus(core: Material, s: State): (r: Doc)
    requires s.gateway.Some?
    ensures Proper(r)
  {
    if TrueFor(core, s.gateway, s.status) then SilentDoc(s.gateway.value, s.status)
    else ClaimedDoc(core, s.gateway.value, s.status)
  }

  /** The core with which an untrue hash is what a spec asks for. */
  function CoreFor(s: State, status: Status): Material {
    if status.built.Some? then status.built.value.core
    else if s.gateway.Some? then s.gateway.value.built.core else map[]
  }

  lemma UntrueForOne(s: State, status: Status)
    requires !Truthful(s.gateway, status)
    ensures !TrueFor(CoreFor(s, status), s.gateway, status)
  {
  }

  /** A spec as it can be written: with no policy, or a proper document. */
  predicate Writable(spec: Spec) {
    spec.source.Inline? ==> spec.source.doc == NO_DOC || Proper(spec.source.doc)
  }

  lemma HarmfulForSpec(s: State) returns (spec: Spec)
    requires Inv(s) && !Harmless(s)
    ensures Writable(spec) && !Survives(SpecEdited(s, spec))
  {
    if id :| id in s.runs && !RunHarmless(s, id, s.runs[id]) {
      var r := s.runs[id];
      var status := if !MaySend(s, id, r) && Truthful(s.gateway, r.prior) then Wanted(AimOf(s, r)) else r.prior;
      var core := CoreFor(s, status);
      if !MaySend(s, id, r) {
        UntrueForOne(s, status);
      }
      var doc := if MaySend(s, id, r) then OtherDoc(AimOf(s, r)) else ClaimedDoc(core, s.gateway.value, status);
      spec := SpecWith(core, doc);
      HarmfulRun(s, SpecEdited(s, spec), id);
    } else if c :| c in s.inflight && (c.Create? || c.Update? || (c.Record? && !Truthful(s.gateway, c.status))) {
      var core := if c.Record? then CoreFor(s, c.status) else map[];
      if c.Record? {
        UntrueForOne(s, c.status);
      }
      spec := SpecWith(core, AgainstCall(core, s, c));
      HarmfulCall(s, SpecEdited(s, spec), c);
    } else {
      var core := CoreFor(s, s.status);
      if !Truthful(s.gateway, s.status) {
        UntrueForOne(s, s.status);
      }
      spec := SpecWith(core, AgainstStatus(core, s));
      LeadsNowhere(SpecEdited(s, spec));
      Loses(SpecEdited(s, spec), SpecEdited(s, spec));
    }
  }

  /** At any moment of any run: every edit of the spec is survived, whatever then happens,
      exactly if the state is harmless. */
  lemma SafeSpecEdits(s: State)
    requires Reachable(s)
    ensures (forall spec | Writable(spec) :: Survives(SpecEdited(s, spec))) <==> Harmless(s)
  {
    ReachableInv(s);
    if Harmless(s) {
      forall spec, u | Leads(SpecEdited(s, spec), u) ensures DriftKept(u) {
        NextKeeps(s, EditSpec(spec));
        LeadsKeeps(SpecEdited(s, spec), u);
      }
    } else {
      var spec := HarmfulForSpec(s);
    }
  }

  // ----- Edits of a policy -----

  lemma HarmfulReader(s: State, name: string, id: Id) returns (doc: Doc)
    requires Inv(s) && s.spec.source == Named(name) && id in s.runs
    requires WillRead(s, s.runs[id]) && !PolicyRunHarmless(s, id, s.runs[id])
    ensures Proper(doc) && !Survives(PolicyEdited(s, name, Some(doc)))
  {
    var r, core, g := s.runs[id], s.spec.core, s.gateway.value;
    doc := if !TrueFor(core, s.gateway, r.prior) then ClaimedDoc(core, g, r.prior) else SilentDoc(g, r.prior);
    var q := PolicyEdited(s, name, Some(doc));
    StartOf(s, q);
    if !TrueFor(core, s.gateway, r.prior) {
      PriorLoses(q, q, id);
    } else {
      WatcherLoses(q, q, id);
    }
  }

  lemma HarmfulOther(s: State, name: string, id: Id) returns (doc: Doc)
    requires Inv(s) && s.spec.source == Named(name) && id in s.runs && !OldReader(s, name, s.runs[id])
    requires !WillRead(s, s.runs[id]) && !PolicyRunHarmless(s, id, s.runs[id])
    ensures Proper(doc) && !Survives(PolicyEdited(s, name, Some(doc)))
  {
    doc := AgainstRun(s.spec.core, s, id);
    HarmfulRun(s, PolicyEdited(s, name, Some(doc)), id);
  }

  lemma HarmfulForPresent(s: State, name: string) returns (doc: Doc)
    requires Inv(s) && !PolicyHarmless(s, name) && s.spec.source == Named(name)
    requires forall id <- s.runs :: OldReader(s, name, s.runs[id]) ==> OldReaderHarmless(s, name, s.runs[id])
    ensures Proper(doc) && !Survives(PolicyEdited(s, name, Some(doc)))
  {
    var core := s.spec.core;
    if id :| id in s.runs && !OldReader(s, name, s.runs[id]) && !PolicyRunHarmless(s, id, s.runs[id]) {
      if WillRead(s, s.runs[id]) {
        doc := HarmfulReader(s, name, id);
      } else {
        doc := HarmfulOther(s, name, id);
      }
    } else if c :| c in s.inflight && (c.Create? || c.Update? || (c.Record? && !TrueFor(core, s.gateway, c.status))) {
      doc := AgainstCall(core, s, c);
      HarmfulCall(s, PolicyEdited(s, name, Some(doc)), c);
    } else {
      doc := AgainstStatus(core, s);
      var q := PolicyEdited(s, name, Some(doc));
      LeadsNowhere(q);
      Loses(q, q);
    }
  }

  // ----- Reconciles left over that have yet to read it -----

  /** Unlike two others. */
  function Third(a: Json, b: Json): (r: Json)
    ensures r != a && r != b
  {
    if a != Null && b != Null then Null else if a != Bool(true) && b != Bool(true) then Bool(true) else Bool(false)
  }

  function ThirdSections(p: MutableMaterial, q: MutableMaterial): (r: MutableMaterial)
    ensures r != p && r != q && r != NO_POLICY
  {
    var none, one := Object(map[]), Object(map["egress" := Object(map[])]);
    var two := Object(map["ingress" := Object(map[])]);
    assert "egress" in one.fields && "ingress" in two.fields && "ingress" !in one.fields;
    p.(networkPolicies :=
      if p.networkPolicies != none && q.networkPolicies != none then none
      else if p.networkPolicies != one && q.networkPolicies != one then one
      else two)
  }

  /** It will build or remove, for an immutable part like none known or wanted. */
  lemma OldBuilderLoses(s: State, name: string, id: Id) returns (doc: Doc)
    requires Inv(s) && (s.spec.source == Named(name) || Aimed(s)) && id in s.runs && OldReader(s, name, s.runs[id])
    requires s.runs[id].place == Deciding(true) ==> s.runs[id].prior.built.Some?
    ensures Proper(doc) && !Survives(PolicyEdited(s, name, Some(doc)))
  {
    var r := s.runs[id];
    var known := if r.prior.built.Some? then r.prior.built.value.landlock else Null;
    var wanted := if s.spec.source == Named(name) then Null else Goal(s).built.landlock;
    doc := Doc(Third(known, wanted), Null, OtherSections(NO_POLICY));
    var q := PolicyEdited(s, name, Some(doc));
    StartOf(s, q);
    if s.spec.source == Named(name) {
      assert AimOf(q, q.runs[id]).built.core != Goal(q).built.core;
    }
    BuilderLoses(q, q, id);
  }

  /** It adopts the sandbox and records what it works for, and that hides a difference. */
  lemma AdopterLoses(q: State, id: Id)
    requires Aimed(q) && id in q.runs && q.runs[id].place == Deciding(true) && q.runs[id].prior.built.None?
    requires Resolvable(q.runs[id].spec, q.docs) && q.gateway.Some?
    requires var g, r, aim := q.gateway.value, q.runs[id], TargetOf(q.runs[id].spec, q.docs);
      || (aim.built == Goal(q).built && g.built != Goal(q).built)
      || (aim.policy == Goal(q).policy && Carries(aim) && !Pushes(r.prior, aim) && g.policy != aim.policy)
    ensures !Survives(q)
  {
    LeadsNowhere(q);
    var t := Go(q, q, Resolve(id, true));
    t := SettlerRecords(q, t, id);
    Loses(q, t);
  }

  /** Of a policy the present spec refers to. */
  lemma OldReaderLoses(s: State, name: string, id: Id) returns (doc: Doc)
    requires Inv(s) && s.spec.source == Named(name) && id in s.runs && OldReader(s, name, s.runs[id])
    requires s.runs[id].place == Deciding(true) && s.runs[id].prior.built.None?
    requires !OldReaderHarmless(s, name, s.runs[id])
    ensures Proper(doc) && !Survives(PolicyEdited(s, name, Some(doc)))
  {
    var p, g := s.runs[id].prior.policy, s.gateway.value;
    doc := Doc(Null, Null, if p.Some? then p.value else OtherSections(g.policy));
    AdopterLoses(PolicyEdited(s, name, Some(doc)), id);
  }

  lemma OldPusherLoses(q: State, id: Id)
    requires Numbered(q) && Aimed(q) && id in q.runs && q.runs[id].place == Deciding(true)
    requires q.runs[id].prior.built.None? && Resolvable(q.runs[id].spec, q.docs)
    requires var aim := TargetOf(q.runs[id].spec, q.docs);
      Pushes(q.runs[id].prior, aim) && aim.policy != Goal(q).policy && Carries(Goal(q))
    ensures !Survives(q)
  {
    LeadsNowhere(q);
    var t := Go(q, q, Resolve(id, true));
    t := Go(q, t, Settled(id));
    StrayUpdateLoses(q, t, Update(id, t.runs[id].target.policy));
  }

  /** Of another policy. */
  lemma ForeignReaderLoses(s: State, name: string, id: Id) returns (doc: Doc)
    requires Inv(s) && s.spec.source != Named(name) && Aimed(s) && id in s.runs && OldReader(s, name, s.runs[id])
    requires s.runs[id].place == Deciding(true) && s.runs[id].prior.built.None?
    requires !OldReaderHarmless(s, name, s.runs[id])
    ensures Proper(doc) && !Survives(PolicyEdited(s, name, Some(doc)))
  {
    var p, goal := s.runs[id].prior.policy, Goal(s);
    if s.runs[id].spec.core == s.spec.core && !BuiltSafe(s) {
      doc := Doc(goal.built.landlock, goal.built.process, OtherSections(NO_POLICY));
      AdopterLoses(PolicyEdited(s, name, Some(doc)), id);
    } else if p.Some? {
      doc := Doc(Null, Null, ThirdSections(p.value, goal.policy));
      var q := PolicyEdited(s, name, Some(doc));
      StartOf(s, q);
      OldPusherLoses(q, id);
    } else {
      doc := Doc(Null, Null, goal.policy);
      AdopterLoses(PolicyEdited(s, name, Some(doc)), id);
    }
  }

  lemma HarmfulForPolicy(s: State, name: string) returns (doc: Doc)
    requires Inv(s) && !PolicyHarmless(s, name)
    ensures Proper(doc) && !Survives(PolicyEdited(s, name, Some(doc)))
  {
    if id :| id in s.runs && OldReader(s, name, s.runs[id]) && !OldReaderHarmless(s, name, s.runs[id]) {
      if !(s.runs[id].place == Deciding(true) && s.runs[id].prior.built.None?) {
        doc := OldBuilderLoses(s, name, id);
      } else if s.spec.source == Named(name) {
        doc := OldReaderLoses(s, name, id);
      } else {
        doc := ForeignReaderLoses(s, name, id);
      }
    } else {
      doc := HarmfulForPresent(s, name);
    }
  }

  /** At any moment of any run: every edit of a policy is survived, whatever then happens,
      exactly if the state is harmless for it. */
  lemma SafePolicyEdits(s: State, name: string)
    requires Reachable(s)
    ensures (forall doc | Proper(doc) :: Survives(PolicyEdited(s, name, Some(doc)))) <==> PolicyHarmless(s, name)
  {
    ReachableInv(s);
    if PolicyHarmless(s, name) {
      forall doc, u | Leads(PolicyEdited(s, name, Some(doc)), u) ensures DriftKept(u) {
        NextKeeps(s, EditPolicy(name, Some(doc)));
        LeadsKeeps(PolicyEdited(s, name, Some(doc)), u);
      }
    } else {
      var doc := HarmfulForPolicy(s, name);
    }
  }

  /** Deleting a policy, or making it unacceptable, is survived at any moment. */
  lemma SafeDeletions(s: State, name: string)
    requires Reachable(s)
    ensures Survives(PolicyEdited(s, name, None))
  {
    ReachableInv(s);
    forall u | Leads(PolicyEdited(s, name, None), u) ensures DriftKept(u) {
      NextKeeps(s, EditPolicy(name, None));
      LeadsKeeps(PolicyEdited(s, name, None), u);
    }
  }

  // ----- Nothing immutable edited, nothing rebuilt -----

  /** The sandbox is up, its recorded hash is what is wanted, and no reconcile sees a reason
      to replace it, now or when it comes to read its policy. */
  predicate Undisturbed(s: State, built: Built) {
    && s.gateway.Some? && s.status.built == Some(built)
    && (Aimed(s) ==> Goal(s).built == built)
    && (forall id <- s.runs :: Undisturbing(s, s.runs[id], built))
    && (forall c <- s.inflight :: !c.Create? && !c.Remove?)
    && (forall c <- s.inflight :: c.Record? ==> c.status.built == None || c.status.built == Some(built))
  }

  predicate Undisturbing(s: State, r: Reconcile, built: Built) {
    && r.prior.built == Some(built) && r.place in {Looking, Deciding(true), Settling, Updating, Recording}
    && if Unresolved(r.place) then Resolvable(r.spec, s.docs) ==> TargetOf(r.spec, s.docs).built == built
       else !r.place.Recording? ==> r.target.built == built
  }

  /** With this document under this name, the spec that refers to it, and any a reconcile has
      yet to read it for, call for the same immutable part. */
  predicate Fits(s: State, name: string, doc: Doc, built: Built) {
    && (s.spec.source == Named(name) ==> With(s.spec.core, doc).built == built)
    && (forall id <- s.runs :: Unresolved(s.runs[id].place) && s.runs[id].spec.source == Named(name) ==>
          With(s.runs[id].spec.core, doc).built == built)
  }

  /** A step, or an edit, in whatever state it comes, that leaves the immutable part alone. */
  ghost predicate Calm(s: State, t: State, built: Built) {
    || (exists a :: Enabled(s, a) && !IsEdit(a) && !a.Vanish? && t == Next(s, a))
    || (exists spec :: t == SpecEdited(s, spec) && (Resolvable(spec, s.docs) ==> TargetOf(spec, s.docs).built == built))
    || (exists name, doc :: t == PolicyEdited(s, name, doc) && (doc.Some? ==> Fits(s, name, doc.value, built)))
  }

  /** One reconcile goes on, sending neither a create nor a removal. */
  lemma UndisturbedByRun(s: State, id: Id, r: Reconcile, sent: set<Call>, built: Built)
    requires Undisturbed(s, built) && Undisturbing(s, r, built)
    requires forall c <- sent :: c.Update? || (c.Record? && c.status.built == Some(built))
    ensures Undisturbed(s.(runs := s.runs[id := r], inflight := s.inflight + sent), built)
  {
  }

  lemma UndisturbedByCall(s: State, call: Call, accepted: bool, built: Built)
    requires Undisturbed(s, built) && call in s.inflight
    ensures var t := Next(s, TakeUp(call, accepted));
      Undisturbed(t, built) && t.gateway.value.built == s.gateway.value.built
  {
  }

  lemma UndisturbedPlace(s: State, id: Id, built: Built)
    requires Undisturbed(s, built) && id in s.runs
    ensures !s.runs[id].place.Removing? && !s.runs[id].place.Polling? && !s.runs[id].place.Creating?
    ensures Undisturbing(s, s.runs[id], built)
  {
    assert Undisturbing(s, s.runs[id], built);
  }

  lemma UndisturbedOwnStep(s: State, a: Action, built: Built)
    requires Undisturbed(s, built) && Enabled(s, a) && !IsEdit(a) && !a.Vanish?
    requires !a.TakeUp? && !a.Begin? && !a.Lose? && !a.Finish?
    ensures Undisturbed(Next(s, a), built) && Next(s, a).gateway == s.gateway
  {
    var t := Next(s, a);
    UndisturbedPlace(s, a.id, built);
    if !a.Removed? && !a.Poll? && !a.Created? {
      UndisturbedByRun(s, a.id, t.runs[a.id], t.inflight - s.inflight, built);
      assert t.inflight == s.inflight + (t.inflight - s.inflight);
    }
  }

  lemma UndisturbedStays(s: State, a: Action, built: Built)
    requires Undisturbed(s, built) && Enabled(s, a) && !IsEdit(a) && !a.Vanish?
    ensures Undisturbed(Next(s, a), built) && Next(s, a).gateway.value.built == s.gateway.value.built
  {
    if a.TakeUp? {
      UndisturbedByCall(s, a.call, a.accepted, built);
    } else if a.Begin? {
      UndisturbedByRun(s, s.nextId, Next(s, a).runs[s.nextId], {}, built);
    } else if !a.Lose? && !a.Finish? {
      UndisturbedOwnStep(s, a, built);
    }
  }

  lemma CalmSpecEdit(s: State, spec: Spec, built: Built)
    requires Undisturbed(s, built) && (Resolvable(spec, s.docs) ==> TargetOf(spec, s.docs).built == built)
    ensures Undisturbed(SpecEdited(s, spec), built)
  {
    forall id | id in s.runs ensures Undisturbing(SpecEdited(s, spec), s.runs[id].(edited := true), built) {
      assert Undisturbing(s, s.runs[id], built);
    }
  }

  lemma CalmPolicyEdit(s: State, name: string, doc: Option<Doc>, built: Built)
    requires Undisturbed(s, built) && (doc.Some? ==> Fits(s, name, doc.value, built))
    ensures Undisturbed(PolicyEdited(s, name, doc), built)
  {
    var t := PolicyEdited(s, name, doc);
    forall id | id in t.runs ensures Undisturbing(t, t.runs[id], built) {
      assert Undisturbing(s, s.runs[id], built);
    }
  }

  lemma CalmStays(s: State, t: State, built: Built)
    requires Undisturbed(s, built) && Calm(s, t, built)
    ensures Undisturbed(t, built) && t.gateway.value.built == s.gateway.value.built
  {
    if a :| Enabled(s, a) && !IsEdit(a) && !a.Vanish? && t == Next(s, a) {
      UndisturbedStays(s, a, built);
    } else if spec :| t == SpecEdited(s, spec) && (Resolvable(spec, s.docs) ==> TargetOf(spec, s.docs).built == built) {
      CalmSpecEdit(s, spec, built);
    } else {
      var name, doc :| t == PolicyEdited(s, name, doc) && (doc.Some? ==> Fits(s, name, doc.value, built));
      CalmPolicyEdit(s, name, doc, built);
    }
  }

  /** Over any run of overlapping reconciles, whatever fails, and of edits that leave the
      immutable part alone, no sandbox is created or removed: none of the reconciles sends
      such a call, and the sandbox keeps what it was built from. */
  lemma {:induction false} NothingRebuilt(states: seq<State>, built: Built, i: nat)
    requires i < |states| && Undisturbed(states[0], built)
    requires forall k :: 0 <= k < |states| - 1 ==> Calm(states[k], states[k + 1], built)
    ensures Undisturbed(states[i], built) && states[i].gateway.value.built == states[0].gateway.value.built
  {
    if i > 0 {
      NothingRebuilt(states, built, i - 1);
      var k := i - 1;
      assert Calm(states[k], states[k + 1], built);
      CalmStays(states[k], states[k + 1], built);
    }
  }

  // ----- Two edits at the wrong moment -----

  /** The sandbox differs from what is wanted, and every recorded or remembered hash says it
      does not. */
  predicate Hidden(s: State) {
    Aimed(s) && Undisturbed(s, Goal(s).built) && s.gateway.value.built != Goal(s).built
  }

  /** No reconcile ever repairs a hidden difference, faults or not: only another edit or the
      sandbox disappearing ends it. */
  lemma HiddenStays(s: State, a: Action)
    requires Hidden(s) && Enabled(s, a) && !IsEdit(a) && !a.Vanish?
    ensures Hidden(Next(s, a))
  {
    UndisturbedStays(s, a, Goal(s).built);
  }

  lemma Reach(s: State, a: Action) returns (t: State)
    requires Reachable(s) && Enabled(s, a)
    ensures t == Next(s, a) && Reachable(t)
  {
    t := Next(s, a);
    NextReachable(s, a);
  }

  lemma ReachOn(s: State, t: State)
    requires Reachable(s) && Leads(s, t)
    ensures Reachable(t)
  {
    var states: seq<State>, actions: seq<Action> :|
      Steps(states, actions) && states[0] == s && states[|actions|] == t;
    ReachAlong(states, actions, |actions|);
  }

  lemma {:induction false} ReachAlong(states: seq<State>, actions: seq<Action>, i: nat)
    requires Steps(states, actions) && Reachable(states[0]) && i < |states|
    ensures Reachable(states[i])
  {
    if i > 0 {
      ReachAlong(states, actions, i - 1);
      assert StepAt(states, actions, i - 1);
      NextReachable(states[i - 1], actions[i - 1]);
    }
  }

  /** The first reconcile creates the sandbox; its status write lands or is lost. */
  lemma FirstBuild(core: Material, doc: Doc, docs: Docs, recorded: bool) returns (s: State)
    ensures Reachable(s) && Idle(s) && s.spec == SpecWith(core, doc) && s.docs == docs
    ensures s.gateway == Some(Sandbox(Goal(s).built, Goal(s).policy))
    ensures s.status == if recorded then Wanted(Goal(s)) else Status(None, None)
  {
    var start := State(SpecWith(core, doc), docs, None, Status(None, None), map[], {}, {}, 0);
    InitReachable(start);
    s := BuildIsRun(start, true, recorded);
    ReachOn(start, s);
  }

  /** Edit, let the recreate's status write be lost, edit back: the sandbox built from the
      middle spec stays for good. */
  lemma EditBackLosesDrift(core: Material, doc: Doc, other: Material) returns (s: State)
    requires core != other
    ensures Reachable(s) && Idle(s) && s.spec == SpecWith(other, doc) && !Harmless(s)
    ensures var back := SpecEdited(s, SpecWith(core, doc)); Hidden(back) && !DriftKept(back)
  {
    var built := FirstBuild(core, doc, map[], true);
    var edited := Reach(built, EditSpec(SpecWith(other, doc)));
    assert edited.runs.Keys == {};
    s := RebuildIsRun(edited, true, false);
    ReachOn(edited, s);
  }

  /** Or: let the status write after the very first create be lost, and edit once. The next
      reconcile adopts the sandbox, records the new spec, and hides the difference for good. */
  lemma UnrecordedCreateLosesDrift(core: Material, doc: Doc, other: Material) returns (s: State, adopted: State)
    requires core != other
    ensures Reachable(s) && Idle(s) && s.spec == SpecWith(core, doc) && !Harmless(s)
    ensures var e := SpecEdited(s, SpecWith(other, doc));
      !DriftKept(e) && Leads(e, adopted) && Hidden(adopted)
  {
    s := FirstBuild(core, doc, map[], false);
    var e := SpecEdited(s, SpecWith(other, doc));
    assert e.runs.Keys == {};
    adopted := InPlaceIsRun(e, e.gateway, true, true);
  }

  /** One reconcile has begun and not looked yet; a second one creates and records. */
  lemma SecondOvertakes(start: State) returns (s: State)
    requires Idle(start) && Aimed(start) && start.nextId == 0
    requires start.gateway == None && start.status == Status(None, None)
    ensures Leads(start, s) && s.spec == start.spec && s.docs == start.docs && s.inflight == {}
    ensures s.gateway == Some(Sandbox(Goal(start).built, Goal(start).policy)) && s.status == Wanted(Goal(start))
    ensures At(s, 0, Deciding(true)) && s.runs[0].spec == start.spec && s.runs[0].prior == Status(None, None)
  {
    LeadsNowhere(start);
    var q := Go(start, start, Begin);
    q := BeginsAndLooks(start, q);
    q := Go(start, q, Resolve(1, true));
    q := CreatesAndAnswers(start, q, 1);
    q := Go(start, q, TakeUp(Record(1, Wanted(Goal(start))), true));
    s := Go(start, q, Look(0));
  }

  /** Or: with all as wanted and recorded, edit a policy between a reconcile's look and its
      reading it. Started from a status that had nothing recorded, it adopts the sandbox. */
  lemma PolicyEditLosesDrift(core: Material, name: string, doc: Doc, edited: Doc) returns (s: State, adopted: State)
    requires doc.landlock != edited.landlock
    ensures Reachable(s) && s.spec == Spec(core, Named(name)) && s.docs == map[name := doc]
    ensures s.gateway == Some(Sandbox(Goal(s).built, Goal(s).policy)) && s.status == Wanted(Goal(s)) && s.inflight == {}
    ensures !PolicyHarmless(s, name)
    ensures var e := PolicyEdited(s, name, Some(edited));
      Leads(e, adopted) && adopted.spec == e.spec && adopted.docs == e.docs && !DriftKept(adopted)
  {
    var start := State(Spec(core, Named(name)), map[name := doc], None, Status(None, None), map[], {}, {}, 0);
    InitReachable(start);
    s := SecondOvertakes(start);
    ReachOn(start, s);
    var e := PolicyEdited(s, name, Some(edited));
    LeadsNowhere(e);
    assert !PolicyRunHarmless(s, 0, s.runs[0]);
    adopted := ReaderSettles(e, e, 0);
    adopted := SettlerRecords(e, adopted, 0);
  }
}
