/** The webhook's serving certificate, shared by any number of operator replicas: each reads
    the Secret, creates it if it finds none it can use, adopts a peer's when it comes second,
    and injects the certificate's CA into the two webhook configurations. */
module WebhookCert {
  import opened Wrappers
  import opened Utf8

  datatype Bundle = Bundle(cert: string, key: string, ca: string)

  /** The data of a Secret as the API server stores it. */
  type SecretData = map<string, seq<byte>>

  function Text(data: SecretData, key: string): Option<string> {
    if key in data then Decode(data[key]) else None
  }

  /** The bundle of a Secret; none if a part is missing or is not text. */
  function ReadBundle(data: SecretData): Option<Bundle> {
    var cert, key, ca := Text(data, "tls.crt"), Text(data, "tls.key"), Text(data, "ca.crt");
    if cert.Some? && key.Some? && ca.Some? then Some(Bundle(cert.value, key.value, ca.value)) else None
  }

  function SecretOf(b: Bundle): SecretData {
    map["tls.crt" := Encode(b.cert), "tls.key" := Encode(b.key), "ca.crt" := Encode(b.ca)]
  }

  predicate Holds(data: SecretData, key: string, text: string) {
    key in data && data[key] == Encode(text)
  }

  /** A Secret is read exactly if it holds all three parts as text, whatever else it holds. */
  lemma ReadsExactly(data: SecretData, b: Bundle)
    ensures ReadBundle(data) == Some(b) <==>
      Holds(data, "tls.crt", b.cert) && Holds(data, "tls.key", b.key) && Holds(data, "ca.crt", b.ca)
  {
    TextExactly(data, "tls.crt", b.cert);
    TextExactly(data, "tls.key", b.key);
    TextExactly(data, "ca.crt", b.ca);
  }

  lemma TextExactly(data: SecretData, key: string, text: string)
    ensures Text(data, key) == Some(text) <==> Holds(data, key, text)
  {
    if key in data {
      DecodeExact(data[key], text);
    }
  }

  /** What a replica stores it reads back, and every replica reads the same. */
  lemma ReadsBack(b: Bundle)
    ensures ReadBundle(SecretOf(b)) == Some(b)
  {
    RoundTrip(b.cert);
    RoundTrip(b.key);
    RoundTrip(b.ca);
    assert Text(SecretOf(b), "tls.crt") == Some(b.cert) && Text(SecretOf(b), "tls.key") == Some(b.key);
  }

  type Id = nat

  datatype Place =
    | Looking
    | Creating(bundle: Bundle)
    | Adopting
    | InjectingMutating(bundle: Bundle)
    | InjectingValidating(bundle: Bundle)
    | Ready(bundle: Bundle)
    | Exited

  datatype Target = Mutating | Validating

  /** A request on its way; it may be lost, or take effect after its sender is gone. */
  datatype Call =
    | CreateSecret(id: Id, bundle: Bundle)
    | PatchCa(id: Id, target: Target, ca: string)

  datatype State = State(
    secret: Option<SecretData>,
    caOf: map<Target, string>,
    replicas: map<Id, Place>,
    inflight: set<Call>,
    done: set<Call>,
    refused: set<Call>)

  datatype Action =
    | Start(id: Id)
    | Look(id: Id, generated: Bundle)
    | Created(id: Id)
    | Refused(id: Id)
    | Reread(id: Id)
    | Injected(id: Id)
    | GiveUp(id: Id)
    | TakeUp(call: Call)
    | Lose(call: Call)

  predicate At(s: State, id: Id) {
    id in s.replicas
  }

  /** The patch a replica waits to see answered. */
  function WaitsFor(id: Id, place: Place): Option<Call> {
    match place
    case InjectingMutating(b) => Some(PatchCa(id, Mutating, b.ca))
    case InjectingValidating(b) => Some(PatchCa(id, Validating, b.ca))
    case _ => None
  }

  predicate Enabled(s: State, a: Action) {
    match a
    case Start(id) => !At(s, id)
    case Look(id, _) => At(s, id) && s.replicas[id].Looking?
    case Created(id) => At(s, id) && s.replicas[id].Creating? && CreateSecret(id, s.replicas[id].bundle) in s.done
    case Refused(id) => At(s, id) && s.replicas[id].Creating? && CreateSecret(id, s.replicas[id].bundle) in s.refused
    case Reread(id) => At(s, id) && s.replicas[id].Adopting?
    case Injected(id) => At(s, id) && WaitsFor(id, s.replicas[id]).Some? && WaitsFor(id, s.replicas[id]).value in s.done
    case GiveUp(id) => At(s, id) && !s.replicas[id].Ready?
    case TakeUp(call) => call in s.inflight
    case Lose(call) => call in s.inflight
  }

  function Move(s: State, id: Id, place: Place): State {
    s.(replicas := s.replicas[id := place])
  }

  /** With a bundle in hand, inject its CA. */
  function Inject(s: State, id: Id, b: Bundle): State {
    Move(s, id, InjectingMutating(b)).(inflight := s.inflight + {PatchCa(id, Mutating, b.ca)})
  }

  /** The API server takes a call up: a create only when there is no Secret. */
  function Effect(s: State, call: Call): State {
    match call
    case CreateSecret(id, b) =>
      if s.secret.None? then s.(secret := Some(SecretOf(b)), done := s.done + {call})
      else s.(refused := s.refused + {call})
    case PatchCa(id, target, ca) => s.(caOf := s.caOf[target := ca], done := s.done + {call})
  }

  function Next(s: State, a: Action): State
    requires Enabled(s, a)
  {
    match a
    case Start(id) => Move(s, id, Looking)
    case Look(id, generated) =>
      if s.secret.Some? && ReadBundle(s.secret.value).Some? then Inject(s, id, ReadBundle(s.secret.value).value)
      else Move(s, id, Creating(generated)).(inflight := s.inflight + {CreateSecret(id, generated)})
    case Created(id) => Inject(s, id, s.replicas[id].bundle)
    case Refused(id) => Move(s, id, Adopting)
    case Reread(id) =>
      if s.secret.Some? && ReadBundle(s.secret.value).Some? then Inject(s, id, ReadBundle(s.secret.value).value)
      else Move(s, id, Exited)
    case Injected(id) =>
      var b := s.replicas[id].bundle;
      if s.replicas[id].InjectingMutating? then
        Move(s, id, InjectingValidating(b)).(inflight := s.inflight + {PatchCa(id, Validating, b.ca)})
      else Move(s, id, Ready(b))
    case GiveUp(id) => Move(s, id, Exited)
    case TakeUp(call) => Effect(s, call).(inflight := s.inflight - {call})
    case Lose(call) => s.(inflight := s.inflight - {call})
  }

  predicate Init(s: State) {
    s.replicas == map[] && s.inflight == {} && s.done == {} && s.refused == {}
  }

  predicate StepAt(states: seq<State>, actions: seq<Action>, i: nat)
    requires |states| == |actions| + 1 && i < |actions|
  {
    Enabled(states[i], actions[i]) && states[i + 1] == Next(states[i], actions[i])
  }

  predicate Run(states: seq<State>, actions: seq<Action>) {
    && |states| == |actions| + 1 && Init(states[0])
    && forall i: nat :: i < |actions| ==> StepAt(states, actions, i)
  }

  // ----- The invariant -----

  /** The bundle everyone is to serve. */
  predicate Stored(s: State, b: Bundle) {
    s.secret.Some? && ReadBundle(s.secret.value) == Some(b)
  }

  predicate CaIsStored(s: State, ca: string) {
    s.secret.Some? && ReadBundle(s.secret.value).Some? && ca == ReadBundle(s.secret.value).value.ca
  }

  predicate ReplicaOk(s: State, id: Id, place: Place) {
    match place
    case Adopting => s.secret.Some?
    case InjectingMutating(b) => Stored(s, b)
    case InjectingValidating(b) => Stored(s, b) && PatchCa(id, Mutating, b.ca) in s.done
    case Ready(b) => Stored(s, b) && PatchCa(id, Mutating, b.ca) in s.done && PatchCa(id, Validating, b.ca) in s.done
    case _ => true
  }

  predicate DoneOk(s: State, call: Call) {
    match call
    case CreateSecret(_, b) => Stored(s, b)
    case PatchCa(_, target, ca) => CaIsStored(s, ca) && target in s.caOf && s.caOf[target] == ca
  }

  ghost predicate Inv(s: State) {
    && (forall id <- s.replicas :: ReplicaOk(s, id, s.replicas[id]))
    && (forall call <- s.inflight :: call.PatchCa? ==> CaIsStored(s, call.ca))
    && (forall call <- s.done :: DoneOk(s, call))
    && (s.refused != {} ==> s.secret.Some?)
  }

  /** A replica that moves on, with at most one new patch, keeps the invariant. */
  lemma MoveKeeps(s: State, id: Id, place: Place, calls: set<Call>)
    requires Inv(s) && ReplicaOk(s, id, place)
    requires forall call <- calls :: call.PatchCa? ==> CaIsStored(s, call.ca)
    ensures Inv(Move(s, id, place).(inflight := s.inflight + calls))
  {
  }

  lemma EffectKeeps(s: State, call: Call)
    requires Inv(s) && call in s.inflight
    ensures Inv(Next(s, TakeUp(call)))
  {
    var t := Next(s, TakeUp(call));
    if call.CreateSecret? {
      ReadsBack(call.bundle);
    }
    forall i | i in t.replicas ensures ReplicaOk(t, i, t.replicas[i]) {
      assert ReplicaOk(s, i, s.replicas[i]);
    }
    forall c | c in t.done ensures DoneOk(t, c) {
      assert c in s.done ==> DoneOk(s, c);
    }
  }

  lemma NextKeeps(s: State, a: Action)
    requires Inv(s) && Enabled(s, a)
    ensures Inv(Next(s, a))
  {
    match a
    case TakeUp(call) => EffectKeeps(s, call);
    case Lose(call) =>
      forall c | c in s.done ensures DoneOk(Next(s, a), c) {
        assert DoneOk(s, c);
      }
      forall i | i in s.replicas ensures ReplicaOk(Next(s, a), i, s.replicas[i]) {
        assert ReplicaOk(s, i, s.replicas[i]);
      }
    case Created(id) =>
      var b := s.replicas[id].bundle;
      assert DoneOk(s, CreateSecret(id, b));
      MoveKeeps(s, id, InjectingMutating(b), {PatchCa(id, Mutating, b.ca)});
    case Injected(id) =>
      assert ReplicaOk(s, id, s.replicas[id]);
      var b := s.replicas[id].bundle;
      MoveKeeps(s, id, InjectingValidating(b), {PatchCa(id, Validating, b.ca)});
    case _ =>
  }

  // ----- What every run guarantees -----

  lemma {:induction false} RunKeeps(states: seq<State>, actions: seq<Action>, i: nat)
    requires Run(states, actions) && i < |states|
    ensures Inv(states[i])
  {
    if i > 0 {
      RunKeeps(states, actions, i - 1);
      assert StepAt(states, actions, i - 1);
      NextKeeps(states[i - 1], actions[i - 1]);
    }
  }

  /** The Secret is never replaced. */
  lemma {:induction false} SecretStays(states: seq<State>, actions: seq<Action>, i: nat, j: nat)
    requires Run(states, actions) && i <= j < |states| && states[i].secret.Some?
    ensures states[j].secret == states[i].secret
    decreases j
  {
    if i < j {
      SecretStays(states, actions, i, j - 1);
      assert StepAt(states, actions, j - 1);
    }
  }

  /** Replicas that are ready, at whatever times, hold one bundle: the one the Secret stores,
      then and ever after. */
  lemma Agreement(states: seq<State>, actions: seq<Action>, i: nat, j: nat, a: Id, b: Id, x: Bundle, y: Bundle)
    requires Run(states, actions) && i <= j < |states|
    requires At(states[i], a) && states[i].replicas[a] == Ready(x)
    requires At(states[j], b) && states[j].replicas[b] == Ready(y)
    ensures x == y && Stored(states[i], x) && Stored(states[j], x)
  {
    RunKeeps(states, actions, i);
    RunKeeps(states, actions, j);
    assert ReplicaOk(states[i], a, Ready(x)) && ReplicaOk(states[j], b, Ready(y));
    SecretStays(states, actions, i, j);
  }

  predicate InSequence(s: State) {
    forall call <- s.inflight + s.done ::
      call.PatchCa? && call.target == Validating ==> PatchCa(call.id, Mutating, call.ca) in s.done
  }

  /** The second patch of a replica is only sent once its first one has taken effect. */
  lemma {:induction false} PatchesInSequence(states: seq<State>, actions: seq<Action>, i: nat)
    requires Run(states, actions) && i < |states|
    ensures InSequence(states[i])
  {
    if i > 0 {
      PatchesInSequence(states, actions, i - 1);
      assert StepAt(states, actions, i - 1);
      var s, t := states[i - 1], states[i];
      forall call | call in t.inflight + t.done && call.PatchCa? && call.target == Validating
        ensures PatchCa(call.id, Mutating, call.ca) in t.done
      {
        assert call in s.inflight + s.done || PatchCa(call.id, Mutating, call.ca) in s.done;
      }
    }
  }

  /** Whenever a replica is ready, both configurations trust the CA of what it serves, in
      whatever order the replicas' patches took effect. */
  lemma ConfigurationsTrust(states: seq<State>, actions: seq<Action>, i: nat, a: Id, b: Bundle, target: Target)
    requires Run(states, actions) && i < |states| && At(states[i], a) && states[i].replicas[a] == Ready(b)
    ensures target in states[i].caOf && states[i].caOf[target] == b.ca
  {
    RunKeeps(states, actions, i);
    assert ReplicaOk(states[i], a, Ready(b));
    assert DoneOk(states[i], PatchCa(a, target, b.ca));
  }

  predicate Malformed(s: State) {
    s.secret.Some? && ReadBundle(s.secret.value).None?
  }

  /** If the Secret a run starts with cannot be read, no replica ever becomes ready, and no
      configuration is touched. */
  lemma {:induction false} MalformedNeverReady(states: seq<State>, actions: seq<Action>, i: nat)
    requires Run(states, actions) && Malformed(states[0]) && i < |states|
    ensures Malformed(states[i]) && states[i].caOf == states[0].caOf
    ensures forall id <- states[i].replicas :: !states[i].replicas[id].Ready?
  {
    if i > 0 {
      MalformedNeverReady(states, actions, i - 1);
      assert StepAt(states, actions, i - 1);
      RunKeeps(states, actions, i - 1);
      var s, a := states[i - 1], actions[i - 1];
      assert a.TakeUp? && a.call.PatchCa? ==> CaIsStored(s, a.call.ca);
      assert a.Injected? ==> ReplicaOk(s, a.id, s.replicas[a.id]);
    }
    RunKeeps(states, actions, i);
    forall id | id in states[i].replicas ensures !states[i].replicas[id].Ready? {
      assert ReplicaOk(states[i], id, states[i].replicas[id]);
    }
  }

  lemma WellFormedStays(s: State, a: Action)
    requires !Malformed(s) && Enabled(s, a)
    ensures !Malformed(Next(s, a))
  {
    if a.TakeUp? && a.call.CreateSecret? {
      ReadsBack(a.call.bundle);
    }
  }

  /** Otherwise adopting a peer's bundle never fails. */
  lemma {:induction false} AdoptionSucceeds(states: seq<State>, actions: seq<Action>, i: nat, id: Id)
    requires Run(states, actions) && !Malformed(states[0]) && i < |states|
    ensures !Malformed(states[i])
    ensures At(states[i], id) && states[i].replicas[id].Adopting? ==>
      var secret := states[i].secret;
      secret.Some? && Next(states[i], Reread(id)).replicas[id] == InjectingMutating(ReadBundle(secret.value).value)
  {
    if i > 0 {
      AdoptionSucceeds(states, actions, i - 1, id);
      assert StepAt(states, actions, i - 1);
      WellFormedStays(states[i - 1], actions[i - 1]);
    }
    RunKeeps(states, actions, i);
    if At(states[i], id) {
      assert ReplicaOk(states[i], id, states[i].replicas[id]);
    }
  }

  // ----- Replicas do become ready -----

  ghost predicate Steps(states: seq<State>, actions: seq<Action>) {
    |states| == |actions| + 1 && forall i: nat :: i < |actions| ==> StepAt(states, actions, i)
  }

  /** The protocol leads from `s` to `t`. */
  ghost predicate Leads(s: State, t: State) {
    exists states: seq<State>, actions: seq<Action> ::
      Steps(states, actions) && states[0] == s && states[|actions|] == t
  }

  lemma Begins(s: State)
    ensures Leads(s, s)
  {
    var states: seq<State>, actions: seq<Action> := [s], [];
    assert Steps(states, actions) && states[0] == s && states[|actions|] == s;
  }

  lemma Go(s: State, q: State, a: Action) returns (t: State)
    requires Leads(s, q) && Enabled(q, a)
    ensures t == Next(q, a) && Leads(s, t)
  {
    t := Next(q, a);
    var states: seq<State>, actions: seq<Action> :|
      Steps(states, actions) && states[0] == s && states[|actions|] == q;
    var states', actions' := states + [t], actions + [a];
    forall i: nat | i < |actions'| ensures StepAt(states', actions', i) {
      assert i < |actions| ==> StepAt(states, actions, i);
    }
    assert Steps(states', actions') && states'[0] == s && states'[|actions'|] == t;
  }

  /** A run goes on wherever the protocol leads from its end. */
  lemma RunGoesOn(states: seq<State>, actions: seq<Action>, t: State)
    returns (more: seq<State>, others: seq<Action>)
    requires Run(states, actions) && Leads(states[|actions|], t)
    ensures Run(states + more, actions + others) && (states + more)[|actions| + |others|] == t
  {
    var tail: seq<State>;
    tail, others :| Steps(tail, others) && tail[0] == states[|actions|] && tail[|others|] == t;
    more := tail[1..];
    forall i: nat | i < |actions + others| ensures StepAt(states + more, actions + others, i) {
      if i < |actions| {
        assert StepAt(states, actions, i);
      } else {
        assert StepAt(tail, others, i - |actions|);
      }
    }
  }

  /** A replica serves this bundle, which is the stored one, and both configurations trust it. */
  predicate Serves(s: State, id: Id, b: Bundle) {
    && At(s, id) && s.replicas[id] == Ready(b) && Stored(s, b)
    && Trusts(s, Mutating, b.ca) && Trusts(s, Validating, b.ca)
  }

  predicate Trusts(s: State, target: Target, ca: string) {
    target in s.caOf && s.caOf[target] == ca
  }

  /** With the bundle in hand, the two patches and their answers make it ready. */
  lemma InjectsAndServes(s: State, q: State, id: Id, b: Bundle) returns (t: State)
    requires Leads(s, q) && At(q, id) && q.replicas[id] == InjectingMutating(b) && Stored(q, b)
    requires PatchCa(id, Mutating, b.ca) in q.inflight
    ensures Leads(s, t) && Serves(t, id, b) && t.secret == q.secret
  {
    t := Go(s, q, TakeUp(PatchCa(id, Mutating, b.ca)));
    t := Go(s, t, Injected(id));
    t := Go(s, t, TakeUp(PatchCa(id, Validating, b.ca)));
    t := Go(s, t, Injected(id));
  }

  /** A replica that finds a Secret it can read serves what that holds. */
  lemma ReadsAndServes(s: State, id: Id, generated: Bundle, b: Bundle) returns (t: State)
    requires !At(s, id) && Stored(s, b)
    ensures Leads(s, t) && Serves(t, id, b) && t.secret == s.secret
  {
    Begins(s);
    t := Go(s, s, Start(id));
    t := Go(s, t, Look(id, generated));
    t := InjectsAndServes(s, t, id, b);
  }

  /** One that finds none stores its own and serves that. */
  lemma CreatesAndServes(s: State, id: Id, generated: Bundle) returns (t: State)
    requires !At(s, id) && s.secret.None?
    ensures Leads(s, t) && Serves(t, id, generated)
  {
    Begins(s);
    ReadsBack(generated);
    t := Go(s, s, Start(id));
    t := Go(s, t, Look(id, generated));
    t := Go(s, t, TakeUp(CreateSecret(id, generated)));
    t := Go(s, t, Created(id));
    t := InjectsAndServes(s, t, id, generated);
  }

  /** One that finds none, but whose own comes second, serves the first. */
  lemma AdoptsAndServes(s: State, id: Id, generated: Bundle, first: Call) returns (t: State)
    requires !At(s, id) && s.secret.None? && first in s.inflight && first.CreateSecret?
    requires first != CreateSecret(id, generated)
    ensures Leads(s, t) && Serves(t, id, first.bundle)
  {
    Begins(s);
    ReadsBack(first.bundle);
    t := Go(s, s, Start(id));
    t := Go(s, t, Look(id, generated));
    t := Go(s, t, TakeUp(first));
    t := Go(s, t, TakeUp(CreateSecret(id, generated)));
    t := Go(s, t, Refused(id));
    t := Go(s, t, Reread(id));
    t := InjectsAndServes(s, t, id, first.bundle);
  }

  /** Unless there is a Secret that cannot be read, a new replica can always become ready. */
  lemma BecomesReady(s: State, id: Id, generated: Bundle) returns (t: State, b: Bundle)
    requires !At(s, id) && !Malformed(s)
    ensures Leads(s, t) && Serves(t, id, b)
    ensures b == if s.secret.Some? then ReadBundle(s.secret.value).value else generated
  {
    if s.secret.Some? {
      b := ReadBundle(s.secret.value).value;
      t := ReadsAndServes(s, id, generated, b);
    } else {
      b := generated;
      t := CreatesAndServes(s, id, generated);
    }
  }

  predicate HasExited(s: State, id: Id) {
    At(s, id) && s.replicas[id].Exited?
  }

  /** A replica that is not ready may give up at any time, as it does when a call fails. */
  lemma MayGiveUp(s: State, id: Id)
    requires At(s, id)
    ensures Enabled(s, GiveUp(id)) <==> !s.replicas[id].Ready?
    ensures Enabled(s, GiveUp(id)) ==> HasExited(Next(s, GiveUp(id)), id) && Next(s, GiveUp(id)).inflight == s.inflight
  {
  }

  /** Conversely a replica only exits by giving up after a failed call, or if the Secret the
      run starts with cannot be read. */
  lemma ExitsOnlyThen(states: seq<State>, actions: seq<Action>, i: nat, id: Id)
    requires Run(states, actions) && i < |actions| && !HasExited(states[i], id) && HasExited(states[i + 1], id)
    ensures actions[i] == GiveUp(id) || (actions[i] == Reread(id) && Malformed(states[0]))
    ensures At(states[i], id) && !states[i].replicas[id].Ready?
  {
    assert StepAt(states, actions, i);
    if actions[i] != GiveUp(id) && !Malformed(states[0]) {
      AdoptionSucceeds(states, actions, i, id);
    }
  }
}
