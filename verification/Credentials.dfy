/** How the values of a Secret are handed to the gateway: selected and decoded, then split
    into those copied and those used as seed of a gateway-minted refresh. */
module Credentials {
  import opened Wrappers
  import opened Utf8

  // ----- From the Secret -----

  const ENTITLEMENT_ANNOTATION := "openshell.lenshq.io/allow-provider-ref"

  datatype Secret = Secret(annotations: map<string, string>, data: map<string, seq<byte>>)

  datatype SecretError =
    | SecretNotFound
    | SecretNotEntitled
    | SecretKeyMissing(key: string)
    | SecretValueNotUtf8(key: string)

  ghost predicate Readable(data: map<string, seq<byte>>, key: string) {
    key in data && exists text :: data[key] == Encode(text)
  }

  predicate Walks(walk: seq<string>, data: map<string, seq<byte>>) {
    (forall k <- walk :: k in data) && (forall k <- data :: k in walk)
  }

  function KeySet(keys: seq<string>): set<string> {
    set k | k in keys
  }

  /** These keys and no others, with the texts their bytes encode. */
  predicate ExtractedFrom(data: map<string, seq<byte>>, keys: set<string>, values: map<string, string>) {
    values.Keys == keys && forall k <- keys :: k in data && data[k] == Encode(values[k])
  }

  ghost predicate FirstUnreadable(data: map<string, seq<byte>>, selected: seq<string>, i: nat, e: SecretError)
    requires i < |selected|
  {
    && (forall j :: 0 <= j < i ==> Readable(data, selected[j]))
    && !Readable(data, selected[i])
    && e == if selected[i] !in data then SecretKeyMissing(selected[i]) else SecretValueNotUtf8(selected[i])
  }

  ghost predicate FailsFirstAt(data: map<string, seq<byte>>, selected: seq<string>, e: SecretError) {
    exists i: nat :: i < |selected| && FirstUnreadable(data, selected, i, e)
  }

  lemma Extends(
      data: map<string, seq<byte>>, selected: seq<string>, i: nat, values: map<string, string>, text: string)
    requires i < |selected| && ExtractedFrom(data, KeySet(selected[..i]), values)
    requires selected[i] in data && data[selected[i]] == Encode(text)
    ensures ExtractedFrom(data, KeySet(selected[..i + 1]), values[selected[i] := text])
  {
    assert selected[..i + 1] == selected[..i] + [selected[i]];
    assert KeySet(selected[..i + 1]) == KeySet(selected[..i]) + {selected[i]};
    forall k | k in KeySet(selected[..i]) ensures k in data && data[k] == Encode(values[k]) {
    }
  }

  lemma ReadableDecodes(data: map<string, seq<byte>>, key: string)
    requires key in data
    ensures Readable(data, key) <==> Decode(data[key]).Some?
    ensures Decode(data[key]).Some? ==> data[key] == Encode(Decode(data[key]).value)
  {
    if Decode(data[key]).Some? {
      DecodeExact(data[key], Decode(data[key]).value);
    }
    if text :| data[key] == Encode(text) {
      DecodeExact(data[key], text);
    }
  }

  /** The named keys, or with none named all of them; the first that cannot be read ends it.
      `walk` is the order the Secret's map is walked in. */
  method ExtractCredentials(data: map<string, seq<byte>>, walk: seq<string>, keys: seq<string>)
    returns (r: Result<map<string, string>, SecretError>)
    requires Walks(walk, data)
    ensures keys != [] ==> (r.Ok? <==> forall k <- keys :: Readable(data, k))
    ensures keys == [] ==> (r.Ok? <==> forall k <- data :: Readable(data, k))
    ensures r.Ok? ==> ExtractedFrom(data, if keys == [] then data.Keys else KeySet(keys), r.value)
    ensures r.Err? && keys != [] ==> FailsFirstAt(data, keys, r.error)
    ensures r.Err? && keys == [] ==> FailsFirstAt(data, walk, r.error)
  {
    var selected := if keys == [] then walk else keys;
    var credentials: map<string, string> := map[];
    for i := 0 to |selected|
      invariant forall j :: 0 <= j < i ==> Readable(data, selected[j])
      invariant ExtractedFrom(data, KeySet(selected[..i]), credentials)
    {
      var key := selected[i];
      if key !in data {
        assert FirstUnreadable(data, selected, i, SecretKeyMissing(key));
        return Err(SecretKeyMissing(key));
      }
      ReadableDecodes(data, key);
      var text := Decode(data[key]);
      if text.None? {
        assert FirstUnreadable(data, selected, i, SecretValueNotUtf8(key));
        return Err(SecretValueNotUtf8(key));
      }
      Extends(data, selected, i, credentials, text.value);
      credentials := credentials[key := text.value];
    }
    assert selected[..|selected|] == selected;
    assert keys == [] ==> KeySet(walk) == data.Keys;
    return Ok(credentials);
  }

  predicate IsEntitled(secret: Secret) {
    ENTITLEMENT_ANNOTATION in secret.annotations && secret.annotations[ENTITLEMENT_ANNOTATION] == "true"
  }

  /** The Secret says in so many words that providers may refer to it. */
  predicate OptsIn(secret: Secret) {
    ("openshell.lenshq.io/allow-provider-ref", "true") in secret.annotations.Items
  }

  method ResolveCredentials(secret: Option<Secret>, walk: seq<string>, keys: seq<string>)
    returns (r: Result<map<string, string>, SecretError>)
    requires secret.Some? ==> Walks(walk, secret.value.data)
    ensures secret.None? <==> r == Err(SecretNotFound)
    ensures secret.Some? && !OptsIn(secret.value) <==> r == Err(SecretNotEntitled)
    ensures secret.Some? && OptsIn(secret.value) ==>
      var data := secret.value.data;
      && (keys != [] ==> (r.Ok? <==> forall k <- keys :: Readable(data, k)))
      && (keys == [] ==> (r.Ok? <==> forall k <- data :: Readable(data, k)))
      && (r.Ok? ==> ExtractedFrom(data, if keys == [] then data.Keys else KeySet(keys), r.value))
      && (r.Err? ==> FailsFirstAt(data, if keys == [] then walk else keys, r.error))
  {
    if secret.None? {
      return Err(SecretNotFound);
    }
    if !IsEntitled(secret.value) {
      return Err(SecretNotEntitled);
    }
    r := ExtractCredentials(secret.value.data, walk, keys);
  }

  // ----- The plan -----

  datatype Strategy = Oauth2RefreshToken | Oauth2ClientCredentials | GoogleServiceAccountJwt | AwsStsAssumeRole

  datatype MaterialSpec = MaterialSpec(name: string, required: bool, secret: bool)

  datatype RefreshSpec = RefreshSpec(strategy: Strategy, material: seq<MaterialSpec>)

  datatype RefreshPlan = RefreshPlan(strategy: Strategy, material: map<string, string>, secretMaterialKeys: seq<string>)

  datatype ProfileCredential = ProfileCredential(name: string, refresh: Option<RefreshSpec>)

  datatype PlannedRefresh = PlannedRefresh(credentialKey: string, plan: RefreshPlan)

  datatype DegradedCredential = DegradedCredential(credentialKey: string, missing: seq<string>)

  datatype Plan = Plan(
    staticCredentials: map<string, string>, refreshes: seq<PlannedRefresh>, degraded: seq<DegradedCredential>)

  predicate Names(material: seq<MaterialSpec>, key: string) {
    exists item <- material :: item.name == key
  }

  predicate NamesSecret(material: seq<MaterialSpec>, key: string) {
    exists item <- material :: item.name == key && item.secret
  }

  predicate NamesRequired(material: seq<MaterialSpec>, key: string) {
    exists item <- material :: item.name == key && item.required
  }

  /** Nothing the strategy requires is missing. */
  predicate Supplied(spec: RefreshSpec, resolved: map<string, string>) {
    forall item <- spec.material :: item.required ==> item.name in resolved
  }

  /** The selected values that are seed of the refresh. */
  function Seeds(material: seq<MaterialSpec>, resolved: map<string, string>): map<string, string> {
    map k <- resolved | Names(material, k) :: resolved[k]
  }

  predicate IsPlanOf(spec: RefreshSpec, resolved: map<string, string>, plan: RefreshPlan) {
    && plan.strategy == spec.strategy
    && plan.material == Seeds(spec.material, resolved)
    && plan.secretMaterialKeys == SecretSeeds(spec.material, resolved)
  }

  predicate IsMissing(spec: RefreshSpec, resolved: map<string, string>, missing: seq<string>) {
    missing == Lacking(spec.material, resolved)
  }

  /** The names of the sensitive values supplied, in the order of the spec. */
  function SecretSeeds(material: seq<MaterialSpec>, resolved: map<string, string>): seq<string>
    decreases |material|
  {
    if material == [] then []
    else
      var front, item := material[..|material| - 1], material[|material| - 1];
      SecretSeeds(front, resolved) + if item.secret && item.name in resolved then [item.name] else []
  }

  /** The names of the required values that are not, in that order. */
  function Lacking(material: seq<MaterialSpec>, resolved: map<string, string>): seq<string>
    decreases |material|
  {
    if material == [] then []
    else
      var front, item := material[..|material| - 1], material[|material| - 1];
      Lacking(front, resolved) + if item.required && item.name !in resolved then [item.name] else []
  }

  /** Which names these are. */
  lemma {:induction false} ListedNames(material: seq<MaterialSpec>, resolved: map<string, string>, key: string)
    ensures key in SecretSeeds(material, resolved) <==> key in resolved && NamesSecret(material, key)
    ensures key in Lacking(material, resolved) <==> key !in resolved && NamesRequired(material, key)
    decreases |material|
  {
    if material != [] {
      var front, item := material[..|material| - 1], material[|material| - 1];
      ListedNames(front, resolved, key);
      assert forall i <- material :: i in front || i == item;
      assert item in material && forall i <- front :: i in material;
    }
  }

  /** Nothing is missing exactly if everything required is supplied. */
  lemma NothingLacking(spec: RefreshSpec, resolved: map<string, string>)
    ensures Lacking(spec.material, resolved) == [] <==> Supplied(spec, resolved)
  {
    var lacking := Lacking(spec.material, resolved);
    if lacking != [] {
      ListedNames(spec.material, resolved, lacking[0]);
    }
    forall item | item in spec.material && item.required && item.name !in resolved ensures lacking != [] {
      ListedNames(spec.material, resolved, item.name);
    }
  }

  method BuildRefreshMaterial(spec: RefreshSpec, resolved: map<string, string>)
    returns (r: Result<RefreshPlan, seq<string>>)
    ensures r.Ok? <==> Supplied(spec, resolved)
    ensures r.Ok? ==> IsPlanOf(spec, resolved, r.value)
    ensures r.Err? ==> IsMissing(spec, resolved, r.error) && r.error != []
  {
    var material: map<string, string>, secretKeys: seq<string>, missing: seq<string> := map[], [], [];
    for i := 0 to |spec.material|
      invariant material == Seeds(spec.material[..i], resolved)
      invariant secretKeys == SecretSeeds(spec.material[..i], resolved)
      invariant missing == Lacking(spec.material[..i], resolved)
    {
      var item := spec.material[i];
      SeedsOneMore(spec.material, i, resolved);
      assert spec.material[..i + 1][..i] == spec.material[..i];
      if item.name in resolved {
        material := material[item.name := resolved[item.name]];
        if item.secret {
          secretKeys := secretKeys + [item.name];
        }
      } else if item.required {
        missing := missing + [item.name];
      }
    }
    assert spec.material[..|spec.material|] == spec.material;
    NothingLacking(spec, resolved);
    return if missing == [] then Ok(RefreshPlan(spec.strategy, material, secretKeys)) else Err(missing);
  }

  lemma SeedsOneMore(material: seq<MaterialSpec>, i: nat, resolved: map<string, string>)
    requires i < |material|
    ensures var name := material[i].name;
      Seeds(material[..i + 1], resolved)
        == if name in resolved then Seeds(material[..i], resolved)[name := resolved[name]]
           else Seeds(material[..i], resolved)
  {
  }

  /** The gateway mints this credential: its seeds are complete, and it is not an AWS role. */
  predicate Minted(c: ProfileCredential, resolved: map<string, string>) {
    c.refresh.Some? && Supplied(c.refresh.value, resolved) && c.refresh.value.strategy != AwsStsAssumeRole
  }

  predicate PartlySupplied(c: ProfileCredential, resolved: map<string, string>) {
    && c.refresh.Some? && !Supplied(c.refresh.value, resolved)
    && exists item <- c.refresh.value.material :: item.name in resolved
  }

  /** Some minted credential takes this value as its seed. */
  predicate Consumed(profile: seq<ProfileCredential>, resolved: map<string, string>, key: string) {
    exists c <- profile :: Minted(c, resolved) && Names(c.refresh.value.material, key)
  }

  function NotConsumed(profile: seq<ProfileCredential>, resolved: map<string, string>): map<string, string> {
    map k <- resolved | !Consumed(profile, resolved, k) :: resolved[k]
  }

  function OnlyMinted(profile: seq<ProfileCredential>, resolved: map<string, string>): seq<ProfileCredential> {
    if profile == [] then []
    else if Minted(profile[0], resolved) then [profile[0]] + OnlyMinted(profile[1..], resolved)
    else OnlyMinted(profile[1..], resolved)
  }

  function OnlyPartly(profile: seq<ProfileCredential>, resolved: map<string, string>): seq<ProfileCredential> {
    if profile == [] then []
    else if PartlySupplied(profile[0], resolved) then [profile[0]] + OnlyPartly(profile[1..], resolved)
    else OnlyPartly(profile[1..], resolved)
  }

  /** The plan configures exactly the minted credentials and reports exactly the partly
      supplied ones, both in profile order. */
  predicate IsPlanFor(profile: seq<ProfileCredential>, resolved: map<string, string>, plan: Plan) {
    && plan.staticCredentials == NotConsumed(profile, resolved)
    && Configures(OnlyMinted(profile, resolved), resolved, plan.refreshes)
    && Reports(OnlyPartly(profile, resolved), resolved, plan.degraded)
  }

  predicate Configures(minted: seq<ProfileCredential>, resolved: map<string, string>, refreshes: seq<PlannedRefresh>) {
    |refreshes| == |minted| && forall i :: 0 <= i < |minted| ==> ConfiguredBy(minted[i], resolved, refreshes[i])
  }

  predicate ConfiguredBy(c: ProfileCredential, resolved: map<string, string>, refresh: PlannedRefresh) {
    c.refresh.Some? && refresh.credentialKey == c.name && IsPlanOf(c.refresh.value, resolved, refresh.plan)
  }

  predicate Reports(partly: seq<ProfileCredential>, resolved: map<string, string>, degraded: seq<DegradedCredential>) {
    |degraded| == |partly| && forall i :: 0 <= i < |partly| ==> ReportedBy(partly[i], resolved, degraded[i])
  }

  predicate ReportedBy(c: ProfileCredential, resolved: map<string, string>, report: DegradedCredential) {
    c.refresh.Some? && report.credentialKey == c.name && IsMissing(c.refresh.value, resolved, report.missing)
  }

  method PlanCredentials(profile: seq<ProfileCredential>, resolved: map<string, string>) returns (plan: Plan)
    ensures IsPlanFor(profile, resolved, plan)
  {
    var refreshes: seq<PlannedRefresh>, degraded: seq<DegradedCredential>, consumed: set<string> := [], [], {};
    for i := 0 to |profile|
      invariant Configures(OnlyMinted(profile[..i], resolved), resolved, refreshes)
      invariant Reports(OnlyPartly(profile[..i], resolved), resolved, degraded)
      invariant forall k <- resolved :: k in consumed <==> Consumed(profile[..i], resolved, k)
    {
      var c := profile[i];
      OneMoreCredential(profile[..i], c, resolved);
      assert profile[..i + 1] == profile[..i] + [c];
      if c.refresh.Some? {
        var spec := c.refresh.value;
        var built := BuildRefreshMaterial(spec, resolved);
        if built.Ok? {
          if spec.strategy != AwsStsAssumeRole {
            consumed := consumed + built.value.material.Keys;
            refreshes := refreshes + [PlannedRefresh(c.name, built.value)];
          }
        } else if exists item <- spec.material :: item.name in resolved {
          degraded := degraded + [DegradedCredential(c.name, built.error)];
        }
      }
    }
    assert profile[..|profile|] == profile;
    plan := Plan(map k <- resolved | k !in consumed :: resolved[k], refreshes, degraded);
  }

  lemma {:induction false} OneMoreCredential(
      profile: seq<ProfileCredential>, c: ProfileCredential, resolved: map<string, string>)
    ensures OnlyMinted(profile + [c], resolved)
         == OnlyMinted(profile, resolved) + if Minted(c, resolved) then [c] else []
    ensures OnlyPartly(profile + [c], resolved)
         == OnlyPartly(profile, resolved) + if PartlySupplied(c, resolved) then [c] else []
    ensures forall k :: Consumed(profile + [c], resolved, k) <==>
      Consumed(profile, resolved, k) || (Minted(c, resolved) && Names(c.refresh.value.material, k))
  {
    if profile != [] {
      OneMoreCredential(profile[1..], c, resolved);
      assert (profile + [c])[1..] == profile[1..] + [c];
    } else {
      assert (profile + [c])[1..] == [];
    }
  }

  // ----- What every plan guarantees -----

  lemma {:induction false} MintedAreIn(
      profile: seq<ProfileCredential>, resolved: map<string, string>, c: ProfileCredential)
    ensures c in OnlyMinted(profile, resolved) <==> c in profile && Minted(c, resolved)
  {
    if profile != [] {
      MintedAreIn(profile[1..], resolved, c);
      assert c in profile <==> c == profile[0] || c in profile[1..];
    }
  }

  predicate IsSeed(plan: Plan, key: string) {
    exists r <- plan.refreshes :: key in r.plan.material
  }

  lemma SeedsAreConsumed(profile: seq<ProfileCredential>, resolved: map<string, string>, plan: Plan, key: string)
    requires IsPlanFor(profile, resolved, plan)
    ensures IsSeed(plan, key) <==> key in resolved && Consumed(profile, resolved, key)
  {
    var minted := OnlyMinted(profile, resolved);
    if IsSeed(plan, key) {
      var r :| r in plan.refreshes && key in r.plan.material;
      var i :| 0 <= i < |plan.refreshes| && plan.refreshes[i] == r;
      assert ConfiguredBy(minted[i], resolved, r);
      MintedAreIn(profile, resolved, minted[i]);
    }
    if key in resolved && Consumed(profile, resolved, key) {
      var c :| c in profile && Minted(c, resolved) && Names(c.refresh.value.material, key);
      MintedAreIn(profile, resolved, c);
      var i :| 0 <= i < |minted| && minted[i] == c;
      assert ConfiguredBy(minted[i], resolved, plan.refreshes[i]);
      assert plan.refreshes[i] in plan.refreshes;
    }
  }

  /** Nothing is lost, invented or changed: every selected value goes out unchanged, copied
      or as seed, and nothing else does. */
  lemma Conservation(profile: seq<ProfileCredential>, resolved: map<string, string>, plan: Plan, key: string)
    requires IsPlanFor(profile, resolved, plan)
    ensures key in resolved <==> key in plan.staticCredentials || IsSeed(plan, key)
    ensures key in plan.staticCredentials ==> plan.staticCredentials[key] == resolved[key]
    ensures forall r <- plan.refreshes ::
      key in r.plan.material ==> key in resolved && r.plan.material[key] == resolved[key]
  {
    SeedsAreConsumed(profile, resolved, plan, key);
    forall r | r in plan.refreshes && key in r.plan.material
      ensures key in resolved && r.plan.material[key] == resolved[key]
    {
      var i :| 0 <= i < |plan.refreshes| && plan.refreshes[i] == r;
      assert ConfiguredBy(OnlyMinted(profile, resolved)[i], resolved, r);
    }
  }

  /** No seed of a configured refresh is also stored as a static credential. */
  lemma Separation(profile: seq<ProfileCredential>, resolved: map<string, string>, plan: Plan, key: string)
    requires IsPlanFor(profile, resolved, plan)
    ensures !(key in plan.staticCredentials && IsSeed(plan, key))
  {
    SeedsAreConsumed(profile, resolved, plan, key);
  }

  /** Neither the copied values nor the credentials that are minted depend on the order of
      the profile. */
  lemma OrderDoesNotMatter(
    a: seq<ProfileCredential>, b: seq<ProfileCredential>, resolved: map<string, string>, plan: Plan, another: Plan)
    requires forall c :: c in a <==> c in b
    requires IsPlanFor(a, resolved, plan) && IsPlanFor(b, resolved, another)
    ensures plan.staticCredentials == another.staticCredentials
    ensures forall c :: c in OnlyMinted(a, resolved) <==> c in OnlyMinted(b, resolved)
    ensures forall key :: IsSeed(plan, key) <==> IsSeed(another, key)
  {
    assert forall key :: Consumed(a, resolved, key) <==> Consumed(b, resolved, key);
    forall c ensures c in OnlyMinted(a, resolved) <==> c in OnlyMinted(b, resolved) {
      MintedAreIn(a, resolved, c);
      MintedAreIn(b, resolved, c);
    }
    forall key ensures IsSeed(plan, key) <==> IsSeed(another, key) {
      SeedsAreConsumed(a, resolved, plan, key);
      SeedsAreConsumed(b, resolved, another, key);
    }
  }

  // ----- The mode reported in the status -----

  datatype CredentialMode = Copied | Refresh | Mixed

  function Mode(plan: Plan): CredentialMode {
    if plan.refreshes == [] then Copied
    else if plan.staticCredentials == map[] then Refresh
    else Mixed
  }

  /** What the mode says of the Secret and the profile. */
  lemma ModeMeans(profile: seq<ProfileCredential>, resolved: map<string, string>, plan: Plan)
    requires IsPlanFor(profile, resolved, plan)
    ensures Mode(plan) == Copied <==> forall c <- profile :: !Minted(c, resolved)
    ensures Mode(plan) == Refresh <==>
      (exists c <- profile :: Minted(c, resolved)) && forall key <- resolved :: Consumed(profile, resolved, key)
    ensures Mode(plan) == Copied ==> plan.staticCredentials == resolved
  {
    var minted := OnlyMinted(profile, resolved);
    if plan.refreshes != [] {
      MintedAreIn(profile, resolved, minted[0]);
      assert minted[0] in minted;
    } else {
      forall c | c in profile ensures !Minted(c, resolved) {
        MintedAreIn(profile, resolved, c);
      }
    }
    assert plan.staticCredentials == map[] <==> forall key <- resolved :: Consumed(profile, resolved, key) by {
      if plan.staticCredentials == map[] {
        forall key | key in resolved ensures Consumed(profile, resolved, key) {
          assert key !in plan.staticCredentials;
        }
      }
    }
  }

  /** A credential none of whose material is supplied is left alone exactly when it requires
      some, or is an AWS role. If all its material is optional, it is configured all the
      same, with no seed at all. */
  lemma NothingSupplied(c: ProfileCredential, resolved: map<string, string>)
    requires c.refresh.Some? && forall item <- c.refresh.value.material :: item.name !in resolved
    ensures Minted(c, resolved) <==>
      c.refresh.value.strategy != AwsStsAssumeRole && forall item <- c.refresh.value.material :: !item.required
    ensures Minted(c, resolved) ==> Seeds(c.refresh.value.material, resolved) == map[]
    ensures !PartlySupplied(c, resolved)
  {
  }

  /** Everything is copied, yet one refresh is configured, with no seed. */
  predicate MixedForNothing(plan: Plan, resolved: map<string, string>) {
    && Mode(plan) == Mixed && plan.staticCredentials == resolved
    && |plan.refreshes| == 1 && plan.refreshes[0].plan.material == map[]
  }

  /** So a Secret that has nothing to do with a credential can still be reported as mixed. */
  lemma UnusedCredentialConfigured() returns (c: ProfileCredential, resolved: map<string, string>)
    ensures c.refresh.Some? && forall item <- c.refresh.value.material :: item.name !in resolved
    ensures forall plan :: IsPlanFor([c], resolved, plan) ==> MixedForNothing(plan, resolved)
  {
    c := ProfileCredential("token", Some(RefreshSpec(Oauth2RefreshToken, [MaterialSpec("scope", false, false)])));
    resolved := map["api_key" := "k"];
    NothingSupplied(c, resolved);
    forall plan | IsPlanFor([c], resolved, plan) ensures MixedForNothing(plan, resolved) {
      MintedAreIn([c], resolved, c);
      assert OnlyMinted([c], resolved) == [c];
      assert ConfiguredBy(c, resolved, plan.refreshes[0]);
      assert !Consumed([c], resolved, "api_key");
      assert "api_key" in plan.staticCredentials;
    }
  }
}
