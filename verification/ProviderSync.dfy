/** Syncing one provider to the gateway: its static credentials first, then the refreshes
    the gateway is to mint. */
module ProviderSync {
  import opened Wrappers
  import opened Credentials

  datatype Profile = Profile(id: string, credentials: seq<ProfileCredential>)

  /** A provider as the gateway stores it, with the refreshes configured so far. */
  datatype Stored = Stored(
    providerType: string,
    credentials: map<string, string>,
    config: map<string, string>,
    refreshes: map<string, RefreshPlan>)

  datatype SyncError = CallFailed | NoProvider

  datatype Sent =
    | Upsert(providerType: string, credentials: map<string, string>, config: map<string, string>)
    | Configure(credentialKey: string, plan: RefreshPlan)

  function Upserted(before: Option<Stored>, call: Sent): Stored
    requires call.Upsert?
  {
    Stored(call.providerType, call.credentials, call.config, if before.Some? then before.value.refreshes else map[])
  }

  /** The calls of one sync, in order. */
  function Calls(providerType: string, config: map<string, string>, plan: Plan): seq<Sent> {
    [Upsert(providerType, plan.staticCredentials, config)]
      + seq(|plan.refreshes|, i requires 0 <= i < |plan.refreshes| =>
          Configure(plan.refreshes[i].credentialKey, plan.refreshes[i].plan))
  }

  /** What the gateway stores once a call has taken effect. */
  function After(before: Option<Stored>, call: Sent): Option<Stored> {
    if call.Upsert? then Some(Upserted(before, call))
    else if before.None? then None
    else Some(before.value.(refreshes := before.value.refreshes[call.credentialKey := call.plan]))
  }

  function AfterAll(before: Option<Stored>, calls: seq<Sent>): Option<Stored>
    decreases |calls|
  {
    if calls == [] then before else After(AfterAll(before, calls[..|calls| - 1]), calls[|calls| - 1])
  }

  lemma AfterOneMore(before: Option<Stored>, calls: seq<Sent>, i: nat)
    requires i < |calls|
    ensures AfterAll(before, calls[..i + 1]) == After(AfterAll(before, calls[..i]), calls[i])
  {
    assert calls[..i + 1][..i] == calls[..i];
  }

  /** The credentials declared for a provider type by the first profile whose id is exactly
      that; none if there is no such profile. */
  function Declared(profiles: seq<Profile>, providerType: string): seq<ProfileCredential> {
    if profiles == [] then []
    else if profiles[0].id == providerType then profiles[0].credentials
    else Declared(profiles[1..], providerType)
  }

  method FindProfile(profiles: seq<Profile>, providerType: string) returns (r: Option<Profile>)
    ensures r.None? <==> forall p <- profiles :: p.id != providerType
    ensures r.Some? ==> r.value in profiles && r.value.id == providerType
    ensures Declared(profiles, providerType) == if r.Some? then r.value.credentials else []
  {
    for i := 0 to |profiles|
      invariant forall j :: 0 <= j < i ==> profiles[j].id != providerType
      invariant Declared(profiles[i..], providerType) == Declared(profiles, providerType)
    {
      if profiles[i].id == providerType {
        return Some(profiles[i]);
      }
      assert profiles[i..][1..] == profiles[i + 1..];
    }
    return None;
  }

  /** The calls sent so far have taken effect, except perhaps the last. */
  predicate TakenUp(before: Option<Stored>, after: Option<Stored>, sent: seq<Sent>) {
    after == AfterAll(before, sent) || (sent != [] && after == AfterAll(before, sent[..|sent| - 1]))
  }

  class ProviderGateway {
    const profiles: seq<Profile>
    var stored: Option<Stored>
    var sent: seq<Sent>
    var faults: seq<Fate>
    /** How many calls have failed or gone unanswered. */
    ghost var failures: nat

    constructor (profiles: seq<Profile>, faults: seq<Fate>)
      ensures this.profiles == profiles && this.faults == faults && stored == None && sent == []
    {
      this.profiles, this.faults, stored, sent := profiles, faults, None, [];
    }

    method NextFate() returns (fate: Fate)
      modifies this`faults, this`failures
      ensures AllFine(old(faults)) ==> AllFine(faults) && fate == Fine
      ensures failures == old(failures) + if fate == Fine then 0 else 1
    {
      if faults == [] {
        return Fine;
      }
      fate, faults := faults[0], faults[1..];
      failures := failures + if fate == Fine then 0 else 1;
    }

    method Send(call: Sent) returns (r: Result<(), SyncError>)
      modifies this`stored, this`sent, this`faults, this`failures
      ensures sent == old(sent) + [call]
      ensures stored == old(stored) || stored == After(old(stored), call)
      ensures r.Ok? ==> stored == After(old(stored), call)
      ensures AllFine(old(faults)) ==> AllFine(faults) && (r.Ok? <==> call.Upsert? || old(stored).Some?)
      ensures r.Ok? ==> failures == old(failures)
    {
      sent := sent + [call];
      var fate := NextFate();
      if call.Configure? && stored.None? {
        return Err(NoProvider);
      }
      if fate != Failed {
        stored := After(stored, call);
      }
      r := if fate == Fine then Ok(()) else Err(CallFailed);
    }

    /** The calls go out in order until one fails; the gateway has taken up all but perhaps
        the last. */
    method SyncToGateway(providerType: string, credentials: map<string, string>, config: map<string, string>)
      returns (r: Result<(), SyncError>, plan: Option<Plan>)
      modifies this`stored, this`sent, this`faults, this`failures
      ensures plan.None? ==> r.Err? && sent == [] && stored == old(stored)
      ensures plan.Some? ==>
        && IsPlanFor(Declared(profiles, providerType), credentials, plan.value)
        && sent <= Calls(providerType, config, plan.value) && TakenUp(old(stored), stored, sent)
      ensures r.Ok? ==>
        plan.Some? && sent == Calls(providerType, config, plan.value) && stored == AfterAll(old(stored), sent)
      ensures AllFine(old(faults)) ==> r.Ok?
      ensures r.Ok? ==> failures == old(failures)
    {
      sent := [];
      var listed := NextFate();
      if listed != Fine {
        return Err(CallFailed), None;
      }
      var profile := FindProfile(profiles, providerType);
      var declared := if profile.Some? then profile.value.credentials else [];
      var p := PlanCredentials(declared, credentials);
      r := SendAll(providerType, config, p);
      plan := Some(p);
    }

    /** The upsert, and then the configures. */
    method SendAll(providerType: string, config: map<string, string>, plan: Plan) returns (r: Result<(), SyncError>)
      requires sent == []
      modifies this`stored, this`sent, this`faults, this`failures
      ensures sent <= Calls(providerType, config, plan)
      ensures TakenUp(old(stored), stored, sent)
      ensures r.Ok? ==> sent == Calls(providerType, config, plan) && stored == AfterAll(old(stored), sent)
      ensures AllFine(old(faults)) ==> r.Ok?
      ensures r.Ok? ==> failures == old(failures)
    {
      ghost var calls := Calls(providerType, config, plan);
      r := Send(Upsert(providerType, plan.staticCredentials, config));
      assert sent == [calls[0]] == calls[..1] && sent[..0] == [];
      if r.Err? {
        return;
      }
      for i := 0 to |plan.refreshes|
        invariant failures == old(failures)
        invariant sent == calls[..i + 1]
        invariant stored.Some? && stored == AfterAll(old(stored), sent)
        invariant AllFine(old(faults)) ==> AllFine(faults)
      {
        var refresh := plan.refreshes[i];
        var next := Configure(refresh.credentialKey, refresh.plan);
        AfterOneMore(old(stored), sent + [next], |sent|);
        SentOneMore(sent, next);
        r := Send(next);
        assert calls[..i + 2] == calls[..i + 1] + [next];
        if r.Err? {
          return;
        }
      }
      assert calls[..|calls|] == calls;
      return Ok(());
    }
  }

  lemma SentOneMore(sent: seq<Sent>, next: Sent)
    ensures (sent + [next])[..|sent|] == sent && (sent + [next])[..|sent| + 1] == sent + [next]
  {
  }

  // ----- What the gateway is left with -----

  /** The plan recorded last under a credential name. */
  function Configured(refreshes: seq<PlannedRefresh>, before: map<string, RefreshPlan>): map<string, RefreshPlan>
    decreases |refreshes|
  {
    if refreshes == [] then before
    else
      var last := refreshes[|refreshes| - 1];
      Configured(refreshes[..|refreshes| - 1], before)[last.credentialKey := last.plan]
  }

  lemma {:induction false} AfterConfigures(
      before: Option<Stored>, providerType: string, config: map<string, string>, plan: Plan, n: nat)
    requires n <= |plan.refreshes|
    ensures AfterAll(before, Calls(providerType, config, plan)[..n + 1]) == Some(Stored(
      providerType, plan.staticCredentials, config,
      Configured(plan.refreshes[..n], if before.Some? then before.value.refreshes else map[])))
  {
    var calls := Calls(providerType, config, plan);
    AfterOneMore(before, calls, n);
    if n > 0 {
      AfterConfigures(before, providerType, config, plan, n - 1);
      assert plan.refreshes[..n][..n - 1] == plan.refreshes[..n - 1];
    }
  }

  /** Wherever a sync stops, the gateway's static credentials are those it had or the plan's,
      and no call of it sends the seed of a planned refresh as a static credential. */
  lemma NoSeedStored(
    before: Option<Stored>, providerType: string, config: map<string, string>, profile: seq<ProfileCredential>,
    resolved: map<string, string>, plan: Plan, n: nat)
    requires IsPlanFor(profile, resolved, plan) && n <= |Calls(providerType, config, plan)|
    ensures var calls := Calls(providerType, config, plan);
      var after := AfterAll(before, calls[..n]);
      && (forall call <- calls :: call.Upsert? ==> forall key <- call.credentials :: !IsSeed(plan, key))
      && (n == 0 ==> after == before)
      && (n > 0 ==> after.Some? && after.value.credentials == plan.staticCredentials)
      && (n > 0 ==> forall key <- after.value.credentials :: !IsSeed(plan, key))
  {
    var calls := Calls(providerType, config, plan);
    if n > 0 {
      AfterConfigures(before, providerType, config, plan, n - 1);
    }
    forall key | key in plan.staticCredentials ensures !IsSeed(plan, key) {
      Separation(profile, resolved, plan, key);
    }
    forall call | call in calls && call.Upsert? ensures call == calls[0] {
    }
  }

  /** A sync that runs to its end undoes whatever earlier ones left half done: what it
      stores does not depend on how far they got. */
  lemma SyncConverges(
    before: Option<Stored>, providerType: string, config: map<string, string>, plan: Plan, n: nat)
    requires n <= |Calls(providerType, config, plan)|
    ensures var calls := Calls(providerType, config, plan);
      AfterAll(AfterAll(before, calls[..n]), calls) == AfterAll(before, calls)
  {
    var calls := Calls(providerType, config, plan);
    var k := |plan.refreshes|;
    assert calls[..k + 1] == calls && plan.refreshes[..k] == plan.refreshes;
    AfterConfigures(before, providerType, config, plan, k);
    if n == 0 {
      assert calls[..0] == [];
    } else {
      AfterConfigures(before, providerType, config, plan, n - 1);
      var start := if before.Some? then before.value.refreshes else map[];
      AfterConfigures(AfterAll(before, calls[..n]), providerType, config, plan, k);
      ConfiguredTwice(plan.refreshes, start, n - 1);
    }
  }

  predicate SameAt(a: map<string, RefreshPlan>, b: map<string, RefreshPlan>, key: string) {
    (key in a <==> key in b) && (key in a ==> a[key] == b[key])
  }

  lemma {:induction false} ConfiguredAt(
      refreshes: seq<PlannedRefresh>, before: map<string, RefreshPlan>, after: map<string, RefreshPlan>, key: string)
    requires SameAt(before, after, key) || exists r <- refreshes :: r.credentialKey == key
    ensures SameAt(Configured(refreshes, before), Configured(refreshes, after), key)
    decreases |refreshes|
  {
    if refreshes != [] {
      var last := refreshes[|refreshes| - 1];
      if last.credentialKey != key {
        ConfiguredAt(refreshes[..|refreshes| - 1], before, after, key);
      }
    }
  }

  lemma {:induction false} OnlyThoseChange(
      refreshes: seq<PlannedRefresh>, before: map<string, RefreshPlan>, key: string)
    requires forall r <- refreshes :: r.credentialKey != key
    ensures SameAt(Configured(refreshes, before), before, key)
    decreases |refreshes|
  {
    if refreshes != [] {
      OnlyThoseChange(refreshes[..|refreshes| - 1], before, key);
    }
  }

  lemma ConfiguredTwice(refreshes: seq<PlannedRefresh>, before: map<string, RefreshPlan>, n: nat)
    requires n <= |refreshes|
    ensures Configured(refreshes, Configured(refreshes[..n], before)) == Configured(refreshes, before)
  {
    var half := Configured(refreshes[..n], before);
    var a, b := Configured(refreshes, half), Configured(refreshes, before);
    forall key ensures (key in a <==> key in b) && (key in a ==> a[key] == b[key]) {
      if forall r <- refreshes :: r.credentialKey != key {
        OnlyThoseChange(refreshes[..n], before, key);
      }
      ConfiguredAt(refreshes, half, before, key);
    }
    assert a.Keys == b.Keys;
  }
}
