/** One replica's side of the leader election: the decision it takes on a lease, the
    timer behind it, one acquire-or-renew attempt, and the two loops that use it.

    The API server is a small class. Whatever happens outside this replica is an
    argument: which calls fail, what peers write between our read and our write, and
    what the clocks say. */
module Lease {
  import opened Wrappers

  type Identity = string

  /** A wall-clock reading. Clocks are skewed, so stamps are only compared for equality. */
  type Stamp = int

  /** Seconds a lease stays valid without a renewal, and seconds between two attempts. */
  const LEASE_DURATION: real := 15.0
  const RETRY_PERIOD: real := 2.0

  datatype LeaseSpec = LeaseSpec(
    holder: Option<Identity>,
    durationSeconds: Option<int>,
    acquireTime: Option<Stamp>,
    renewTime: Option<Stamp>,
    transitions: Option<int>)

  const NO_SPEC := LeaseSpec(None, None, None, None, None)

  /** The stored object. The version counts the writes that ever landed on it. */
  datatype LeaseObject = LeaseObject(version: nat, spec: Option<LeaseSpec>)

  datatype Decision = Renew | Acquire | Wait

  function Decide(holder: Option<Identity>, me: Identity, unchangedFor: Option<real>): Decision {
    if holder == Some(me) then Renew
    else if holder.None? then Acquire
    else if unchangedFor.Some? && unchangedFor.value >= LEASE_DURATION then Acquire
    else Wait
  }

  /** Which renewTime was read last, and when this process first saw that value. */
  datatype Observation = Observation(renewTime: Option<Stamp>, firstSeen: real)

  function Observed(last: Option<Observation>, renewTime: Option<Stamp>, now: real): Option<Observation> {
    if last.Some? && last.value.renewTime == renewTime then last else Some(Observation(renewTime, now))
  }

  function UnchangedFor(last: Option<Observation>, renewTime: Option<Stamp>, now: real): Option<real> {
    if last.Some? && last.value.renewTime == renewTime then Some(now - last.value.firstSeen) else None
  }

  class Tracker {
    var last: Option<Observation>

    constructor ()
      ensures last == None
    {
      last := None;
    }

    method Observe(renewTime: Option<Stamp>, now: real) returns (unchangedFor: Option<real>)
      modifies this
      ensures last == Observed(old(last), renewTime, now)
      ensures unchangedFor == UnchangedFor(old(last), renewTime, now)
    {
      match last {
        case Some(prev) =>
          if prev.renewTime == renewTime {
            return Some(now - prev.firstSeen);
          }
        case None =>
      }
      last := Some(Observation(renewTime, now));
      return None;
    }
  }

  function RenewedSpec(prior: LeaseSpec, me: Identity, now: Stamp, transition: bool): LeaseSpec {
    var transitions := (if prior.transitions.Some? then prior.transitions.value else 0)
                       + (if transition then 1 else 0);
    var acquireTime := if transition || prior.acquireTime.None? then Some(now) else prior.acquireTime;
    LeaseSpec(Some(me), Some(15), acquireTime, Some(now), Some(transitions))
  }

  function SpecOf(found: LeaseObject): LeaseSpec {
    if found.spec.Some? then found.spec.value else NO_SPEC
  }

  function VersionOf(lease: Option<LeaseObject>): nat {
    if lease.Some? then lease.value.version else 0
  }

  /** What a replica that has just read `found` does with it: nothing (`Wait`), or write
      `spec` on condition that the version it read is still current. */
  datatype Verdict = Verdict(decision: Decision, spec: LeaseSpec)

  function Judge(
      me: Identity, last: Option<Observation>, found: Option<LeaseObject>, stamp: Stamp, now: real): Verdict
  {
    if found.None? then
      Verdict(Acquire, RenewedSpec(NO_SPEC, me, stamp, true))
    else
      var spec := SpecOf(found.value);
      var decision := Decide(spec.holder, me, UnchangedFor(last, spec.renewTime, now));
      Verdict(decision, RenewedSpec(spec, me, stamp, decision == Acquire))
  }

  function Tracked(last: Option<Observation>, found: Option<LeaseObject>, now: real): Option<Observation> {
    if found.None? then last else Observed(last, SpecOf(found.value).renewTime, now)
  }

  datatype StepError = CallFailed

  /** The API server: get, create and replace with optimistic concurrency. */
  class LeaseServer {
    var lease: Option<LeaseObject>

    /** Another replica's write lands. */
    method Land(spec: LeaseSpec)
      modifies this
      ensures lease == Landed(old(lease), spec)
    {
      lease := Some(LeaseObject(VersionOf(lease) + 1, Some(spec)));
    }

    /** `version` 0 is a create. `Ok(false)` is a 409. */
    method Write(version: nat, spec: LeaseSpec, fault: Fate) returns (answer: Result<bool, StepError>)
      modifies this
      ensures var lands := fault != Failed && VersionOf(old(lease)) == version;
        lease == if lands then Landed(old(lease), spec) else old(lease)
      ensures answer == if fault == Fine then Ok(VersionOf(old(lease)) == version) else Err(CallFailed)
    {
      if fault == Failed {
        return Err(CallFailed);
      }
      var current := VersionOf(lease) == version;
      if current {
        lease := Some(LeaseObject(version + 1, Some(spec)));
      }
      answer := if fault == Fine then Ok(current) else Err(CallFailed);
    }
  }

  function Landed(lease: Option<LeaseObject>, spec: LeaseSpec): Option<LeaseObject> {
    Some(LeaseObject(VersionOf(lease) + 1, Some(spec)))
  }

  function LandedAll(lease: Option<LeaseObject>, specs: seq<LeaseSpec>): Option<LeaseObject>
    decreases |specs|
  {
    if specs == [] then lease else LandedAll(Landed(lease, specs[0]), specs[1..])
  }

  /** Everything one attempt meets: its wall-clock stamp, the clock when the read returns
      and when the attempt ends, a failing read, the peers' writes before the read and
      between read and write, and a failing write. */
  datatype Attempt = Attempt(
    stamp: Stamp, readAt: real, endAt: real, readFails: bool,
    before: seq<LeaseSpec>, peers: seq<LeaseSpec>, writeFault: Fate)

  datatype StepResult = StepResult(
    outcome: Result<Decision, StepError>, last: Option<Observation>, lease: Option<LeaseObject>)

  function StepSpec(me: Identity, last: Option<Observation>, start: Option<LeaseObject>, a: Attempt): StepResult {
    var lease := LandedAll(start, a.before);
    if a.readFails then
      StepResult(Err(CallFailed), last, LandedAll(lease, a.peers))
    else
      var verdict := Judge(me, last, lease, a.stamp, a.readAt);
      var last' := Tracked(last, lease, a.readAt);
      var between := LandedAll(lease, a.peers);
      if verdict.decision == Wait then
        StepResult(Ok(Wait), last', between)
      else
        var current := VersionOf(between) == VersionOf(lease);
        var after := if a.writeFault != Failed && current then Landed(between, verdict.spec) else between;
        var outcome :=
          if a.writeFault != Fine then Err(CallFailed) else if current then Ok(verdict.decision) else Ok(Wait);
        StepResult(outcome, last', after)
  }

  /** `Stopped` is the exited process: its controllers are gone. */
  datatype Phase = Campaigning | Leading | Stopped

  datatype Standing = Standing(phase: Phase, lastRenewed: real)

  /** What one finished attempt does to a replica's standing. */
  function AfterStep(standing: Standing, outcome: Result<Decision, StepError>, now: real): Standing {
    match standing.phase
    case Campaigning =>
      if outcome == Ok(Renew) || outcome == Ok(Acquire) then Standing(Leading, now) else standing
    case Leading =>
      if outcome == Ok(Renew) || outcome == Ok(Acquire) then Standing(Leading, now)
      else if outcome == Ok(Wait) then standing.(phase := Stopped)
      else if now - standing.lastRenewed >= LEASE_DURATION then standing.(phase := Stopped)
      else standing
    case Stopped => standing
  }

  datatype Life = Life(standing: Standing, last: Option<Observation>, lease: Option<LeaseObject>)

  function LifeStep(me: Identity, life: Life, a: Attempt): Life {
    var r := StepSpec(me, life.last, life.lease, a);
    Life(AfterStep(life.standing, r.outcome, a.endAt), r.last, r.lease)
  }

  function LifeAfter(me: Identity, life: Life, attempts: seq<Attempt>): Life
    decreases |attempts|
  {
    if attempts == [] then life
    else LifeStep(me, LifeAfter(me, life, attempts[..|attempts| - 1]), attempts[|attempts| - 1])
  }

  ghost predicate InPhase(me: Identity, start: Life, attempts: seq<Attempt>, phase: Phase) {
    forall i :: 0 <= i < |attempts| ==> LifeAfter(me, start, attempts[..i]).standing.phase == phase
  }

  lemma OneMore(me: Identity, start: Life, attempts: seq<Attempt>, used: nat, phase: Phase)
    requires used < |attempts|
    requires InPhase(me, start, attempts[..used], phase)
    requires LifeAfter(me, start, attempts[..used]).standing.phase == phase
    ensures LifeAfter(me, start, attempts[..used + 1])
         == LifeStep(me, LifeAfter(me, start, attempts[..used]), attempts[used])
    ensures InPhase(me, start, attempts[..used + 1], phase)
  {
    var next := attempts[..used + 1];
    assert next[..used] == attempts[..used];
    forall i | 0 <= i < |next| ensures LifeAfter(me, start, next[..i]).standing.phase == phase {
      assert i < used ==> next[..i] == attempts[..used][..i];
    }
  }

  // ----- What an attempt comes to -----

  /** Nothing fails, and no peer writes between the read and the write. */
  predicate Clean(a: Attempt) {
    !a.readFails && a.writeFault == Fine && a.peers == []
  }

  /** The lease is absent, unheld or our own, or has stood unchanged for a full lease since
      we first saw it so. */
  predicate Free(me: Identity, last: Option<Observation>, lease: Option<LeaseObject>, now: real) {
    || lease.None? || lease.value.spec.None?
    || lease.value.spec.value.holder in {None, Some(me)}
    || (last.Some? && last.value.renewTime == lease.value.spec.value.renewTime
        && now - last.value.firstSeen >= LEASE_DURATION)
  }

  /** The lease an attempt reads is free. */
  predicate FindsFree(me: Identity, last: Option<Observation>, start: Option<LeaseObject>, a: Attempt) {
    Free(me, last, LandedAll(start, a.before), a.readAt)
  }

  lemma {:induction false} LandedVersion(lease: Option<LeaseObject>, specs: seq<LeaseSpec>)
    ensures VersionOf(LandedAll(lease, specs)) == VersionOf(lease) + |specs|
    decreases |specs|
  {
    if specs != [] {
      LandedVersion(Landed(lease, specs[0]), specs[1..]);
    }
  }

  /** A campaigning replica leads after a clean attempt on a free lease, counting from its
      end, and after no other. */
  lemma CampaigningAttempt(me: Identity, life: Life, a: Attempt)
    requires life.standing.phase == Campaigning
    ensures LifeStep(me, life, a).standing ==
      if Clean(a) && FindsFree(me, life.last, life.lease, a) then Standing(Leading, a.endAt) else life.standing
  {
    LandedVersion(LandedAll(life.lease, a.before), a.peers);
  }

  /** A leading replica goes on after such an attempt. It stops at once if it reads a lease
      that is not free, or is told that a peer wrote first; after a call that failed, or whose
      answer was lost, exactly if its last renewal is a full lease ago. */
  lemma LeadingAttempt(me: Identity, life: Life, a: Attempt)
    requires life.standing.phase == Leading
    ensures var free := FindsFree(me, life.last, life.lease, a);
      var beaten := !a.readFails && (!free || (a.writeFault == Fine && a.peers != []));
      LifeStep(me, life, a).standing ==
        if Clean(a) && free then Standing(Leading, a.endAt)
        else if beaten || a.endAt - life.standing.lastRenewed >= LEASE_DURATION then
          Standing(Stopped, life.standing.lastRenewed)
        else life.standing
  {
    LandedVersion(LandedAll(life.lease, a.before), a.peers);
  }

  function CountOf(transitions: Option<int>): int {
    if transitions.Some? then transitions.value else 0
  }

  /** What such an attempt leaves in the lease, whoever wrote it before: our name, the stamp
      as time of renewal, the duration; and, unless it was ours already, one more change of
      holder, and the stamp as start of the tenure. */
  lemma CleanAttemptWrites(me: Identity, life: Life, a: Attempt)
    requires life.standing.phase != Stopped && Clean(a) && FindsFree(me, life.last, life.lease, a)
    ensures var found, lease := LandedAll(life.lease, a.before), LifeStep(me, life, a).lease;
      && lease.Some? && lease.value.spec.Some?
      && var prior := if found.Some? && found.value.spec.Some? then found.value.spec.value else NO_SPEC;
         var spec, own := lease.value.spec.value, prior.holder == Some(me);
         && spec.holder == Some(me) && spec.renewTime == Some(a.stamp)
         && spec.durationSeconds.Some? && spec.durationSeconds.value as real == LEASE_DURATION
         && spec.transitions == Some(CountOf(prior.transitions) + if own then 0 else 1)
         && spec.acquireTime == if own && prior.acquireTime.Some? then prior.acquireTime else Some(a.stamp)
  {
    LandedVersion(LandedAll(life.lease, a.before), a.peers);
  }

  /** What it has read sets the timer: a stamp seen before keeps it running, another one, or
      a lease first seen, starts it anew. */
  lemma AttemptSetsTimer(me: Identity, life: Life, a: Attempt)
    ensures var found, last := LandedAll(life.lease, a.before), LifeStep(me, life, a).last;
      if a.readFails || found.None? then last == life.last
      else
        var stamp := if found.value.spec.Some? then found.value.spec.value.renewTime else None;
        && last.Some? && last.value.renewTime == stamp
        && last.value.firstSeen ==
           if life.last.Some? && life.last.value.renewTime == stamp then life.last.value.firstSeen else a.readAt
  {
  }

  class Elector {
    const me: Identity
    const tracker: Tracker
    const server: LeaseServer

    constructor (me: Identity, server: LeaseServer)
      ensures this.me == me && this.server == server && fresh(tracker) && tracker.last == None
    {
      this.me := me;
      this.server := server;
      this.tracker := new Tracker();
    }

    ghost function State(standing: Standing): Life
      reads tracker, server
    {
      Life(standing, tracker.last, server.lease)
    }

    method Step(a: Attempt) returns (outcome: Result<Decision, StepError>)
      modifies tracker, server
      ensures StepResult(outcome, tracker.last, server.lease)
           == StepSpec(me, old(tracker.last), old(server.lease), a)
    {
      PeersWrite(a.before);
      if a.readFails {
        PeersWrite(a.peers);
        return Err(CallFailed);
      }
      var found := server.lease;
      var decision, spec := Acquire, RenewedSpec(NO_SPEC, me, a.stamp, true);
      if found.Some? {
        var prior := SpecOf(found.value);
        var unchangedFor := tracker.Observe(prior.renewTime, a.readAt);
        decision := Decide(prior.holder, me, unchangedFor);
        spec := RenewedSpec(prior, me, a.stamp, decision == Acquire);
      }
      PeersWrite(a.peers);
      if decision == Wait {
        return Ok(Wait);
      }
      var answer := server.Write(VersionOf(found), spec, a.writeFault);
      outcome := match answer
        case Ok(true) => Ok(decision)
        case Ok(false) => Ok(Wait)
        case Err(e) => Err(e);
    }

    method PeersWrite(specs: seq<LeaseSpec>)
      modifies server
      ensures server.lease == LandedAll(old(server.lease), specs)
    {
      ghost var start := server.lease;
      var i := 0;
      while i < |specs|
        invariant 0 <= i <= |specs|
        invariant LandedAll(server.lease, specs[i..]) == LandedAll(start, specs)
      {
        assert specs[i..][1..] == specs[i + 1..];
        server.Land(specs[i]);
        i := i + 1;
      }
    }

    /** Retry until this replica holds the lease, or the attempts at hand run out. */
    method Campaign(attempts: seq<Attempt>) returns (standing: Standing, used: nat)
      modifies tracker, server
      ensures used <= |attempts|
      ensures State(standing) == LifeAfter(me, old(State(Standing(Campaigning, 0.0))), attempts[..used])
      ensures standing.phase == Leading || (standing.phase == Campaigning && used == |attempts|)
      ensures InPhase(me, old(State(Standing(Campaigning, 0.0))), attempts[..used], Campaigning)
      ensures
        attempts != [] && Clean(attempts[0]) && FindsFree(me, old(tracker.last), old(server.lease), attempts[0]) ==>
          standing == Standing(Leading, attempts[0].endAt) && used == 1
    {
      ghost var start := State(Standing(Campaigning, 0.0));
      standing, used := Standing(Campaigning, 0.0), 0;
      while used < |attempts|
        invariant 0 <= used <= |attempts|
        invariant standing == Standing(Campaigning, 0.0)
        invariant State(standing) == LifeAfter(me, start, attempts[..used])
        invariant InPhase(me, start, attempts[..used], Campaigning)
        invariant used == 0 ==> State(standing) == start
        invariant used > 0 ==> !(Clean(attempts[0]) && FindsFree(me, start.last, start.lease, attempts[0]))
      {
        ghost var before := State(standing);
        var outcome := Step(attempts[used]);
        OneMore(me, start, attempts, used, Campaigning);
        CampaigningAttempt(me, before, attempts[used]);
        used := used + 1;
        if outcome == Ok(Renew) || outcome == Ok(Acquire) {
          return Standing(Leading, attempts[used - 1].endAt), used;
        }
      }
    }

    /** Renew until leadership is lost, or the attempts at hand run out. */
    method KeepLeadership(since: real, attempts: seq<Attempt>) returns (standing: Standing, used: nat)
      modifies tracker, server
      ensures used <= |attempts|
      ensures State(standing) == LifeAfter(me, old(State(Standing(Leading, since))), attempts[..used])
      ensures standing.phase == Stopped || (standing.phase == Leading && used == |attempts|)
      ensures InPhase(me, old(State(Standing(Leading, since))), attempts[..used], Leading)
    {
      ghost var start := State(Standing(Leading, since));
      var lastRenewed := since;
      used := 0;
      while used < |attempts|
        invariant 0 <= used <= |attempts|
        invariant State(Standing(Leading, lastRenewed)) == LifeAfter(me, start, attempts[..used])
        invariant InPhase(me, start, attempts[..used], Leading)
      {
        var a := attempts[used];
        var outcome := Step(a);
        OneMore(me, start, attempts, used, Leading);
        used := used + 1;
        ghost var after := AfterStep(Standing(Leading, lastRenewed), outcome, a.endAt);
        if outcome == Ok(Wait) || (outcome.Err? && a.endAt - lastRenewed >= LEASE_DURATION) {
          return Standing(Stopped, lastRenewed), used;
        }
        if outcome.Ok? {
          lastRenewed := a.endAt;
        }
        assert after == Standing(Leading, lastRenewed);
      }
      return Standing(Leading, lastRenewed), used;
    }
  }
}
