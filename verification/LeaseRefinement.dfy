/** What a replica's code does, attempt by attempt, is a segment of a run of the protocol, in
    which attempts are broken into actions and other replicas act in between. */
module LeaseRefinement {
  import opened Wrappers
  import opened Lease
  import opened LeaseProtocol

  /** `actions` lead from state to state, starting anywhere. */
  ghost predicate Segment(states: seq<State>, actions: seq<Action>) {
    |states| == |actions| + 1 && forall i: nat :: i < |actions| ==> StepAt(states, actions, i)
  }

  ghost predicate Leads(s: State, t: State) {
    exists states: seq<State>, actions: seq<Action> ::
      Segment(states, actions) && states[0] == s && states[|actions|] == t
  }

  lemma Begins(s: State)
    ensures Leads(s, s)
  {
    var states: seq<State>, actions: seq<Action> := [s], [];
    assert Segment(states, actions) && states[0] == s && states[|actions|] == s;
  }

  lemma Go(s: State, q: State, a: Action) returns (t: State)
    requires Leads(s, q) && Enabled(q, a)
    ensures t == Next(q, a) && Leads(s, t)
  {
    t := Next(q, a);
    var states: seq<State>, actions: seq<Action> :|
      Segment(states, actions) && states[0] == s && states[|actions|] == q;
    var states', actions' := states + [t], actions + [a];
    forall i: nat | i < |actions'| ensures StepAt(states', actions', i) {
      assert i < |actions| ==> StepAt(states, actions, i);
    }
    assert Segment(states', actions') && states'[0] == s && states'[|actions'|] == t;
  }

  lemma {:induction false} GoesAlong(s: State, states: seq<State>, actions: seq<Action>, i: nat)
    requires Segment(states, actions) && Leads(s, states[0]) && i < |states|
    ensures Leads(s, states[i])
  {
    if i > 0 {
      GoesAlong(s, states, actions, i - 1);
      assert StepAt(states, actions, i - 1);
      var t := Go(s, states[i - 1], actions[i - 1]);
    }
  }

  /** One segment after the other is a segment. */
  lemma LeadsFurther(s: State, q: State, t: State)
    requires Leads(s, q) && Leads(q, t)
    ensures Leads(s, t)
  {
    var states: seq<State>, actions: seq<Action> :|
      Segment(states, actions) && states[0] == q && states[|actions|] == t;
    GoesAlong(s, states, actions, |actions|);
  }

  /** A run goes on with any segment that starts where it ends. */
  lemma RunGoesOn(states: seq<State>, actions: seq<Action>, t: State) returns (more: seq<State>, others: seq<Action>)
    requires Run(states, actions) && Leads(states[|actions|], t)
    ensures Run(states + more, actions + others) && (states + more)[|actions| + |others|] == t
  {
    var tail: seq<State>;
    tail, others :| Segment(tail, others) && tail[0] == states[|actions|] && tail[|others|] == t;
    more := tail[1..];
    forall i: nat | i < |actions + others| ensures StepAt(states + more, actions + others, i) {
      if i < |actions| {
        assert StepAt(states, actions, i);
      } else {
        assert StepAt(tail, others, i - |actions|);
      }
    }
  }

  // ----- One attempt -----

  /** Others act, and time passes, while `p` waits: exactly these writes land. */
  ghost predicate OthersLand(s: State, t: State, p: Identity, specs: seq<LeaseSpec>) {
    && Leads(s, t) && p in s.procs && p in t.procs && t.procs[p] == s.procs[p]
    && t.c.lease == LandedAll(s.c.lease, specs)
  }

  /** How a process begins an attempt: waking, or, as its first, starting. */
  function Opening(s: State, p: Identity, stamp: Stamp): Action
    requires p in s.procs
  {
    if s.procs[p].standing.phase == Stopped then Start(p, stamp) else Wake(p, stamp)
  }

  /** What the process knows when it begins. */
  function LifeBefore(s: State, p: Identity): Life
    requires p in s.procs
  {
    if s.procs[p].standing.phase == Stopped then Life(Standing(Campaigning, 0.0), None, s.c.lease)
    else LifeOf(s, p)
  }

  function LifeOf(s: State, p: Identity): Life
    requires p in s.procs
  {
    Life(s.procs[p].standing, s.procs[p].last, s.c.lease)
  }

  predicate CanOpen(s: State, p: Identity, stamp: Stamp) {
    p in s.procs && Enabled(s, Opening(s, p, stamp))
  }

  /** The attempt has begun, and its read has been served. */
  function Opened(s: State, p: Identity, stamp: Stamp): State
    requires CanOpen(s, p, stamp)
  {
    Next(Next(s, Opening(s, p, stamp)), Serve(p))
  }

  /** The surroundings of an attempt: from `s` others act until `p` opens it in `o`, and from
      there until they have done so in `m`. */
  ghost predicate Surrounds(s: State, p: Identity, a: Attempt, o: State, m: State) {
    && OthersLand(s, o, p, a.before) && CanOpen(o, p, a.stamp)
    && OthersLand(Opened(o, p, a.stamp), m, p, a.peers)
    && m.c.now <= a.readAt <= a.endAt
  }

  function Waited(s: State, t: real): State {
    s.(c := s.c.(now := t))
  }

  /** Where the attempt ends: a failed read; or the answer, and with it no write, or one that
      is taken up unless it was never sent, and ends acknowledged, in conflict or failed. */
  function Ended(m: State, p: Identity, a: Attempt): State
    requires Live(m, p) && m.procs[p].place.Replied?
  {
    if a.readFails then Next(Waited(m, a.endAt), Fail(p))
    else
      var q := Waited(m, a.readAt);
      var w := WriteFor(p, q.procs[p], a.readAt);
      var heard := Next(q, Receive(p));
      if w.decision == Wait then heard
      else
        var sent := Waited(if a.writeFault == Failed then heard else Next(heard, TakeUp(w)), a.endAt);
        if a.writeFault != Fine then Next(sent, Fail(p))
        else if VersionOf(m.c.lease) == w.base then Next(sent, Acknowledge(p, |m.c.hist|))
        else Next(sent, Conflict(p))
  }

  /** Time passes until `t`. */
  lemma Until(s: State, q: State, t: real)
    requires Leads(s, q) && q.c.now <= t
    ensures Leads(s, Waited(q, t))
  {
    if q.c.now < t {
      var r := Go(s, q, Pass(t - q.c.now));
    } else {
      assert Waited(q, t) == q;
    }
  }

  lemma EndedIsSegment(s: State, m: State, p: Identity, a: Attempt)
    requires Leads(s, m) && Live(m, p) && m.procs[p].place.Replied? && m.c.now <= a.readAt <= a.endAt
    ensures Leads(s, Ended(m, p, a))
  {
    if a.readFails {
      Until(s, m, a.endAt);
      var t := Go(s, Waited(m, a.endAt), Fail(p));
    } else {
      Until(s, m, a.readAt);
      var q := Waited(m, a.readAt);
      var w := WriteFor(p, q.procs[p], a.readAt);
      var t := Go(s, q, Receive(p));
      if w.decision != Wait {
        if a.writeFault != Failed {
          t := Go(s, t, TakeUp(w));
        }
        Until(s, t, a.endAt);
        t := Waited(t, a.endAt);
        t := Go(s, t,
          if a.writeFault != Fine then Fail(p)
          else if VersionOf(m.c.lease) == w.base then Acknowledge(p, |m.c.hist|)
          else Conflict(p));
      }
    }
  }

  /** It ends as the code's attempt does. */
  predicate Waiting(m: State, p: Identity, a: Attempt, start: Life) {
    && Live(m, p) && m.procs[p].place.Replied? && m.procs[p].place.stamp == a.stamp
    && start.standing == m.procs[p].standing && start.last == m.procs[p].last
    && m.procs[p].place.found == LandedAll(start.lease, a.before)
    && m.c.lease == LandedAll(m.procs[p].place.found, a.peers)
  }

  lemma WriteEndsAsStep(m: State, p: Identity, a: Attempt, start: Life)
    requires Waiting(m, p, a, start) && !a.readFails
    requires Judge(p, start.last, LandedAll(start.lease, a.before), a.stamp, a.readAt).decision != Wait
    ensures var t := Ended(m, p, a);
      p in t.procs && t.procs[p].place.Sleeping? && LifeOf(t, p) == LifeStep(p, start, a)
  {
  }

  lemma EndedIsStep(m: State, p: Identity, a: Attempt, start: Life)
    requires Waiting(m, p, a, start)
    ensures var t := Ended(m, p, a);
      p in t.procs && t.procs[p].place.Sleeping? && LifeOf(t, p) == LifeStep(p, start, a)
  {
    if !a.readFails && Judge(p, start.last, LandedAll(start.lease, a.before), a.stamp, a.readAt).decision != Wait {
      WriteEndsAsStep(m, p, a, start);
    }
  }

  /** Every attempt of the code, whatever fails and whatever peers write before and during
      it, is a segment of the protocol: with the same standing, timer and lease at its end. */
  lemma AttemptIsSegment(s: State, p: Identity, a: Attempt, o: State, m: State)
    requires Surrounds(s, p, a, o, m)
    ensures var t := Ended(m, p, a);
      Leads(s, t) && p in t.procs && t.procs[p].place.Sleeping? && LifeOf(t, p) == LifeStep(p, LifeBefore(s, p), a)
  {
    var opening := Go(s, o, Opening(o, p, a.stamp));
    opening := Go(s, opening, Serve(p));
    LeadsFurther(s, opening, m);
    EndedIsSegment(s, m, p, a);
    EndedIsStep(m, p, a, LifeBefore(s, p));
  }

  // ----- One attempt after the other -----

  ghost predicate MakesAttempt(s: State, p: Identity, a: Attempt, t: State) {
    exists o, m :: Surrounds(s, p, a, o, m) && t == Ended(m, p, a)
  }

  lemma MadeAttempt(s: State, p: Identity, a: Attempt, t: State)
    requires MakesAttempt(s, p, a, t)
    ensures p in s.procs && Leads(s, t) && p in t.procs && LifeOf(t, p) == LifeStep(p, LifeBefore(s, p), a)
  {
    var o, m :| Surrounds(s, p, a, o, m) && t == Ended(m, p, a);
    AttemptIsSegment(s, p, a, o, m);
  }

  /** A process makes these attempts one after the other and is not stopped in between. */
  ghost predicate Lives(s: State, p: Identity, attempts: seq<Attempt>, t: State)
    decreases |attempts|
  {
    && p in s.procs
    && if attempts == [] then t == s
       else
         var front, a := attempts[..|attempts| - 1], attempts[|attempts| - 1];
         exists q :: Lives(s, p, front, q) && (front != [] ==> Live(q, p)) && MakesAttempt(q, p, a, t)
  }

  /** However many attempts a process makes, campaigning and leading, the protocol leads from
      where it starts to where it is, and there it stands as its code says. */
  lemma {:induction false} LifeIsSegment(s: State, p: Identity, attempts: seq<Attempt>, t: State)
    requires Lives(s, p, attempts, t) && attempts != []
    ensures Leads(s, t) && p in t.procs && LifeOf(t, p) == LifeAfter(p, LifeBefore(s, p), attempts)
    decreases |attempts|
  {
    var front, a := attempts[..|attempts| - 1], attempts[|attempts| - 1];
    var q :| Lives(s, p, front, q) && (front != [] ==> Live(q, p)) && MakesAttempt(q, p, a, t);
    MadeAttempt(q, p, a, t);
    if front != [] {
      LifeIsSegment(s, p, front, q);
      LeadsFurther(s, q, t);
    }
  }

  // ----- Peers do write in between -----

  /** While a process waits for the answer to its read, another one can win the lease and
      renew it: two writes land in between. */
  lemma PeerWritesTwice(p: Identity, peer: Identity) returns (s: State, t: State, specs: seq<LeaseSpec>)
    requires p != peer
    ensures Init(s) && CanOpen(s, p, 0) && OthersLand(Opened(s, p, 0), t, p, specs) && |specs| == 2
    ensures t.c.now == 2.0
  {
    var idle := Proc(Standing(Stopped, 0.0), Sleeping(0.0), None, 0.0, 0, 0);
    s := State(Shared(0.0, None, [], {}, {}, {}), map[p := idle, peer := idle]);
    var o := Opened(s, p, 0);
    Begins(o);
    t := PeerWrites(o, o, peer, 1);
    var first := t.c.lease.value.spec.value;
    t := Go(o, t, Pass(2.0));
    t := PeerWrites(o, t, peer, 2);
    var second := t.c.lease.value.spec.value;
    specs := [first, second];
    assert specs[1..] == [second] && [second][1..] == [];
    calc {
      LandedAll(None, specs);
      LandedAll(Landed(None, first), [second]);
      LandedAll(Landed(Landed(None, first), second), []);
    }
  }

  /** The peer, which holds the lease or finds none, makes one attempt and is acknowledged. */
  lemma PeerWrites(s: State, q: State, peer: Identity, stamp: Stamp) returns (t: State)
    requires Leads(s, q) && CanOpen(q, peer, stamp)
    requires q.c.lease.None? || (q.c.lease.value.spec.Some? && q.c.lease.value.spec.value.holder == Some(peer))
    ensures Leads(s, t) && t.c.now == q.c.now && stamp in t.c.used && t.c.used == q.c.used + {stamp}
    ensures peer in t.procs && t.procs == q.procs[peer := t.procs[peer]]
    ensures Live(t, peer) && t.procs[peer].place == Sleeping(q.c.now)
    ensures t.c.lease.Some? && t.c.lease.value.spec.Some? && t.c.lease.value.spec.value.holder == Some(peer)
    ensures t.c.lease == Landed(q.c.lease, t.c.lease.value.spec.value)
  {
    t := Go(s, q, Opening(q, peer, stamp));
    t := Go(s, t, Serve(peer));
    var w := WriteFor(peer, t.procs[peer], t.c.now);
    t := Go(s, t, Receive(peer));
    t := Go(s, t, TakeUp(w));
    t := Go(s, t, Acknowledge(peer, |q.c.hist|));
  }

  // ----- Nobody is shut out -----

  lemma {:induction false} UnusedStamp(used: set<Stamp>) returns (stamp: Stamp)
    ensures forall u <- used :: u < stamp
    decreases |used|
  {
    stamp := 0;
    if u :| u in used {
      var above := UnusedStamp(used - {u});
      stamp := if u < above then above else u + 1;
      forall v | v in used ensures v < stamp {
        assert v == u || v in used - {u};
      }
    }
  }

  /** A campaigning replica that has read the present lease, and finds it free, can lead. */
  lemma WinsFreeLease(s: State, q: State, p: Identity) returns (t: State)
    requires Leads(s, q) && Live(q, p) && q.procs[p].standing.phase == Campaigning && q.procs[p].place.Replied?
    requires q.procs[p].place.found == q.c.lease && Free(p, q.procs[p].last, q.c.lease, q.c.now)
    ensures Leads(s, t) && p in t.procs && t.procs[p].standing == Standing(Leading, q.c.now) && t.c.now == q.c.now
  {
    var w := WriteFor(p, q.procs[p], q.c.now);
    t := Go(s, q, Receive(p));
    t := Go(s, t, TakeUp(w));
    t := Go(s, t, Acknowledge(p, |q.c.hist|));
  }

  /** An attempt is begun, and its read served. */
  lemma ReadsLease(s: State, q: State, p: Identity) returns (t: State)
    requires Leads(s, q) && p in q.procs
    requires !Live(q, p) || (q.procs[p].place.Sleeping? && q.c.now >= q.procs[p].place.since + RETRY_PERIOD)
    ensures Leads(s, t) && Live(t, p) && t.c.now == q.c.now && t.c.lease == q.c.lease
    ensures t.procs[p].place.Replied? && t.procs[p].place.found == q.c.lease
    ensures if Live(q, p) then t.procs[p].standing == q.procs[p].standing && t.procs[p].last == q.procs[p].last
      else t.procs[p].standing.phase == Campaigning && t.procs[p].last == None
  {
    var stamp := UnusedStamp(q.c.used);
    t := Go(s, q, Opening(q, p, stamp));
    t := Go(s, t, Serve(p));
  }

  /** A lease that is not free yet is, if it stands unchanged, a full lease later. */
  lemma WatchesLease(s: State, q: State, p: Identity) returns (t: State)
    requires Leads(s, q) && Live(q, p) && q.procs[p].standing.phase == Campaigning && q.procs[p].place.Replied?
    requires q.procs[p].place.found == q.c.lease && q.procs[p].last == None && !Free(p, None, q.c.lease, q.c.now)
    ensures Leads(s, t) && Live(t, p) && t.procs[p].standing.phase == Campaigning && t.c.lease == q.c.lease
    ensures t.procs[p].place == Sleeping(q.c.now) && t.c.now == q.c.now + LEASE_DURATION
    ensures Free(p, t.procs[p].last, t.c.lease, t.c.now)
  {
    t := Go(s, q, Receive(p));
    assert t.procs[p].last == Some(Observation(q.c.lease.value.spec.value.renewTime, q.c.now));
    t := Go(s, t, Pass(LEASE_DURATION));
  }

  /** From every state, whatever is under way and whoever holds the lease, each process can
      come to lead: at once if it finds the lease free, or after watching it for its duration. */
  lemma AnyoneCanLead(s: State, p: Identity) returns (t: State)
    requires p in s.procs
    ensures Leads(s, t) && p in t.procs && t.procs[p].standing.phase == Leading
    ensures t.c.now <= s.c.now + LEASE_DURATION
  {
    Begins(s);
    t := s;
    if Live(s, p) {
      t := Go(s, t, Crash(p));
    }
    t := ReadsLease(s, t, p);
    if !Free(p, t.procs[p].last, t.c.lease, t.c.now) {
      t := WatchesLease(s, t, p);
      t := ReadsLease(s, t, p);
    }
    t := WinsFreeLease(s, t, p);
  }
}
