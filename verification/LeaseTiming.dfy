/** Real-time bounds, for runs in which every attempt takes at most `l` seconds and a
    sleeping loop wakes after exactly RETRY_PERIOD. */
module LeaseTiming {
  import opened Wrappers
  import opened Lease
  import opened LeaseProtocol
  import opened LeaseSafety

  ghost predicate OnTime(now: real, place: Place, l: real) {
    now <= place.since + if place.Sleeping? then RETRY_PERIOD else l
  }

  ghost predicate Timely(s: State, l: real) {
    forall p <- s.procs :: s.procs[p].standing.phase != Stopped ==> OnTime(s.c.now, s.procs[p].place, l)
  }

  ghost predicate TimelyRun(states: seq<State>, actions: seq<Action>, l: real) {
    && Run(states, actions) && l > 0.0
    && forall s <- states :: Timely(s, l)
  }

  // ----- A displaced leader -----

  ghost predicate BeganBefore(place: Place, t: real) {
    if place.Sleeping? then place.since < t else place.since < t + RETRY_PERIOD
  }

  /** The last acknowledged renewal is recent by the leader's own clock, and if a peer has
      taken over, the current sleep or attempt began shortly after that at the latest. */
  ghost predicate OverlapOk(c: Shared, p: Identity, q: Proc, l: real) {
    q.standing.phase == Leading ==>
      && q.lastAck < |c.hist|
      && q.standing.lastRenewed <= c.hist[q.lastAck].at + l
      && forall k: nat :: DisplacedAt(c.hist, p, k) ==> BeganBefore(q.place, c.hist[k + 1].at + l)
  }

  /** A peer's takeover lands a full lease after everything the displaced replica wrote. */
  lemma DisplacedLate(c: Shared, p: Identity, k: nat, i: nat)
    requires HistOk(c) && DisplacedAt(c.hist, p, k) && i < |c.hist| && c.hist[i].write.author == p
    ensures c.hist[k + 1].at >= c.hist[i].at + LEASE_DURATION
  {
    assert Writer(c.hist, i) == p && Writer(c.hist, k + 1) != p;
    assert ChangesHolder(c.hist, k + 1);
    if i < k {
      assert InOrder(c.hist, i, k);
    }
  }

  lemma LandKeepsOverlap(c: Shared, w: Write, p: Identity, q: Proc, l: real)
    requires Lands(c, w) && l > 0.0 && q.place.since <= c.now
    requires OverlapOk(c, p, q, l)
    ensures OverlapOk(TakenUp(c, w), p, q, l)
  {
    var d := TakenUp(c, w);
    forall k: nat | q.standing.phase == Leading && DisplacedAt(d.hist, p, k)
      ensures BeganBefore(q.place, d.hist[k + 1].at + l)
    {
      if k + 1 < |c.hist| {
        forall j | k < j < |c.hist| ensures Writer(c.hist, j) != p {
          assert Writer(d.hist, j) != p;
        }
        assert Writer(d.hist, k) == p;
        assert DisplacedAt(c.hist, p, k);
      }
    }
  }

  lemma AcknowledgeInTime(c: Shared, p: Identity, q: Proc, i: nat, l: real)
    requires HistOk(c) && ProcOk(c, p, q) && q.standing.phase != Stopped && q.place.Writing?
    requires OnTime(c.now, q.place, l)
    requires i < |c.hist| && c.hist[i].write == q.place.write && q.cleanSince <= c.now
    ensures TimeOk(c, p, Acknowledged(q, i, c.now), l)
  {
    assert LandedOk(c.hist, c.now, i);
    forall k: nat | DisplacedAt(c.hist, p, k) ensures c.now < c.hist[k + 1].at + l {
      DisplacedLate(c, p, k, i);
    }
  }

  /** A failed attempt of a leader that goes on leading came early enough. */
  lemma FailInTime(c: Shared, p: Identity, q: Proc, l: real)
    requires HistOk(c) && ProcOk(c, p, q) && OverlapOk(c, p, q, l) && q.standing.phase != Stopped && l > 0.0
    ensures TimeOk(c, p, Finish(q.(cleanSince := c.now), Err(CallFailed), c.now), l)
  {
    if q.standing.phase == Leading && c.now - q.standing.lastRenewed < LEASE_DURATION {
      forall k: nat | DisplacedAt(c.hist, p, k) ensures c.now < c.hist[k + 1].at + l {
        DisplacedLate(c, p, k, q.lastAck);
      }
    }
  }

  // ----- A standby -----

  /** Since when nothing but the clock stands between the standby and a takeover: the last
      landed write, or its own start or last failed attempt. */
  function Base(c: Shared, q: Proc): real {
    if c.hist == [] || c.hist[|c.hist| - 1].at < q.cleanSince then q.cleanSince else c.hist[|c.hist| - 1].at
  }

  ghost predicate WatchesLast(c: Shared, q: Proc) {
    c.hist != [] && Watches(c.hist, q.last, |c.hist| - 1)
  }

  /** How late the current sleep or attempt of a standby can have begun. */
  ghost predicate StandbyOk(c: Shared, p: Identity, q: Proc, l: real) {
    q.standing.phase == Campaigning && !Holds(c.hist, p) ==>
      var base := Base(c, q);
      var slack := if q.place.Sleeping? then l else l + RETRY_PERIOD;
      && (WatchesLast(c, q) ==> q.last.value.firstSeen <= base + RETRY_PERIOD + 2.0 * l)
      && (q.place.since <= base + slack
          || (WatchesLast(c, q) && q.place.since < q.last.value.firstSeen + LEASE_DURATION + slack))
  }

  lemma LandKeepsStandby(c: Shared, w: Write, p: Identity, q: Proc, l: real)
    requires Lands(c, w) && l > 0.0 && TimerOk(c.hist, c.now, q.last)
    requires q.place.since <= c.now && q.cleanSince <= c.now
    ensures StandbyOk(TakenUp(c, w), p, q, l)
  {
  }

  /** An answer that was stale when it arrived belongs to an attempt begun before the last
      landed write. */
  lemma StaleIsEarly(c: Shared, q: Proc, v: nat)
    requires HistOk(c) && v < |c.hist| && q.place.since <= c.hist[v].at
    ensures q.place.since <= Base(c, q)
  {
    if v < |c.hist| - 1 {
      assert InOrder(c.hist, v, |c.hist| - 1);
    }
  }

  /** What the answer to a read of version `v` does to the timer and to the decision. */
  ghost predicate Informs(c: Shared, p: Identity, q: Proc, v: nat) {
    && v <= |c.hist| && q.place.Replied?
    && var q' := Heard(p, q, c.now);
       && (v < |c.hist| ==> !WatchesLast(c, q'))
       && (0 < v == |c.hist| ==> WatchesLast(c, q'))
       && (0 < v == |c.hist| ==>
             q'.last.value.firstSeen == if WatchesLast(c, q) then q.last.value.firstSeen else c.now)
       && (0 < v == |c.hist| && !Holds(c.hist, p) ==>
             (WriteFor(p, q, c.now).decision == Wait <==>
               !WatchesLast(c, q) || c.now - q.last.value.firstSeen < LEASE_DURATION))
  }

  lemma ReadingInforms(c: Shared, p: Identity, q: Proc)
    requires Hears(c, p, q)
    ensures Informs(c, p, q, VersionOf(q.place.found))
  {
    ReadingSetsTimer(c, p, q);
    var v := VersionOf(q.place.found);
    if v > 0 {
      SpecAt(c, v);
    }
  }

  lemma HeardStandby(c: Shared, p: Identity, q: Proc, l: real)
    requires l > 0.0 && OnTime(c.now, q.place, l) && StandbyOk(c, p, q, l) && q.place.since <= c.now
    requires q.place.Replied? && Informs(c, p, q, VersionOf(q.place.found))
    requires VersionOf(q.place.found) < |c.hist| ==> q.place.since <= Base(c, q)
    requires q.place.found.Some? ==> VersionOf(q.place.found) > 0
    ensures StandbyOk(Sent(c, WriteFor(p, q, c.now)), p, Heard(p, q, c.now), l)
  {
  }

  lemma ConflictInTime(c: Shared, p: Identity, q: Proc, l: real)
    requires HistOk(c) && FlightOk(c) && ProcOk(c, p, q) && q.standing.phase != Stopped && q.place.Writing?
    requires q.place.write in c.refused && OnTime(c.now, q.place, l) && q.cleanSince <= c.now
    ensures TimeOk(c, p, Finish(q, Ok(Wait), c.now), l)
  {
    assert q.place.write.base < |c.hist|;
    assert q.place.since <= c.hist[q.place.write.base].at;
    StaleIsEarly(c, q, q.place.write.base);
    assert OverlapOk(c, p, Finish(q, Ok(Wait), c.now), l);
  }

  // ----- Both, along a run -----

  ghost predicate TimeOk(c: Shared, p: Identity, q: Proc, l: real) {
    q.standing.phase != Stopped ==> q.cleanSince <= c.now && OverlapOk(c, p, q, l) && StandbyOk(c, p, q, l)
  }

  ghost predicate TimesOk(s: State, l: real) {
    forall p <- s.procs :: TimeOk(s.c, p, s.procs[p], l)
  }

  /** Only `p` moved, and the history stands. */
  lemma OthersInTime(s: State, t: State, p: Identity, l: real)
    requires TimesOk(s, l) && p in s.procs && p in t.procs && t.procs == s.procs[p := t.procs[p]]
    requires t.c.hist == s.c.hist && t.c.now == s.c.now
    requires TimeOk(t.c, p, t.procs[p], l)
    ensures TimesOk(t, l)
  {
  }

  lemma TakeUpInTime(s: State, w: Write, l: real)
    requires Inv(s) && l > 0.0 && TimesOk(s, l) && Enabled(s, TakeUp(w))
    ensures TimesOk(Next(s, TakeUp(w)), l)
  {
    forall r | r in s.procs ensures TimeOk(TakenUp(s.c, w), r, s.procs[r], l) {
      WriteInTime(s.c, w, r, s.procs[r], l);
    }
  }

  lemma WriteInTime(c: Shared, w: Write, r: Identity, q: Proc, l: real)
    requires HistOk(c) && FlightOk(c) && w in c.inflight && l > 0.0 && ProcOk(c, r, q) && TimeOk(c, r, q, l)
    ensures TimeOk(TakenUp(c, w), r, q, l)
  {
    if w.base == |c.hist| {
      LandInTime(c, w, r, q, l);
    } else {
      RefusedKeepsShared(c, w);
      SameHistoryInTime(c, TakenUp(c, w), r, q, l);
    }
  }

  lemma SameHistoryInTime(c: Shared, d: Shared, r: Identity, q: Proc, l: real)
    requires TimeOk(c, r, q, l) && d.hist == c.hist && d.now == c.now
    ensures TimeOk(d, r, q, l)
  {
  }

  lemma LandInTime(c: Shared, w: Write, r: Identity, q: Proc, l: real)
    requires Lands(c, w) && l > 0.0 && ProcOk(c, r, q) && TimeOk(c, r, q, l)
    ensures TimeOk(TakenUp(c, w), r, q, l)
  {
    if q.standing.phase != Stopped {
      LandKeepsOverlap(c, w, r, q, l);
      LandKeepsStandby(c, w, r, q, l);
    }
  }

  lemma BeginInTime(c: Shared, p: Identity, q: Proc, stamp: Stamp, l: real)
    requires TimeOk(c, p, q, l) && q.place.Sleeping? && OnTime(c.now, q.place, l)
    ensures TimeOk(c.(used := c.used + {stamp}), p, q.(place := Reading(c.now, stamp)), l)
  {
  }

  lemma ServeInTime(c: Shared, p: Identity, q: Proc, l: real)
    requires TimeOk(c, p, q, l) && q.place.Reading?
    ensures TimeOk(c, p, q.(place := Replied(q.place.since, q.place.stamp, c.lease)), l)
  {
  }

  lemma ProcInTime(s: State, a: Action, p: Identity, l: real)
    requires l > 0.0 && p in s.procs && Enabled(s, a) && !a.Pass? && !a.TakeUp? && a.p == p
    requires HistOk(s.c) && FlightOk(s.c) && ProcOk(s.c, p, s.procs[p]) && TimeOk(s.c, p, s.procs[p], l)
    requires Live(s, p) ==> OnTime(s.c.now, s.procs[p].place, l)
    ensures TimeOk(Next(s, a).c, p, Next(s, a).procs[p], l)
  {
    var c, q := s.c, s.procs[p];
    match a
    case Start(_, _) =>
    case Wake(_, stamp) => BeginInTime(c, p, q, stamp, l);
    case Serve(_) => ServeInTime(c, p, q, l);
    case Receive(_) => HeardInTime(c, p, q, l);
    case Acknowledge(_, i) => AcknowledgeInTime(c, p, q, i, l);
    case Conflict(_) => ConflictInTime(c, p, q, l);
    case Fail(_) => FailInTime(c, p, q, l);
    case Crash(_) =>
  }

  lemma HeardInTime(c: Shared, p: Identity, q: Proc, l: real)
    requires Hears(c, p, q) && l > 0.0 && OnTime(c.now, q.place, l) && TimeOk(c, p, q, l)
    ensures TimeOk(Sent(c, WriteFor(p, q, c.now)), p, Heard(p, q, c.now), l)
  {
    var v := VersionOf(q.place.found);
    ReadingInforms(c, p, q);
    if v < |c.hist| {
      StaleIsEarly(c, q, v);
    }
    HeardStandby(c, p, q, l);
    HeardOverlap(c, p, q, l);
  }

  lemma HeardOverlap(c: Shared, p: Identity, q: Proc, l: real)
    requires Hears(c, p, q) && OverlapOk(c, p, q, l)
    ensures OverlapOk(Sent(c, WriteFor(p, q, c.now)), p, Heard(p, q, c.now), l)
  {
    if q.standing.phase == Leading {
      LeaderJudgement(c, p, q);
    }
  }

  lemma PassAllInTime(s: State, d: real, l: real)
    requires TimesOk(s, l) && d > 0.0
    ensures TimesOk(Next(s, Pass(d)), l)
  {
    forall r | r in s.procs ensures TimeOk(s.c.(now := s.c.now + d), r, s.procs[r], l) {
      PassInTime(s.c, d, r, s.procs[r], l);
    }
  }

  lemma OwnStepInTime(s: State, a: Action, l: real)
    requires HistOk(s.c) && FlightOk(s.c) && EachOk(s.c, s.procs) && Timely(s, l) && l > 0.0 && TimesOk(s, l)
    requires Enabled(s, a) && !a.Pass? && !a.TakeUp?
    ensures TimesOk(Next(s, a), l)
  {
    assert ProcOk(s.c, a.p, s.procs[a.p]) && TimeOk(s.c, a.p, s.procs[a.p], l);
    assert Live(s, a.p) ==> OnTime(s.c.now, s.procs[a.p].place, l);
    ProcInTime(s, a, a.p, l);
    OneMoves(s, a);
    OthersInTime(s, Next(s, a), a.p, l);
  }

  lemma NextInTime(s: State, a: Action, l: real)
    requires Inv(s) && Timely(s, l) && l > 0.0 && TimesOk(s, l) && Enabled(s, a)
    ensures TimesOk(Next(s, a), l)
  {
    match a
    case Pass(d) => PassAllInTime(s, d, l);
    case TakeUp(w) => TakeUpInTime(s, w, l);
    case _ => OwnStepInTime(s, a, l);
  }

  lemma PassInTime(c: Shared, d: real, p: Identity, q: Proc, l: real)
    requires TimeOk(c, p, q, l) && d > 0.0
    ensures TimeOk(c.(now := c.now + d), p, q, l)
  {
  }

  lemma OneMoves(s: State, a: Action)
    requires Enabled(s, a) && !a.Pass? && !a.TakeUp?
    ensures var t := Next(s, a);
      && a.p in s.procs && a.p in t.procs && t.procs == s.procs[a.p := t.procs[a.p]]
      && t.c.hist == s.c.hist && t.c.now == s.c.now
  {
  }

  lemma {:induction false} RunInTime(states: seq<State>, actions: seq<Action>, l: real, i: nat)
    requires TimelyRun(states, actions, l) && i < |states|
    ensures Inv(states[i]) && Timely(states[i], l) && TimesOk(states[i], l)
  {
    RunKeeps(states, actions, i);
    if i > 0 {
      RunInTime(states, actions, l, i - 1);
      assert StepAt(states, actions, i - 1);
      NextInTime(states[i - 1], actions[i - 1], l);
    }
  }

  /** A displaced leader is gone less than RETRY_PERIOD + 2l after the takeover landed. */
  lemma BoundedOverlap(states: seq<State>, actions: seq<Action>, l: real, i: nat, p: Identity, k: nat)
    requires TimelyRun(states, actions, l) && i < |states| && p in states[i].procs
    requires states[i].procs[p].standing.phase == Leading && DisplacedAt(states[i].c.hist, p, k)
    ensures states[i].c.now < states[i].c.hist[k + 1].at + RETRY_PERIOD + 2.0 * l
  {
    RunInTime(states, actions, l, i);
    assert TimeOk(states[i].c, p, states[i].procs[p], l);
  }

  lemma {:induction false} LastWrite(h: History, p: Identity, n: nat) returns (k: nat)
    requires n < |h| && Writer(h, n) == p
    ensures n <= k < |h| && Writer(h, k) == p && forall j :: k < j < |h| ==> Writer(h, j) != p
    decreases |h| - n
  {
    if j: nat :| n < j < |h| && Writer(h, j) == p {
      k := LastWrite(h, p, j);
    } else {
      k := n;
    }
  }

  /** Whoever leads holds the lease or has been displaced. */
  lemma LeaderHoldsOrLost(states: seq<State>, actions: seq<Action>, i: nat, p: Identity) returns (k: nat)
    requires Run(states, actions) && i < |states| && p in states[i].procs
    requires states[i].procs[p].standing.phase == Leading
    ensures k < |states[i].c.hist| && Writer(states[i].c.hist, k) == p
    ensures Holds(states[i].c.hist, p) || DisplacedAt(states[i].c.hist, p, k)
  {
    LeaderFacts(states, actions, i, p);
    k := LastWrite(states[i].c.hist, p, states[i].procs[p].lastAck);
  }

  /** If attempts take at most 6.5 s, no third replica ever leads beside two others. */
  lemma AtMostTwoLeaders(
      states: seq<State>, actions: seq<Action>, l: real, i: nat, p: Identity, q: Identity, r: Identity)
    requires TimelyRun(states, actions, l) && i < |states| && 2.0 * l <= LEASE_DURATION - RETRY_PERIOD
    requires Leads(states[i], p) && Leads(states[i], q) && Leads(states[i], r)
    ensures p == q || q == r || p == r
  {
    var h := states[i].c.hist;
    if p != q && q != r && p != r {
      if Holds(h, p) { TwoLost(states, actions, l, i, q, r); }
      else if Holds(h, q) { TwoLost(states, actions, l, i, p, r); }
      else { TwoLost(states, actions, l, i, p, q); }
    }
  }

  ghost predicate Leads(s: State, p: Identity) {
    p in s.procs && s.procs[p].standing.phase == Leading
  }

  /** Two displaced replicas cannot both still lead. */
  lemma TwoLost(states: seq<State>, actions: seq<Action>, l: real, i: nat, p: Identity, q: Identity)
    requires TimelyRun(states, actions, l) && i < |states| && 2.0 * l <= LEASE_DURATION - RETRY_PERIOD
    requires Leads(states[i], p) && Leads(states[i], q) && p != q
    ensures Holds(states[i].c.hist, p) || Holds(states[i].c.hist, q)
  {
    var c := states[i].c;
    if !Holds(c.hist, p) && !Holds(c.hist, q) {
      var k := LeaderHoldsOrLost(states, actions, i, p);
      var m := LeaderHoldsOrLost(states, actions, i, q);
      RunKeeps(states, actions, i);
      if k < m {
        LaterLoss(states, actions, l, i, p, k, q, m);
      } else {
        LaterLoss(states, actions, l, i, q, m, p, k);
      }
    }
  }

  /** By the time the second of two replicas is displaced, the first is gone. */
  lemma LaterLoss(
      states: seq<State>, actions: seq<Action>, l: real, i: nat, p: Identity, k: nat, q: Identity, m: nat)
    requires TimelyRun(states, actions, l) && i < |states| && 2.0 * l <= LEASE_DURATION - RETRY_PERIOD
    requires DisplacedAt(states[i].c.hist, p, k) && DisplacedAt(states[i].c.hist, q, m) && k < m
    ensures !Leads(states[i], p)
  {
    var c := states[i].c;
    RunKeeps(states, actions, i);
    assert Writer(c.hist, m) == q;
    DisplacedLate(c, q, m, m);
    if k + 1 < m {
      assert InOrder(c.hist, k + 1, m);
    }
    assert LandedOk(c.hist, c.now, m + 1);
    if Leads(states[i], p) {
      BoundedOverlap(states, actions, l, i, p, k);
    }
  }

  const TAKEOVER_BOUND := LEASE_DURATION + 2.0 * RETRY_PERIOD

  /** As long as a standby campaigns without holding the lease, the clock stays within the
      takeover bound of the last landed write and of the standby's last failed attempt. */
  lemma ClockBound(states: seq<State>, actions: seq<Action>, l: real, i: nat, p: Identity)
    requires TimelyRun(states, actions, l) && i < |states| && p in states[i].procs
    requires states[i].procs[p].standing.phase == Campaigning && !Holds(states[i].c.hist, p)
    ensures states[i].c.now < Base(states[i].c, states[i].procs[p]) + TAKEOVER_BOUND + 4.0 * l
  {
    RunInTime(states, actions, l, i);
    assert TimeOk(states[i].c, p, states[i].procs[p], l);
    assert OnTime(states[i].c.now, states[i].procs[p].place, l);
  }

  /** `p` campaigns from state `a` to state `b`, and none of its attempts fails. */
  ghost predicate CleanCampaign(states: seq<State>, actions: seq<Action>, p: Identity, a: nat, b: nat)
    requires |states| == |actions| + 1 && b < |states|
  {
    && (forall k :: a <= k <= b ==> p in states[k].procs && states[k].procs[p].standing.phase == Campaigning)
    && (forall k :: a <= k < b ==> actions[k] != Fail(p))
  }

  lemma {:induction false} HistoryGrows(states: seq<State>, actions: seq<Action>, p: Identity, a: nat, b: nat)
    requires Run(states, actions) && a <= b < |states| && CleanCampaign(states, actions, p, a, b)
    ensures states[a].c.hist <= states[b].c.hist
    ensures states[a].procs[p].cleanSince == states[b].procs[p].cleanSince
  {
    if a < b {
      HistoryGrows(states, actions, p, a, b - 1);
      assert StepAt(states, actions, b - 1);
    }
  }

  lemma NextWriteInTime(s: State, a: Action, n: nat, limit: real)
    requires HistOk(s.c) && Enabled(s, a) && n <= |s.c.hist|
    requires s.c.now < limit || (n < |s.c.hist| && s.c.hist[n].at < limit)
    ensures n < |Next(s, a).c.hist| ==> Next(s, a).c.hist[n].at < limit
  {
    if n < |s.c.hist| {
      assert LandedOk(s.c.hist, s.c.now, n);
    }
  }

  lemma WriteOnRunInTime(states: seq<State>, actions: seq<Action>, k: nat, n: nat, limit: real)
    requires Run(states, actions) && k < |actions| && n <= |states[k].c.hist|
    requires states[k].c.now < limit || (n < |states[k].c.hist| && states[k].c.hist[n].at < limit)
    ensures n < |states[k + 1].c.hist| ==> states[k + 1].c.hist[n].at < limit
  {
    RunKeeps(states, actions, k);
    assert StepAt(states, actions, k);
    NextWriteInTime(states[k], actions[k], n, limit);
  }

  /** The next write has not landed, and the clock is within the bound. */
  lemma NoWriteYet(states: seq<State>, actions: seq<Action>, l: real, p: Identity, a: nat, b: nat)
    requires TimelyRun(states, actions, l) && a <= b < |states| && CleanCampaign(states, actions, p, a, b)
    requires !Holds(states[a].c.hist, p) && |states[b].c.hist| == |states[a].c.hist|
    ensures states[b].c.now < Base(states[a].c, states[a].procs[p]) + TAKEOVER_BOUND + 4.0 * l
  {
    HistoryGrows(states, actions, p, a, b);
    assert states[b].c.hist == states[a].c.hist;
    ClockBound(states, actions, l, b, p);
  }

  /** Bounded takeover: with a standby in clean attempts, the next write lands within
      LEASE_DURATION + 2 RETRY_PERIOD + 4l. */
  lemma {:induction false} BoundedTakeover(
      states: seq<State>, actions: seq<Action>, l: real, p: Identity, a: nat, b: nat)
    requires TimelyRun(states, actions, l) && a <= b < |states| && CleanCampaign(states, actions, p, a, b)
    requires !Holds(states[a].c.hist, p)
    ensures var limit := Base(states[a].c, states[a].procs[p]) + TAKEOVER_BOUND + 4.0 * l;
      var n := |states[a].c.hist|;
      states[b].c.now < limit || (n < |states[b].c.hist| && states[b].c.hist[n].at < limit)
  {
    var n := |states[a].c.hist|;
    var limit := Base(states[a].c, states[a].procs[p]) + TAKEOVER_BOUND + 4.0 * l;
    if |states[b].c.hist| == n {
      NoWriteYet(states, actions, l, p, a, b);
    } else {
      HistoryGrows(states, actions, p, a, b);
      HistoryGrows(states, actions, p, a, b - 1);
      BoundedTakeover(states, actions, l, p, a, b - 1);
      WriteOnRunInTime(states, actions, b - 1, n, limit);
    }
  }

  /** If the holder does not write, the next write is some other replica's takeover, and it
      comes in that time. */
  lemma TakeoverInTime(states: seq<State>, actions: seq<Action>, l: real, p: Identity, a: nat, b: nat)
    requires TimelyRun(states, actions, l) && a <= b < |states| && CleanCampaign(states, actions, p, a, b)
    requires var h, n := states[b].c.hist, |states[a].c.hist|;
      !Holds(states[a].c.hist, p) && (0 < n < |h| ==> Writer(h, n) != Writer(states[a].c.hist, n - 1))
    ensures var h, n := states[b].c.hist, |states[a].c.hist|;
      var limit := Base(states[a].c, states[a].procs[p]) + TAKEOVER_BOUND + 4.0 * l;
      states[b].c.now < limit || (n < |h| && h[n].at < limit && ChangesHolder(h, n))
  {
    HistoryGrows(states, actions, p, a, b);
    BoundedTakeover(states, actions, l, p, a, b);
  }
}
