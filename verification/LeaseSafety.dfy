/** What every reachable state of the election keeps, for any number of replicas, any
    interleaving, any delay, lost answers, crashes and restarts; no bound on step time. */
module LeaseSafety {
  import opened Wrappers
  import opened Lease
  import opened LeaseProtocol

  // ----- The invariant -----

  function LeaseAt(h: History, v: nat): Option<LeaseObject>
    requires v <= |h|
  {
    if v == 0 then None else Some(LeaseObject(v, Some(h[v - 1].write.spec)))
  }

  function PriorSpec(h: History, v: nat): LeaseSpec
    requires v <= |h|
  {
    if v == 0 then NO_SPEC else h[v - 1].write.spec
  }

  /** A write is what the decision procedure makes of the version it is based on, and a
      takeover is not issued before the displaced holder's write stood for a full lease. */
  ghost predicate WriteOk(h: History, now: real, w: Write) {
    && w.base <= |h|
    && w.decision != Wait
    && w.spec == RenewedSpec(PriorSpec(h, w.base), w.author, w.stamp, w.decision == Acquire)
    && (w.decision == Renew <==> w.base > 0 && h[w.base - 1].write.author == w.author)
    && (w.base > 0 && w.decision == Acquire ==> now >= h[w.base - 1].at + LEASE_DURATION)
  }

  ghost predicate InOrder(h: History, i: nat, j: nat)
    requires i < j < |h|
  {
    h[i].write.stamp != h[j].write.stamp && h[i].at <= h[j].at
  }

  ghost predicate LandedOk(h: History, now: real, i: nat)
    requires i < |h|
  {
    h[i].at <= now && h[i].write.base == i && WriteOk(h, now, h[i].write)
  }

  ghost predicate Spaced(h: History) {
    forall i: nat :: 0 < i < |h| && ChangesHolder(h, i) ==> h[i].at >= h[i - 1].at + LEASE_DURATION
  }

  ghost predicate HistOk(c: Shared) {
    && (forall i: nat, j: nat :: i < j < |c.hist| ==> InOrder(c.hist, i, j))
    && (forall i: nat :: i < |c.hist| ==> LandedOk(c.hist, c.now, i))
    && (forall l <- c.hist :: l.write.stamp in c.used)
    && Spaced(c.hist)
    && c.lease == LeaseAt(c.hist, |c.hist|)
  }

  ghost predicate NotWritten(c: Shared, stamp: Stamp) {
    && (forall i :: 0 <= i < |c.hist| ==> c.hist[i].write.stamp != stamp)
    && (forall w <- c.inflight :: w.stamp != stamp)
  }

  ghost predicate Apart(w: Write, v: Write) {
    w.stamp == v.stamp ==> w == v
  }

  ghost predicate FlightOk(c: Shared) {
    && (forall w <- c.inflight ::
          WriteOk(c.hist, c.now, w) && w.stamp in c.used
          && forall i :: 0 <= i < |c.hist| ==> c.hist[i].write.stamp != w.stamp)
    && (forall w, v {:trigger Apart(w, v)} :: w in c.inflight && v in c.inflight ==> Apart(w, v))
    && (forall w <- c.refused :: w.base < |c.hist|)
  }

  ghost predicate HasStamp(q: Proc) {
    q.place.Reading? || q.place.Replied?
  }

  /** The timer never runs ahead of the write it watches. */
  ghost predicate TimerOk(h: History, now: real, last: Option<Observation>) {
    last.Some? ==>
      && last.value.firstSeen <= now
      && exists k: nat :: k < |h| && last.value.renewTime == Some(h[k].write.stamp) && h[k].at <= last.value.firstSeen
  }

  ghost predicate Watches(h: History, last: Option<Observation>, k: nat)
    requires k < |h|
  {
    last.Some? && last.value.renewTime == Some(h[k].write.stamp)
  }

  /** Every write `p` ever sent is based on at most version `v`. */
  ghost predicate OwnUpTo(c: Shared, p: Identity, v: nat) {
    && (forall w <- c.inflight :: w.author == p ==> w.base <= v)
    && (forall i :: 0 <= i < |c.hist| && c.hist[i].write.author == p ==> i <= v)
  }

  ghost predicate WatchesBelow(h: History, last: Option<Observation>, v: nat) {
    forall k: nat :: k < |h| && Watches(h, last, k) ==> k < v
  }

  ghost predicate PlaceOk(c: Shared, p: Identity, q: Proc) {
    && q.place.since <= c.now
    && match q.place
       case Sleeping(_) => true
       case Reading(_, stamp) => stamp in c.used && NotWritten(c, stamp)
       case Replied(since, stamp, found) =>
         var v := VersionOf(found);
         && stamp in c.used && NotWritten(c, stamp)
         && v <= |c.hist| && found == LeaseAt(c.hist, v)
         && OwnUpTo(c, p, v) && WatchesBelow(c.hist, q.last, v)
         && (v < |c.hist| ==> since <= c.hist[v].at)
       case Writing(since, w) =>
         && w.author == p && WriteOk(c.hist, c.now, w)
         && OwnUpTo(c, p, w.base) && WatchesBelow(c.hist, q.last, w.base)
         && (w.base < |c.hist| ==> since <= c.hist[w.base].at)
  }

  /** From write `n` on, once a peer has written, `p` never writes again. */
  ghost predicate NoReturn(h: History, p: Identity, n: nat) {
    forall j, k :: n <= j < k < |h| && h[j].write.author != p ==> h[k].write.author != p
  }

  /** From the first acknowledged write to the latest, every landed write is ours; after
      that, once a peer has written we never write again; and nothing we still do or have
      under way can be a takeover. */
  ghost predicate TenureOk(c: Shared, p: Identity, q: Proc) {
    q.standing.phase == Leading ==>
      && q.firstAck <= q.lastAck < |c.hist|
      && (forall j :: q.firstAck <= j <= q.lastAck ==> c.hist[j].write.author == p)
      && NoReturn(c.hist, p, q.lastAck)
      && (forall k: nat :: k < |c.hist| && Watches(c.hist, q.last, k) ==> k < q.firstAck || c.hist[k].write.author == p)
      && (forall w <- c.inflight :: w.author == p && w.decision == Acquire ==> w.base <= q.lastAck)
      && (q.place.Replied? ==> VersionOf(q.place.found) > q.lastAck)
      && (q.place.Writing? ==> q.place.write.base > q.lastAck && q.place.write.decision == Renew)
  }

  ghost predicate ProcOk(c: Shared, p: Identity, q: Proc) {
    q.standing.phase != Stopped ==>
      TimerOk(c.hist, c.now, q.last) && PlaceOk(c, p, q) && TenureOk(c, p, q)
  }

  /** Two replicas in the middle of a read never share a stamp. */
  ghost predicate StampsApart(procs: map<Identity, Proc>, p: Identity, r: Identity)
    requires p in procs && r in procs
  {
    var q, o := procs[p], procs[r];
    (p != r && q.standing.phase != Stopped && o.standing.phase != Stopped && HasStamp(q) && HasStamp(o)) ==>
      q.place.stamp != o.place.stamp
  }

  ghost predicate EachOk(c: Shared, procs: map<Identity, Proc>) {
    forall p <- procs :: ProcOk(c, p, procs[p])
  }

  ghost predicate AllApart(procs: map<Identity, Proc>) {
    forall p, r {:trigger StampsApart(procs, p, r)} :: p in procs && r in procs ==> StampsApart(procs, p, r)
  }

  ghost predicate ProcsOk(s: State) {
    EachOk(s.c, s.procs) && AllApart(s.procs)
  }

  ghost predicate Inv(s: State) {
    HistOk(s.c) && FlightOk(s.c) && ProcsOk(s)
  }

  // ----- Each action keeps it -----

  /** An action of `p` alone: the others keep their records, and their stamps stay apart. */
  lemma OneProc(s: State, t: State, p: Identity, q: Proc)
    requires Inv(s) && p in s.procs && t.procs == s.procs[p := q]
    requires HistOk(t.c) && FlightOk(t.c) && ProcOk(t.c, p, q)
    requires forall r :: Live(s, r) && r != p ==> ProcOk(t.c, r, s.procs[r])
    requires HasStamp(q) ==>
      forall r :: Live(s, r) && r != p && HasStamp(s.procs[r]) ==> q.place.stamp != s.procs[r].place.stamp
    ensures Inv(t)
  {
    forall r | r in t.procs ensures ProcOk(t.c, r, t.procs[r]) {
    }
    forall r, o | r in t.procs && o in t.procs ensures StampsApart(t.procs, r, o) {
      assert StampsApart(s.procs, r, o);
    }
  }

  lemma PassKeepsProc(c: Shared, d: real, p: Identity, q: Proc)
    requires ProcOk(c, p, q) && d > 0.0
    ensures ProcOk(c.(now := c.now + d), p, q)
  {
  }

  lemma PassKeepsShared(c: Shared, d: real)
    requires HistOk(c) && FlightOk(c) && d > 0.0
    ensures HistOk(c.(now := c.now + d)) && FlightOk(c.(now := c.now + d))
  {
    var later := c.now + d;
    forall i: nat | i < |c.hist| ensures LandedOk(c.hist, later, i) {
      assert LandedOk(c.hist, c.now, i);
    }
  }

  lemma PassKeeps(s: State, d: real)
    requires Inv(s) && d > 0.0
    ensures Inv(Next(s, Pass(d)))
  {
    PassKeepsShared(s.c, d);
    PassKeepsEach(s.c, d, s.procs);
  }

  lemma PassKeepsEach(c: Shared, d: real, procs: map<Identity, Proc>)
    requires EachOk(c, procs) && d > 0.0
    ensures EachOk(c.(now := c.now + d), procs)
  {
    forall p | p in procs ensures ProcOk(c.(now := c.now + d), p, procs[p]) {
      PassKeepsProc(c, d, p, procs[p]);
    }
  }

  lemma BeginKeepsProc(c: Shared, used: set<Stamp>, p: Identity, q: Proc)
    requires ProcOk(c, p, q) && c.used <= used
    ensures ProcOk(c.(used := used), p, q)
  {
  }

  lemma BeginKeepsShared(c: Shared, stamp: Stamp)
    requires HistOk(c) && FlightOk(c) && stamp !in c.used
    ensures var d := c.(used := c.used + {stamp}); HistOk(d) && FlightOk(d) && NotWritten(d, stamp)
  {
  }

  lemma BeginKeeps(s: State, p: Identity, q: Proc, stamp: Stamp)
    requires Inv(s) && p in s.procs && stamp !in s.c.used
    requires TimerOk(s.c.hist, s.c.now, q.last)
    requires TenureOk(s.c, p, q.(place := Sleeping(s.c.now)))
    ensures Inv(Begin(s, p, q, stamp))
  {
    var t := Begin(s, p, q, stamp);
    BeginKeepsShared(s.c, stamp);
    forall r | Live(s, r) && r != p
      ensures ProcOk(t.c, r, s.procs[r]) && (HasStamp(s.procs[r]) ==> s.procs[r].place.stamp in s.c.used)
    {
      assert ProcOk(s.c, r, s.procs[r]);
      BeginKeepsProc(s.c, t.c.used, r, s.procs[r]);
    }
    OneProc(s, t, p, t.procs[p]);
  }

  lemma ServeKeeps(s: State, p: Identity)
    requires Inv(s) && Enabled(s, Serve(p))
    ensures Inv(Next(s, Serve(p)))
  {
    var t := Next(s, Serve(p));
    assert ProcOk(s.c, p, s.procs[p]);
    assert WatchesBelow(s.c.hist, s.procs[p].last, |s.c.hist|);
    forall r | r in s.procs ensures StampsApart(s.procs, p, r) {
    }
    OneProc(s, t, p, t.procs[p]);
  }

  lemma SleepKeeps(s: State, p: Identity, q: Proc)
    requires Inv(s) && Live(s, p)
    requires q.place == Sleeping(s.c.now)
    requires q.standing.phase != Stopped ==> TimerOk(s.c.hist, s.c.now, q.last) && TenureOk(s.c, p, q)
    ensures Inv(SetProc(s, p, q))
  {
    OneProc(s, SetProc(s, p, q), p, q);
  }

  /** A timer that watches anything watches a landed write, and only that one. */
  lemma Watched(c: Shared, last: Option<Observation>) returns (k: nat)
    requires HistOk(c) && TimerOk(c.hist, c.now, last) && last.Some?
    ensures k < |c.hist| && Watches(c.hist, last, k) && c.hist[k].at <= last.value.firstSeen
    ensures forall j: nat :: j < |c.hist| && Watches(c.hist, last, j) ==> j == k
  {
    k :| k < |c.hist| && last.value.renewTime == Some(c.hist[k].write.stamp) && c.hist[k].at <= last.value.firstSeen;
    OnlyOneWatched(c, last, k);
  }

  lemma OnlyOneWatched(c: Shared, last: Option<Observation>, k: nat)
    requires HistOk(c) && k < |c.hist| && Watches(c.hist, last, k)
    ensures forall j: nat :: j < |c.hist| && Watches(c.hist, last, j) ==> j == k
  {
    forall j: nat | j < |c.hist| && Watches(c.hist, last, j) ensures j == k {
      assert j < k ==> InOrder(c.hist, j, k);
      assert k < j ==> InOrder(c.hist, k, j);
    }
  }

  lemma SpecAt(c: Shared, v: nat)
    requires HistOk(c) && 0 < v <= |c.hist|
    ensures var spec := c.hist[v - 1].write.spec;
      spec.holder == Some(c.hist[v - 1].write.author) && spec.renewTime == Some(c.hist[v - 1].write.stamp)
  {
    assert LandedOk(c.hist, c.now, v - 1);
  }

  /** Observing version `v` leaves the timer on the write that made it. */
  lemma ObservationOk(c: Shared, last: Option<Observation>, v: nat)
    requires HistOk(c) && 0 < v <= |c.hist| && TimerOk(c.hist, c.now, last)
    ensures var last' := Tracked(last, LeaseAt(c.hist, v), c.now);
      && TimerOk(c.hist, c.now, last')
      && forall k: nat :: k < |c.hist| && Watches(c.hist, last', k) ==> k == v - 1
  {
    SpecAt(c, v);
    var last' := Tracked(last, LeaseAt(c.hist, v), c.now);
    assert Watches(c.hist, last', v - 1);
    OnlyOneWatched(c, last', v - 1);
    if last == last' {
      var k := Watched(c, last);
    } else {
      assert LandedOk(c.hist, c.now, v - 1);
    }
  }

  /** The heart of the election: whoever decides to take over has watched the current
      write stand still for a full lease, and began to watch after it landed. */
  lemma JudgementOk(c: Shared, p: Identity, q: Proc)
    requires HistOk(c) && ProcOk(c, p, q) && q.standing.phase != Stopped && q.place.Replied?
    ensures WriteFor(p, q, c.now).decision != Wait ==> WriteOk(c.hist, c.now, WriteFor(p, q, c.now))
  {
    var v := VersionOf(q.place.found);
    var w := WriteFor(p, q, c.now);
    if v > 0 {
      SpecAt(c, v);
      if w.decision == Acquire {
        var k := Watched(c, q.last);
        assert Watches(c.hist, q.last, v - 1);
      }
    }
  }

  /** A leading replica that reads a lease renews its own or stops: it never takes over. */
  lemma LeaderJudgement(c: Shared, p: Identity, q: Proc)
    requires HistOk(c) && ProcOk(c, p, q) && q.standing.phase == Leading && q.place.Replied?
    ensures var v := VersionOf(q.place.found);
      && 0 < v <= |c.hist|
      && WriteFor(p, q, c.now).decision == if c.hist[v - 1].write.author == p then Renew else Wait
  {
    var v := VersionOf(q.place.found);
    SpecAt(c, v);
    assert c.hist[v - 1].write.author != p ==> !Watches(c.hist, q.last, v - 1);
  }

  lemma ReadingSetsTimer(c: Shared, p: Identity, q: Proc)
    requires HistOk(c) && ProcOk(c, p, q) && q.standing.phase != Stopped && q.place.Replied?
    ensures var last' := Tracked(q.last, q.place.found, c.now);
      && TimerOk(c.hist, c.now, last') && WatchesBelow(c.hist, last', VersionOf(q.place.found))
      && forall k: nat :: k < |c.hist| && Watches(c.hist, last', k) ==> k == VersionOf(q.place.found) - 1
  {
    var v := VersionOf(q.place.found);
    if v > 0 {
      ObservationOk(c, q.last, v);
    } else if q.last.Some? {
      var k := Watched(c, q.last);
      assert false;
    }
  }

  ghost predicate Hears(c: Shared, p: Identity, q: Proc) {
    HistOk(c) && FlightOk(c) && ProcOk(c, p, q) && q.standing.phase != Stopped && q.place.Replied?
  }

  lemma HeardTenure(c: Shared, p: Identity, q: Proc)
    requires TenureOk(c, p, q) && q.standing.phase != Stopped && q.place.Replied?
    requires var v := VersionOf(q.place.found);
      && v <= |c.hist|
      && (forall k: nat :: k < |c.hist| && Watches(c.hist, Tracked(q.last, q.place.found, c.now), k) ==> k == v - 1)
      && (q.standing.phase == Leading ==> v > 0)
      && (q.standing.phase == Leading ==>
            WriteFor(p, q, c.now).decision == if c.hist[v - 1].write.author == p then Renew else Wait)
    ensures TenureOk(Sent(c, WriteFor(p, q, c.now)), p, Heard(p, q, c.now))
  {
  }

  lemma HeardPlace(c: Shared, p: Identity, q: Proc)
    requires Hears(c, p, q)
    ensures PlaceOk(Sent(c, WriteFor(p, q, c.now)), p, Heard(p, q, c.now))
    ensures TimerOk(c.hist, c.now, Heard(p, q, c.now).last)
  {
    ReadingSetsTimer(c, p, q);
    JudgementOk(c, p, q);
  }

  lemma SentKeeps(c: Shared, w: Write)
    requires HistOk(c) && FlightOk(c)
    requires w.decision != Wait ==> WriteOk(c.hist, c.now, w) && w.stamp in c.used && NotWritten(c, w.stamp)
    ensures HistOk(Sent(c, w)) && FlightOk(Sent(c, w))
  {
  }

  /** Sending disturbs nobody else: their stamps and their writes are not this one's. */
  lemma SentKeepsOthers(c: Shared, w: Write, r: Identity, q: Proc)
    requires ProcOk(c, r, q) && w.author != r && (HasStamp(q) ==> q.place.stamp != w.stamp)
    ensures ProcOk(Sent(c, w), r, q)
  {
  }

  lemma HeardKeeps(c: Shared, p: Identity, q: Proc)
    requires Hears(c, p, q)
    ensures var d := Sent(c, WriteFor(p, q, c.now));
      HistOk(d) && FlightOk(d) && ProcOk(d, p, Heard(p, q, c.now)) && !HasStamp(Heard(p, q, c.now))
  {
    JudgementOk(c, p, q);
    SentKeeps(c, WriteFor(p, q, c.now));
    HeardPlace(c, p, q);
    ReadingSetsTimer(c, p, q);
    if q.standing.phase == Leading {
      LeaderJudgement(c, p, q);
    }
    HeardTenure(c, p, q);
  }

  lemma OthersHeard(s: State, p: Identity, r: Identity)
    requires Inv(s) && Enabled(s, Receive(p)) && Live(s, r) && r != p
    ensures ProcOk(Sent(s.c, WriteFor(p, s.procs[p], s.c.now)), r, s.procs[r])
  {
    assert ProcOk(s.c, p, s.procs[p]) && ProcOk(s.c, r, s.procs[r]) && StampsApart(s.procs, p, r);
    SentKeepsOthers(s.c, WriteFor(p, s.procs[p], s.c.now), r, s.procs[r]);
  }

  lemma ReceiveKeeps(s: State, p: Identity)
    requires Inv(s) && Enabled(s, Receive(p))
    ensures Inv(Next(s, Receive(p)))
  {
    var t := Next(s, Receive(p));
    HeardKeeps(s.c, p, s.procs[p]);
    forall r | Live(s, r) && r != p ensures ProcOk(t.c, r, s.procs[r]) {
      OthersHeard(s, p, r);
    }
    OneProc(s, t, p, t.procs[p]);
  }

  lemma RefusedKeepsProc(c: Shared, w: Write, p: Identity, q: Proc)
    requires ProcOk(c, p, q) && VersionOf(c.lease) != w.base
    ensures ProcOk(TakenUp(c, w), p, q)
  {
  }

  lemma RefusedKeepsShared(c: Shared, w: Write)
    requires HistOk(c) && FlightOk(c) && w in c.inflight && w.base != |c.hist|
    ensures HistOk(TakenUp(c, w)) && FlightOk(TakenUp(c, w)) && VersionOf(c.lease) != w.base
  {
  }

  lemma RefusedKeeps(s: State, w: Write)
    requires Inv(s) && Enabled(s, TakeUp(w)) && w.base != |s.c.hist|
    ensures Inv(Next(s, TakeUp(w)))
  {
    var t := Next(s, TakeUp(w));
    RefusedKeepsShared(s.c, w);
    forall p | p in t.procs ensures ProcOk(t.c, p, t.procs[p]) {
      RefusedKeepsProc(s.c, w, p, s.procs[p]);
    }
  }

  ghost predicate Lands(c: Shared, w: Write) {
    HistOk(c) && FlightOk(c) && w in c.inflight && w.base == |c.hist|
  }

  lemma LandKeepsHist(c: Shared, w: Write)
    requires Lands(c, w)
    ensures HistOk(TakenUp(c, w))
  {
    var d := TakenUp(c, w);
    assert WriteOk(c.hist, c.now, w);
    forall i: nat | i < |d.hist| ensures LandedOk(d.hist, d.now, i) {
      assert i < |c.hist| ==> LandedOk(c.hist, c.now, i);
    }
    forall i: nat, j: nat | i < j < |d.hist| ensures InOrder(d.hist, i, j) {
      if j < |c.hist| {
        assert InOrder(c.hist, i, j);
      } else {
        assert LandedOk(c.hist, c.now, i);
      }
    }
    forall i: nat | 0 < i < |d.hist| && ChangesHolder(d.hist, i)
      ensures d.hist[i].at >= d.hist[i - 1].at + LEASE_DURATION
    {
      assert i < |c.hist| ==> ChangesHolder(c.hist, i);
    }
  }

  lemma LandKeepsFlight(c: Shared, w: Write)
    requires Lands(c, w)
    ensures FlightOk(TakenUp(c, w))
  {
    var d := TakenUp(c, w);
    forall v | v in d.inflight ensures WriteOk(d.hist, d.now, v) && v.stamp != w.stamp {
      assert WriteOk(c.hist, c.now, v) && Apart(v, w);
    }
  }

  /** What a timer watched stays watched, and the landing write is on no timer yet. */
  lemma LandKeepsTimer(c: Shared, w: Write, last: Option<Observation>)
    requires Lands(c, w) && TimerOk(c.hist, c.now, last)
    ensures var d := TakenUp(c, w);
      && TimerOk(d.hist, d.now, last)
      && forall k: nat :: k < |d.hist| && Watches(d.hist, last, k) ==> k < |c.hist| && Watches(c.hist, last, k)
  {
    var d := TakenUp(c, w);
    if last.Some? {
      var k := Watched(c, last);
      assert d.hist[k] == c.hist[k];
    }
  }

  lemma LandKeepsPlace(c: Shared, w: Write, p: Identity, q: Proc)
    requires Lands(c, w) && TimerOk(c.hist, c.now, q.last) && PlaceOk(c, p, q)
    ensures PlaceOk(TakenUp(c, w), p, q)
  {
    LandKeepsTimer(c, w, q.last);
  }

  lemma LandKeepsProc(c: Shared, w: Write, p: Identity, q: Proc)
    requires Lands(c, w) && ProcOk(c, p, q)
    ensures ProcOk(TakenUp(c, w), p, q)
  {
    if q.standing.phase != Stopped {
      LandKeepsTimer(c, w, q.last);
      LandKeepsPlace(c, w, p, q);
      LandKeepsTenure(c, w, p, q);
    }
  }

  lemma LandKeepsNoReturn(h: History, p: Identity, n: nat, l: Landing)
    requires n < |h| && NoReturn(h, p, n) && (l.write.author == p ==> h[|h| - 1].write.author == p)
    ensures NoReturn(h + [l], p, n)
  {
    assert forall j :: n <= j < |h| - 1 && h[j].write.author != p ==> h[|h| - 1].write.author != p;
  }

  lemma LandKeepsTenure(c: Shared, w: Write, p: Identity, q: Proc)
    requires Lands(c, w) && TimerOk(c.hist, c.now, q.last) && TenureOk(c, p, q)
    ensures TenureOk(TakenUp(c, w), p, q)
  {
    if q.standing.phase == Leading {
      LandKeepsTimer(c, w, q.last);
      assert WriteOk(c.hist, c.now, w);
      assert w.author == p ==> w.decision == Renew && c.hist[|c.hist| - 1].write.author == p;
      LandKeepsNoReturn(c.hist, p, q.lastAck, Landing(w, c.now));
    }
  }

  lemma LandKeeps(s: State, w: Write)
    requires Inv(s) && Enabled(s, TakeUp(w)) && w.base == |s.c.hist|
    ensures Inv(Next(s, TakeUp(w)))
  {
    var t := Next(s, TakeUp(w));
    LandKeepsHist(s.c, w);
    LandKeepsFlight(s.c, w);
    forall p | p in t.procs ensures ProcOk(t.c, p, t.procs[p]) {
      LandKeepsProc(s.c, w, p, s.procs[p]);
    }
  }

  lemma AcknowledgeTenure(c: Shared, p: Identity, q: Proc, i: nat)
    requires HistOk(c) && ProcOk(c, p, q) && q.standing.phase != Stopped && q.place.Writing?
    requires i < |c.hist| && c.hist[i].write == q.place.write
    ensures TenureOk(c, p, Acknowledged(q, i, c.now))
  {
    assert LandedOk(c.hist, c.now, i);
    if q.standing.phase == Leading {
      forall j | q.lastAck <= j < i ensures c.hist[j].write.author == p {
        if c.hist[j].write.author != p {
          assert false;
        }
      }
    }
  }

  lemma AcknowledgeKeeps(s: State, p: Identity, i: nat)
    requires Inv(s) && Enabled(s, Acknowledge(p, i))
    ensures Inv(Next(s, Acknowledge(p, i)))
  {
    AcknowledgeTenure(s.c, p, s.procs[p], i);
    SleepKeeps(s, p, Acknowledged(s.procs[p], i, s.c.now));
  }

  /** A refused or failed attempt changes nothing but the replica's own standing. */
  lemma EndKeeps(s: State, p: Identity, q: Proc, outcome: Result<Decision, StepError>)
    requires Inv(s) && Live(s, p) && outcome != Ok(Renew) && outcome != Ok(Acquire)
    requires q == s.procs[p].(cleanSince := q.cleanSince)
    ensures Inv(SetProc(s, p, Finish(q, outcome, s.c.now)))
  {
    assert ProcOk(s.c, p, s.procs[p]);
    EndTenure(s.c, p, s.procs[p], q, outcome);
    SleepKeeps(s, p, Finish(q, outcome, s.c.now));
  }

  lemma EndTenure(c: Shared, p: Identity, q: Proc, q': Proc, outcome: Result<Decision, StepError>)
    requires TenureOk(c, p, q) && outcome != Ok(Renew)
    requires outcome != Ok(Acquire) && q' == q.(cleanSince := q'.cleanSince)
    ensures TenureOk(c, p, Finish(q', outcome, c.now))
  {
  }

  lemma WakeKeeps(s: State, p: Identity, stamp: Stamp)
    requires Inv(s) && Enabled(s, Wake(p, stamp))
    ensures Inv(Next(s, Wake(p, stamp)))
  {
    var q := s.procs[p];
    assert ProcOk(s.c, p, q);
    BeginKeeps(s, p, q, stamp);
  }

  lemma NextKeeps(s: State, a: Action)
    requires Inv(s) && Enabled(s, a)
    ensures Inv(Next(s, a))
  {
    match a
    case Pass(d) => PassKeeps(s, d);
    case Start(p, stamp) =>
      BeginKeeps(s, p, Proc(Standing(Campaigning, 0.0), Sleeping(s.c.now), None, s.c.now, 0, 0), stamp);
    case Wake(p, stamp) => WakeKeeps(s, p, stamp);
    case Serve(p) => ServeKeeps(s, p);
    case Receive(p) => ReceiveKeeps(s, p);
    case TakeUp(w) => if w.base == |s.c.hist| { LandKeeps(s, w); } else { RefusedKeeps(s, w); }
    case Acknowledge(p, i) => AcknowledgeKeeps(s, p, i);
    case Conflict(p) => EndKeeps(s, p, s.procs[p], Ok(Wait));
    case Fail(p) => EndKeeps(s, p, s.procs[p].(cleanSince := s.c.now), Err(CallFailed));
    case Crash(p) => SleepKeeps(s, p, Next(s, a).procs[p]);
  }

  lemma {:induction false} RunKeeps(states: seq<State>, actions: seq<Action>, i: nat)
    requires Run(states, actions) && i < |states|
    ensures Inv(states[i])
  {
    if i > 0 {
      RunKeeps(states, actions, i - 1);
      assert StepAt(states, actions, i - 1);
      NextKeeps(states[i - 1], actions[i - 1]);
    }
  }

  // ----- What follows for every run -----

  /** Every landed write that takes the lease from a peer lands at least LEASE_DURATION
      after that peer's last landed write. */
  lemma TakeoverSpacing(states: seq<State>, actions: seq<Action>, i: nat, k: nat)
    requires Run(states, actions) && i < |states| && 0 < k < |states[i].c.hist|
    requires ChangesHolder(states[i].c.hist, k)
    ensures states[i].c.hist[k].at >= states[i].c.hist[k - 1].at + LEASE_DURATION
  {
    RunKeeps(states, actions, i);
  }

  lemma {:induction false} OneMoreChange(h: History, n: nat)
    requires n < |h|
    ensures HolderChanges(h[..n + 1]) == HolderChanges(h[..n]) + (if ChangesHolder(h, n) then {n} else {})
    ensures |HolderChanges(h[..n + 1])| == |HolderChanges(h[..n])| + (if ChangesHolder(h, n) then 1 else 0)
  {
    forall i: nat | i < n ensures ChangesHolder(h[..n + 1], i) <==> ChangesHolder(h[..n], i) {
    }
    assert ChangesHolder(h[..n + 1], n) <==> ChangesHolder(h, n);
  }

  lemma TenureBegins(h: History)
    requires h != [] && ChangesHolder(h, |h| - 1)
    ensures StartsTenure(h, |h| - 1)
  {
  }

  lemma TenureGoesOn(h: History, n: nat, i: nat)
    requires n < |h| && !ChangesHolder(h, n) && StartsTenure(h[..n], i)
    ensures StartsTenure(h[..n + 1], i)
  {
    var after := h[..n + 1];
    assert ChangesHolder(after, i) <==> ChangesHolder(h[..n], i);
    forall j | i <= j < |after| ensures Writer(after, j) == Writer(after, i) {
      assert Writer(h[..n], i) == Writer(h[..n], n - 1);
      assert j < n ==> Writer(h[..n], j) == Writer(h[..n], i);
    }
  }

  /** One more landed write: the spec it stored tells one more line of the history. */
  lemma WriteTells(h: History, n: nat)
    requires n < |h| && (n > 0 ==> SpecTells(h[n - 1].write.spec, h[..n]))
    requires h[n].write.spec
          == RenewedSpec(PriorSpec(h, n), Writer(h, n), h[n].write.stamp, ChangesHolder(h, n))
    ensures SpecTells(h[n].write.spec, h[..n + 1])
  {
    var after, before := h[..n + 1], h[..n];
    OneMoreChange(h, n);
    if n == 0 {
      assert HolderChanges(before) == {};
    }
    if ChangesHolder(h, n) {
      assert ChangesHolder(after, n);
      TenureBegins(after);
    } else {
      var i: nat :| StartsTenure(before, i) && h[n - 1].write.spec.acquireTime == Some(before[i].write.stamp);
      TenureGoesOn(h, n, i);
    }
  }

  lemma {:induction false} VersionTells(c: Shared, v: nat)
    requires HistOk(c) && 0 < v <= |c.hist|
    ensures SpecTells(c.hist[v - 1].write.spec, c.hist[..v])
  {
    if v > 1 {
      VersionTells(c, v - 1);
    }
    assert LandedOk(c.hist, c.now, v - 1);
    WriteTells(c.hist, v - 1);
  }

  lemma SharedTells(c: Shared)
    requires HistOk(c)
    ensures Tells(c.lease, c.hist)
  {
    if c.hist != [] {
      VersionTells(c, |c.hist|);
      assert c.hist[..|c.hist|] == c.hist;
    }
  }

  /** The stored lease always tells the history: holder, renewal stamp, number of holder
      changes, and the stamp of the first write of the current tenure. */
  lemma Bookkeeping(states: seq<State>, actions: seq<Action>, i: nat)
    requires Run(states, actions) && i < |states|
    ensures Tells(states[i].c.lease, states[i].c.hist)
  {
    RunKeeps(states, actions, i);
    SharedTells(states[i].c);
  }

  /** Reading a peer's lease ends the tenure of a leading replica; reading its own makes
      it renew. The branch that re-takes a lapsed lease is never reached. */
  lemma LeaderNeverAcquires(states: seq<State>, actions: seq<Action>, i: nat, p: Identity)
    requires Run(states, actions) && i < |actions| && actions[i] == Receive(p) && StepAt(states, actions, i)
    requires states[i].procs[p].standing.phase == Leading
    ensures var found := states[i].procs[p].place.found; var after := states[i + 1].procs[p];
      && found.Some? && found.value.spec.Some?
      && (found.value.spec.value.holder == Some(p) ==> after.place.Writing? && after.place.write.decision == Renew)
      && (found.value.spec.value.holder != Some(p) ==> after.standing.phase == Stopped)
  {
    RunKeeps(states, actions, i);
    assert StepAt(states, actions, i);
    var c, q := states[i].c, states[i].procs[p];
    assert ProcOk(c, p, q);
    LeaderJudgement(c, p, q);
    SpecAt(c, VersionOf(q.place.found));
  }

  /** Whatever was acknowledged, a takeover or a renewal of its own lease, the replica leads
      from now on. */
  lemma AcknowledgedLeads(states: seq<State>, actions: seq<Action>, i: nat, p: Identity, n: nat)
    requires Run(states, actions) && i < |actions| && actions[i] == Acknowledge(p, n)
    ensures p in states[i + 1].procs && states[i + 1].procs[p].standing == Standing(Leading, states[i].c.now)
  {
    RunKeeps(states, actions, i);
    assert StepAt(states, actions, i);
    assert ProcOk(states[i].c, p, states[i].procs[p]);
  }

  predicate HeldByPeer(found: Option<LeaseObject>, p: Identity) {
    found.Some? && found.value.spec.Some? && found.value.spec.value.holder != Some(p)
  }

  /** What makes a leading replica stop: reading a peer's lease, the news that a peer wrote
      first, a failed attempt a full lease after the last acknowledged one, or a crash. */
  predicate EndsTenure(s: State, p: Identity, a: Action)
    requires p in s.procs && Enabled(s, a)
  {
    var q := s.procs[p];
    || a == Conflict(p) || a == Crash(p)
    || (a == Receive(p) && HeldByPeer(q.place.found, p))
    || (a == Fail(p) && s.c.now - q.standing.lastRenewed >= LEASE_DURATION)
  }

  lemma LeaderHears(c: Shared, p: Identity, q: Proc)
    requires HistOk(c) && ProcOk(c, p, q) && q.standing.phase == Leading && q.place.Replied?
    ensures Heard(p, q, c.now).standing ==
      if HeldByPeer(q.place.found, p) then Standing(Stopped, q.standing.lastRenewed) else q.standing
  {
    LeaderJudgement(c, p, q);
    SpecAt(c, VersionOf(q.place.found));
  }

  /** It stops exactly then, and its last renewal is the time of its last acknowledgement. */
  lemma TenureEndsExactly(states: seq<State>, actions: seq<Action>, i: nat, p: Identity)
    requires Run(states, actions) && i < |actions| && StepAt(states, actions, i)
    requires p in states[i].procs && states[i].procs[p].standing.phase == Leading
    ensures p in states[i + 1].procs
    ensures states[i + 1].procs[p].standing ==
      if EndsTenure(states[i], p, actions[i]) then Standing(Stopped, states[i].procs[p].standing.lastRenewed)
      else if actions[i].Acknowledge? && actions[i].p == p then Standing(Leading, states[i].c.now)
      else states[i].procs[p].standing
  {
    var s, a := states[i], actions[i];
    if a == Receive(p) {
      RunKeeps(states, actions, i);
      LeaderHears(s.c, p, s.procs[p]);
    } else if a.Acknowledge? && a.p == p {
      AcknowledgedLeads(states, actions, i, p, a.i);
    }
  }

  /** A campaigning replica goes on campaigning until a write of its own is acknowledged,
      unless it crashes; and it sends one exactly if the lease it has read is free. */
  lemma CampaignEndsExactly(states: seq<State>, actions: seq<Action>, i: nat, p: Identity)
    requires Run(states, actions) && i < |actions| && StepAt(states, actions, i)
    requires p in states[i].procs && states[i].procs[p].standing.phase == Campaigning
    ensures p in states[i + 1].procs
    ensures var q, t := states[i].procs[p], states[i + 1].procs[p];
      && t.standing ==
         (if actions[i].Acknowledge? && actions[i].p == p then Standing(Leading, states[i].c.now)
          else if actions[i] == Crash(p) then Standing(Stopped, q.standing.lastRenewed)
          else q.standing)
      && (actions[i] == Receive(p) ==>
            if Free(p, q.last, q.place.found, states[i].c.now) then
              t.place.Writing? && t.place.write in states[i + 1].c.inflight
            else t.place == Sleeping(states[i].c.now))
  {
    if actions[i].Acknowledge? && actions[i].p == p {
      AcknowledgedLeads(states, actions, i, p, actions[i].i);
    }
  }

  ghost predicate LiveThrough(states: seq<State>, p: Identity, a: nat, b: nat)
    requires b < |states|
  {
    forall k :: a <= k <= b ==> Live(states[k], p)
  }

  lemma {:induction false} SinceGrows(states: seq<State>, actions: seq<Action>, p: Identity, a: nat, b: nat)
    requires Run(states, actions) && a <= b < |states| && LiveThrough(states, p, a, b)
    ensures states[a].procs[p].place.since <= states[b].procs[p].place.since
  {
    if a < b {
      SinceGrows(states, actions, p, a, b - 1);
      RunKeeps(states, actions, b - 1);
      assert StepAt(states, actions, b - 1);
      assert ProcOk(states[b - 1].c, p, states[b - 1].procs[p]);
    }
  }

  /** Between the beginnings of two attempts of one process lies a retry period at least, so
      no process asks the API server more often than that. */
  lemma AttemptsApart(states: seq<State>, actions: seq<Action>, p: Identity, a: nat, b: nat)
    requires Run(states, actions) && a < b < |actions| && LiveThrough(states, p, a + 1, b)
    requires (actions[a].Start? || actions[a].Wake?) && actions[a].p == p && actions[b].Wake? && actions[b].p == p
    ensures states[b].c.now >= states[a].c.now + RETRY_PERIOD
  {
    assert StepAt(states, actions, a) && StepAt(states, actions, b);
    SinceGrows(states, actions, p, a + 1, b);
  }

  lemma LeaderFacts(states: seq<State>, actions: seq<Action>, i: nat, p: Identity)
    requires Run(states, actions) && i < |states| && p in states[i].procs
    requires states[i].procs[p].standing.phase == Leading
    ensures var q, h := states[i].procs[p], states[i].c.hist;
      && q.firstAck <= q.lastAck < |h|
      && forall j: nat :: q.firstAck <= j <= q.lastAck ==> Writer(h, j) == p
    ensures i < |actions| && actions[i].Acknowledge? && actions[i].p == p ==>
      actions[i].i > states[i].procs[p].lastAck
  {
    RunKeeps(states, actions, i);
    assert ProcOk(states[i].c, p, states[i].procs[p]);
    if i < |actions| && actions[i].Acknowledge? && actions[i].p == p {
      assert StepAt(states, actions, i);
      assert LandedOk(states[i].c.hist, states[i].c.now, actions[i].i);
    }
  }

  ghost predicate LeadsThrough(states: seq<State>, p: Identity, a: nat, b: nat)
    requires b < |states|
  {
    forall k :: a <= k <= b ==> p in states[k].procs && states[k].procs[p].standing.phase == Leading
  }

  lemma {:induction false} SameTenure(states: seq<State>, actions: seq<Action>, p: Identity, a: nat, b: nat)
    requires Run(states, actions) && a <= b < |states| && LeadsThrough(states, p, a, b)
    ensures states[a].procs[p].firstAck == states[b].procs[p].firstAck
    ensures states[a].procs[p].lastAck <= states[b].procs[p].lastAck
  {
    if a < b {
      SameTenure(states, actions, p, a, b - 1);
      assert StepAt(states, actions, b - 1);
      LeaderFacts(states, actions, b - 1, p);
    }
  }

  /** Between two acknowledged writes of one leading process no peer write lands. */
  lemma ContiguousTenure(
      states: seq<State>, actions: seq<Action>, p: Identity, a: nat, i: nat, b: nat, j: nat)
    requires Run(states, actions) && a < b < |actions| && LeadsThrough(states, p, a + 1, b + 1)
    requires actions[a] == Acknowledge(p, i) && actions[b] == Acknowledge(p, j)
    ensures var h := states[b + 1].c.hist;
      i < j < |h| && forall k: nat :: i <= k <= j ==> Writer(h, k) == p
  {
    assert StepAt(states, actions, a) && StepAt(states, actions, b);
    SameTenure(states, actions, p, a + 1, b);
    SameTenure(states, actions, p, a + 1, b + 1);
    LeaderFacts(states, actions, a + 1, p);
    LeaderFacts(states, actions, b, p);
    LeaderFacts(states, actions, b + 1, p);
  }
}
