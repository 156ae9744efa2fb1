/** All replicas together. Each runs the attempt of module Lease, broken at its calls, on
    one shared real-time clock; wall-clock stamps are arbitrary but never repeat. A write
    request stays in flight until the server takes it up, which may be after its sender
    gave up on it or died. Only electors write the lease. */
module LeaseProtocol {
  import opened Wrappers
  import opened Lease

  /** A conditional write: lands only if `base` is still the stored version. */
  datatype Write = Write(author: Identity, stamp: Stamp, base: nat, decision: Decision, spec: LeaseSpec)

  /** One landed write. Its index in the history is the version it replaced. */
  datatype Landing = Landing(write: Write, at: real)

  type History = seq<Landing>

  /** Where a replica is: between attempts, waiting for the read to be served, with the
      answer under way, or with its own write under way. */
  datatype Place =
    | Sleeping(since: real)
    | Reading(since: real, stamp: Stamp)
    | Replied(since: real, stamp: Stamp, found: Option<LeaseObject>)
    | Writing(since: real, write: Write)

  /** `cleanSince`, `firstAck` and `lastAck` are bookkeeping of the proof: the last start
      or failed attempt, and the versions replaced by the first and the latest write
      acknowledged in the current tenure. */
  datatype Proc = Proc(
    standing: Standing,
    place: Place,
    last: Option<Observation>,
    cleanSince: real,
    firstAck: nat,
    lastAck: nat)

  /** What the replicas share: the clock, the server and its history, the requests under
      way or refused, and the stamps taken so far. */
  datatype Shared = Shared(
    now: real,
    lease: Option<LeaseObject>,
    hist: History,
    inflight: set<Write>,
    refused: set<Write>,
    used: set<Stamp>)

  datatype State = State(c: Shared, procs: map<Identity, Proc>)

  datatype Action =
    | Pass(d: real)
    | Start(p: Identity, stamp: Stamp)
    | Wake(p: Identity, stamp: Stamp)
    | Serve(p: Identity)
    | Receive(p: Identity)
    | TakeUp(w: Write)
    | Acknowledge(p: Identity, i: nat)
    | Conflict(p: Identity)
    | Fail(p: Identity)
    | Crash(p: Identity)

  predicate Init(s: State) {
    && s.c.lease.None? && s.c.hist == [] && s.c.inflight == {} && s.c.refused == {} && s.c.used == {}
    && forall p | p in s.procs :: s.procs[p].standing.phase == Stopped
  }

  predicate Live(s: State, p: Identity) {
    p in s.procs && s.procs[p].standing.phase != Stopped
  }

  predicate Enabled(s: State, a: Action) {
    match a
    case Pass(d) => d > 0.0
    case Start(p, stamp) => p in s.procs && !Live(s, p) && stamp !in s.c.used
    case Wake(p, stamp) =>
      && Live(s, p) && s.procs[p].place.Sleeping? && stamp !in s.c.used
      && s.c.now >= s.procs[p].place.since + RETRY_PERIOD
    case Serve(p) => Live(s, p) && s.procs[p].place.Reading?
    case Receive(p) => Live(s, p) && s.procs[p].place.Replied?
    case TakeUp(w) => w in s.c.inflight
    case Acknowledge(p, i) =>
      && Live(s, p) && s.procs[p].place.Writing?
      && i < |s.c.hist| && s.c.hist[i].write == s.procs[p].place.write
    case Conflict(p) => Live(s, p) && s.procs[p].place.Writing? && s.procs[p].place.write in s.c.refused
    case Fail(p) => Live(s, p) && !s.procs[p].place.Sleeping?
    case Crash(p) => Live(s, p)
  }

  function SetProc(s: State, p: Identity, q: Proc): State {
    s.(procs := s.procs[p := q])
  }

  /** `p` begins an attempt, stamped `stamp`. */
  function Begin(s: State, p: Identity, q: Proc, stamp: Stamp): State {
    State(s.c.(used := s.c.used + {stamp}), s.procs[p := q.(place := Reading(s.c.now, stamp))])
  }

  /** The attempt is over: judge the outcome as the running loop does, then sleep. */
  function Finish(q: Proc, outcome: Result<Decision, StepError>, now: real): Proc {
    q.(standing := AfterStep(q.standing, outcome, now), place := Sleeping(now))
  }

  function WriteFor(p: Identity, q: Proc, now: real): Write
    requires q.place.Replied?
  {
    var verdict := Judge(p, q.last, q.place.found, q.place.stamp, now);
    Write(p, q.place.stamp, VersionOf(q.place.found), verdict.decision, verdict.spec)
  }

  /** The answer to the read arrived: wait, or send the write it calls for. */
  function Heard(p: Identity, q: Proc, now: real): Proc
    requires q.place.Replied?
  {
    var w := WriteFor(p, q, now);
    var q' := q.(last := Tracked(q.last, q.place.found, now));
    if w.decision == Wait then Finish(q', Ok(Wait), now) else q'.(place := Writing(q.place.since, w))
  }

  function Sent(c: Shared, w: Write): Shared {
    if w.decision == Wait then c else c.(inflight := c.inflight + {w})
  }

  /** The write that landed as number `i` is acknowledged. */
  function Acknowledged(q: Proc, i: nat, now: real): Proc
    requires q.place.Writing?
  {
    var firstAck := if q.standing.phase == Campaigning then i else q.firstAck;
    Finish(q, Ok(q.place.write.decision), now).(firstAck := firstAck, lastAck := i)
  }

  function TakenUp(c: Shared, w: Write): Shared {
    if VersionOf(c.lease) == w.base then
      c.(lease := Landed(c.lease, w.spec), hist := c.hist + [Landing(w, c.now)], inflight := c.inflight - {w})
    else
      c.(refused := c.refused + {w}, inflight := c.inflight - {w})
  }

  function Next(s: State, a: Action): State
    requires Enabled(s, a)
  {
    match a
    case Pass(d) => s.(c := s.c.(now := s.c.now + d))
    case Start(p, stamp) =>
      Begin(s, p, Proc(Standing(Campaigning, 0.0), Sleeping(s.c.now), None, s.c.now, 0, 0), stamp)
    case Wake(p, stamp) => Begin(s, p, s.procs[p], stamp)
    case Serve(p) =>
      var q := s.procs[p];
      SetProc(s, p, q.(place := Replied(q.place.since, q.place.stamp, s.c.lease)))
    case Receive(p) =>
      var q := s.procs[p];
      State(Sent(s.c, WriteFor(p, q, s.c.now)), s.procs[p := Heard(p, q, s.c.now)])
    case TakeUp(w) => s.(c := TakenUp(s.c, w))
    case Acknowledge(p, i) =>
      SetProc(s, p, Acknowledged(s.procs[p], i, s.c.now))
    case Conflict(p) => SetProc(s, p, Finish(s.procs[p], Ok(Wait), s.c.now))
    case Fail(p) => SetProc(s, p, Finish(s.procs[p].(cleanSince := s.c.now), Err(CallFailed), s.c.now))
    case Crash(p) =>
      var q := s.procs[p];
      SetProc(s, p, q.(standing := q.standing.(phase := Stopped), place := Sleeping(s.c.now)))
  }

  /** A run: states joined by actions, from an initial state. */
  predicate Run(states: seq<State>, actions: seq<Action>) {
    && |states| == |actions| + 1
    && Init(states[0])
    && forall i: nat :: i < |actions| ==> StepAt(states, actions, i)
  }

  predicate StepAt(states: seq<State>, actions: seq<Action>, i: nat)
    requires |states| == |actions| + 1 && i < |actions|
  {
    Enabled(states[i], actions[i]) && states[i + 1] == Next(states[i], actions[i])
  }

  // ----- What the history says, defined without the protocol -----

  function Writer(h: History, i: nat): Identity
    requires i < |h|
  {
    h[i].write.author
  }

  /** Landed write `i` changed the holder; the first one creates it. */
  predicate ChangesHolder(h: History, i: nat)
    requires i < |h|
  {
    i == 0 || Writer(h, i) != Writer(h, i - 1)
  }

  function HolderChanges(h: History): set<nat> {
    set i: nat | i < |h| && ChangesHolder(h, i)
  }

  /** `i` is the first write of the tenure that the last write of `h` belongs to. */
  predicate StartsTenure(h: History, i: nat) {
    && i in HolderChanges(h)
    && forall j :: i <= j < |h| ==> Writer(h, j) == Writer(h, i)
  }

  /** The stored lease tells the history: who wrote last and when, how many holder changes
      there were, and when the current tenure began. */
  ghost predicate SpecTells(spec: LeaseSpec, h: History)
    requires h != []
  {
    && spec.holder == Some(Writer(h, |h| - 1))
    && spec.renewTime == Some(h[|h| - 1].write.stamp)
    && spec.transitions == Some(|HolderChanges(h)|)
    && (exists i: nat :: StartsTenure(h, i) && spec.acquireTime == Some(h[i].write.stamp))
  }

  ghost predicate Tells(lease: Option<LeaseObject>, h: History) {
    if h == [] then lease.None?
    else lease.Some? && lease.value.version == |h| && lease.value.spec.Some? && SpecTells(lease.value.spec.value, h)
  }

  /** `k` is the last write of `p`, and a peer wrote next. */
  predicate DisplacedAt(h: History, p: Identity, k: nat) {
    && k + 1 < |h| && Writer(h, k) == p
    && forall j :: k < j < |h| ==> Writer(h, j) != p
  }

  predicate Holds(h: History, p: Identity) {
    h != [] && Writer(h, |h| - 1) == p
  }
}
