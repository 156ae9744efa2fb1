/** What a single reconcile can come to when nothing else is under way, as runs of the
    interleaved protocol. */
module SandboxCourse {
  import opened Wrappers
  import opened SandboxDrift

  predicate Idle(s: State) {
    s.runs == map[] && s.inflight == {}
  }

  /** What one reconcile with nothing else under way can make of the gateway, and whether it
      goes through: it fails and changes nothing, except that the sandbox may be gone; it
      builds anew; it finds nothing to change; or it pushes the policy. */
  predicate Course(g: Option<Sandbox>, st: Status, t: Target, g': Option<Sandbox>, ok: bool) {
    || (!ok && (g' == g || g' == None))
    || g' == Some(Sandbox(t.built, t.policy))
    || ConvergesInPlace(g, st, t, g', ok)
  }

  predicate ConvergesInPlace(g: Option<Sandbox>, st: Status, t: Target, g': Option<Sandbox>, ok: bool) {
    && g.Some? && !Drifted(st.built, t.built)
    && if Pushes(st, t) then g' == Some(g.value.(policy := t.policy)) else ok && g' == g
  }

  lemma Go(s: State, q: State, a: Action) returns (r: State)
    requires Leads(s, q) && Enabled(q, a) && !IsEdit(a)
    ensures r == Next(q, a) && Leads(s, r)
  {
    r := Next(q, a);
    LeadsOn(s, q, a);
  }

  /** A reconcile begins, and looks. */
  lemma BeginsAndLooks(s: State, q: State) returns (r: State)
    requires Leads(s, q)
    ensures Leads(s, r)
    ensures r == q.(
      runs := q.runs[
        q.nextId := Reconcile(q.spec, q.status, Deciding(q.gateway.Some?), With(q.spec.core, NO_DOC), false)],
      nextId := q.nextId + 1)
  {
    r := Go(s, q, Begin);
    r := Go(s, r, Look(q.nextId));
  }

  /** Its create lands, and it hears of that. */
  lemma CreatesAndAnswers(s: State, q: State, id: Id) returns (r: State)
    requires Leads(s, q) && At(q, id, Creating) && q.gateway.None? && Create(id, q.runs[id].target) in q.inflight
    ensures Leads(s, r) && r.spec == q.spec && r.docs == q.docs && r.status == q.status
    ensures var t := q.runs[id].target;
      r.gateway == Some(Sandbox(t.built, t.policy))
      && r.inflight == q.inflight - {Create(id, t)} + {Record(id, Wanted(t))}
    ensures forall other <- q.runs :: other != id ==> other in r.runs && r.runs[other] == q.runs[other]
  {
    r := Go(s, q, TakeUp(Create(id, q.runs[id].target), true));
    r := Go(s, r, Created(id));
  }

  /** The reconcile records what it comes to, and ends. */
  lemma RecordsAndEnds(s: State, q: State, id: Id, st: Status, lands: bool) returns (r: State)
    requires Leads(s, q) && q.runs.Keys == {id} && q.inflight == {Record(id, st)}
    ensures Leads(s, r) && Idle(r) && r.spec == q.spec && r.docs == q.docs && r.gateway == q.gateway
    ensures r.status == if lands then Merged(q.status, st) else q.status
  {
    r := Go(s, q, if lands then TakeUp(Record(id, st), true) else Lose(Record(id, st)));
    r := Go(s, r, Finish(id));
    assert r.runs.Keys == {};
  }

  /** Goes through, or gives up, from where its last call has taken effect. */
  lemma ComesToEnd(s: State, q: State, id: Id, ok: bool) returns (r: State)
    requires Leads(s, q) && q.runs.Keys == {id} && q.inflight == {}
    requires (At(q, id, Creating) && Create(id, q.runs[id].target) in q.done)
      || (At(q, id, Updating) && Update(id, q.runs[id].target.policy) in q.done)
      || (At(q, id, Settling) && !Pushes(q.runs[id].prior, q.runs[id].target))
    ensures Leads(s, r) && r.runs.Keys == {id} && r.spec == q.spec && r.docs == q.docs
    ensures r.gateway == q.gateway && r.status == q.status
    ensures r.inflight == {Record(id, if ok then Wanted(q.runs[id].target) else q.runs[id].prior)}
  {
    if !ok {
      r := Go(s, q, GiveUp(id));
    } else {
      match q.runs[id].place {
        case Creating => r := Go(s, q, Created(id));
        case Updating => r := Go(s, q, Updated(id));
        case _ => r := Go(s, q, Settled(id));
      }
    }
  }

  lemma FailureIsRun(s: State, gone: bool, lands: bool) returns (r: State)
    requires Idle(s)
    ensures Leads(s, r) && Idle(r) && r.spec == s.spec && r.docs == s.docs && r.status == s.status
    ensures r.gateway == if gone then None else s.gateway
  {
    var id := s.nextId;
    LeadsNowhere(s);
    r := s;
    if gone {
      r := Go(s, r, Vanish);
    }
    r := Go(s, r, Begin);
    r := Go(s, r, GiveUp(id));
    r := RecordsAndEnds(s, r, id, s.status, lands);
  }

  lemma RemovesAndPolls(s: State, q: State, id: Id) returns (r: State)
    requires Leads(s, q) && At(q, id, Removing) && Remove(id) in q.inflight
    ensures Leads(s, r) && r.spec == q.spec && r.docs == q.docs && r.status == q.status && r.gateway == None
    ensures r.runs.Keys == q.runs.Keys && r.runs[id] == q.runs[id].(place := Creating)
    ensures r.inflight == q.inflight - {Remove(id)} + {Create(id, q.runs[id].target)}
  {
    r := Go(s, q, TakeUp(Remove(id), true));
    r := Go(s, r, Removed(id));
    r := Go(s, r, Vanish);
    r := Go(s, r, Poll(id));
  }

  /** A sandbox that differs is removed, polled away and created anew. */
  lemma RebuildIsRun(s: State, ok: bool, lands: bool) returns (r: State)
    requires Idle(s) && Aimed(s) && s.gateway.Some? && Drifted(s.status.built, Goal(s).built)
    ensures Leads(s, r) && Idle(r) && r.spec == s.spec && r.docs == s.docs
    ensures r.gateway == Some(Sandbox(Goal(s).built, Goal(s).policy))
    ensures r.status == if lands && ok then Wanted(Goal(s)) else s.status
  {
    var id, t := s.nextId, Goal(s);
    LeadsNowhere(s);
    r := BeginsAndLooks(s, s);
    r := Go(s, r, Resolve(id, true));
    r := RemovesAndPolls(s, r, id);
    r := Go(s, r, TakeUp(Create(id, t), true));
    r := ComesToEnd(s, r, id, ok);
    r := RecordsAndEnds(s, r, id, if ok then Wanted(t) else s.status, lands);
  }

  /** Without a sandbox, or if one that had been asked to go is gone by now, one is created. */
  lemma BuildIsRun(s: State, ok: bool, lands: bool) returns (r: State)
    requires Idle(s) && Aimed(s)
    ensures Leads(s, r) && Idle(r) && r.spec == s.spec && r.docs == s.docs
    ensures r.gateway == Some(Sandbox(Goal(s).built, Goal(s).policy))
    ensures r.status == if lands && ok then Wanted(Goal(s)) else s.status
  {
    var id, t := s.nextId, Goal(s);
    LeadsNowhere(s);
    r := if s.gateway.Some? then Next(s, Vanish) else s;
    if s.gateway.Some? {
      LeadsOn(s, s, Vanish);
    }
    r := BeginsAndLooks(s, r);
    r := Go(s, r, Resolve(id, true));
    r := Go(s, r, TakeUp(Create(id, t), true));
    r := ComesToEnd(s, r, id, ok);
    r := RecordsAndEnds(s, r, id, if ok then Wanted(t) else s.status, lands);
  }

  lemma InPlaceIsRun(s: State, g': Option<Sandbox>, ok: bool, lands: bool) returns (r: State)
    requires Idle(s) && Aimed(s) && ConvergesInPlace(s.gateway, s.status, Goal(s), g', ok)
    ensures Leads(s, r) && Idle(r) && r.spec == s.spec && r.docs == s.docs && r.gateway == g'
    ensures r.status == if lands && ok then Wanted(Goal(s)) else s.status
  {
    var id, t := s.nextId, Goal(s);
    LeadsNowhere(s);
    r := BeginsAndLooks(s, s);
    r := Go(s, r, Resolve(id, true));
    if Pushes(s.status, t) {
      r := Go(s, r, Settled(id));
      r := Go(s, r, TakeUp(Update(id, t.policy), true));
    }
    r := ComesToEnd(s, r, id, ok);
    r := RecordsAndEnds(s, r, id, if ok then Wanted(t) else s.status, lands);
  }

  /** Every such course is a run of the protocol, from idle to idle. */
  lemma CourseIsRun(s: State, g': Option<Sandbox>, ok: bool, lands: bool) returns (r: State)
    requires Idle(s) && Aimed(s) && Course(s.gateway, s.status, Goal(s), g', ok)
    ensures Leads(s, r) && Idle(r) && r.spec == s.spec && r.docs == s.docs && r.gateway == g'
    ensures r.status == if lands && ok then Wanted(Goal(s)) else s.status
  {
    if !ok && (g' == s.gateway || g' == None) {
      r := FailureIsRun(s, g' == None, lands);
    } else if g' == Some(Sandbox(Goal(s).built, Goal(s).policy)) {
      if s.gateway.Some? && Drifted(s.status.built, Goal(s).built) {
        r := RebuildIsRun(s, ok, lands);
      } else {
        r := BuildIsRun(s, ok, lands);
      }
    } else {
      r := InPlaceIsRun(s, g', ok, lands);
    }
  }
}
