/** Converging a workspace's members on a gateway whose add is create-only. */
module Members {
  import opened Wrappers

  datatype Role = User | Admin

  datatype Member = Member(subject: string, role: Role)

  datatype MemberError = CallFailed | NoSuchMember | MemberExists

  datatype Call = Remove(subject: string) | Add(subject: string, role: Role)

  /** The declared members by subject; of several entries for one subject the last counts. */
  function Declared(desired: seq<Member>): map<string, Role>
    decreases |desired|
  {
    if desired == [] then map[]
    else
      var last := desired[|desired| - 1];
      Declared(desired[..|desired| - 1])[last.subject := last.role]
  }

  predicate IsAt(members: map<string, Role>, subject: string, role: Role) {
    subject in members && members[subject] == role
  }

  function Removes(desired: map<string, Role>, current: map<string, Role>): set<string> {
    set s <- current | !IsAt(desired, s, current[s])
  }

  function Adds(desired: map<string, Role>, current: map<string, Role>): map<string, Role> {
    map s <- desired | !IsAt(current, s, desired[s]) :: desired[s]
  }

  /** Every member is one there was or one declared, and those at their role are untouched. */
  predicate Between(before: map<string, Role>, now: map<string, Role>, desired: map<string, Role>) {
    && (forall s <- now :: IsAt(before, s, now[s]) || IsAt(desired, s, now[s]))
    && (forall s <- before :: IsAt(desired, s, before[s]) ==> IsAt(now, s, before[s]))
  }

  /** A call the difference asks for. */
  predicate Needed(call: Call, desired: map<string, Role>, before: map<string, Role>) {
    match call
    case Remove(s) => s in before && !IsAt(desired, s, before[s])
    case Add(s, role) => IsAt(desired, s, role) && !IsAt(before, s, role)
  }

  class Workspace {
    var members: map<string, Role>
    var calls: seq<Call>
    var faults: seq<Fate>
    /** How many calls have failed or gone unanswered. */
    ghost var failures: nat

    constructor (members: map<string, Role>, faults: seq<Fate>)
      ensures this.members == members && this.faults == faults && calls == []
    {
      this.members, this.faults, calls := members, faults, [];
    }

    method NextFate() returns (fate: Fate)
      modifies this`faults, this`failures
      ensures AllFine(old(faults)) ==> AllFine(faults) && fate == Fine
      ensures failures == old(failures) + if fate == Fine then 0 else 1
    {
      if faults == [] {
        return Fine;
      }
      fate, faults := faults[0], faults[1..];
      failures := failures + if fate == Fine then 0 else 1;
    }

    method RemoveMember(subject: string) returns (r: Result<(), MemberError>)
      modifies this`members, this`calls, this`faults, this`failures
      ensures calls == old(calls) + [Remove(subject)]
      ensures members == old(members) || (subject in old(members) && members == old(members) - {subject})
      ensures r.Ok? ==> subject in old(members) && members == old(members) - {subject}
      ensures subject !in old(members) ==> r.Err?
      ensures r.Err? ==> r.error == if subject in old(members) then CallFailed else NoSuchMember
      ensures AllFine(old(faults)) ==> AllFine(faults) && (r.Ok? <==> subject in old(members))
      ensures r.Ok? ==> failures == old(failures)
    {
      calls := calls + [Remove(subject)];
      var fate := NextFate();
      if subject !in members {
        return Err(NoSuchMember);
      }
      if fate != Failed {
        members := members - {subject};
      }
      r := if fate == Fine then Ok(()) else Err(CallFailed);
    }

    method AddMember(subject: string, role: Role) returns (r: Result<(), MemberError>)
      modifies this`members, this`calls, this`faults, this`failures
      ensures calls == old(calls) + [Add(subject, role)]
      ensures members == old(members) || (subject !in old(members) && members == old(members)[subject := role])
      ensures r.Ok? ==> subject !in old(members) && members == old(members)[subject := role]
      ensures subject in old(members) ==> r.Err?
      ensures r.Err? ==> r.error == if subject in old(members) then MemberExists else CallFailed
      ensures AllFine(old(faults)) ==> AllFine(faults) && (r.Ok? <==> subject !in old(members))
      ensures r.Ok? ==> failures == old(failures)
    {
      calls := calls + [Add(subject, role)];
      var fate := NextFate();
      if subject in members {
        return Err(MemberExists);
      }
      if fate != Failed {
        members := members[subject := role];
      }
      r := if fate == Fine then Ok(()) else Err(CallFailed);
    }

    /** Wherever it stops, every call made was needed and none met a member it did not
        expect; run to its end it leaves exactly the declared members. */
    method ConvergeMembers(desired: seq<Member>) returns (r: Result<(), MemberError>)
      modifies this`members, this`calls, this`faults, this`failures
      ensures r.Ok? ==> members == Declared(desired)
      ensures r.Err? ==> r.error == CallFailed
      ensures Between(old(members), members, Declared(desired))
      ensures forall c <- calls :: Needed(c, Declared(desired), old(members))
      ensures old(members) == Declared(desired) ==> calls == [] && members == old(members)
      ensures AllFine(old(faults)) ==> AllFine(faults) && r.Ok?
      ensures r.Ok? ==> failures == old(failures)
    {
      calls := [];
      ghost var before := members;
      var fate := NextFate();
      if fate != Fine {
        return Err(CallFailed);
      }
      var declared := Declared(desired);
      var removes, adds := Removes(declared, members), Adds(declared, members);
      AddsAreAbsent(declared, members);
      NoDifference(declared, members);
      r := RemoveAll(removes);
      if r.Err? {
        return;
      }
      assert members == before - removes;
      r := AddAll(adds);
    }

    method RemoveAll(removes: set<string>) returns (r: Result<(), MemberError>)
      requires removes <= members.Keys
      modifies this`members, this`calls, this`faults, this`failures
      ensures forall s <- members :: IsAt(old(members), s, members[s])
      ensures forall s <- old(members) :: s in members || s in removes
      ensures r.Ok? ==> members.Keys !! removes
      ensures r.Err? ==> r.error == CallFailed
      ensures forall c <- calls :: c in old(calls) || (c.Remove? && c.subject in removes)
      ensures removes == {} ==> calls == old(calls) && r.Ok?
      ensures AllFine(old(faults)) ==> AllFine(faults) && r.Ok?
      ensures r.Ok? ==> failures == old(failures)
    {
      var left := removes;
      while left != {}
        invariant failures == old(failures)
        invariant left <= removes && left <= members.Keys
        invariant forall s <- members :: IsAt(old(members), s, members[s]) && (s in removes ==> s in left)
        invariant forall s <- old(members) :: s in members || s in removes
        invariant forall c <- calls :: c in old(calls) || (c.Remove? && c.subject in removes)
        invariant removes == {} ==> calls == old(calls)
        invariant AllFine(old(faults)) ==> AllFine(faults)
      {
        var subject :| subject in left;
        r := RemoveMember(subject);
        if r.Err? {
          return;
        }
        left := left - {subject};
      }
      return Ok(());
    }

    method AddAll(adds: map<string, Role>) returns (r: Result<(), MemberError>)
      requires adds.Keys !! members.Keys
      modifies this`members, this`calls, this`faults, this`failures
      ensures forall s <- members :: IsAt(old(members), s, members[s]) || IsAt(adds, s, members[s])
      ensures forall s <- old(members) :: IsAt(members, s, old(members)[s])
      ensures r.Ok? ==> members == old(members) + adds
      ensures r.Err? ==> r.error == CallFailed
      ensures forall c <- calls :: c in old(calls) || (c.Add? && IsAt(adds, c.subject, c.role))
      ensures adds == map[] ==> calls == old(calls) && r.Ok?
      ensures AllFine(old(faults)) ==> AllFine(faults) && r.Ok?
      ensures r.Ok? ==> failures == old(failures)
    {
      var left := adds.Keys;
      while left != {}
        invariant failures == old(failures)
        invariant left <= adds.Keys && left !! members.Keys
        invariant forall s <- members :: IsAt(old(members), s, members[s]) || IsAt(adds, s, members[s])
        invariant forall s <- old(members) :: IsAt(members, s, old(members)[s])
        invariant forall s <- adds :: s in left || IsAt(members, s, adds[s])
        invariant forall c <- calls :: c in old(calls) || (c.Add? && IsAt(adds, c.subject, c.role))
        invariant adds == map[] ==> calls == old(calls)
        invariant AllFine(old(faults)) ==> AllFine(faults)
      {
        var subject :| subject in left;
        r := AddMember(subject, adds[subject]);
        if r.Err? {
          return;
        }
        left := left - {subject};
      }
      return Ok(());
    }

    /** Any number of attempts that were cut short do no harm: the next that runs to its end
        leaves the declared members, and whoever had the right role all along kept it. */
    method ConvergeUntilDone(desired: seq<Member>, attempts: nat) returns (done: bool)
      modifies this`members, this`calls, this`faults, this`failures
      ensures done ==> members == Declared(desired)
      ensures Between(old(members), members, Declared(desired))
      ensures attempts > 0 && AllFine(old(faults)) ==> done
    {
      done := false;
      for i := 0 to attempts
        invariant done ==> members == Declared(desired)
        invariant Between(old(members), members, Declared(desired))
        invariant AllFine(old(faults)) ==> AllFine(faults) && (i > 0 ==> done)
      {
        var r := ConvergeMembers(desired);
        done := r.Ok?;
        if done {
          return;
        }
      }
    }
  }

  // ----- The difference -----

  /** Once the removes are done no add meets a member, and the adds complete the declared
      members exactly. */
  lemma AddsAreAbsent(desired: map<string, Role>, current: map<string, Role>)
    ensures var kept := current - Removes(desired, current);
      && kept.Keys !! Adds(desired, current).Keys
      && kept + Adds(desired, current) == desired
      && (forall s <- kept :: IsAt(desired, s, kept[s]))
  {
  }

  /** The order matters: adding first would meet a member exactly when some role changes. */
  lemma AddFirstFails(desired: map<string, Role>, current: map<string, Role>)
    ensures (exists s <- Adds(desired, current) :: s in current) <==>
      (exists s <- desired :: s in current && current[s] != desired[s])
  {
  }

  /** Nothing is called for exactly when the members are as declared. */
  lemma NoDifference(desired: map<string, Role>, current: map<string, Role>)
    ensures Removes(desired, current) == {} && Adds(desired, current) == map[] <==> current == desired
  {
    AddsAreAbsent(desired, current);
    if Removes(desired, current) == {} && Adds(desired, current) == map[] {
      assert current - {} == current;
    }
  }

  /** Entry `i` names the subject, and no later one does. */
  predicate IsLast(desired: seq<Member>, i: nat, s: string, role: Role) {
    i < |desired| && desired[i] == Member(s, role) && forall j :: i < j < |desired| ==> desired[j].subject != s
  }

  /** The role a list declares for a subject is the one of its last entry. */
  lemma {:induction false} LastEntryCounts(desired: seq<Member>, s: string, role: Role)
    ensures IsAt(Declared(desired), s, role) <==> exists i: nat :: IsLast(desired, i, s, role)
    decreases |desired|
  {
    if desired != [] {
      var n := |desired| - 1;
      var front := desired[..n];
      LastEntryCounts(front, s, role);
      if desired[n] == Member(s, role) {
        assert IsLast(desired, n, s, role);
      } else if desired[n].subject != s && IsAt(Declared(front), s, role) {
        var i: nat :| IsLast(front, i, s, role);
        assert IsLast(desired, i, s, role);
      }
      if i: nat :| IsLast(desired, i, s, role) {
        assert i < n ==> IsLast(front, i, s, role);
      }
    }
  }
}
