/** The teardown and the reopening as the code runs them, against a row everybody else may touch at every
    await. */
module SessionTable {
  import opened Wrappers
  import opened Verdict
  import opened SessionLifecycle

  predicate Drives(a: Action, t: nat) {
    match a
    case TearRead(u) => u == t
    case TearWrite(u, _) => u == t
    case TearReadBack(u) => u == t
    case TearRaise(u) => u == t
    case TearRecover(u, _) => u == t
    case _ => false
  }

  predicate Resumes(a: Action, r: nat) {
    match a
    case ResumeRead(q) => q == r
    case ResumeWrite(q, _) => q == r
    case _ => false
  }

  lemma {:induction false} OthersLeaveTeardown(s: State, acts: seq<Action>, t: nat)
    requires t < |s.teardowns| && forall i :: 0 <= i < |acts| ==> !Drives(acts[i], t)
    ensures t < |Exec(s, acts).teardowns| && Exec(s, acts).teardowns[t] == s.teardowns[t]
    decreases |acts|
  {
    if acts != [] {
      OthersLeaveTeardown(Apply(s, acts[0]), acts[1..], t);
    }
  }

  lemma {:induction false} OthersLeaveResume(s: State, acts: seq<Action>, r: nat)
    requires r < |s.resumes| && forall i :: 0 <= i < |acts| ==> !Resumes(acts[i], r)
    ensures r < |Exec(s, acts).resumes| && Exec(s, acts).resumes[r] == s.resumes[r]
    decreases |acts|
  {
    if acts != [] {
      assert !Resumes(acts[0], r);
      OthersLeaveResume(Apply(s, acts[0]), acts[1..], r);
    }
  }

  lemma {:induction false} ExecAppend(s: State, acts: seq<Action>, more: seq<Action>)
    ensures Exec(s, acts + more) == Exec(Exec(s, acts), more)
    decreases |acts|
  {
    if acts == [] {
      assert [] + more == more;
    } else {
      assert (acts + more)[1..] == acts[1..] + more;
      ExecAppend(Apply(s, acts[0]), acts[1..], more);
    }
  }

  lemma RunReachable(s: State, acts: seq<Action>)
    requires Reachable(s)
    ensures Reachable(Exec(s, acts)) && s.log <= Exec(s, acts).log
  {
    var s0, before :| Fresh(s0) && s == Exec(s0, before);
    ExecAppend(s0, before, acts);
    ReachableIsSound(s);
    RunKeeps(s, acts);
  }

  class Table {
    var state: State
    var others: seq<seq<Action>>

    ghost predicate Sound()
      reads this
    {
      Reachable(state)
    }

    ghost predicate ForeignTo(t: nat)
      reads this
    {
      forall b, i :: 0 <= b < |others| && 0 <= i < |others[b]| ==> !Drives(others[b][i], t)
    }

    ghost predicate ForeignToResume(r: nat)
      reads this
    {
      forall b, i :: 0 <= b < |others| && 0 <= i < |others[b]| ==> !Resumes(others[b][i], r)
    }

    /** The rest of the world moves while teardown t waits. */
    method Await(t: nat)
      requires Sound() && ForeignTo(t) && t < |state.teardowns|
      modifies this
      ensures Sound() && ForeignTo(t) && t < |state.teardowns| && state.teardowns[t] == old(state.teardowns[t])
      ensures old(state.log) <= state.log
    {
      if others != [] {
        OthersLeaveTeardown(state, others[0], t);
        RunReachable(state, others[0]);
        state, others := Exec(state, others[0]), others[1..];
      }
    }

    /** The rest of the world moves while resume r waits. */
    method AwaitResume(r: nat)
      requires Sound() && ForeignToResume(r) && r < |state.resumes|
      modifies this
      ensures Sound() && ForeignToResume(r) && r < |state.resumes| && state.resumes[r] == old(state.resumes[r])
    {
      if others != [] {
        OthersLeaveResume(state, others[0], r);
        RunReachable(state, others[0]);
        state, others := Exec(state, others[0]), others[1..];
      }
    }

    method Step(a: Action)
      requires Sound()
      modifies this`state
      ensures Sound() && state == Apply(old(state), a) && old(state.log) <= state.log
    {
      RunReachable(state, [a]);
      assert Exec(state, [a]) == Apply(state, a);
      state := Apply(state, a);
    }
  }

  /** The guarded write's answer: written, refused because the status had moved, or no row at all. */
  datatype Answer = Written | Refused | NoSuchRow

  method UpdateStatus(db: Table, t: nat, now: real) returns (answer: Answer)
    requires db.Sound() && db.ForeignTo(t) && t < |db.state.teardowns| && db.state.teardowns[t].phase.Guarding?
    requires db.state.teardowns[t].phase.pre.Some? ==> !Terminal(db.state.teardowns[t].phase.pre.value)
    modifies db
    ensures db.Sound() && db.ForeignTo(t) && t < |db.state.teardowns| && old(db.state.log) <= db.state.log
    ensures var u, u' := old(db.state.teardowns[t]), db.state.teardowns[t];
            match answer
            case Written =>
              && u' == u.(phase := Reported(Some(FinalStatus(u.input)), Won))
              && db.state.row.Some? && db.state.row.value.status == FinalStatus(u.input)
              && db.state.row.value.ended == Some(u.ended)
              && db.state.log != [] && db.state.log[|db.state.log| - 1].who == ByTeardown(t)
            case Refused =>
              && u.phase.pre.Some?
              && u' == u.(phase := Losing(Race(u.phase.pre.value, u.phase.seen, |db.state.log|)))
            case NoSuchRow => u' == u.(phase := Failing)
  {
    hide Reachable, FinalStatus, FinalReason;
    db.Await(t);
    var pre, found := db.state.teardowns[t].phase.pre, Seen(db.state.row);
    answer := if pre.None? || found.None? then NoSuchRow else if found == pre then Written else Refused;
    db.Step(TearWrite(t, now));
  }

  /** The last look of a teardown that failed. */
  method Recover(db: Table, t: nat, readable: bool) returns (status: Option<Status>, how: How)
    requires db.Sound() && db.ForeignTo(t) && t < |db.state.teardowns| && db.state.teardowns[t].phase.Failing?
    modifies db
    ensures db.Sound() && t < |db.state.teardowns|
    ensures db.state.teardowns[t] == old(db.state.teardowns[t]).(phase := Reported(status, how))
    ensures how == Broke(|db.state.log|) && status == if readable then Seen(db.state.row) else None
  {
    hide Reachable;
    db.Await(t);
    status, how := if readable then Seen(db.state.row) else None, Broke(|db.state.log|);
    db.Step(TearRecover(t, readable));
  }

  /** The read after a refused write. */
  method ReadBackStatus(db: Table, t: nat, verdict: Status) returns (status: Option<Status>, how: How)
    requires db.Sound() && db.ForeignTo(t) && t < |db.state.teardowns| && db.state.teardowns[t].phase.Losing?
    requires verdict == FinalStatus(db.state.teardowns[t].input)
    modifies db
    ensures db.Sound() && t < |db.state.teardowns|
    ensures db.state.teardowns[t] == old(db.state.teardowns[t]).(phase := Reported(status, how))
    ensures if db.state.row.Some?
            then how == ReadBack(old(db.state.teardowns[t]).phase.race, |db.state.log|) && status == Seen(db.state.row)
            else how == RowGone(old(db.state.teardowns[t]).phase.race) && status == Some(verdict)
  {
    hide Reachable, FinalStatus;
    db.Await(t);
    var persisted := Seen(db.state.row);
    how := if persisted.Some? then ReadBack(db.state.teardowns[t].phase.race, |db.state.log|)
           else RowGone(db.state.teardowns[t].phase.race);
    status := if persisted.Some? then persisted else Some(verdict);
    db.Step(TearReadBack(t));
  }

  /** Reads, decides, and writes under the status it read; on a lost race it reads the row back, and on a
      row that is missing it fails over to one last look.  now is the clock at the write; the code returns
      the status alone, and how is what it rests on. */
  method TeardownCommon(db: Table, t: nat, now: real, readable: bool)
    returns (status: Option<Status>, how: How)
    requires db.Sound() && db.ForeignTo(t) && t < |db.state.teardowns| && db.state.teardowns[t].phase.Deciding?
    modifies db
    ensures db.Sound() && t < |db.state.teardowns|
    ensures db.state.teardowns[t] == old(db.state.teardowns[t]).(phase := Reported(status, how))
    ensures how != Deferred
    ensures how.Won? || how.AlreadyTerminal? || how.RowGone? ==>
              status == Some(FinalStatus(old(db.state.teardowns[t]).input))
    ensures how.Won? ==>
              && db.state.row.Some? && status == Some(db.state.row.value.status)
              && db.state.row.value.ended == Some(old(db.state.teardowns[t]).ended)
              && db.state.log != [] && db.state.log[|db.state.log| - 1].who == ByTeardown(t)
    ensures how.ReadBack? ==>
              && how.read == |db.state.log| && how.race.lost >= |old(db.state.log)|
              && db.state.row.Some? && status == Some(db.state.row.value.status)
    ensures how.RowGone? ==> db.state.row.None?
    ensures how.AlreadyTerminal? ==> how.seen >= |old(db.state.log)|
    ensures how.Broke? && status.Some? ==> db.state.row.Some? && status == Some(db.state.row.value.status)
    ensures how.Broke? ==> (status.Some? <==> readable && db.state.row.Some?)
  {
    hide Reachable, FinalStatus, FinalReason, FinalEvidence, FinalNotes;
    var input := db.state.teardowns[t].input;
    db.Await(t);
    var pre, seen := Seen(db.state.row), |db.state.log|;
    db.Step(TearRead(t));
    var v := Decide(input);
    if pre.Some? && Terminal(pre.value) {
      db.Step(TearWrite(t, now));
      return Some(v.status), AlreadyTerminal(seen);
    }
    var answer := UpdateStatus(db, t, now);
    match answer
    case Written => return Some(v.status), Won;
    case Refused => status, how := ReadBackStatus(db, t, v.status);
    case NoSuchRow => status, how := Recover(db, t, readable);
  }

  /** True exactly when this leg moved the row from closed to running. */
  method ReopenForResume(db: Table, r: nat, now: real) returns (reopened: bool)
    requires db.Sound() && db.ForeignToResume(r) && r < |db.state.resumes| && db.state.resumes[r].Looking?
    modifies db
    ensures db.Sound() && r < |db.state.resumes| && db.state.resumes[r] == Resumed(reopened)
    ensures reopened ==> db.state.row.Some? && db.state.row.value.status == Running
                         && db.state.row.value.ended.None?
                         && db.state.row.value.leg == Some(old(db.state.resumes[r]).leg)
                         && db.state.log != [] && db.state.log[|db.state.log| - 1].who == ByResume(r)
    ensures !reopened ==> forall i :: 0 <= i < |db.state.log| ==> db.state.log[i].who != ByResume(r)
  {
    hide Reachable;
    db.AwaitResume(r);
    var existing := Seen(db.state.row);
    db.Step(ResumeRead(r));
    db.AwaitResume(r);
    var found := Seen(db.state.row);
    db.Step(ResumeWrite(r, now));
    reopened := existing.Some? && Terminal(existing.value) && found.Some? && Terminal(found.value);
    ResumeReportsAreTrue(db.state, r);
  }
}
