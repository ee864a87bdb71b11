/** Safety of the steer protocol over whole runs. */
module SteerTheorems {
  import opened Wrappers
  import opened SteerProtocol
  import opened SteerSafety

  lemma {:induction false} RunKeeps(s: State, acts: seq<Action>)
    requires Inv(s)
    ensures Inv(Exec(s, acts)) && Evolves(s, Exec(s, acts))
    decreases |acts|
  {
    if acts != [] {
      StepKeeps(s, acts[0]);
      RunKeeps(Apply(s, acts[0]), acts[1..]);
      EvolvesOnward(s, Apply(s, acts[0]), Exec(s, acts));
    }
  }

  lemma EvolvesOnward(s: State, t: State, u: State)
    requires Evolves(s, t) && Evolves(t, u)
    ensures Evolves(s, u)
  {
    forall i | 0 <= i < |s.rows| ensures RowEvolves(s.rows[i], u.rows[i]) {
      assert RowEvolves(s.rows[i], t.rows[i]) && RowEvolves(t.rows[i], u.rows[i]);
    }
  }

  lemma ReachableIsSound(s: State)
    requires Reachable(s)
    ensures Inv(s)
  {
    var s0, acts :| Fresh(s0) && s == Exec(s0, acts);
    RunKeeps(s0, acts);
  }

  /** No row's text is handed to the model twice, by one leg or by two. */
  lemma DeliveredAtMostOnce(s: State, i: nat, j: nat)
    requires Reachable(s) && i < |s.log| && j < |s.log| && s.log[i].row == s.log[j].row
    ensures i == j
  {
    ReachableIsSound(s);
  }

  /** What one leg delivers is in key order inside each batch, and a later batch holds only rows
      admitted after the earlier batch was read. */
  lemma LegDeliversInTurn(s: State, i: nat, j: nat)
    requires Reachable(s) && i < j < |s.log| && s.log[i].leg == s.log[j].leg
    ensures s.log[i].row < |s.rows| && s.log[j].row < |s.rows|
    ensures InTurn(s.rows, s.log[i], s.log[j])
  {
    ReachableIsSound(s);
    assert DeliveryOk(s, s.log[i]) && DeliveryOk(s, s.log[j]);
  }

  /** created_at, then id, follows admission among the messages. */
  ghost predicate StampsFollowArrival(rows: seq<Row>) {
    forall a, b :: 0 <= a < b < |rows| && rows[a].message && rows[b].message ==> Before(rows[a], rows[b])
  }

  lemma ArrivalOrderWhenStampsFollow(s: State, i: nat, j: nat)
    requires Reachable(s) && StampsFollowArrival(s.rows)
    requires i < j < |s.log| && s.log[i].leg == s.log[j].leg
    ensures s.log[i].row < s.log[j].row < |s.rows|
    ensures Before(s.rows[s.log[i].row], s.rows[s.log[j].row])
  {
    LegDeliversInTurn(s, i, j);
    ReachableIsSound(s);
    assert DeliveryOk(s, s.log[i]) && DeliveryOk(s, s.log[j]);
  }

  lemma {:induction false} ExecAppend(s: State, acts: seq<Action>, more: seq<Action>)
    ensures Exec(s, acts + more) == Exec(Exec(s, acts), more)
    decreases |acts|
  {
    if acts == [] {
      assert [] + more == more;
    } else {
      assert (acts + more)[0] == acts[0] && (acts + more)[1..] == acts[1..] + more;
      ExecAppend(Apply(s, acts[0]), acts[1..], more);
    }
  }

  lemma ReachableStep(s: State, a: Action)
    requires Reachable(s)
    ensures Reachable(Apply(s, a))
  {
    var s0, acts :| Fresh(s0) && s == Exec(s0, acts);
    ExecAppend(s0, acts, [a]);
    assert Exec(s, [a]) == Apply(s, a);
  }

  // ---------- The record agrees with delivery ----------

  /** What the record says of a message row, read without any history: a row recorded applied was
      delivered, once, by the leg whose claim it carried; a row recorded as rejected by the sweep, or
      still unclaimed, was delivered by nobody. */
  lemma RecordAgreesWithDelivery(s: State, r: nat)
    requires Reachable(s) && r < |s.rows|
    ensures s.rows[r].result == Some(APPLIED) ==>
              s.rows[r].claimant.Some? && Logged(s.log, s.rows[r].claimant.value, r)
    ensures s.rows[r].result.None? || s.rows[r].result == Some(REJECTED) ==> !Handed(s.log, r)
    ensures forall l: nat :: Logged(s.log, l, r) ==> s.rows[r].claimant == Some(l)
  {
    ReachableIsSound(s);
    Words();
    assert RowOk(s.rows[r], s.legs);
    forall i | 0 <= i < |s.log| && s.log[i].row == r
      ensures s.rows[r].claimant == Some(s.log[i].leg)
    {
      assert DeliveryOk(s, s.log[i]);
    }
  }

  /** A rejection is final: in every continuation of the run the row stays rejected and undelivered. */
  lemma RejectedIsNeverDelivered(s: State, acts: seq<Action>, r: nat)
    requires Reachable(s) && r < |s.rows| && s.rows[r].result == Some(REJECTED)
    ensures r < |Exec(s, acts).rows| && Exec(s, acts).rows[r] == s.rows[r]
    ensures !Handed(Exec(s, acts).log, r)
  {
    ReachableIsSound(s);
    Words();
    assert RowOk(s.rows[r], s.legs);
    RunKeeps(s, acts);
    var s' := Exec(s, acts);
    assert RowEvolves(s.rows[r], s'.rows[r]);
    forall i | 0 <= i < |s'.log| ensures s'.log[i].row != r { assert DeliveryOk(s', s'.log[i]); }
  }

  /** Whoever stamps last while a claim stands, the claim that stood names the leg that delivers: a row
      claimed by one leg is never handed over by another, then or later. */
  lemma ClaimBindsDelivery(s: State, acts: seq<Action>, r: nat, l: nat)
    requires Reachable(s) && r < |s.rows| && s.rows[r].claimant == Some(l)
    ensures forall m: nat :: Logged(Exec(s, acts).log, m, r) ==> m == l
  {
    ReachableIsSound(s);
    RunKeeps(s, acts);
    var s' := Exec(s, acts);
    assert RowEvolves(s.rows[r], s'.rows[r]);
    forall i | 0 <= i < |s'.log| && s'.log[i].row == r ensures s'.log[i].leg == l {
      assert DeliveryOk(s', s'.log[i]);
    }
  }

  /** A leg back at its boundary has handed over every row it ever claimed. */
  lemma ClaimedIsDeliveredByTheBoundary(s: State, l: nat, r: nat)
    requires Reachable(s) && l < |s.legs| && s.legs[l].phase.Boundary?
    requires r < |s.rows| && s.rows[r].claimant == Some(l)
    ensures Logged(s.log, l, r)
  {
    ReachableIsSound(s);
    assert LegOk(s, l);
  }

  // ---------- The sweep ----------

  /** A sweep that finished with no reopening since it saw a terminal status left no row unclaimed. */
  lemma SweepLeavesNothingPending(s: State, k: nat)
    requires Reachable(s) && k < |s.sweeps| && s.sweeps[k] == Swept(s.reopenings)
    ensures forall r :: 0 <= r < |s.rows| ==> s.rows[r].result.Some?
    ensures !s.running
  {
    ReachableIsSound(s);
    assert SweepOk(s, s.sweeps[k]);
  }

  /** No step of any sweep touches a row somebody claimed, nor one already closed. */
  lemma SweepSparesClaimedRows(s: State, a: Action, r: nat)
    requires a.SweepStart? || a.SweepCheck? || a.SweepList? || a.SweepWrite?
    requires r < |s.rows| && s.rows[r].result.Some?
    ensures |Apply(s, a).rows| == |s.rows| && Apply(s, a).rows[r] == s.rows[r]
    ensures Apply(s, a).log == s.log
  {
  }

  /** A reopening between the sweep's check and its end is the one way a row can be left over: from any
      reachable state with a sweep that has looked but not finished, whatever it still has to write, a
      reopening and a newly queued message lead to its end with that message unclaimed. */
  lemma ReopeningDefeatsTheSweep(s: State, k: nat, text: string, stamp: real, id: nat) returns (acts: seq<Action>)
    requires Reachable(s) && k < |s.sweeps| && (s.sweeps[k].Listing? || s.sweeps[k].Writing?)
    requires forall i :: 0 <= i < |s.rows| ==> s.rows[i].id != id
    ensures var s' := Exec(s, acts);
            && k < |s'.sweeps| && s'.sweeps[k] == Swept(s.sweeps[k].since)
            && |s'.rows| == |s.rows| + 1
            && s'.rows[|s.rows|] == Row(true, text, stamp, id, None, false, None, Nobody)
  {
    hide Reachable, Messages, Pending;
    var row := Row(true, text, stamp, id, None, false, None, Nobody);
    var first := if s.sweeps[k].Listing? then [SweepList(k)] else [];
    var s1 := if s.sweeps[k].Listing? then Apply(s, SweepList(k)) else s;
    assert Exec(s, first) == s1;
    var s2 := Apply(s1, Reopen);
    var s3 := Apply(s2, Admit(true, text, stamp, id));
    var queue := [Admit(true, text, stamp, id)];
    assert Exec(s2, queue) == s3 && ([Reopen] + queue)[1..] == queue;
    assert Exec(s1, [Reopen] + queue) == s3;
    assert s3.rows == s.rows + [row];
    LeftIsOld(s, k);
    var rest := FinishSweep(s3, k, |s.rows|);
    ExecAppend(s1, [Reopen] + queue, rest);
    ExecAppend(s, first, [Reopen] + queue + rest);
    acts := first + ([Reopen] + queue + rest);
  }

  lemma LeftIsOld(s: State, k: nat)
    requires Reachable(s) && k < |s.sweeps|
    ensures s.sweeps[k].Writing? ==> forall r: nat :: r in s.sweeps[k].left ==> r < |s.rows|
  {
    ReachableIsSound(s);
    assert SweepOk(s, s.sweeps[k]);
  }

  /** Undisturbed, a sweep writes its list to the end, and touches nothing else. */
  lemma {:induction false} FinishSweep(s: State, k: nat, r: nat) returns (acts: seq<Action>)
    requires k < |s.sweeps| && s.sweeps[k].Writing? && r < |s.rows| && r !in s.sweeps[k].left
    requires forall q: nat :: q in s.sweeps[k].left ==> q < |s.rows|
    ensures var s' := Exec(s, acts);
            && k < |s'.sweeps| && s'.sweeps[k] == Swept(s.sweeps[k].since)
            && |s'.rows| == |s.rows| && s'.rows[r] == s.rows[r]
    decreases |s.sweeps[k].left|
  {
    var t := Apply(s, SweepWrite(k));
    assert s.sweeps[k].left != [] ==> s.sweeps[k].left[0] in s.sweeps[k].left;
    if s.sweeps[k].left == [] {
      acts := [SweepWrite(k)];
      assert Exec(t, acts[1..]) == t;
    } else {
      forall q: nat | q in s.sweeps[k].left[1..] ensures q in s.sweeps[k].left {}
      var rest := FinishSweep(t, k, r);
      acts := [SweepWrite(k)] + rest;
      assert acts[1..] == rest;
    }
  }
}
