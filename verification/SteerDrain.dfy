/** The two loops an agent leg runs against the shared table: the drain at a turn boundary and the
    sweep after teardown.  Every await lets the rest of the world move, for ever if it likes; each loop is
    one actor of the protocol, so whatever holds of its reachable states holds while these methods run. */
module SteerDrain {
  import opened Text
  import opened Wrappers
  import opened SteerProtocol
  import opened SteerSafety
  import opened SteerTheorems

  /** An action no actor but leg l could have taken. */
  predicate Drives(a: Action, l: nat) {
    match a
    case LegList(m) => m == l
    case LegClaim(m) => m == l
    case LegOperate(m) => m == l
    case LegStamp(m) => m == l
    case LegStop(m) => m == l
    case _ => false
  }

  predicate Sweeping(a: Action, k: nat) {
    match a
    case SweepCheck(j) => j == k
    case SweepList(j) => j == k
    case SweepWrite(j) => j == k
    case _ => false
  }

  /** Rows no consumer has claimed and nobody has resolved. */
  function Open(rows: seq<Row>): nat {
    if rows == [] then 0 else (if rows[0].result.None? then 1 else 0) + Open(rows[1..])
  }

  lemma {:induction false} OpenShrinks(rows: seq<Row>, rows': seq<Row>)
    requires RowsEvolve(rows, rows') && |rows'| == |rows|
    ensures Open(rows') <= Open(rows)
    ensures (exists r :: 0 <= r < |rows| && rows[r].result.None? && rows'[r].result.Some?)
              ==> Open(rows') < Open(rows)
  {
    if rows != [] {
      assert RowEvolves(rows[0], rows'[0]);
      forall i | 0 <= i < |rows[1..]| ensures RowEvolves(rows[1..][i], rows'[1..][i]) {
        assert RowEvolves(rows[i + 1], rows'[i + 1]);
      }
      OpenShrinks(rows[1..], rows'[1..]);
      if r :| 0 < r < |rows| && rows[r].result.None? && rows'[r].result.Some? {
        assert rows[1..][r - 1].result.None? && rows'[1..][r - 1].result.Some?;
      }
    }
  }

  lemma OpenAppend(rows: seq<Row>, row: Row)
    ensures Open(rows + [row]) == Open(rows) + if row.result.None? then 1 else 0
  {
    if rows == [] {
      assert [] + [row] == [row];
    } else {
      assert (rows + [row])[1..] == rows[1..] + [row];
      OpenAppend(rows[1..], row);
    }
  }

  /** How many admissions a run of steps attempts. */
  function Admissions(acts: seq<Action>): nat {
    if acts == [] then 0 else (if acts[0].Admit? then 1 else 0) + Admissions(acts[1..])
  }

  /** Only an admission opens a row. */
  lemma StepOpens(s: State, a: Action)
    requires Inv(s)
    ensures Open(Apply(s, a).rows) <= Open(s.rows) + if a.Admit? then 1 else 0
  {
    StepKeeps(s, a);
    hide Inv;
    if a.Admit? {
      OpenAppend(s.rows, Row(a.message, a.text, a.stamp, a.id, None, false, None, Nobody));
    } else {
      StepAdds(s, a);
      hide Apply;
      OpenShrinks(s.rows, Apply(s, a).rows);
    }
  }

  lemma StepAdds(s: State, a: Action)
    requires !a.Admit?
    ensures |Apply(s, a).rows| == |s.rows|
  {}

  lemma {:induction false} RunOpens(s: State, acts: seq<Action>)
    requires Inv(s)
    ensures Open(Exec(s, acts).rows) <= Open(s.rows) + Admissions(acts)
    decreases |acts|
  {
    hide Inv, Apply, Open;
    if acts != [] {
      StepOpens(s, acts[0]);
      StepKeeps(s, acts[0]);
      RunOpens(Apply(s, acts[0]), acts[1..]);
    }
  }

  /** Whatever leg l claimed by now, it had claimed before. */
  predicate NoNewClaims(rows: seq<Row>, rows': seq<Row>, l: nat) {
    |rows| <= |rows'|
    && forall r :: 0 <= r < |rows'| && rows'[r].claimant == Some(l) ==> r < |rows| && rows[r].claimant == Some(l)
  }

  lemma {:induction false} ForeignKeepsLeg(s: State, acts: seq<Action>, l: nat)
    requires l < |s.legs| && forall i :: 0 <= i < |acts| ==> !Drives(acts[i], l)
    ensures l < |Exec(s, acts).legs| && Exec(s, acts).legs[l] == s.legs[l]
    ensures DeliveredBy(Exec(s, acts).log, l) == DeliveredBy(s.log, l)
    ensures NoNewClaims(s.rows, Exec(s, acts).rows, l)
    decreases |acts|
  {
    if acts != [] {
      ForeignStep(s, acts[0], l);
      ForeignClaims(s, acts[0], l);
      hide Apply, Drives, DeliveredBy;
      ForeignKeepsLeg(Apply(s, acts[0]), acts[1..], l);
    }
  }

  lemma ForeignClaims(s: State, a: Action, l: nat)
    requires l < |s.legs| && !Drives(a, l)
    ensures NoNewClaims(s.rows, Apply(s, a).rows, l)
  {}

  lemma ForeignStep(s: State, a: Action, l: nat)
    requires l < |s.legs| && !Drives(a, l)
    ensures l < |Apply(s, a).legs| && Apply(s, a).legs[l] == s.legs[l]
    ensures DeliveredBy(Apply(s, a).log, l) == DeliveredBy(s.log, l)
  {
    hide DeliveredBy;
    if Apply(s, a).log != s.log {
      var m := a.leg;
      DeliveredByAppend(s.log, Deliveries(m, s.legs[m].phase.held, s.legs[m].phase.seen), l);
      DeliveredByOne(m, s.legs[m].phase.held, s.legs[m].phase.seen, l);
    }
  }

  /** The rows the log says leg l handed over, in order. */
  function DeliveredBy(log: seq<Delivery>, l: nat): seq<nat> {
    if log == [] then []
    else (if log[0].leg == l then [log[0].row] else []) + DeliveredBy(log[1..], l)
  }

  lemma {:induction false} DeliveredByAppend(log: seq<Delivery>, more: seq<Delivery>, l: nat)
    ensures DeliveredBy(log + more, l) == DeliveredBy(log, l) + DeliveredBy(more, l)
  {
    if log == [] {
      assert log + more == more;
    } else {
      assert (log + more)[0] == log[0] && (log + more)[1..] == log[1..] + more;
      DeliveredByAppend(log[1..], more, l);
      var head := if log[0].leg == l then [log[0].row] else [];
      var rest, added := DeliveredBy(log[1..], l), DeliveredBy(more, l);
      assert head + (rest + added) == head + rest + added;
    }
  }

  lemma {:induction false} DeliveredByOne(m: nat, held: seq<nat>, seen: nat, l: nat)
    ensures DeliveredBy(Deliveries(m, held, seen), l) == if m == l then held else []
  {
    if held != [] {
      assert Deliveries(m, held, seen)[1..] == Deliveries(m, held[1..], seen);
      DeliveredByOne(m, held[1..], seen, l);
    }
  }

  function RowsOf(turns: seq<Turn>): seq<nat> {
    if turns == [] then [] else turns[0].rows + RowsOf(turns[1..])
  }

  lemma {:induction false} RowsOfAppend(turns: seq<Turn>, t: Turn)
    ensures RowsOf(turns + [t]) == RowsOf(turns) + t.rows
  {
    if turns == [] {
      assert [] + [t] == [t];
    } else {
      assert (turns + [t])[1..] == turns[1..] + [t];
      RowsOfAppend(turns[1..], t);
    }
  }

  lemma RowsOfAppendAfter(before: seq<nat>, turns: seq<Turn>, t: Turn)
    ensures before + RowsOf(turns) + t.rows == before + RowsOf(turns + [t])
  {
    RowsOfAppend(turns, t);
  }

  /** One continuation turn: the rows it carries, the joined lines, and the wall clock it was given. */
  datatype Turn = Turn(rows: seq<nat>, lines: string, timeout: Option<real>)

  datatype Exit = OutOfTime | Drained | Blocked | Lost | Raised

  /** "\n".join(f"- {t}" for t in texts if t.strip()) */
  function Joined(texts: seq<string>): string {
    if texts == [] then ""
    else if Blank(texts[0]) then Joined(texts[1..])
    else
      var rest := Joined(texts[1..]);
      "- " + texts[0] + (if rest == "" then "" else "\n" + rest)
  }

  function Texts(rows: seq<Row>, refs: seq<nat>): seq<string>
    requires Within(refs, |rows|)
  {
    seq(|refs|, i requires 0 <= i < |refs| => rows[refs[i]].text)
  }

  /** The clock's readings in order, two to a pass, and the deadline if there is one. */
  datatype Timing = Timing(clock: nat -> real, deadline: Option<real>)

  /** What pass i may spend: all that is left at its second look at the clock. */
  function Budget(time: Timing, i: nat): Option<real> {
    if time.deadline.Some? then Some(time.deadline.value - time.clock(2 * i + 1)) else None
  }

  predicate InTime(time: Timing, i: nat) {
    time.deadline.Some? ==> time.clock(2 * i) < time.deadline.value && time.clock(2 * i + 1) < time.deadline.value
  }

  ghost predicate TurnOk(rows: seq<Row>, t: Turn, time: Timing, i: nat) {
    && t.rows != [] && Within(t.rows, |rows|) && t.lines == Joined(Texts(rows, t.rows))
    && t.timeout == Budget(time, i) && InTime(time, i)
  }

  /** The shared table, and what everybody else does: batch b of their steps at the b-th await, without end.
      They may go on claiming, closing and sweeping for ever; from batch `quiet` on, if they settle, they
      queue nothing more. */
  class Db {
    const others: nat -> seq<Action>
    ghost const quiet: nat
    var state: State
    var at: nat

    constructor (state: State, others: nat -> seq<Action>, ghost quiet: nat)
      requires Reachable(state)
      ensures this.state == state && this.at == 0 && this.others == others && this.quiet == quiet && Sound()
    {
      this.state, this.at, this.others, this.quiet := state, 0, others, quiet;
    }

    ghost predicate Sound()
      reads this
    {
      Reachable(state)
    }

    ghost predicate Foreign(l: nat) {
      forall b: nat, i :: 0 <= i < |others(b)| ==> !Drives(others(b)[i], l)
    }

    ghost predicate Settles() {
      forall b: nat, i :: quiet <= b && 0 <= i < |others(b)| ==> !others(b)[i].Admit?
    }

    /** The admissions still to come from batch b on, before it is quiet. */
    ghost function Coming(b: nat): nat
      decreases quiet - b
    {
      if b >= quiet then 0 else Admissions(others(b)) + Coming(b + 1)
    }

    /** The rows a claim can still win, now or later. */
    ghost function Left(): nat
      reads this
    {
      Open(state.rows) + Coming(at)
    }

    method Await(l: nat)
      requires Sound() && Foreign(l) && l < |state.legs|
      modifies this
      ensures Sound() && l < |state.legs| && state.legs[l] == old(state.legs[l])
      ensures DeliveredBy(state.log, l) == DeliveredBy(old(state.log), l)
      ensures RowsEvolve(old(state.rows), state.rows) && NoNewClaims(old(state.rows), state.rows, l)
      ensures Settles() ==> Left() <= old(Left())
    {
      ForeignKeepsLeg(state, others(at), l);
      RunReachable(state, others(at));
      LeftFalls(state, at);
      state, at := Exec(state, others(at)), at + 1;
    }

    lemma LeftFalls(s: State, b: nat)
      requires Reachable(s)
      ensures Settles() ==> Open(Exec(s, others(b)).rows) + Coming(b + 1) <= Open(s.rows) + Coming(b)
    {
      ReachableIsSound(s);
      RunOpens(s, others(b));
      if Settles() && b >= quiet {
        NoneAdmitted(others(b));
      }
    }

    /** The compare-and-set on the next row of the snapshot, once the await lets it through. */
    method MarkApplying(l: nat) returns (token: Option<string>)
      requires Sound() && Foreign(l) && l < |state.legs|
      requires state.legs[l].phase.Claiming? && state.legs[l].phase.queue != []
      modifies this
      ensures Sound() && l < |state.legs|
      ensures RowsEvolve(old(state.rows), state.rows)
      ensures DeliveredBy(state.log, l) == DeliveredBy(old(state.log), l)
      ensures Settles() ==> Left() + (if token.Some? then 1 else 0) <= old(Left())
      ensures token.None? ==> NoNewClaims(old(state.rows), state.rows, l)
      ensures old(state.legs[l].phase.queue[0]) < |state.rows|
      ensures state.rows[old(state.legs[l].phase.queue[0])].result.Some?
      ensures token.Some? ==> token == Some(Token(state.legs[l].owner))
      ensures token.Some? ==> state.rows[old(state.legs[l].phase.queue[0])].result == token
                              && state.rows[old(state.legs[l].phase.queue[0])].claimant == Some(l)
      ensures state.legs[l] == old(state.legs[l]).(
                phase := Claiming(old(state.legs[l].phase.queue[1..]),
                                  old(state.legs[l].phase.held)
                                  + (if token.Some? then [old(state.legs[l].phase.queue[0])] else []),
                                  old(state.legs[l].phase.seen)))
    {
      Await(l);
      ClaimingInBounds(state, l);
      var r := state.legs[l].phase.queue[0];
      token := if state.rows[r].result.None? then Some(Token(state.legs[l].owner)) else None;
      assert state.legs[l].phase.held + [] == state.legs[l].phase.held;
      ghost var before := state.rows;
      Step(l, LegClaim(l));
      OpenShrinks(before, state.rows);
    }

    /** The outcome write, guarded by the claim this leg carries. */
    method FinalizeApplied(l: nat, claim: string) returns (stamped: bool)
      requires Sound() && Foreign(l) && l < |state.legs|
      requires state.legs[l].phase.Stamping? && state.legs[l].phase.todo != []
      requires claim == Token(state.legs[l].owner)
      modifies this
      ensures Sound() && l < |state.legs|
      ensures RowsEvolve(old(state.rows), state.rows)
      ensures DeliveredBy(state.log, l) == DeliveredBy(old(state.log), l)
      ensures Settles() ==> Left() <= old(Left())
      ensures state.legs[l] == old(state.legs[l]).(phase := Stamping(old(state.legs[l].phase.todo)[1..]))
      ensures old(state.legs[l].phase.todo[0]) < |state.rows|
      ensures state.rows[old(state.legs[l].phase.todo[0])].settled
      ensures state.rows[old(state.legs[l].phase.todo[0])].closer == if stamped then ByLeg(l) else ByOperator
    {
      Await(l);
      var r := state.legs[l].phase.todo[0];
      StampingRow(state, l);
      stamped := state.rows[r].result == Some(claim);
      Step(l, LegStamp(l));
    }

    /** One statement of this leg. */
    method Step(ghost l: nat, a: Action)
      requires Sound() && Drives(a, l) && l < |state.legs|
      modifies this`state
      ensures Sound() && state == Apply(old(state), a)
      ensures RowsEvolve(old(state.rows), state.rows) && |state.rows| == |old(state.rows)|
      ensures Left() <= old(Left())
      ensures |state.legs| == |old(state.legs)| && state.legs[l].owner == old(state.legs[l].owner)
    {
      OwnStep(state, a, l);
      hide Apply, Open, Reachable, Drives, RowsEvolve;
      state := Apply(state, a);
    }
  }

  lemma OwnStep(s: State, a: Action, l: nat)
    requires Reachable(s) && Drives(a, l) && l < |s.legs|
    ensures var s' := Apply(s, a);
            && Reachable(s') && RowsEvolve(s.rows, s'.rows) && |s'.rows| == |s.rows| && Open(s'.rows) <= Open(s.rows)
            && |s'.legs| == |s.legs| && s'.legs[l].owner == s.legs[l].owner
  {
    RunReachable(s, [a]);
    assert Exec(s, [a]) == Apply(s, a);
    OwnStepShape(s, a, l);
    hide Apply, Reachable, Open;
    OpenShrinks(s.rows, Apply(s, a).rows);
  }

  lemma OwnStepShape(s: State, a: Action, l: nat)
    requires Drives(a, l) && l < |s.legs|
    ensures |Apply(s, a).rows| == |s.rows|
    ensures |Apply(s, a).legs| == |s.legs| && Apply(s, a).legs[l].owner == s.legs[l].owner
  {}

  lemma {:induction false} NoneAdmitted(acts: seq<Action>)
    requires forall i :: 0 <= i < |acts| ==> !acts[i].Admit?
    ensures Admissions(acts) == 0
  {
    if acts != [] {
      NoneAdmitted(acts[1..]);
    }
  }

  lemma RunReachable(s: State, acts: seq<Action>)
    requires Reachable(s)
    ensures Reachable(Exec(s, acts)) && RowsEvolve(s.rows, Exec(s, acts).rows)
  {
    var s0, before :| Fresh(s0) && s == Exec(s0, before);
    ExecAppend(s0, before, acts);
    ReachableIsSound(s);
    RunKeeps(s, acts);
  }

  /** Where a claiming leg's rows lie, without the rest of the invariant. */
  lemma ClaimingInBounds(s: State, l: nat)
    requires Reachable(s) && l < |s.legs| && s.legs[l].phase.Claiming?
    ensures Within(s.legs[l].phase.held, |s.rows|) && Within(s.legs[l].phase.queue, |s.rows|)
    ensures forall r: nat | r in s.legs[l].phase.held :: r < |s.rows| && s.rows[r].claimant == Some(l)
  {
    ReachableIsSound(s);
    assert LegOk(s, l);
    var held, queue := s.legs[l].phase.held, s.legs[l].phase.queue;
    forall i | 0 <= i < |held| ensures held[i] < |s.rows| { assert held[i] in held; }
    forall i | 0 <= i < |queue| ensures queue[i] < |s.rows| { assert (held + queue)[|held| + i] == queue[i]; }
  }

  predicate Names(claimed: seq<(nat, string)>, held: seq<nat>, token: string) {
    |claimed| == |held| && forall i :: 0 <= i < |claimed| ==> claimed[i] == (held[i], token)
  }

  /** A row being stamped is there; either it still carries the leg's claim, or an operator closed it. */
  lemma StampingRow(s: State, l: nat)
    requires Reachable(s) && l < |s.legs| && s.legs[l].phase.Stamping? && s.legs[l].phase.todo != []
    ensures var r := s.legs[l].phase.todo[0];
            && r < |s.rows|
            && (s.rows[r].settled <==> s.rows[r].result != Some(Token(s.legs[l].owner)))
            && (s.rows[r].settled ==> s.rows[r].closer.ByOperator?)
  {
    ReachableIsSound(s);
    assert LegOk(s, l);
    var r := s.legs[l].phase.todo[0];
    assert r in s.legs[l].phase.todo && Logged(s.log, l, r);
    var d :| 0 <= d < |s.log| && s.log[d].leg == l && s.log[d].row == r;
    assert DeliveryOk(s, s.log[d]) && RowOk(s.rows[r], s.legs);
  }

  /** The claiming pass over one snapshot. */
  method ClaimAll(db: Db, l: nat, snapshot: seq<Row>, steers: seq<nat>)
    returns (claimed: seq<(nat, string)>, texts: seq<string>)
    requires db.Sound() && db.Foreign(l) && l < |db.state.legs|
    requires db.state.legs[l].phase == Claiming(steers, [], |snapshot|)
    requires steers != [] && Within(steers, |snapshot|) && snapshot == db.state.rows
    modifies db
    ensures db.Sound() && l < |db.state.legs|
    ensures db.state.legs[l].owner == old(db.state.legs[l].owner)
    ensures db.state.legs[l].phase.Claiming? && db.state.legs[l].phase.queue == []
    ensures Names(claimed, db.state.legs[l].phase.held, Token(db.state.legs[l].owner))
    ensures Within(db.state.legs[l].phase.held, |snapshot|)
    ensures texts == Texts(snapshot, db.state.legs[l].phase.held)
    ensures DeliveredBy(db.state.log, l) == DeliveredBy(old(db.state.log), l)
    ensures RowsEvolve(snapshot, db.state.rows)
    ensures db.Settles() ==> db.Left() + |claimed| <= old(db.Left())
    ensures forall i :: 0 <= i < |steers| ==> db.state.rows[steers[i]].result.Some?
    ensures claimed == [] ==> NoNewClaims(snapshot, db.state.rows, l)
  {
    hide Reachable, DeliveredBy, Token, Pending, Open;
    claimed, texts := [], [];
    var i := 0;
    while i < |steers|
      invariant 0 <= i <= |steers| && db.Sound() && l < |db.state.legs|
      invariant db.state.legs[l].owner == old(db.state.legs[l].owner)
      invariant db.state.legs[l].phase.Claiming? && db.state.legs[l].phase.queue == steers[i..]
      invariant Names(claimed, db.state.legs[l].phase.held, Token(db.state.legs[l].owner))
      invariant Within(db.state.legs[l].phase.held, |snapshot|)
      invariant texts == Texts(snapshot, db.state.legs[l].phase.held)
      invariant DeliveredBy(db.state.log, l) == DeliveredBy(old(db.state.log), l)
      invariant RowsEvolve(snapshot, db.state.rows)
      invariant db.Settles() ==> db.Left() + |claimed| <= old(db.Left())
      invariant forall j :: 0 <= j < i ==> db.state.rows[steers[j]].result.Some?
      invariant claimed == [] ==> NoNewClaims(snapshot, db.state.rows, l)
    {
      var token := db.MarkApplying(l);
      if token.Some? {
        claimed := claimed + [(steers[i], token.value)];
        texts := texts + [snapshot[steers[i]].text];
      }
      i := i + 1;
    }
  }

  /** The guarded stamps after a turn; warned holds the rows somebody else resolved meanwhile. */
  method StampAll(db: Db, l: nat, claimed: seq<(nat, string)>) returns (warned: seq<nat>)
    requires db.Sound() && db.Foreign(l) && l < |db.state.legs|
    requires db.state.legs[l].phase.Stamping?
    requires Names(claimed, db.state.legs[l].phase.todo, Token(db.state.legs[l].owner))
    modifies db
    ensures db.Sound() && l < |db.state.legs|
    ensures db.state.legs[l].phase.Boundary? && db.state.legs[l].owner == old(db.state.legs[l].owner)
    ensures DeliveredBy(db.state.log, l) == DeliveredBy(old(db.state.log), l)
    ensures RowsEvolve(old(db.state.rows), db.state.rows)
    ensures db.Settles() ==> db.Left() <= old(db.Left())
    ensures forall i :: 0 <= i < |claimed| ==> Closed(db.state.rows, claimed[i].0, l, warned)
    ensures Overtaken(db.state.rows, warned)
  {
    hide Reachable, DeliveredBy, Token, Pending;
    warned := [];
    var i := 0;
    while i < |claimed|
      invariant 0 <= i <= |claimed| && db.Sound() && l < |db.state.legs|
      invariant db.state.legs[l] == old(db.state.legs[l]).(phase := Stamping(old(db.state.legs[l].phase.todo)[i..]))
      invariant DeliveredBy(db.state.log, l) == DeliveredBy(old(db.state.log), l)
      invariant RowsEvolve(old(db.state.rows), db.state.rows)
      invariant db.Settles() ==> db.Left() <= old(db.Left())
      invariant forall j :: 0 <= j < i ==> Closed(db.state.rows, claimed[j].0, l, warned)
      invariant Overtaken(db.state.rows, warned)
    {
      var stamped := db.FinalizeApplied(l, claimed[i].1);
      if !stamped {
        warned := warned + [claimed[i].0];
      }
      i := i + 1;
    }
    db.Step(l, LegStamp(l));
  }

  /** A delivered row is on record: as applied by this leg, or as an operator's outcome this leg warned of. */
  predicate Closed(rows: seq<Row>, r: nat, l: nat, warned: seq<nat>) {
    r < |rows| && rows[r].settled && (rows[r].closer == ByLeg(l) || (rows[r].closer.ByOperator? && r in warned))
  }

  /** Only rows an operator closed are warned of. */
  predicate Overtaken(rows: seq<Row>, warned: seq<nat>) {
    forall r: nat :: r in warned ==> r < |rows| && rows[r].settled && rows[r].closer.ByOperator?
  }

  /** The read at a turn boundary.  It leaves the leg claiming the messages it saw, unless there are
      none or a claim already stands at their head. */
  method ReadQueue(db: Db, l: nat) returns (snapshot: seq<Row>, steers: seq<nat>)
    requires db.Sound() && db.Foreign(l) && l < |db.state.legs| && db.state.legs[l].phase.Boundary?
    modifies db
    ensures db.Sound() && l < |db.state.legs|
    ensures DeliveredBy(db.state.log, l) == DeliveredBy(old(db.state.log), l)
    ensures snapshot == db.state.rows && RowsEvolve(old(db.state.rows), snapshot)
    ensures steers == Messages(snapshot, Pending(snapshot))
    ensures db.state.legs[l].phase == if steers == [] || snapshot[steers[0]].result.Some? then Gone
                                      else Claiming(steers, [], |snapshot|)
    ensures Accounted(db.state, l, [])
    ensures db.Settles() ==> db.Left() <= old(db.Left())
  {
    db.Await(l);
    snapshot := db.state.rows;
    steers := Messages(snapshot, Pending(snapshot));
    ListOutcome(db.state, l);
    db.Step(l, LegList(l));
  }

  /** A head that is not open carries a claim, so the two ways to stop at it are one. */
  lemma HeadOpenOrClaimed(s: State, l: nat)
    requires Reachable(s) && l < |s.legs| && s.legs[l].phase.Boundary?
    ensures Accounted(s, l, [])
    ensures var steers := Messages(s.rows, Pending(s.rows));
            steers != [] && s.rows[steers[0]].result.Some? ==> APPLYING <= s.rows[steers[0]].result.value
  {
    ReachableIsSound(s);
    assert LegOk(s, l);
    var steers := Messages(s.rows, Pending(s.rows));
    if steers != [] {
      assert steers[0] in steers;
      assert RowOk(s.rows[steers[0]], s.legs);
    }
  }

  lemma ListOutcome(s: State, l: nat)
    requires Reachable(s) && l < |s.legs| && s.legs[l].phase.Boundary?
    ensures var s' := Apply(s, LegList(l));
            var steers := Messages(s.rows, Pending(s.rows));
            && s'.rows == s.rows && s'.log == s.log && |s'.legs| == |s.legs| && Accounted(s', l, [])
            && s'.legs[l].phase == if steers == [] || s.rows[steers[0]].result.Some? then Gone
                                   else Claiming(steers, [], |s.rows|)
  {
    HeadOpenOrClaimed(s, l);
    forall r: nat | Logged(s.log, l, r) ensures Logged(Apply(s, LegList(l)).log, l, r) {}
  }

  /** Ends the drain with nothing in hand. */
  method Leave(db: Db, l: nat)
    requires db.Sound() && l < |db.state.legs|
    requires db.state.legs[l].phase.Boundary?
             || (db.state.legs[l].phase.Claiming? && db.state.legs[l].phase.held == [])
    modifies db`state
    ensures db.Sound() && l < |db.state.legs| && db.state.legs[l].phase.Gone?
    ensures db.state.log == old(db.state.log) && db.state.rows == old(db.state.rows)
    ensures RowsEvolve(old(db.state.rows), db.state.rows) && Accounted(db.state, l, [])
  {
    ReachableIsSound(db.state);
    assert LegOk(db.state, l);
    db.Step(l, LegStop(l));
  }

  /** The provider call: from here on, everything held has reached the model. */
  method Operate(db: Db, l: nat)
    requires db.Sound() && l < |db.state.legs|
    requires db.state.legs[l].phase.Claiming? && db.state.legs[l].phase.queue == []
    requires db.state.legs[l].phase.held != []
    modifies db`state
    ensures db.Sound() && l < |db.state.legs| && db.state.rows == old(db.state.rows)
    ensures db.state.legs[l].phase == Stamping(old(db.state.legs[l].phase.held))
    ensures db.state.legs[l].owner == old(db.state.legs[l].owner)
    ensures DeliveredBy(db.state.log, l)
         == DeliveredBy(old(db.state.log), l) + old(db.state.legs[l].phase.held)
    ensures Accounted(db.state, l, [])
  {
    ghost var p := db.state.legs[l].phase;
    DeliveredByAppend(db.state.log, Deliveries(l, p.held, p.seen), l);
    DeliveredByOne(l, p.held, p.seen, l);
    db.Step(l, LegOperate(l));
    ReachableIsSound(db.state);
    assert LegOk(db.state, l);
  }

  datatype Pass =
    | Ended(exit: Exit)
    | Took(turn: Turn, answer: string, warned: seq<nat>)
    | Failed(turn: Turn)

  predicate TurnClosed(rows: seq<Row>, t: Turn, l: nat, warned: seq<nat>) {
    forall i :: 0 <= i < |t.rows| ==> Closed(rows, t.rows[i], l, warned)
  }

  /** No message is waiting, or one stands claimed ahead of all others. */
  predicate NothingWaits(rows: seq<Row>) {
    forall r :: 0 <= r < |rows| && rows[r].message ==> rows[r].settled
  }

  ghost predicate HeadClaimed(rows: seq<Row>) {
    exists r :: 0 <= r < |rows| && rows[r].message && !rows[r].settled && rows[r].result.Some?
                && forall q :: 0 <= q < |rows| && rows[q].message && !rows[q].settled && q != r
                               ==> Before(rows[r], rows[q])
  }

  lemma HeadStandsFirst(s: State)
    requires Reachable(s)
    ensures var steers := Messages(s.rows, Pending(s.rows));
            steers != [] ==>
              && steers[0] < |s.rows| && s.rows[steers[0]].message && !s.rows[steers[0]].settled
              && forall q :: 0 <= q < |s.rows| && s.rows[q].message && !s.rows[q].settled && q != steers[0]
                             ==> Before(s.rows[steers[0]], s.rows[q])
  {
    var steers := Messages(s.rows, Pending(s.rows));
    ReachableIsSound(s);
    ListingIsWhole(s);
    if steers != [] {
      assert steers[0] in steers;
      HeadAndTail(s.rows, steers);
      hide Reachable, Messages, Pending, InKeyOrder, Before, Inv;
      forall q: nat | q < |s.rows| && s.rows[q].message && !s.rows[q].settled && q != steers[0]
        ensures q in steers[1..]
      {
        InTail(steers, q);
      }
    }
  }

  lemma InTail(steers: seq<nat>, q: nat)
    requires q in steers && q != steers[0]
    ensures q in steers[1..]
  {}

  lemma TextsKept(rows: seq<Row>, rows': seq<Row>, refs: seq<nat>)
    requires RowsEvolve(rows, rows') && Within(refs, |rows|)
    ensures Within(refs, |rows'|) && Texts(rows', refs) == Texts(rows, refs)
  {
    forall i | 0 <= i < |refs| ensures rows'[refs[i]].text == rows[refs[i]].text {
      assert RowEvolves(rows[refs[i]], rows'[refs[i]]);
    }
  }

  lemma EvolveOnward(a: seq<Row>, b: seq<Row>, c: seq<Row>)
    requires RowsEvolve(a, b) && RowsEvolve(b, c)
    ensures RowsEvolve(a, c)
  {
    forall i | 0 <= i < |a| ensures RowEvolves(a[i], c[i]) {
      assert RowEvolves(a[i], b[i]) && RowEvolves(b[i], c[i]);
    }
  }

  /** A batch was lost: at the read some message was open, and every one that was has gone to somebody else. */
  ghost predicate LostTo(seen: seq<Row>, rows: seq<Row>, l: nat) {
    && RowsEvolve(seen, rows)
    && (exists r :: 0 <= r < |seen| && seen[r].message && seen[r].result.None?)
    && forall r :: 0 <= r < |seen| && seen[r].message && seen[r].result.None? ==>
         rows[r].result.Some? && rows[r].claimant != Some(l)
  }

  /** What one pass of the loop promises; seen is the table at its read. */
  ghost predicate PassOk(p: Pass, seen: seq<Row>, rows: seq<Row>, l: nat, time: Timing, i: nat) {
    match p
    case Took(turn, _, warned) =>
      TurnOk(rows, turn, time, i) && TurnClosed(rows, turn, l, warned) && Overtaken(rows, warned)
    case Failed(turn) => TurnOk(rows, turn, time, i)
    case Ended(exit) =>
      match exit
      case OutOfTime => !InTime(time, i)
      case Drained => NothingWaits(rows)
      case Blocked => HeadClaimed(rows)
      case Lost => LostTo(seen, rows, l)
      case Raised => false
  }

  /** Claims a snapshot that has an open head, hands over what was won, and stamps it. */
  method Deliver(db: Db, l: nat, snapshot: seq<Row>, steers: seq<nat>, remaining: Option<real>,
                 answer: Option<string>)
    returns (pass: Pass)
    requires db.Sound() && db.Foreign(l) && l < |db.state.legs| && snapshot == db.state.rows
    requires db.state.legs[l].phase == Claiming(steers, [], |snapshot|)
    requires steers != [] && Within(steers, |snapshot|)
    modifies db
    ensures db.Sound() && l < |db.state.legs| && Accounted(db.state, l, [])
    ensures db.state.legs[l].phase == if pass.Took? then Boundary else Gone
    ensures RowsEvolve(snapshot, db.state.rows)
    ensures pass.Ended? ==> pass.exit.Lost?
    ensures DeliveredBy(db.state.log, l)
         == DeliveredBy(old(db.state.log), l) + if pass.Ended? then [] else pass.turn.rows
    ensures !pass.Ended? ==> pass.turn.rows != [] && Within(pass.turn.rows, |snapshot|)
                             && pass.turn.lines == Joined(Texts(snapshot, pass.turn.rows))
                             && pass.turn.timeout == remaining
    ensures pass.Took? <==> !pass.Ended? && answer.Some?
    ensures pass.Took? ==> answer == Some(pass.answer)
    ensures pass.Took? ==> TurnClosed(db.state.rows, pass.turn, l, pass.warned)
                           && Overtaken(db.state.rows, pass.warned)
    ensures db.Settles() ==> db.Left() + (if pass.Ended? then 0 else |pass.turn.rows|) <= old(db.Left())
    ensures pass.Ended? ==> NoNewClaims(snapshot, db.state.rows, l)
                            && forall i :: 0 <= i < |steers| ==> db.state.rows[steers[i]].result.Some?
  {
    hide Reachable, DeliveredBy, Joined, Pending, Open;
    var claimed, texts := ClaimAll(db, l, snapshot, steers);
    if claimed == [] {
      Leave(db, l);
      return Ended(Lost);
    }
    ghost var middle := db.state.rows;
    var turn := Turn(seq(|claimed|, i requires 0 <= i < |claimed| => claimed[i].0), Joined(texts), remaining);
    assert turn.rows == db.state.legs[l].phase.held;
    Operate(db, l);
    if answer.None? {
      ReachableIsSound(db.state);
      db.Step(l, LegStop(l));
      return Failed(turn);
    }
    var warned := StampAll(db, l, claimed);
    EvolveOnward(snapshot, middle, db.state.rows);
    ReachableIsSound(db.state);
    assert LegOk(db.state, l);
    pass := Took(turn, answer.value, warned);
  }

  /** By its n-th pass the deadline has gone by. */
  predicate Expires(time: Timing, n: nat) {
    time.deadline.Some? && time.clock(2 * n) >= time.deadline.value
  }

  /** The drain: read the queue, claim what is open, hand it over as one turn, stamp it, look again.
      answers gives each continuation's result, None when it raises; seen is the table at the last read.
      It ends once nothing more is queued, however long the others go on otherwise, since every pass that
      does not end it claims a row that was open, and no row opens again; or when the deadline goes by, in
      which case admissions need not stop. */
  method Drain(db: Db, l: nat, time: Timing, answers: nat -> Option<string>, ghost n: nat)
    returns (turns: seq<Turn>, last: Option<string>, warned: seq<nat>, exit: Exit, ghost seen: seq<Row>)
    requires db.Sound() && db.Foreign(l) && l < |db.state.legs| && db.state.legs[l].phase.Boundary?
    requires db.Settles() || Expires(time, n)
    modifies db
    ensures db.Sound() && l < |db.state.legs| && db.state.legs[l].phase.Gone?
    ensures DeliveredBy(db.state.log, l) == DeliveredBy(old(db.state.log), l) + RowsOf(turns)
    ensures Accounted(db.state, l, [])
    ensures exit.Raised? ==> turns != []
    ensures var finished := if exit.Raised? then |turns| - 1 else |turns|;
            && TurnsOk(db.state.rows, turns, time, l, finished, warned)
            && last == if finished == 0 then None else answers(finished - 1)
    ensures db.Settles() ==> |turns| <= |RowsOf(turns)| <= old(db.Left())
    ensures Expires(time, n) ==> |turns| <= n
    ensures exit.OutOfTime? ==> !InTime(time, |turns|)
    ensures exit.Drained? ==> NothingWaits(db.state.rows)
    ensures exit.Blocked? ==> HeadClaimed(db.state.rows)
    ensures exit.Lost? ==> LostTo(seen, db.state.rows, l)
  {
    hide Reachable, DeliveredBy, Pending, RowEvolves, TurnOk, TurnClosed, Accounted, NothingWaits, HeadClaimed,
         LostTo, Open;
    turns, last, warned := [], None, [];
    while true
      invariant db.Sound() && l < |db.state.legs| && db.state.legs[l].phase.Boundary?
      invariant DeliveredBy(db.state.log, l) == DeliveredBy(old(db.state.log), l) + RowsOf(turns)
      invariant TurnsOk(db.state.rows, turns, time, l, |turns|, warned)
      invariant last == if turns == [] then None else answers(|turns| - 1)
      invariant |turns| <= |RowsOf(turns)|
      invariant db.Settles() ==> |RowsOf(turns)| + db.Left() <= old(db.Left())
      invariant Expires(time, n) ==> |turns| <= n
      decreases if db.Settles() then db.Left() else n - |turns|
    {
      ghost var before := db.state.rows;
      var pass;
      pass, seen := DrainOnce(db, l, time, |turns|, answers(|turns|));
      if pass.Ended? {
        TurnsKept(before, db.state.rows, turns, time, l, warned, []);
        return turns, last, warned + [], pass.exit, seen;
      }
      RowsOfAppend(turns, pass.turn);
      RowsOfAppendAfter(DeliveredBy(old(db.state.log), l), turns, pass.turn);
      if pass.Failed? {
        TurnsFail(before, db.state.rows, turns, time, l, warned, pass.turn);
        return turns + [pass.turn], last, warned, Raised, seen;
      }
      TurnsGrow(before, db.state.rows, turns, time, l, warned, pass.turn, pass.warned);
      turns, last, warned := turns + [pass.turn], Some(pass.answer), warned + pass.warned;
    }
  }

  ghost predicate TurnsOk(rows: seq<Row>, turns: seq<Turn>, time: Timing, l: nat,
                          finished: nat, warned: seq<nat>)
    requires finished <= |turns|
  {
    && (forall i :: 0 <= i < |turns| ==> TurnOk(rows, turns[i], time, i))
    && (forall i :: 0 <= i < finished ==> TurnClosed(rows, turns[i], l, warned))
    && Overtaken(rows, warned)
  }

  /** Turns already on record stay on record. */
  lemma TurnsKept(rows: seq<Row>, rows': seq<Row>, turns: seq<Turn>, time: Timing, l: nat,
                  warned: seq<nat>, more: seq<nat>)
    requires RowsEvolve(rows, rows') && TurnsOk(rows, turns, time, l, |turns|, warned)
    requires Overtaken(rows', more)
    ensures TurnsOk(rows', turns, time, l, |turns|, warned + more)
  {
    forall r: nat | r in warned
      ensures r < |rows'| && rows'[r].settled && rows'[r].closer.ByOperator?
    {
      assert RowEvolves(rows[r], rows'[r]);
    }
    forall i | 0 <= i < |turns|
      ensures TurnOk(rows', turns[i], time, i) && TurnClosed(rows', turns[i], l, warned + more)
    {
      var t := turns[i];
      TextsKept(rows, rows', t.rows);
      forall j | 0 <= j < |t.rows| ensures Closed(rows', t.rows[j], l, warned + more) {
        assert Closed(rows, t.rows[j], l, warned) && RowEvolves(rows[t.rows[j]], rows'[t.rows[j]]);
      }
    }
  }

  lemma TurnsGrow(rows: seq<Row>, rows': seq<Row>, turns: seq<Turn>, time: Timing, l: nat,
                  warned: seq<nat>, turn: Turn, more: seq<nat>)
    requires RowsEvolve(rows, rows') && TurnsOk(rows, turns, time, l, |turns|, warned)
    requires TurnOk(rows', turn, time, |turns|) && TurnClosed(rows', turn, l, more) && Overtaken(rows', more)
    ensures TurnsOk(rows', turns + [turn], time, l, |turns| + 1, warned + more)
  {
    TurnsKept(rows, rows', turns, time, l, warned, more);
    forall j | 0 <= j < |turn.rows| ensures Closed(rows', turn.rows[j], l, warned + more) {
      assert Closed(rows', turn.rows[j], l, more);
    }
  }

  lemma TurnsFail(rows: seq<Row>, rows': seq<Row>, turns: seq<Turn>, time: Timing, l: nat,
                  warned: seq<nat>, turn: Turn)
    requires RowsEvolve(rows, rows') && TurnsOk(rows, turns, time, l, |turns|, warned)
    requires TurnOk(rows', turn, time, |turns|)
    ensures TurnsOk(rows', turns + [turn], time, l, |turns|, warned)
  {
    TurnsKept(rows, rows', turns, time, l, warned, []);
    assert warned + [] == warned;
  }

  /** One pass: the deadline is looked at before the read and again after it, before anything is claimed. */
  method DrainOnce(db: Db, l: nat, time: Timing, i: nat, answer: Option<string>)
    returns (pass: Pass, ghost seen: seq<Row>)
    requires db.Sound() && db.Foreign(l) && l < |db.state.legs| && db.state.legs[l].phase.Boundary?
    modifies db
    ensures db.Sound() && l < |db.state.legs| && Accounted(db.state, l, [])
    ensures db.state.legs[l].phase == if pass.Took? then Boundary else Gone
    ensures RowsEvolve(old(db.state.rows), db.state.rows)
    ensures PassOk(pass, seen, db.state.rows, l, time, i)
    ensures !pass.Ended? ==> pass.turn.rows != [] && InTime(time, i)
    ensures DeliveredBy(db.state.log, l)
         == DeliveredBy(old(db.state.log), l) + if pass.Ended? then [] else pass.turn.rows
    ensures pass.Took? ==> answer == Some(pass.answer)
    ensures db.Settles() ==> db.Left() + (if pass.Ended? then 0 else |pass.turn.rows|) <= old(db.Left())
  {
    hide Reachable, DeliveredBy, Joined, Pending, Messages, RowEvolves, Closed, Overtaken, TurnClosed, Accounted, Open;
    seen := db.state.rows;
    if time.deadline.Some? && time.clock(2 * i) >= time.deadline.value {
      Leave(db, l);
      return Ended(OutOfTime), seen;
    }
    var snapshot, steers := ReadQueue(db, l);
    seen := snapshot;
    HeadStandsFirst(db.state);
    if steers == [] {
      NothingListed(snapshot);
      return Ended(Drained), seen;
    }
    if snapshot[steers[0]].result.Some? {
      assert HeadClaimed(snapshot);
      return Ended(Blocked), seen;
    }
    OpenMessagesListed(db.state);
    var remaining := None;
    if time.deadline.Some? {
      remaining := Some(time.deadline.value - time.clock(2 * i + 1));
      if remaining.value <= 0.0 {
        Leave(db, l);
        return Ended(OutOfTime), seen;
      }
    }
    pass := Deliver(db, l, snapshot, steers, remaining, answer);
    EvolveOnward(old(db.state.rows), snapshot, db.state.rows);
    if pass.Ended? {
      EverySteerLost(snapshot, steers, db.state.rows, l);
    } else {
      TextsKept(snapshot, db.state.rows, pass.turn.rows);
    }
  }

  /** An open message is unclaimed, and listed. */
  lemma OpenMessagesListed(s: State)
    requires Reachable(s)
    ensures forall r :: 0 <= r < |s.rows| && s.rows[r].message && s.rows[r].result.None? ==>
              s.rows[r].claimant.None? && r in Messages(s.rows, Pending(s.rows))
  {
    ReachableIsSound(s);
    ListingIsWhole(s);
    forall r | 0 <= r < |s.rows| && s.rows[r].result.None? ensures s.rows[r].claimant.None? {
      assert RowOk(s.rows[r], s.legs);
    }
  }

  lemma EverySteerLost(seen: seq<Row>, steers: seq<nat>, rows: seq<Row>, l: nat)
    requires RowsEvolve(seen, rows) && NoNewClaims(seen, rows, l) && Within(steers, |seen|)
    requires steers != [] && seen[steers[0]].message && seen[steers[0]].result.None?
    requires forall r :: 0 <= r < |seen| && seen[r].message && seen[r].result.None? ==>
               seen[r].claimant.None? && r in steers
    requires forall i :: 0 <= i < |steers| ==> rows[steers[i]].result.Some?
    ensures LostTo(seen, rows, l)
  {
    forall r | 0 <= r < |seen| && seen[r].message && seen[r].result.None?
      ensures rows[r].result.Some? && rows[r].claimant != Some(l)
    {
      var i :| 0 <= i < |steers| && steers[i] == r;
    }
  }

  lemma NothingListed(rows: seq<Row>)
    requires Messages(rows, Pending(rows)) == []
    ensures NothingWaits(rows)
  {
    forall r: nat | r < |rows| && rows[r].message ensures rows[r].settled {
      assert r !in Messages(rows, Pending(rows));
    }
  }

  // ---------- The teardown sweep ----------

  lemma {:induction false} ForeignKeepsSweep(s: State, acts: seq<Action>, k: nat)
    requires k < |s.sweeps| && forall i :: 0 <= i < |acts| ==> !Sweeping(acts[i], k)
    ensures k < |Exec(s, acts).sweeps| && Exec(s, acts).sweeps[k] == s.sweeps[k]
    decreases |acts|
  {
    if acts != [] {
      ForeignKeepsSweep(Apply(s, acts[0]), acts[1..], k);
    }
  }

  ghost predicate ForeignToSweep(db: Db, k: nat) {
    forall b: nat, i :: 0 <= i < |db.others(b)| ==> !Sweeping(db.others(b)[i], k)
  }

  /** Nobody closes or reopens the session any more. */
  ghost predicate Steady(db: Db) {
    forall b: nat, i :: 0 <= i < |db.others(b)| ==> !db.others(b)[i].Close? && !db.others(b)[i].Reopen?
  }

  lemma {:induction false} SteadyRun(s: State, acts: seq<Action>)
    requires forall i :: 0 <= i < |acts| ==> !acts[i].Close? && !acts[i].Reopen?
    ensures Exec(s, acts).running == s.running && Exec(s, acts).reopenings == s.reopenings
    decreases |acts|
  {
    if acts != [] {
      SteadyRun(Apply(s, acts[0]), acts[1..]);
    }
  }

  /** The rest of the world moves while sweep k waits. */
  method SweepWaits(db: Db, k: nat)
    requires db.Sound() && ForeignToSweep(db, k) && k < |db.state.sweeps|
    modifies db
    ensures db.Sound() && k < |db.state.sweeps| && db.state.sweeps[k] == old(db.state.sweeps[k])
    ensures Steady(db) ==> db.state.running == old(db.state.running) && db.state.reopenings == old(db.state.reopenings)
    ensures RowsEvolve(old(db.state.rows), db.state.rows)
  {
    ForeignKeepsSweep(db.state, db.others(db.at), k);
    RunReachable(db.state, db.others(db.at));
    if Steady(db) { SteadyRun(db.state, db.others(db.at)); }
    db.state, db.at := Exec(db.state, db.others(db.at)), db.at + 1;
  }

  /** One awaited statement of sweep k. */
  method SweepAwaiting(db: Db, k: nat, a: Action)
    requires db.Sound() && ForeignToSweep(db, k) && k < |db.state.sweeps| && Sweeping(a, k)
    modifies db
    ensures db.Sound() && k < |db.state.sweeps|
    ensures Steady(db) ==> db.state.running == old(db.state.running) && db.state.reopenings == old(db.state.reopenings)
    ensures RowsEvolve(old(db.state.rows), db.state.rows)
    ensures a.SweepCheck? && old(db.state.sweeps[k]).Asked? ==>
              db.state.sweeps[k] == if db.state.running then Declined else Listing(db.state.reopenings)
    ensures a.SweepList? && old(db.state.sweeps[k]).Listing? ==>
              db.state.sweeps[k].Writing? && db.state.sweeps[k].since == old(db.state.sweeps[k].since)
    ensures a.SweepWrite? && old(db.state.sweeps[k]).Writing? && old(db.state.sweeps[k].left) != [] ==>
              db.state.sweeps[k] == Writing(old(db.state.sweeps[k].since), old(db.state.sweeps[k].left)[1..])
              && old(db.state.sweeps[k].left[0]) < |db.state.rows|
              && db.state.rows[old(db.state.sweeps[k].left[0])].result.Some?
    ensures a.SweepWrite? && old(db.state.sweeps[k]).Writing? && old(db.state.sweeps[k].left) == [] ==>
              db.state.sweeps[k] == Swept(old(db.state.sweeps[k].since))
  {
    hide Reachable;
    SweepWaits(db, k);
    LeftInBounds(db.state, k);
    RunReachable(db.state, [a]);
    assert Exec(db.state, [a]) == Apply(db.state, a);
    db.state := Apply(db.state, a);
  }

  lemma LeftInBounds(s: State, k: nat)
    requires Reachable(s) && k < |s.sweeps|
    ensures s.sweeps[k].Writing? && s.sweeps[k].left != [] ==> s.sweeps[k].left[0] < |s.rows|
  {
    ReachableIsSound(s);
    assert SweepOk(s, s.sweeps[k]);
    if s.sweeps[k].Writing? && s.sweeps[k].left != [] {
      assert s.sweeps[k].left[0] in s.sweeps[k].left;
    }
  }

  /** The sweep: decline unless the session is terminal, list, and reject what is still unclaimed at the
      write.  What it lists it leaves resolved or claimed; and unless the session was reopened under it,
      nothing at all is left unclaimed.  With nobody closing or reopening the session meanwhile, it declines
      exactly when the session is running, and otherwise leaves nothing unclaimed. */
  method Tombstone(db: Db, k: nat) returns (listed: seq<nat>)
    requires db.Sound() && ForeignToSweep(db, k)
    requires k < |db.state.sweeps| && db.state.sweeps[k].Asked?
    modifies db
    ensures db.Sound() && k < |db.state.sweeps|
    ensures db.state.sweeps[k].Declined? || db.state.sweeps[k].Swept?
    ensures db.state.sweeps[k].Declined? ==> listed == []
    ensures forall r :: r in listed ==> r < |db.state.rows| && db.state.rows[r].result.Some?
    ensures db.state.sweeps[k] == Swept(db.state.reopenings) ==>
              !db.state.running && forall r :: 0 <= r < |db.state.rows| ==> db.state.rows[r].result.Some?
    ensures Steady(db) ==> (db.state.sweeps[k].Declined? <==> old(db.state.running))
    ensures Steady(db) && !old(db.state.running) ==> db.state.sweeps[k] == Swept(db.state.reopenings)
  {
    hide Reachable, Steady;
    listed := [];
    SweepAwaiting(db, k, SweepCheck(k));
    if db.state.sweeps[k].Declined? {
      return;
    }
    SweepAwaiting(db, k, SweepList(k));
    var stale := db.state.sweeps[k].left;
    ghost var since := db.state.sweeps[k].since;
    var i := 0;
    while i < |stale|
      invariant 0 <= i <= |stale| && db.Sound() && k < |db.state.sweeps|
      invariant Steady(db) ==> db.state.running == old(db.state.running) && db.state.reopenings == since
      invariant db.state.sweeps[k] == Writing(since, stale[i..])
      invariant listed == stale[..i]
      invariant forall j :: 0 <= j < i ==> stale[j] < |db.state.rows| && db.state.rows[stale[j]].result.Some?
    {
      SweepAwaiting(db, k, SweepWrite(k));
      listed := listed + [stale[i]];
      i := i + 1;
    }
    SweepAwaiting(db, k, SweepWrite(k));
    if db.state.sweeps[k] == Swept(db.state.reopenings) {
      SweepLeavesNothingPending(db.state, k);
    }
  }
}
