/** What every interleaving of the steer protocol keeps. */
module SteerSafety {
  import opened Wrappers
  import opened SteerProtocol

  /** A row keeps its identity; a claim, a claimant and an outcome are never taken back. */
  predicate RowEvolves(r: Row, r': Row) {
    && r'.id == r.id && r'.stamp == r.stamp && r'.message == r.message && r'.text == r.text
    && (r.result.Some? ==> r'.result.Some? && r'.claimant == r.claimant)
    && (r.claimant.Some? ==> r'.claimant == r.claimant)
    && (r.settled ==> r' == r)
  }

  ghost predicate RowsEvolve(rows: seq<Row>, rows': seq<Row>) {
    && |rows| <= |rows'|
    && forall i :: 0 <= i < |rows| ==> RowEvolves(rows[i], rows'[i])
  }

  ghost predicate LegsEvolve(legs: seq<Leg>, legs': seq<Leg>) {
    && |legs| <= |legs'|
    && forall l :: 0 <= l < |legs| ==> legs'[l].owner == legs[l].owner && legs[l].floor <= legs'[l].floor
  }

  ghost predicate Evolves(s: State, s': State) {
    RowsEvolve(s.rows, s'.rows) && LegsEvolve(s.legs, s'.legs) && s.log <= s'.log
    && s.reopenings <= s'.reopenings
  }

  lemma KeyOrderKept(rows: seq<Row>, rows': seq<Row>, refs: seq<nat>)
    requires RowsEvolve(rows, rows') && InKeyOrder(rows, refs)
    ensures InKeyOrder(rows', refs)
  {
  }

  lemma LoggedKept(s: State, s': State, l: nat)
    requires s.log <= s'.log
    ensures forall r: nat :: Logged(s.log, l, r) ==> Logged(s'.log, l, r)
  {
    forall r: nat | Logged(s.log, l, r)
      ensures Logged(s'.log, l, r)
    {
      var i :| 0 <= i < |s.log| && s.log[i].leg == l && s.log[i].row == r;
      assert s'.log[i] == s.log[i];
    }
  }

  /** A leg that did not move stays sound whatever the others did to rows it does not hold. */
  lemma LegKept(s: State, s': State, l: nat)
    requires l < |s.legs| && LegOk(s, l) && Evolves(s, s') && s'.legs[l] == s.legs[l]
    requires forall i :: |s.log| <= i < |s'.log| ==>
               s'.log[i].row < |s.rows| && s.rows[s'.log[i].row].claimant != Some(l)
    requires forall r :: 0 <= r < |s'.rows| && s'.rows[r].claimant == Some(l) ==>
               r < |s.rows| && s.rows[r].claimant == Some(l)
    requires forall r :: 0 <= r < |s.rows| && s'.rows[r].closer == ByLeg(l) ==> s.rows[r].closer == ByLeg(l)
    ensures LegOk(s', l)
  {
    LoggedKept(s, s', l);
    match s.legs[l].phase
    case Claiming(queue, held, seen) =>
      KeyOrderKept(s.rows, s'.rows, held + queue);
      forall r: nat | r in held
        ensures !Handed(s'.log, r)
      {
        forall i | 0 <= i < |s'.log|
          ensures s'.log[i].row != r
        {
          assert i < |s.log| ==> s'.log[i] == s.log[i];
        }
      }
    case Stamping(todo) =>
    case Boundary =>
    case Gone =>
  }

  /** No leg moved, and no row was claimed: all legs stay sound. */
  lemma LegsKept(s: State, s': State)
    requires Legs(s) && Evolves(s, s') && s'.log == s.log && s'.legs == s.legs
    requires forall r :: 0 <= r < |s'.rows| && s'.rows[r].claimant.Some? ==>
               r < |s.rows| && s.rows[r].claimant == s'.rows[r].claimant
    requires forall r :: 0 <= r < |s.rows| && s'.rows[r].closer.ByLeg? ==> s.rows[r].closer == s'.rows[r].closer
    ensures Legs(s')
  {
    hide LegOk, Evolves;
    forall l | 0 <= l < |s.legs| ensures LegOk(s', l) { LegKept(s, s', l); }
  }

  /** Rows change only at open places, and each changed row is sound. */
  lemma RowsKept(s: State, s': State, r: nat)
    requires Rows(s) && Evolves(s, s') && |s'.rows| == |s.rows| && r < |s.rows|
    requires forall i :: 0 <= i < |s.rows| && i != r ==> s'.rows[i] == s.rows[i]
    requires RowOk(s'.rows[r], s'.legs)
    ensures Rows(s')
  {
  }

  lemma LogKept(s: State, s': State)
    requires Log(s) && Evolves(s, s') && s'.log == s.log
    requires forall r :: 0 <= r < |s'.rows| && s'.rows[r].closer.ByLeg?
               ==> Logged(s.log, s'.rows[r].closer.leg, r)
    ensures Log(s')
  {
    hide Logged;
    forall i | 0 <= i < |s'.log|
      ensures DeliveryOk(s', s'.log[i])
    {
      assert DeliveryOk(s, s.log[i]);
    }
  }

  lemma SweepsKept(s: State, s': State)
    requires Sweeps(s) && Evolves(s, s') && s'.sweeps == s.sweeps
    requires s'.reopenings == s.reopenings && !s.running ==> !s'.running && |s'.rows| == |s.rows|
    requires s'.reopenings != s.reopenings ==> s'.reopenings > s.reopenings
    ensures Sweeps(s')
  {
    forall k | 0 <= k < |s'.sweeps|
      ensures SweepOk(s', s'.sweeps[k])
    {
      assert SweepOk(s, s.sweeps[k]);
    }
  }

  /** The words a row can carry are told apart by single characters. */
  lemma Words()
    ensures |APPLYING| == 8 && APPLYING[1] == 'p' && APPLYING[4] == 'y'
    ensures |APPLIED| == 7 && APPLIED[4] == 'i'
    ensures |REJECTED| > 8 && REJECTED[0] == 'r'
  {
  }

  // ---------- Step by step ----------

  /** Nothing but sweeps and the session's own status moved. */
  lemma TableUntouched(s: State, s': State)
    requires Inv(s) && s'.rows == s.rows && s'.legs == s.legs && s'.log == s.log
    requires s.reopenings <= s'.reopenings && Sweeps(s')
    ensures Inv(s') && Evolves(s, s')
  {
    hide LegOk, RowOk, SweepOk, DeliveryOk, InTurn;
    LegsKept(s, s');
    LogKept(s, s');
  }

  /** One row got its outcome, from somebody who is no leg. */
  lemma RowClosed(s: State, s': State, r: nat)
    requires Inv(s) && s'.legs == s.legs && s'.log == s.log && s'.reopenings == s.reopenings && Sweeps(s')
    requires |s'.rows| == |s.rows| && r < |s.rows|
    requires forall i :: 0 <= i < |s.rows| && i != r ==> s'.rows[i] == s.rows[i]
    requires RowEvolves(s.rows[r], s'.rows[r]) && RowOk(s'.rows[r], s'.legs)
    requires s'.rows[r].claimant == s.rows[r].claimant && (!s'.rows[r].closer.ByLeg? || s'.rows[r] == s.rows[r])
    ensures Inv(s') && Evolves(s, s')
  {
    hide LegOk, RowOk, SweepOk, DeliveryOk, InTurn;
    RowsKept(s, s', r);
    LegsKept(s, s');
    LogKept(s, s');
  }

  lemma AdmitKeeps(s: State, a: Action)
    requires Inv(s) && a.Admit?
    ensures Inv(Apply(s, a)) && Evolves(s, Apply(s, a))
  {
    var s' := Apply(s, a);
    if s' != s {
      hide LegOk;
      LegsKept(s, s');
      forall i | 0 <= i < |s.rows| ensures s'.rows[i].id != a.id { assert s.rows[i] in s.rows; }
      LogKept(s, s');
      SweepsKept(s, s');
    }
  }

  lemma SessionKeeps(s: State, a: Action)
    requires Inv(s) && (a.Close? || a.Reopen?)
    ensures Inv(Apply(s, a)) && Evolves(s, Apply(s, a))
  {
    hide LegOk, RowOk, DeliveryOk, InTurn;
    SweepsKept(s, Apply(s, a));
    TableUntouched(s, Apply(s, a));
  }

  lemma LegStartKeeps(s: State, owner: Option<string>)
    requires Inv(s)
    ensures Inv(Apply(s, LegStart(owner))) && Evolves(s, Apply(s, LegStart(owner)))
  {
    var s' := Apply(s, LegStart(owner));
    forall l | 0 <= l < |s.legs| ensures LegOk(s', l) { LegKept(s, s', l); }
    forall r | 0 <= r < |s.rows| ensures s.rows[r].claimant != Some(|s.legs|) { assert RowOk(s.rows[r], s.legs); }
    hide LegOk, InTurn, SweepOk;
    RowsUnderLegs(s, s');
    LogKept(s, s');
    SweepsKept(s, s');
  }

  /** Rows stay sound as legs move on: only a leg's owner matters to them. */
  lemma RowsUnderLegs(s: State, s': State)
    requires Rows(s) && s'.rows == s.rows && LegsEvolve(s.legs, s'.legs)
    ensures Rows(s')
  {
    forall i | 0 <= i < |s.rows| ensures RowOk(s'.rows[i], s'.legs) { assert RowOk(s.rows[i], s.legs); }
  }

  /** A hand resolution's text is told from a stamp, a rejection and a claim. */
  lemma ResolutionIsPlain(outcome: Outcome, note: string)
    ensures var stored := outcome.Word() + ": resolved by " + note;
            stored != APPLIED && stored != REJECTED && !(APPLYING <= stored)
  {
    var stored := outcome.Word() + ": resolved by " + note;
    assert |stored| >= 21 && stored[0] == 'a' && stored[1] == outcome.Word()[1];
    assert outcome.Word() == "applied" ==> stored[4] == 'i';
    Words();
  }

  lemma ResolvedRow(s: State, r: nat, outcome: Outcome, note: string)
    requires Rows(s) && r < |s.rows| && ResolveClaimed(s.rows, r, outcome, note) != s.rows
    ensures var row := ResolveClaimed(s.rows, r, outcome, note)[r];
            RowOk(row, s.legs) && RowEvolves(s.rows[r], row)
            && row.claimant == s.rows[r].claimant && row.closer.ByOperator?
  {
    ResolutionIsPlain(outcome, note);
    hide Token;
    assert RowOk(s.rows[r], s.legs);
  }

  lemma ResolveKeeps(s: State, a: Action)
    requires Inv(s) && a.Resolve?
    ensures Inv(Apply(s, a)) && Evolves(s, Apply(s, a))
  {
    var s' := Apply(s, a);
    if s' != s {
      ResolvedRow(s, a.row, a.outcome, a.note);
      hide LegOk, RowOk, SweepOk, DeliveryOk, InTurn, RowEvolves, Legs, Log;
      assert forall i :: 0 <= i < |s.rows| && i != a.row ==> s'.rows[i] == s.rows[i];
      ResolvedEvolves(s, s', a.row);
      SweepsKept(s, s');
      RowClosed(s, s', a.row);
    }
  }

  lemma ResolvedEvolves(s: State, s': State, r: nat)
    requires |s'.rows| == |s.rows| && r < |s.rows| && RowEvolves(s.rows[r], s'.rows[r])
    requires forall i :: 0 <= i < |s.rows| && i != r ==> s'.rows[i] == s.rows[i]
    requires s'.legs == s.legs && s'.log == s.log && s'.reopenings == s.reopenings
    ensures Evolves(s, s')
  {}

  /** A leg step that leaves rows and log alone. */
  lemma QuietLegKeeps(s: State, l: nat, p: Phase)
    requires Inv(s) && l < |s.legs| && LegOk(WithPhase(s, l, p), l)
    ensures Inv(WithPhase(s, l, p)) && Evolves(s, WithPhase(s, l, p))
  {
    hide LegOk, RowOk, SweepOk, DeliveryOk, InTurn;
    var s' := WithPhase(s, l, p);
    forall m | 0 <= m < |s.legs| ensures LegOk(s', m) {
      if m != l { LegKept(s, s', m); }
    }
    RowsUnderLegs(s, s');
    LogKept(s, s');
    SweepsKept(s, s');
  }

  lemma ListKeeps(s: State, l: nat)
    requires Inv(s) && l < |s.legs| && s.legs[l].phase.Boundary?
    ensures Inv(ListStep(s, l)) && Evolves(s, ListStep(s, l))
  {
    ListedLegOk(s, l);
    hide LegOk, Inv, Messages, Pending;
    QuietLegKeeps(s, l, ListStep(s, l).legs[l].phase);
  }

  lemma ListedLegOk(s: State, l: nat)
    requires Rows(s) && l < |s.legs| && LegOk(s, l) && s.legs[l].phase.Boundary?
    ensures LegOk(ListStep(s, l), l)
  {
    QueueLegOk(s, l);
    GoneLegOk(s, l);
    hide LegOk, Messages, Pending;
  }

  lemma GoneLegOk(s: State, l: nat)
    requires l < |s.legs| && LegOk(s, l)
    ensures LegOk(WithPhase(s, l, Gone), l)
  {}

  lemma QueueLegOk(s: State, l: nat)
    requires Rows(s) && l < |s.legs| && LegOk(s, l) && s.legs[l].phase.Boundary?
    ensures LegOk(WithPhase(s, l, Claiming(Messages(s.rows, Pending(s.rows)), [], |s.rows|)), l)
  {
    ListingIsWhole(s);
    hide InKeyOrder, Messages, Pending, Rows, Logged, Handed;
    var steers := Messages(s.rows, Pending(s.rows));
    assert [] + steers == steers;
  }

  /** The listing of messages: in key order, and every open message is in it. */
  lemma ListingIsWhole(s: State)
    requires Rows(s)
    ensures var steers := Messages(s.rows, Pending(s.rows));
            && InKeyOrder(s.rows, steers)
            && (forall r: nat :: r in steers ==> r < |s.rows| && s.rows[r].message)
            && forall i :: 0 <= i < |s.rows| && s.rows[i].message && s.rows[i].result.None? ==> i in steers
  {
    hide InKeyOrder;
    PendingInOrder(s.rows, |s.rows|);
    MessagesInOrder(s.rows, Pending(s.rows));
    hide Messages, Pending;
    forall i | 0 <= i < |s.rows| && s.rows[i].message && s.rows[i].result.None? ensures !s.rows[i].settled {
      assert RowOk(s.rows[i], s.legs);
    }
  }

  lemma ClaimKeeps(s: State, l: nat)
    requires Inv(s) && Apply(s, LegClaim(l)) != s
    ensures Inv(Apply(s, LegClaim(l))) && Evolves(s, Apply(s, LegClaim(l)))
  {
    var s' := Apply(s, LegClaim(l));
    ClaimWrite(s, l);
    hide LegOk, InTurn, DeliveryOk, SweepOk, RowOk, RowEvolves;
    LogKept(s, s');
    SweepsKept(s, s');
    forall m | 0 <= m < |s.legs| ensures LegOk(s', m) {
      if m == l { ClaimedLegOk(s, s', l); } else { LegKept(s, s', m); }
    }
  }

  /** The compare-and-set itself: at most one row changes, and only its claim. */
  lemma ClaimWrite(s: State, l: nat)
    requires Rows(s) && l < |s.legs| && LegOk(s, l) && Apply(s, LegClaim(l)) != s
    ensures var s' := Apply(s, LegClaim(l));
            && Rows(s') && Evolves(s, s')
            && forall i :: 0 <= i < |s.rows| ==>
                 s'.rows[i].closer == s.rows[i].closer
                 && (s'.rows[i].claimant == s.rows[i].claimant || s'.rows[i].claimant == Some(l))
  {
    var s', r := Apply(s, LegClaim(l)), s.legs[l].phase.queue[0];
    ClaimedRow(s, r, l);
    hide LegOk, RowOk, Token;
    RowsKept(s, s', r);
  }

  lemma ClaimedRow(s: State, r: nat, l: nat)
    requires Rows(s) && r < |s.rows| && l < |s.legs|
    ensures var row := Claim(s.rows, r, Token(s.legs[l].owner), l)[r];
            && RowOk(row, s.legs) && RowEvolves(s.rows[r], row) && row.closer == s.rows[r].closer
            && (forall p: Phase :: RowOk(row, s.legs[l := s.legs[l].(phase := p)]))
  {
    assert RowOk(s.rows[r], s.legs);
  }

  /** The claiming leg itself: a won row joins what it holds, a lost one is dropped. */
  lemma ClaimedLegOk(s: State, s': State, l: nat)
    requires Inv(s) && l < |s.legs| && s' == Apply(s, LegClaim(l)) && s' != s && Evolves(s, s')
    ensures LegOk(s', l)
  {
    assert LegOk(s, l);
    var r := s.legs[l].phase.queue[0];
    assert r in s.legs[l].phase.held + s.legs[l].phase.queue;
    if s.rows[r].result.None? {
      assert RowOk(s.rows[r], s.legs);
      forall i | 0 <= i < |s.log| ensures s.log[i].row != r { assert DeliveryOk(s, s.log[i]); }
      WonLegOk(s, s', l);
    } else {
      LostLegOk(s, s', l);
    }
  }

  lemma WonLegOk(s: State, s': State, l: nat)
    requires l < |s.legs| && LegOk(s, l) && Evolves(s, s') && s' == Apply(s, LegClaim(l)) && s' != s
    requires s.rows[s.legs[l].phase.queue[0]].result.None? && !Handed(s.log, s.legs[l].phase.queue[0])
    ensures LegOk(s', l)
  {
    var Claiming(queue, held, seen) := s.legs[l].phase;
    var r := queue[0];
    HeadIsHeld(held, queue);
    KeyOrderKept(s.rows, s'.rows, held + queue);
    hide Before, Token, RowEvolves, LegsEvolve, Logged, Handed, InKeyOrder;
    assert s'.legs[l].phase == Claiming(queue[1..], held + [r], seen);
    assert s'.rows == s.rows[r := s'.rows[r]] && s'.rows[r].claimant == Some(l);
  }

  /** Moving the head of the queue to what is held changes neither the whole nor the rest. */
  lemma HeadIsHeld(held: seq<nat>, queue: seq<nat>)
    requires queue != []
    ensures (held + [queue[0]]) + queue[1..] == held + queue && queue[0] in held + queue
    ensures forall x: nat :: x in held + [queue[0]] <==> x in held || x == queue[0]
    ensures forall x: nat :: x in queue && x != queue[0] ==> x in queue[1..]
  {
    assert queue == [queue[0]] + queue[1..];
  }

  lemma LostLegOk(s: State, s': State, l: nat)
    requires l < |s.legs| && LegOk(s, l) && Evolves(s, s') && s' == Apply(s, LegClaim(l)) && s' != s
    requires s.rows[s.legs[l].phase.queue[0]].result.Some?
    ensures LegOk(s', l)
  {
    hide Before, Token, RowEvolves, LegsEvolve, Logged, Handed;
    var Claiming(queue, held, seen) := s.legs[l].phase;
    var r := queue[0];
    assert queue == [r] + queue[1..];
    assert held + [r] + queue[1..] == held + queue;
    DropInOrder(s.rows, held, r, queue[1..]);
    forall x: nat | x in held + queue[1..] ensures x in held + queue {}
  }

  lemma DropInOrder(rows: seq<Row>, left: seq<nat>, x: nat, right: seq<nat>)
    requires InKeyOrder(rows, left + [x] + right)
    ensures InKeyOrder(rows, left + right)
  {
    var all, less := left + [x] + right, left + right;
    forall i | 0 <= i < |less|
      ensures less[i] == all[if i < |left| then i else i + 1]
    {
    }
  }

  lemma StampKeeps(s: State, l: nat)
    requires Inv(s) && Apply(s, LegStamp(l)) != s
    ensures Inv(Apply(s, LegStamp(l))) && Evolves(s, Apply(s, LegStamp(l)))
  {
    var s', todo := Apply(s, LegStamp(l)), s.legs[l].phase.todo;
    if todo == [] {
      AllStamped(s, l);
      hide Inv;
      QuietLegKeeps(s, l, Boundary);
    } else {
      StampWrite(s, l, todo[0]);
      StampingLegOk(s, s', l);
      hide LegOk, RowOk, RowEvolves, SweepOk, DeliveryOk, InTurn, StampStep;
      LogKept(s, s');
      SweepsKept(s, s');
      forall m | 0 <= m < |s.legs| && m != l ensures LegOk(s', m) { LegKept(s, s', m); }
    }
  }

  lemma AllStamped(s: State, l: nat)
    requires l < |s.legs| && LegOk(s, l) && s.legs[l].phase.Stamping?
    ensures LegOk(WithPhase(s, l, Boundary), l)
  {
    hide Logged;
  }

  /** The guarded stamp itself, on a row the leg delivered. */
  lemma StampWrite(s: State, l: nat, r: nat)
    requires Rows(s) && Log(s) && l < |s.legs| && s.legs[l].phase.Stamping? && LegOk(s, l)
    requires s.legs[l].phase.todo != [] && r == s.legs[l].phase.todo[0] && r < |s.rows|
    ensures var s' := StampStep(s, l);
            && Rows(s') && Evolves(s, s') && Logged(s.log, l, r)
            && (s'.rows[r] == s.rows[r] || s'.rows[r].closer == ByLeg(l))
            && s'.rows[r].claimant == s.rows[r].claimant
            && s' == s.(rows := s.rows[r := s'.rows[r]],
                        legs := s.legs[l := s.legs[l].(phase := Stamping(s.legs[l].phase.todo[1..]))])
  {
    var s' := StampStep(s, l);
    StampedRow(s, l);
    hide LegOk, Log, Token;
    RowsKept(s, s', r);
  }

  lemma StampedRow(s: State, l: nat)
    requires Rows(s) && Log(s) && l < |s.legs| && s.legs[l].phase.Stamping? && LegOk(s, l)
    requires s.legs[l].phase.todo != [] && s.legs[l].phase.todo[0] < |s.rows|
    ensures var s', r := StampStep(s, l), s.legs[l].phase.todo[0];
            Logged(s.log, l, r) && RowOk(s'.rows[r], s'.legs) && RowEvolves(s.rows[r], s'.rows[r])
  {
    var r := s.legs[l].phase.todo[0];
    assert r in s.legs[l].phase.todo && Logged(s.log, l, r) && RowOk(s.rows[r], s.legs);
    var d :| 0 <= d < |s.log| && s.log[d].leg == l && s.log[d].row == r;
    assert DeliveryOk(s, s.log[d]);
    Words();
  }

  lemma StampingLegOk(s: State, s': State, l: nat)
    requires l < |s.legs| && LegOk(s, l) && Evolves(s, s') && s'.log == s.log
    requires s.legs[l].phase.Stamping? && s.legs[l].phase.todo != [] && |s'.legs| == |s.legs|
    requires s'.legs[l] == s.legs[l].(phase := Stamping(s.legs[l].phase.todo[1..]))
    requires |s'.rows| == |s.rows|
    requires forall r :: 0 <= r < |s.rows| && s'.rows[r].claimant == Some(l) ==> s.rows[r].claimant == Some(l)
    requires forall r :: 0 <= r < |s.rows| && r != s.legs[l].phase.todo[0] ==> s'.rows[r] == s.rows[r]
    ensures LegOk(s', l)
  {
    LoggedKept(s, s', l);
    var todo := s.legs[l].phase.todo;
    forall x: nat | x in todo[1..] ensures x in todo && x != todo[0] {
      var i :| 0 <= i < |todo[1..]| && todo[1..][i] == x;
      assert todo[i + 1] == x;
    }
  }

  lemma OperateKeeps(s: State, l: nat)
    requires Inv(s) && Apply(s, LegOperate(l)) != s
    ensures Inv(Apply(s, LegOperate(l))) && Evolves(s, Apply(s, LegOperate(l)))
  {
    var s' := Apply(s, LegOperate(l));
    assert LegOk(s, l);
    var held := s.legs[l].phase.held;
    if held == [] {
      QuietLegKeeps(s, l, Gone);
    } else {
      OperatedLegOk(s, l);
      OperateLog(s, l);
      hide RowOk, InTurn, DeliveryOk, SweepOk;
      forall m | 0 <= m < |s.legs| && m != l ensures LegOk(s', m) { OtherLegOk(s, l, m); }
      hide LegOk;
      RowsUnderLegs(s, s');
      SweepsKept(s, s');
    }
  }

  lemma OtherLegOk(s: State, l: nat, m: nat)
    requires l < |s.legs| && m < |s.legs| && m != l && LegOk(s, l) && LegOk(s, m)
    requires s.legs[l].phase.Claiming? && s.legs[l].phase.queue == [] && s.legs[l].phase.held != []
    ensures LegOk(OperateStep(s, l), m)
  {
    var s', held := OperateStep(s, l), s.legs[l].phase.held;
    assert held + [] == held;
    forall i | |s.log| <= i < |s'.log|
      ensures s'.log[i].row < |s.rows| && s.rows[s'.log[i].row].claimant == Some(l)
    {
      assert s'.log[i].row == held[i - |s.log|] && held[i - |s.log|] in held;
    }
    hide LegOk;
    LegKept(s, s', m);
  }

  lemma OperatedLegOk(s: State, l: nat)
    requires Log(s) && l < |s.legs| && s.legs[l].phase.Claiming? && LegOk(s, l)
    requires s.legs[l].phase.queue == [] && s.legs[l].phase.held != []
    ensures LegOk(OperateStep(s, l), l)
  {
    var s' := OperateStep(s, l);
    var held := s.legs[l].phase.held;
    assert held + [] == held;
    LoggedKept(s, s', l);
    forall x: nat | x in held ensures Logged(s'.log, l, x) && s.rows[x].closer != ByLeg(l) {
      var i :| 0 <= i < |held| && held[i] == x;
      assert s'.log[|s.log| + i].row == x;
      assert !Handed(s.log, x);
    }
    forall i, j | 0 <= i < j < |held| ensures held[i] != held[j] {
      assert Before(s.rows[held[i]], s.rows[held[j]]);
    }
  }

  /** The grown log: new entries repeat nothing, and follow the leg's earlier ones in turn. */
  lemma OperateLog(s: State, l: nat)
    requires Inv(s) && l < |s.legs| && s.legs[l].phase.Claiming?
    requires s.legs[l].phase.queue == [] && s.legs[l].phase.held != []
    ensures Log(OperateStep(s, l))
  {
    var s' := OperateStep(s, l);
    BatchIsSound(s, l);
    forall i, j | 0 <= i < j < |s'.log|
      ensures s'.log[i].row != s'.log[j].row
      ensures s'.log[i].leg == s'.log[j].leg ==> InTurn(s'.rows, s'.log[i], s'.log[j])
    {
      BatchFollows(s, l, i, j);
    }
    hide DeliveryOk, InTurn, Legs, Rows, Sweeps;
    LoggedGrows(s.log, s'.log);
  }

  lemma LoggedGrows(log: seq<Delivery>, log': seq<Delivery>)
    requires log <= log'
    ensures forall l, r: nat :: Logged(log, l, r) ==> Logged(log', l, r)
  {
    forall l, r: nat | Logged(log, l, r) ensures Logged(log', l, r) {
      var i :| 0 <= i < |log| && log[i].leg == l && log[i].row == r;
      assert log'[i] == log[i];
    }
  }

  /** Each entry of the grown log, old or new, is of a row its leg claimed before the entry's read. */
  lemma BatchIsSound(s: State, l: nat)
    requires Inv(s) && l < |s.legs| && s.legs[l].phase.Claiming?
    requires s.legs[l].phase.queue == [] && s.legs[l].phase.held != []
    ensures forall i :: 0 <= i < |OperateStep(s, l).log| ==> DeliveryOk(OperateStep(s, l), OperateStep(s, l).log[i])
  {
    var s', held := OperateStep(s, l), s.legs[l].phase.held;
    assert LegOk(s, l);
    assert held + [] == held;
    forall i | 0 <= i < |s'.log|
      ensures DeliveryOk(s', s'.log[i])
    {
      if i < |s.log| { assert DeliveryOk(s, s.log[i]); } else { assert held[i - |s.log|] in held; }
    }
  }

  lemma BatchFollows(s: State, l: nat, i: nat, j: nat)
    requires Inv(s) && l < |s.legs| && s.legs[l].phase.Claiming?
    requires s.legs[l].phase.queue == [] && s.legs[l].phase.held != []
    requires i < j < |OperateStep(s, l).log|
    requires forall k :: 0 <= k < |OperateStep(s, l).log| ==> DeliveryOk(OperateStep(s, l), OperateStep(s, l).log[k])
    ensures var s' := OperateStep(s, l);
            && s'.log[i].row < |s'.rows| && s'.log[j].row < |s'.rows| && s'.log[i].row != s'.log[j].row
            && (s'.log[i].leg == s'.log[j].leg ==> InTurn(s'.rows, s'.log[i], s'.log[j]))
  {
    var s', held, n := OperateStep(s, l), s.legs[l].phase.held, |s.log|;
    assert LegOk(s, l) && DeliveryOk(s', s'.log[i]) && DeliveryOk(s', s'.log[j]);
    assert held + [] == held;
    if i < n <= j {
      assert held[j - n] in held && !Handed(s.log, held[j - n]) && DeliveryOk(s, s.log[i]);
    } else if n <= i {
      assert Before(s.rows[held[i - n]], s.rows[held[j - n]]);
    }
  }

  lemma SweepKeeps(s: State, a: Action)
    requires Inv(s) && (a.SweepStart? || a.SweepCheck? || a.SweepList?)
    ensures Inv(Apply(s, a)) && Evolves(s, Apply(s, a))
  {
    SweepMoves(s, a);
    hide LegOk, RowOk, SweepOk, DeliveryOk, InTurn, Apply;
    TableUntouched(s, Apply(s, a));
  }

  lemma SweepMoves(s: State, a: Action)
    requires Inv(s) && (a.SweepStart? || a.SweepCheck? || a.SweepList?)
    ensures Apply(s, a) == s.(sweeps := Apply(s, a).sweeps) && Sweeps(Apply(s, a))
  {
    hide Legs, Log, LegOk;
    var s' := Apply(s, a);
    forall k | 0 <= k < |s'.sweeps|
      ensures SweepOk(s', s'.sweeps[k])
    {
      if k < |s.sweeps| { assert SweepOk(s, s.sweeps[k]); }
      if a.SweepList? && k == a.sweep && s'.sweeps[k] != s.sweeps[k] {
        forall i | 0 <= i < |s.rows| && s.rows[i].result.None?
          ensures i in s'.sweeps[k].left
        {
          assert RowOk(s.rows[i], s.legs);
        }
      }
    }
  }

  lemma SweepWriteKeeps(s: State, k: nat)
    requires Inv(s) && Apply(s, SweepWrite(k)) != s
    ensures Inv(Apply(s, SweepWrite(k))) && Evolves(s, Apply(s, SweepWrite(k)))
  {
    var s', left := Apply(s, SweepWrite(k)), s.sweeps[k].left;
    SweepWriteMoves(s, k);
    if left == [] {
      TableUntouched(s, s');
    } else {
      RejectedRow(s, left[0]);
      hide LegOk, RowOk, SweepOk, DeliveryOk, InTurn;
      RowClosed(s, s', left[0]);
    }
  }

  lemma RejectedRow(s: State, r: nat)
    requires Rows(s) && r < |s.rows|
    ensures var row := RejectUnclaimed(s.rows, r)[r];
            RowOk(row, s.legs) && RowEvolves(s.rows[r], row) && row.claimant == s.rows[r].claimant
            && (!row.closer.ByLeg? || row == s.rows[r])
  {
    assert RowOk(s.rows[r], s.legs);
  }

  lemma SweepWriteMoves(s: State, k: nat)
    requires Inv(s) && Apply(s, SweepWrite(k)) != s
    ensures Sweeps(Apply(s, SweepWrite(k)))
  {
    hide Legs, Log, LegOk, RowOk;
    var s', left := Apply(s, SweepWrite(k)), s.sweeps[k].left;
    forall j | 0 <= j < |s'.sweeps|
      ensures SweepOk(s', s'.sweeps[j])
    {
      assert SweepOk(s, s.sweeps[j]);
      if j == k && left != [] {
        assert left == [left[0]] + left[1..];
        forall r | r in left[1..] ensures r < |s'.rows| { assert r in left; }
      }
    }
  }

  lemma StepKeeps(s: State, a: Action)
    requires Inv(s)
    ensures Inv(Apply(s, a)) && Evolves(s, Apply(s, a))
  {
    hide Inv;
    match a
    case Admit(_, _, _, _) => AdmitKeeps(s, a);
    case Close => SessionKeeps(s, a);
    case Reopen => SessionKeeps(s, a);
    case LegStart(owner) => LegStartKeeps(s, owner);
    case Resolve(_, _, _) => ResolveKeeps(s, a);
    case LegList(l) => if l < |s.legs| && s.legs[l].phase.Boundary? { ListKeeps(s, l); }
    case LegClaim(l) => if Apply(s, a) != s { ClaimKeeps(s, l); }
    case LegOperate(l) => if Apply(s, a) != s { OperateKeeps(s, l); }
    case LegStamp(l) => if Apply(s, a) != s { StampKeeps(s, l); }
    case LegStop(l) => if l < |s.legs| { LegStopKeeps(s, l); }
    case SweepStart => SweepKeeps(s, a);
    case SweepCheck(_) => SweepKeeps(s, a);
    case SweepList(_) => SweepKeeps(s, a);
    case SweepWrite(k) => if Apply(s, a) != s { SweepWriteKeeps(s, k); }
  }

  lemma LegStopKeeps(s: State, l: nat)
    requires Inv(s) && l < |s.legs|
    ensures Inv(WithPhase(s, l, Gone)) && Evolves(s, WithPhase(s, l, Gone))
  {
    assert LegOk(s, l);
    GoneLegOk(s, l);
    hide LegOk, Inv;
    QuietLegKeeps(s, l, Gone);
  }
}
