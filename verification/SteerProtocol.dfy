/** The operator-steer control protocol of an agent session.

    A session's control rows are queued by operators, claimed by any number of legs with a
    compare-and-set, handed to the model as one continuation turn, and then stamped; a teardown sweep
    rejects what nobody claimed.  Every read, every claim, every write is a separate step, and steps of
    different actors interleave freely. */
module SteerProtocol {
  import opened Wrappers

  const APPLYING := "applying"
  const APPLIED := "applied"
  const REJECTED :=
    "rejected" + ": run reached terminal status before the steer could land — use `li agent -r`"

  /** One row of session_controls.  A row is named by its position in the table's admission order, so
      positions compare as arrival times do.  claimant and closer are history: who won the claim, and
      who wrote the outcome. */
  datatype Row = Row(message: bool, text: string, stamp: real, id: nat,
                     result: Option<string>, settled: bool,
                     claimant: Option<nat>, closer: Writer)

  datatype Writer = Nobody | ByLeg(leg: nat) | BySweep | ByOperator

  // ---------- The table's statements ----------

  /** ORDER BY created_at, id */
  predicate Before(a: Row, b: Row) {
    a.stamp < b.stamp || (a.stamp == b.stamp && a.id < b.id)
  }

  predicate DistinctIds(rows: seq<Row>) {
    forall i, j :: 0 <= i < j < |rows| ==> rows[i].id != rows[j].id
  }

  predicate Within(refs: seq<nat>, n: nat) {
    forall i :: 0 <= i < |refs| ==> refs[i] < n
  }

  predicate InKeyOrder(rows: seq<Row>, refs: seq<nat>) {
    && Within(refs, |rows|)
    && (forall i, j :: 0 <= i < j < |refs| ==> Before(rows[refs[i]], rows[refs[j]]))
  }

  function Place(rows: seq<Row>, refs: seq<nat>, n: nat): (placed: seq<nat>)
    requires n < |rows| && Within(refs, |rows|)
    ensures Within(placed, |rows|)
    ensures forall r: nat :: r in placed <==> r == n || r in refs
  {
    if refs == [] || Before(rows[n], rows[refs[0]]) then [n] + refs
    else [refs[0]] + Place(rows, refs[1..], n)
  }

  /** The unapplied rows among the first n, oldest stamp first. */
  function Pending(rows: seq<Row>, n: nat := |rows|): (refs: seq<nat>)
    requires n <= |rows|
    ensures Within(refs, |rows|)
    ensures forall r: nat :: r in refs <==> r < n && !rows[r].settled
  {
    if n == 0 then []
    else if rows[n - 1].settled then Pending(rows, n - 1)
    else Place(rows, Pending(rows, n - 1), n - 1)
  }

  function Messages(rows: seq<Row>, refs: seq<nat>): (steers: seq<nat>)
    requires Within(refs, |rows|)
    ensures Within(steers, |rows|)
    ensures forall r: nat :: r in steers <==> r in refs && rows[r].message
  {
    if refs == [] then []
    else (if rows[refs[0]].message then [refs[0]] else []) + Messages(rows, refs[1..])
  }

  /** The claim a leg writes; an empty owner counts as none. */
  function Token(owner: Option<string>): (token: string)
    ensures APPLYING <= token
  {
    if owner.Some? && owner.value != "" then APPLYING + ":" + owner.value else APPLYING
  }

  /** UPDATE … SET result = :claim WHERE id = :id AND result IS NULL */
  function Claim(rows: seq<Row>, r: nat, token: string, leg: nat): seq<Row>
    requires r < |rows|
  {
    if rows[r].result.None?
    then rows[r := rows[r].(result := Some(token), claimant := Some(leg))]
    else rows
  }

  /** UPDATE … SET applied_at, result WHERE id = :id AND result = :expect_claim */
  function StampApplied(rows: seq<Row>, r: nat, token: string, leg: nat): seq<Row>
    requires r < |rows|
  {
    if rows[r].result == Some(token)
    then rows[r := rows[r].(result := Some(APPLIED), settled := true, closer := ByLeg(leg))]
    else rows
  }

  /** UPDATE … SET applied_at, result WHERE id = :id AND result IS NULL */
  function RejectUnclaimed(rows: seq<Row>, r: nat): seq<Row>
    requires r < |rows|
  {
    if rows[r].result.None?
    then rows[r := rows[r].(result := Some(REJECTED), settled := true, closer := BySweep)]
    else rows
  }

  datatype Outcome = Landed | Abandoned {
    function Word(): string { if Landed? then "applied" else "abandoned" }
  }

  /** A hand resolution, which reaches claimed rows only. */
  function ResolveClaimed(rows: seq<Row>, r: nat, outcome: Outcome, note: string): seq<Row>
    requires r < |rows|
  {
    if rows[r].result.Some? && APPLYING <= rows[r].result.value
    then rows[r := rows[r].(result := Some(outcome.Word() + ": resolved by " + note),
                            settled := true, closer := ByOperator)]
    else rows
  }

  // ---------- Actors and the interleaving ----------

  /** Where a leg stands: about to read the queue; walking its snapshot and claiming row by row (seen is
      the table's length at the read); stamping what it delivered; finished. */
  datatype Phase =
    | Boundary
    | Claiming(queue: seq<nat>, held: seq<nat>, seen: nat)
    | Stamping(todo: seq<nat>)
    | Gone

  /** floor is history: the table's length at the leg's last completed batch. */
  datatype Leg = Leg(owner: Option<string>, phase: Phase, floor: nat)

  /** since is the number of reopenings when the sweep saw a terminal status. */
  datatype Sweep =
    | Asked
    | Listing(since: nat)
    | Writing(since: nat, left: seq<nat>)
    | Swept(since: nat)
    | Declined

  datatype Delivery = Delivery(leg: nat, row: nat, seen: nat)

  datatype State = State(rows: seq<Row>, running: bool, reopenings: nat,
                         legs: seq<Leg>, sweeps: seq<Sweep>, log: seq<Delivery>)

  datatype Action =
    | Admit(message: bool, text: string, stamp: real, id: nat)
    | Close
    | Reopen
    | Resolve(row: nat, outcome: Outcome, note: string)
    | LegStart(owner: Option<string>)
    | LegList(leg: nat)
    | LegClaim(leg: nat)
    | LegOperate(leg: nat)
    | LegStamp(leg: nat)
    | LegStop(leg: nat)
    | SweepStart
    | SweepCheck(sweep: nat)
    | SweepList(sweep: nat)
    | SweepWrite(sweep: nat)

  function WithPhase(s: State, l: nat, p: Phase): State
    requires l < |s.legs|
  {
    s.(legs := s.legs[l := s.legs[l].(phase := p)])
  }

  /** The queue read at a turn boundary, with the two ways it ends the drain: nothing to deliver, or a
      claim already standing at the head. */
  function ListStep(s: State, l: nat): State
    requires l < |s.legs|
  {
    var steers := Messages(s.rows, Pending(s.rows));
    if steers == [] then WithPhase(s, l, Gone)
    else
      var head := s.rows[steers[0]].result;
      if head.Some? && APPLYING <= head.value then WithPhase(s, l, Gone)
      else WithPhase(s, l, Claiming(steers, [], |s.rows|))
  }

  function ClaimStep(s: State, l: nat): State
    requires l < |s.legs| && s.legs[l].phase.Claiming? && s.legs[l].phase.queue != []
    requires s.legs[l].phase.queue[0] < |s.rows|
  {
    var p := s.legs[l].phase;
    var r := p.queue[0];
    var won := s.rows[r].result.None?;
    WithPhase(s.(rows := Claim(s.rows, r, Token(s.legs[l].owner), l)), l,
              Claiming(p.queue[1..], if won then p.held + [r] else p.held, p.seen))
  }

  function Deliveries(l: nat, held: seq<nat>, seen: nat): seq<Delivery> {
    seq(|held|, i requires 0 <= i < |held| => Delivery(l, held[i], seen))
  }

  /** The continuation turn: everything held reaches the model in one call. */
  function OperateStep(s: State, l: nat): State
    requires l < |s.legs| && s.legs[l].phase.Claiming?
  {
    var p := s.legs[l].phase;
    if p.held == [] then WithPhase(s, l, Gone)
    else
      s.(log := s.log + Deliveries(l, p.held, p.seen),
         legs := s.legs[l := s.legs[l].(phase := Stamping(p.held), floor := p.seen)])
  }

  function StampStep(s: State, l: nat): State
    requires l < |s.legs| && s.legs[l].phase.Stamping?
    requires s.legs[l].phase.todo != [] ==> s.legs[l].phase.todo[0] < |s.rows|
  {
    var p := s.legs[l].phase;
    if p.todo == [] then WithPhase(s, l, Boundary)
    else WithPhase(s.(rows := StampApplied(s.rows, p.todo[0], Token(s.legs[l].owner), l)), l,
                   Stamping(p.todo[1..]))
  }

  function Unclaimed(rows: seq<Row>, refs: seq<nat>): (left: seq<nat>)
    requires Within(refs, |rows|)
    ensures Within(left, |rows|)
    ensures forall r: nat :: r in left <==> r in refs && rows[r].result.None?
  {
    if refs == [] then []
    else (if rows[refs[0]].result.None? then [refs[0]] else []) + Unclaimed(rows, refs[1..])
  }

  function SweepStep(s: State, k: nat): State
    requires k < |s.sweeps| && s.sweeps[k].Writing?
    requires s.sweeps[k].left != [] ==> s.sweeps[k].left[0] < |s.rows|
  {
    var w := s.sweeps[k];
    if w.left == [] then s.(sweeps := s.sweeps[k := Swept(w.since)])
    else s.(rows := RejectUnclaimed(s.rows, w.left[0]),
            sweeps := s.sweeps[k := Writing(w.since, w.left[1..])])
  }

  /** One step of one actor; a step that is not open to its actor changes nothing. */
  function Apply(s: State, a: Action): State {
    match a
    case Admit(m, text, stamp, id) =>
      if s.running && (forall r :: r in s.rows ==> r.id != id)
      then s.(rows := s.rows + [Row(m, text, stamp, id, None, false, None, Nobody)])
      else s
    case Close => s.(running := false)
    case Reopen => if s.running then s else s.(running := true, reopenings := s.reopenings + 1)
    case Resolve(r, o, note) =>
      if r < |s.rows| then s.(rows := ResolveClaimed(s.rows, r, o, note)) else s
    case LegStart(owner) => s.(legs := s.legs + [Leg(owner, Boundary, 0)])
    case LegList(l) => if l < |s.legs| && s.legs[l].phase.Boundary? then ListStep(s, l) else s
    case LegClaim(l) =>
      if l < |s.legs| && s.legs[l].phase.Claiming? && s.legs[l].phase.queue != []
         && s.legs[l].phase.queue[0] < |s.rows|
      then ClaimStep(s, l) else s
    case LegOperate(l) =>
      if l < |s.legs| && s.legs[l].phase.Claiming? && s.legs[l].phase.queue == []
      then OperateStep(s, l) else s
    case LegStamp(l) =>
      if l < |s.legs| && s.legs[l].phase.Stamping?
         && (s.legs[l].phase.todo != [] ==> s.legs[l].phase.todo[0] < |s.rows|)
      then StampStep(s, l) else s
    case LegStop(l) => if l < |s.legs| then WithPhase(s, l, Gone) else s
    case SweepStart => s.(sweeps := s.sweeps + [Asked])
    case SweepCheck(k) =>
      if k < |s.sweeps| && s.sweeps[k].Asked?
      then s.(sweeps := s.sweeps[k := if s.running then Declined else Listing(s.reopenings)])
      else s
    case SweepList(k) =>
      if k < |s.sweeps| && s.sweeps[k].Listing?
      then s.(sweeps := s.sweeps[k := Writing(s.sweeps[k].since,
                                              Unclaimed(s.rows, Pending(s.rows)))])
      else s
    case SweepWrite(k) =>
      if k < |s.sweeps| && s.sweeps[k].Writing?
         && (s.sweeps[k].left != [] ==> s.sweeps[k].left[0] < |s.rows|)
      then SweepStep(s, k) else s
  }

  function Exec(s: State, acts: seq<Action>): State
    decreases |acts|
  {
    if acts == [] then s else Exec(Apply(s, acts[0]), acts[1..])
  }

  predicate Fresh(s: State) {
    s.rows == [] && s.legs == [] && s.sweeps == [] && s.log == []
  }

  /** The states an interleaving of any number of actors can produce. */
  ghost predicate Reachable(s: State) {
    exists s0, acts :: Fresh(s0) && s == Exec(s0, acts)
  }

  // ---------- What every step keeps ----------

  predicate RowOk(r: Row, legs: seq<Leg>) {
    && (r.result.None? ==> !r.settled && r.claimant.None? && r.closer.Nobody?)
    && (r.result.Some? && !r.settled ==>
          r.claimant.Some? && r.claimant.value < |legs|
          && r.result.value == Token(legs[r.claimant.value].owner) && r.closer.Nobody?)
    && (r.settled ==>
          match r.closer
          case Nobody => false
          case ByLeg(l) => r.result == Some(APPLIED) && r.claimant == Some(l) && l < |legs| && r.message
          case BySweep => r.result == Some(REJECTED) && r.claimant.None?
          case ByOperator =>
            r.claimant.Some? && r.claimant.value < |legs|
            && r.result.Some? && r.result != Some(APPLIED) && r.result != Some(REJECTED)
            && !(APPLYING <= r.result.value))
  }

  ghost predicate Rows(s: State) {
    && DistinctIds(s.rows)
    && forall i :: 0 <= i < |s.rows| ==> RowOk(s.rows[i], s.legs)
  }

  predicate Logged(log: seq<Delivery>, l: nat, r: nat) {
    exists i :: 0 <= i < |log| && log[i].leg == l && log[i].row == r
  }

  predicate Handed(log: seq<Delivery>, r: nat) {
    exists i :: 0 <= i < |log| && log[i].row == r
  }

  /** Every row the leg ever claimed was handed over by it, but for those it still holds. */
  predicate Accounted(s: State, l: nat, held: seq<nat>) {
    forall r: nat :: r < |s.rows| && s.rows[r].claimant == Some(l) ==> Logged(s.log, l, r) || r in held
  }

  /** No message row below the floor is still open to a claim. */
  predicate ClosedBelow(rows: seq<Row>, floor: nat) {
    floor <= |rows| && forall i :: 0 <= i < floor && rows[i].message ==> rows[i].result.Some?
  }

  predicate LegOk(s: State, l: nat)
    requires l < |s.legs|
  {
    var leg := s.legs[l];
    && ClosedBelow(s.rows, leg.floor)
    && match leg.phase
       case Boundary => Accounted(s, l, [])
       case Gone => true
       case Claiming(queue, held, seen) =>
         && Accounted(s, l, held)
         && leg.floor <= seen <= |s.rows|
         && InKeyOrder(s.rows, held + queue)
         && (forall r: nat :: r in held + queue ==> r < seen && s.rows[r].message)
         && (forall r: nat :: r in held ==>
               leg.floor <= r < |s.rows| && s.rows[r].claimant == Some(l) && !Handed(s.log, r))
         && (forall i :: 0 <= i < seen && s.rows[i].message && s.rows[i].result.None? ==> i in queue)
       case Stamping(todo) =>
         && Accounted(s, l, [])
         && (forall r: nat :: r in todo ==> r < |s.rows| && s.rows[r].message && Logged(s.log, l, r))
         && (forall r: nat :: r in todo ==> s.rows[r].closer != ByLeg(l))
         && (forall i, j :: 0 <= i < j < |todo| ==> todo[i] != todo[j])
  }

  ghost predicate Legs(s: State) {
    forall l :: 0 <= l < |s.legs| ==> LegOk(s, l)
  }

  predicate DeliveryOk(s: State, d: Delivery) {
    && d.row < d.seen <= |s.rows| && d.leg < |s.legs|
    && s.rows[d.row].claimant == Some(d.leg) && s.rows[d.row].message
    && d.seen <= s.legs[d.leg].floor
  }

  /** Two deliveries of one leg: in key order inside a batch, and across batches the later row was
      admitted only after the earlier batch was read. */
  predicate InTurn(rows: seq<Row>, a: Delivery, b: Delivery)
    requires a.row < |rows| && b.row < |rows|
  {
    Before(rows[a.row], rows[b.row]) || a.row < a.seen <= b.row
  }

  ghost predicate Log(s: State) {
    && (forall i :: 0 <= i < |s.log| ==> DeliveryOk(s, s.log[i]))
    && (forall i, j :: 0 <= i < j < |s.log| ==> s.log[i].row != s.log[j].row)
    && (forall i, j :: 0 <= i < j < |s.log| && s.log[i].leg == s.log[j].leg
                       ==> InTurn(s.rows, s.log[i], s.log[j]))
    && (forall r :: 0 <= r < |s.rows| && s.rows[r].closer.ByLeg?
                    ==> Logged(s.log, s.rows[r].closer.leg, r))
  }

  predicate SweepOk(s: State, w: Sweep) {
    match w
    case Asked => true
    case Declined => true
    case Listing(since) => since <= s.reopenings && (since == s.reopenings ==> !s.running)
    case Writing(since, left) =>
      && since <= s.reopenings && (forall r :: r in left ==> r < |s.rows|)
      && (since == s.reopenings ==>
            !s.running && forall i :: 0 <= i < |s.rows| && s.rows[i].result.None? ==> i in left)
    case Swept(since) =>
      && since <= s.reopenings
      && (since == s.reopenings ==>
            !s.running && forall i :: 0 <= i < |s.rows| ==> s.rows[i].result.Some?)
  }

  ghost predicate Sweeps(s: State) {
    forall k :: 0 <= k < |s.sweeps| ==> SweepOk(s, s.sweeps[k])
  }

  ghost predicate Inv(s: State) {
    Rows(s) && Legs(s) && Log(s) && Sweeps(s)
  }

  // ---------- The listing ----------

  lemma HeadAndTail(rows: seq<Row>, refs: seq<nat>)
    requires refs != [] && InKeyOrder(rows, refs)
    ensures InKeyOrder(rows, refs[1..])
    ensures forall r: nat :: r in refs[1..] ==> Before(rows[refs[0]], rows[r])
  {
    forall r: nat | r in refs[1..]
      ensures Before(rows[refs[0]], rows[r])
    {
      var i :| 0 <= i < |refs[1..]| && refs[1..][i] == r;
      assert refs[i + 1] == r;
    }
  }

  lemma Cons(rows: seq<Row>, head: nat, tail: seq<nat>)
    requires head < |rows| && InKeyOrder(rows, tail)
    requires forall r: nat :: r in tail ==> Before(rows[head], rows[r])
    ensures InKeyOrder(rows, [head] + tail)
  {
    var all := [head] + tail;
    forall i, j | 0 <= i < j < |all|
      ensures Before(rows[all[i]], rows[all[j]])
    {
      assert all[j] == tail[j - 1] && tail[j - 1] in tail;
      if i > 0 {
        assert all[i] == tail[i - 1];
      }
    }
  }

  lemma {:induction false} PlaceInOrder(rows: seq<Row>, refs: seq<nat>, n: nat)
    requires DistinctIds(rows) && n < |rows| && InKeyOrder(rows, refs) && n !in refs
    ensures InKeyOrder(rows, Place(rows, refs, n))
  {
    if refs == [] {
    } else {
      HeadAndTail(rows, refs);
      if Before(rows[n], rows[refs[0]]) {
        Cons(rows, n, refs);
      } else {
        assert refs[0] in refs;
        PlaceInOrder(rows, refs[1..], n);
        Cons(rows, refs[0], Place(rows, refs[1..], n));
      }
    }
  }

  lemma NothingInOrder(rows: seq<Row>)
    ensures InKeyOrder(rows, [])
  {}

  /** The listing is the unapplied rows (Pending's own contract), once each, in key order. */
  lemma {:induction false} PendingInOrder(rows: seq<Row>, n: nat)
    requires n <= |rows| && DistinctIds(rows)
    ensures InKeyOrder(rows, Pending(rows, n))
  {
    hide InKeyOrder, Place;
    if n == 0 {
      NothingInOrder(rows);
    } else {
      PendingInOrder(rows, n - 1);
      if !rows[n - 1].settled {
        PlaceInOrder(rows, Pending(rows, n - 1), n - 1);
      }
    }
  }

  lemma {:induction false} MessagesInOrder(rows: seq<Row>, refs: seq<nat>)
    requires InKeyOrder(rows, refs)
    ensures InKeyOrder(rows, Messages(rows, refs))
  {
    if refs != [] {
      HeadAndTail(rows, refs);
      MessagesInOrder(rows, refs[1..]);
      if rows[refs[0]].message {
        Cons(rows, refs[0], Messages(rows, refs[1..]));
      } else {
        assert Messages(rows, refs) == Messages(rows, refs[1..]);
      }
    }
  }
}
