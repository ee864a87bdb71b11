/** The order of one leg's deliveries over all its batches: exactly which admissions keep it. */
module SteerOrder {
  import opened Wrappers
  import opened SteerProtocol
  import opened SteerTheorems

  /** What an operator queues: everything of a row that is there from the start. */
  datatype Entry = Entry(message: bool, text: string, stamp: real, id: nat)

  function Of(r: Row): Entry { Entry(r.message, r.text, r.stamp, r.id) }

  function Queued(e: Entry): Row { Row(e.message, e.text, e.stamp, e.id, None, false, None, Nobody) }

  predicate Precedes(a: Entry, b: Entry) { a.stamp < b.stamp || (a.stamp == b.stamp && a.id < b.id) }

  predicate Distinct(entries: seq<Entry>) {
    forall i, j :: 0 <= i < j < |entries| ==> entries[i].id != entries[j].id
  }

  /** The table holds these entries, admitted in this order. */
  predicate Holds(rows: seq<Row>, entries: seq<Entry>) {
    |rows| == |entries| && forall i :: 0 <= i < |rows| ==> Of(rows[i]) == entries[i]
  }

  /** Keys follow admission among the messages; rows of other verbs may be stamped as they like. */
  predicate MessageStampsFollow(entries: seq<Entry>) {
    forall a, b :: 0 <= a < b < |entries| && entries[a].message && entries[b].message ==>
      Precedes(entries[a], entries[b])
  }

  predicate InArrivalOrder(log: seq<Delivery>) {
    forall i, j :: 0 <= i < j < |log| && log[i].leg == log[j].leg ==> log[i].row < log[j].row
  }

  predicate InKeyOrderThroughout(s: State) {
    forall i, j :: 0 <= i < j < |s.log| && s.log[i].leg == s.log[j].leg ==>
      s.log[i].row < |s.rows| && s.log[j].row < |s.rows| && Before(s.rows[s.log[i].row], s.rows[s.log[j].row])
  }

  /** For any admissions with distinct ids: every run delivers, leg by leg, in arrival order if and only if
      the keys of the messages follow admission; and in key order on the very same condition. */
  lemma OrderExactlyWhenStampsFollow(entries: seq<Entry>)
    requires Distinct(entries)
    ensures (forall s :: Reachable(s) && Holds(s.rows, entries) ==> InArrivalOrder(s.log))
            <==> MessageStampsFollow(entries)
    ensures (forall s :: Reachable(s) && Holds(s.rows, entries) ==> InKeyOrderThroughout(s))
            <==> MessageStampsFollow(entries)
  {
    if MessageStampsFollow(entries) {
      forall s | Reachable(s) && Holds(s.rows, entries) ensures InArrivalOrder(s.log) && InKeyOrderThroughout(s) {
        FollowingStampsKeepOrder(s, entries);
      }
    } else {
      var a, b :| 0 <= a < b < |entries| && entries[a].message && entries[b].message
                  && !Precedes(entries[a], entries[b]);
      var s := OneBatchReverses(entries, a, b);
      var t := TwoBatchesReverse(entries, a, b);
    }
  }

  lemma FollowingStampsKeepOrder(s: State, entries: seq<Entry>)
    requires MessageStampsFollow(entries) && Reachable(s) && Holds(s.rows, entries)
    ensures InArrivalOrder(s.log) && InKeyOrderThroughout(s)
  {
    hide Reachable;
    forall a, b | 0 <= a < b < |s.rows| && s.rows[a].message && s.rows[b].message
      ensures Before(s.rows[a], s.rows[b])
    {
      assert Of(s.rows[a]) == entries[a] && Of(s.rows[b]) == entries[b];
    }
    forall i, j | 0 <= i < j < |s.log| && s.log[i].leg == s.log[j].leg
      ensures s.log[i].row < s.log[j].row < |s.rows| && Before(s.rows[s.log[i].row], s.rows[s.log[j].row])
    {
      ArrivalOrderWhenStampsFollow(s, i, j);
    }
  }

  // ---------- Runs that break the order ----------

  /** An open session with one leg at its turn boundary. */
  ghost predicate Idle(s: State) {
    Reachable(s) && s.running && |s.legs| == 1 && s.legs[0].phase.Boundary?
  }

  predicate SameEntries(rows: seq<Row>, rows': seq<Row>) {
    |rows'| == |rows| && forall i :: 0 <= i < |rows| ==> Of(rows'[i]) == Of(rows[i])
  }

  lemma Started() returns (s: State)
    ensures Idle(s) && s.rows == [] && s.log == []
  {
    var empty := State([], true, 0, [], [], []);
    assert Exec(empty, []) == empty && Fresh(empty);
    s := Apply(empty, LegStart(None));
    ReachableStep(empty, LegStart(None));
  }

  lemma {:induction false} AdmitAll(s: State, entries: seq<Entry>) returns (s': State)
    requires Idle(s) && Distinct(entries)
    requires forall i, j :: 0 <= i < |s.rows| && 0 <= j < |entries| ==> s.rows[i].id != entries[j].id
    ensures Idle(s') && s'.log == s.log
    ensures s'.rows == s.rows + seq(|entries|, i requires 0 <= i < |entries| => Queued(entries[i]))
    decreases |entries|
  {
    hide Reachable;
    s' := s;
    if entries != [] {
      var e := entries[0];
      var a := Admit(e.message, e.text, e.stamp, e.id);
      ReachableStep(s, a);
      var t := Apply(s, a);
      assert t.rows == s.rows + [Queued(e)];
      s' := AdmitAll(t, entries[1..]);
    }
  }

  /** The claiming pass of an undisturbed leg takes every row of its snapshot. */
  lemma {:induction false} ClaimPass(s: State) returns (s': State)
    requires Reachable(s) && |s.legs| == 1 && s.legs[0].phase.Claiming?
    requires forall r: nat :: r in s.legs[0].phase.queue ==> r < |s.rows| && s.rows[r].result.None?
    ensures var p := s.legs[0].phase;
            && Reachable(s') && s' == s.(rows := s'.rows, legs := s'.legs)
            && s'.legs == [s.legs[0].(phase := Claiming([], p.held + p.queue, p.seen))]
            && SameEntries(s.rows, s'.rows)
            && forall r: nat :: r < |s.rows| ==>
                 if r in p.queue then s'.rows[r].result == Some(Token(s.legs[0].owner)) && !s'.rows[r].settled
                 else s'.rows[r] == s.rows[r]
    decreases |s.legs[0].phase.queue|
  {
    hide Reachable, Token;
    var p := s.legs[0].phase;
    ClaimingIsSound(s);
    s' := s;
    if p.queue == [] {
      assert p.held + [] == p.held;
    } else {
      var r := p.queue[0];
      assert r in p.queue;
      var t := Apply(s, LegClaim(0));
      ReachableStep(s, LegClaim(0));
      assert p.queue == [r] + p.queue[1..];
      assert (p.held + [r]) + p.queue[1..] == p.held + p.queue;
      forall x: nat | x in p.queue[1..] ensures x in p.queue && x != r {}
      s' := ClaimPass(t);
    }
  }

  lemma ClaimingIsSound(s: State)
    requires Reachable(s) && |s.legs| == 1 && s.legs[0].phase.Claiming?
    ensures s.legs[0].phase.queue != [] ==> s.legs[0].phase.queue[0] !in s.legs[0].phase.queue[1..]
    ensures forall r: nat :: r < |s.rows| && s.rows[r].result.None? ==> !s.rows[r].settled
  {
    ReachableIsSound(s);
    assert LegOk(s, 0);
    var held, queue := s.legs[0].phase.held, s.legs[0].phase.queue;
    forall i | 0 < i < |queue| ensures queue[0] != queue[i] {
      assert Before(s.rows[(held + queue)[|held|]], s.rows[(held + queue)[|held| + i]]);
    }
    forall r: nat | r < |s.rows| && s.rows[r].result.None? ensures !s.rows[r].settled {
      assert RowOk(s.rows[r], s.legs);
    }
  }

  /** The stamping pass of an undisturbed leg closes every row it delivered. */
  lemma {:induction false} StampPass(s: State) returns (s': State)
    requires Reachable(s) && |s.legs| == 1 && s.legs[0].phase.Stamping?
    requires forall r: nat :: r in s.legs[0].phase.todo ==>
               r < |s.rows| && s.rows[r].result == Some(Token(s.legs[0].owner))
    ensures var todo := s.legs[0].phase.todo;
            && Reachable(s') && s' == s.(rows := s'.rows, legs := s'.legs)
            && s'.legs == [s.legs[0].(phase := Boundary)]
            && SameEntries(s.rows, s'.rows)
            && forall r: nat :: r < |s.rows| ==> if r in todo then s'.rows[r].settled else s'.rows[r] == s.rows[r]
    decreases |s.legs[0].phase.todo|
  {
    hide Reachable, Token;
    var todo := s.legs[0].phase.todo;
    assert todo != [] ==> todo[0] in todo;
    var t := Apply(s, LegStamp(0));
    ReachableStep(s, LegStamp(0));
    if todo == [] {
      s' := t;
    } else {
      StampingIsSound(s);
      assert todo == [todo[0]] + todo[1..];
      forall x: nat | x in todo[1..] ensures x in todo && x != todo[0] {}
      s' := StampPass(t);
    }
  }

  lemma StampingIsSound(s: State)
    requires Reachable(s) && |s.legs| == 1 && s.legs[0].phase.Stamping? && s.legs[0].phase.todo != []
    ensures s.legs[0].phase.todo[0] !in s.legs[0].phase.todo[1..]
  {
    ReachableIsSound(s);
    assert LegOk(s, 0);
  }

  ghost predicate NoneClaimed(rows: seq<Row>) {
    forall r: nat :: Waits(rows, r) ==> rows[r].result.None?
  }

  ghost predicate NoneWaits(rows: seq<Row>) { forall r: nat :: !Waits(rows, r) }

  /** A whole batch of an undisturbed leg: it delivers all that waits, in key order, and closes it. */
  lemma Batch(s: State) returns (s': State, queue: seq<nat>)
    requires Idle(s) && NoneClaimed(s.rows) && !NoneWaits(s.rows)
    ensures Idle(s') && SameEntries(s.rows, s'.rows) && NoneWaits(s'.rows)
    ensures s'.log == s.log + Deliveries(0, queue, |s.rows|)
    ensures InKeyOrder(s.rows, queue)
    ensures forall r: nat :: r in queue <==> Waits(s.rows, r)
  {
    hide Reachable, Token, InKeyOrder, Deliveries, Apply, Of;
    queue := Waiting(s);
    ListStarts(s, queue);
    var s1 := Apply(s, LegList(0));
    ReachableStep(s, LegList(0));
    var s2 := ClaimPass(s1);
    assert [] + queue == queue;
    var s3 := Apply(s2, LegOperate(0));
    ReachableStep(s2, LegOperate(0));
    OperateDelivers(s2);
    s' := StampPass(s3);
  }

  predicate Waits(rows: seq<Row>, r: nat) { r < |rows| && rows[r].message && !rows[r].settled }

  lemma Waiting(s: State) returns (queue: seq<nat>)
    requires Reachable(s)
    ensures queue == Messages(s.rows, Pending(s.rows)) && InKeyOrder(s.rows, queue)
    ensures forall r: nat :: r in queue <==> Waits(s.rows, r)
  {
    hide InKeyOrder;
    ReachableIsSound(s);
    queue := Messages(s.rows, Pending(s.rows));
    PendingInOrder(s.rows, |s.rows|);
    MessagesInOrder(s.rows, Pending(s.rows));
  }

  lemma ListStarts(s: State, queue: seq<nat>)
    requires Idle(s) && NoneClaimed(s.rows) && !NoneWaits(s.rows)
    requires queue == Messages(s.rows, Pending(s.rows)) && forall r: nat :: r in queue <==> Waits(s.rows, r)
    ensures queue != []
    ensures Apply(s, LegList(0)) == s.(legs := [s.legs[0].(phase := Claiming(queue, [], |s.rows|))])
  {
    hide Reachable, Messages, Pending;
    var r: nat :| Waits(s.rows, r);
    assert r in queue && queue[0] in queue;
  }

  lemma OperateDelivers(s: State)
    requires |s.legs| == 1 && s.legs[0].phase.Claiming? && s.legs[0].phase.queue == [] && s.legs[0].phase.held != []
    ensures var p := s.legs[0].phase;
            Apply(s, LegOperate(0)) == s.(log := s.log + Deliveries(0, p.held, p.seen),
                                          legs := [s.legs[0].(phase := Stamping(p.held), floor := p.seen)])
  {}

  lemma PlacesInKeyOrder(rows: seq<Row>, queue: seq<nat>, a: nat, b: nat) returns (i: nat, j: nat)
    requires InKeyOrder(rows, queue) && a in queue && b in queue
    requires a < |rows| && b < |rows| && Before(rows[b], rows[a])
    ensures j < i < |queue| && queue[i] == a && queue[j] == b
  {
    i :| i < |queue| && queue[i] == a;
    j :| j < |queue| && queue[j] == b;
  }

  lemma Converse(a: Entry, b: Entry)
    requires a.id != b.id && !Precedes(a, b)
    ensures Precedes(b, a)
  {}

  /** Both admitted before the leg looks: the later one goes out first. */
  lemma OneBatchReverses(entries: seq<Entry>, a: nat, b: nat) returns (s: State)
    requires Distinct(entries) && a < b < |entries| && entries[a].message && entries[b].message
    requires !Precedes(entries[a], entries[b])
    ensures Reachable(s) && Holds(s.rows, entries) && !InArrivalOrder(s.log)
  {
    hide Reachable;
    Converse(entries[a], entries[b]);
    var start := Started();
    var full := AdmitAll(start, entries);
    assert full.rows[a] == Queued(entries[a]) && full.rows[b] == Queued(entries[b]);
    assert Waits(full.rows, a) && Waits(full.rows, b);
    forall r: nat | Waits(full.rows, r) ensures full.rows[r].result.None? {
      assert full.rows[r] == Queued(entries[r]);
    }
    var queue;
    s, queue := Batch(full);
    var i, j := PlacesInKeyOrder(full.rows, queue, a, b);
    assert s.log[j].row == b && s.log[i].row == a;
    forall k | 0 <= k < |s.rows| ensures Of(s.rows[k]) == entries[k] {
      assert full.rows[k] == Queued(entries[k]);
    }
  }

  /** The later one admitted only after the earlier was delivered: arrival order, against the keys. */
  lemma TwoBatchesReverse(entries: seq<Entry>, a: nat, b: nat) returns (s: State)
    requires Distinct(entries) && a < b < |entries| && entries[a].message && entries[b].message
    requires !Precedes(entries[a], entries[b])
    ensures Reachable(s) && Holds(s.rows, entries) && !InKeyOrderThroughout(s)
  {
    hide Reachable;
    Converse(entries[a], entries[b]);
    var start := Started();
    var half := AdmitAll(start, entries[..b]);
    assert half.rows[a] == Queued(entries[a]);
    forall r: nat | Waits(half.rows, r) ensures half.rows[r].result.None? {
      assert half.rows[r] == Queued(entries[r]);
    }
    var first, i := BatchWith(half, a);
    forall k | 0 <= k < b ensures Of(first.rows[k]) == entries[k] {
      assert half.rows[k] == Queued(entries[k]);
    }
    var full := AdmitAll(first, entries[b..]);
    forall k | 0 <= k < |entries| ensures Of(full.rows[k]) == entries[k] {
      if k >= b { assert full.rows[k] == Queued(entries[b..][k - b]); }
    }
    assert full.rows[b] == Queued(entries[b..][0]);
    forall r: nat | Waits(full.rows, r) ensures full.rows[r].result.None? {
      assert r < b ==> Waits(first.rows, r);
    }
    var j;
    s, j := BatchWith(full, b);
    assert Of(s.rows[a]) == entries[a] && Of(s.rows[b]) == entries[b];
  }

  /** A batch that delivers row r, at place i of the log. */
  lemma BatchWith(s: State, r: nat) returns (s': State, i: nat)
    requires Idle(s) && NoneClaimed(s.rows)
    requires Waits(s.rows, r)
    ensures Idle(s') && SameEntries(s.rows, s'.rows) && NoneWaits(s'.rows)
    ensures s.log <= s'.log && |s.log| <= i < |s'.log| && s'.log[i].row == r
    ensures forall k :: |s.log| <= k < |s'.log| ==> s'.log[k].leg == 0
  {
    hide Idle, Before;
    var queue;
    s', queue := Batch(s);
    var j :| 0 <= j < |queue| && queue[j] == r;
    i := |s.log| + j;
  }
}
