/** One session row under concurrent teardowns, resumes, other writers and maintenance.  Each actor's
    reads and writes are separate steps; the write itself is the store's guarded transition. */
module SessionLifecycle {
  import opened Wrappers
  import opened Verdict

  /** approximate marks an end nobody measured; leg stands for the process markers of the leg at work. */
  datatype Row = Row(status: Status, started: Option<real>, ended: Option<real>, approximate: bool,
                     duration: Option<real>, leg: Option<nat>)

  // ---------- The guarded transition ----------

  /** Columns a transition sets besides the status; an outer None leaves the column alone. */
  datatype Patch = Patch(ended: Option<Option<real>>, approximate: Option<bool>,
                         duration: Option<Option<real>>, leg: Option<nat>)

  datatype Command = Command(to: Status, expected: Option<set<Status>>, override: bool, patch: Patch)

  datatype Reply = NotFound | Conflict | Rejected | Applied(row: Row)

  function Max0(x: real): real { if x < 0.0 then 0.0 else x }

  /** The end a terminal transition settles on: the caller's, or the row's if measured, or the moment of
      the write. */
  function SettleEnd(row: Row, p: Patch, now: real): Patch {
    var given := if p.ended.Some? then p.ended.value else row.ended;
    var measured := given.None? || (p.ended.None? && row.approximate);
    var end := if measured then now else given.value;
    var approximate := if measured then false else if p.approximate.Some? then p.approximate.value else false;
    var duration :=
      if approximate then Some(None)
      else if p.duration.Some? then p.duration
      else if row.started.Some? then Some(Some(Max0(end - row.started.value) * 1000.0))
      else None;
    Patch(Some(Some(end)), Some(approximate), duration, p.leg)
  }

  function Written(row: Row, to: Status, p: Patch): Row {
    Row(to, row.started,
        if p.ended.Some? then p.ended.value else row.ended,
        if p.approximate.Some? then p.approximate.value else row.approximate,
        if p.duration.Some? then p.duration.value else row.duration,
        if p.leg.Some? then p.leg else row.leg)
  }

  function Transition(row: Option<Row>, c: Command, now: real): Reply {
    if row.None? then NotFound
    else
      var previous := row.value.status;
      if c.expected.Some? && previous !in c.expected.value then Conflict
      else if previous != c.to && Terminal(previous) && !c.override then Rejected
      else
        var settles := Terminal(c.to) && previous != c.to;
        Applied(Written(row.value, c.to, if settles then SettleEnd(row.value, c.patch, now) else c.patch))
  }

  // ---------- Actors ----------

  /** A lost compare-and-set, with the lengths the log of writes had: the teardown saw status pre after the
      first `seen` writes and was refused after the first `lost`. */
  datatype Race = Race(pre: Status, seen: nat, lost: nat)

  /** How a teardown came by what it reports; seen and read are log lengths at the look it rests on. */
  datatype How =
    | Won
    | AlreadyTerminal(seen: nat)
    | ReadBack(race: Race, read: nat)
    | RowGone(race: Race)
    | Deferred
    | Broke(read: nat)

  datatype Phase =
    | Deciding
    | Guarding(started: Option<real>, pre: Option<Status>, seen: nat)
    | Losing(race: Race)
    | Failing
    | Reported(status: Option<Status>, how: How)

  /** One teardown: what it decides on, the end time it took, and where it stands. */
  datatype Teardown = Teardown(input: Input, ended: real, phase: Phase)

  datatype Resume =
    | Looking(leg: nat)
    | Reopening(leg: nat, existing: Option<Status>)
    | Resumed(reopened: bool)

  datatype Who = ByTeardown(t: nat) | ByResume(r: nat) | ByOther

  /** A status write that landed. */
  datatype Event = Event(who: Who, before: Status, after: Status, ended: Option<real>, reason: Option<Reason>)

  datatype State = State(row: Option<Row>, teardowns: seq<Teardown>, resumes: seq<Resume>, log: seq<Event>)

  datatype Action =
    | TearStart(input: Input, ended: real, defer: bool)
    | TearRead(t: nat)
    | TearWrite(t: nat, now: real)
    | TearReadBack(t: nat)
    | TearRaise(t: nat)
    | TearRecover(t: nat, readable: bool)
    | ResumeStart(leg: nat)
    | ResumeRead(r: nat)
    | ResumeWrite(r: nat, now: real)
    | OtherWrite(to: Status, expected: Option<set<Status>>, patch: Patch, now: real)
    | Maintain

  /** The teardown's write: it carries its own end time and the duration derived from the start it read,
      guarded by the status it saw. */
  function TeardownCommand(t: Teardown): Command
    requires t.phase.Guarding? && t.phase.pre.Some?
  {
    Command(FinalStatus(t.input), Some({t.phase.pre.value}), false,
            Patch(Some(Some(t.ended)), None,
                  if t.phase.started.Some? then Some(Some(Max0((t.ended - t.phase.started.value) * 1000.0))) else None,
                  None))
  }

  function TerminalStatuses(): set<Status> {
    {Completed, CompletedEmpty, Failed, TimedOut, Aborted, Cancelled}
  }

  /** The one sanctioned exit from a terminal status. */
  function ReopenCommand(leg: nat): Command {
    Command(Running, Some(TerminalStatuses()), true, Patch(Some(None), None, None, Some(leg)))
  }

  function Land(s: State, who: Who, row: Row, reason: Option<Reason>): State
    requires s.row.Some?
  {
    s.(row := Some(row), log := s.log + [Event(who, s.row.value.status, row.status, row.ended, reason)])
  }

  function SetPhase(s: State, t: nat, to: Phase): State
    requires t < |s.teardowns|
  {
    s.(teardowns := s.teardowns[t := s.teardowns[t].(phase := to)])
  }

  function GuardStep(s: State, t: nat, now: real): State
    requires t < |s.teardowns| && s.teardowns[t].phase.Guarding?
  {
    var u := s.teardowns[t];
    var verdict, g := Some(FinalStatus(u.input)), u.phase;
    if g.pre.None? then SetPhase(s, t, Failing)
    else if Terminal(g.pre.value) then SetPhase(s, t, Reported(verdict, AlreadyTerminal(g.seen)))
    else
      match Transition(s.row, TeardownCommand(u), now)
      case Applied(row) =>
        Land(SetPhase(s, t, Reported(verdict, Won)), ByTeardown(t), row, Some(FinalReason(u.input)))
      case NotFound => SetPhase(s, t, Failing)
      case _ => SetPhase(s, t, Losing(Race(g.pre.value, g.seen, |s.log|)))
  }

  function ReopenStep(s: State, r: nat, now: real): State
    requires r < |s.resumes| && s.resumes[r].Reopening?
  {
    var o := s.resumes[r];
    if o.existing.None? || !Terminal(o.existing.value) then s.(resumes := s.resumes[r := Resumed(false)])
    else
      match Transition(s.row, ReopenCommand(o.leg), now)
      case Applied(row) => Land(s.(resumes := s.resumes[r := Resumed(true)]), ByResume(r), row, None)
      case _ => s.(resumes := s.resumes[r := Resumed(false)])
  }

  function Seen(row: Option<Row>): Option<Status> { if row.Some? then Some(row.value.status) else None }

  function Apply(s: State, a: Action): State {
    match a
    case TearStart(input, ended, defer) =>
      s.(teardowns := s.teardowns
                      + [Teardown(input, ended, if defer then Reported(Some(input.status), Deferred) else Deciding)])
    case TearRead(t) =>
      if t < |s.teardowns| && s.teardowns[t].phase.Deciding?
      then SetPhase(s, t, Guarding(if s.row.Some? then s.row.value.started else None, Seen(s.row), |s.log|))
      else s
    case TearWrite(t, now) =>
      if t < |s.teardowns| && s.teardowns[t].phase.Guarding? then GuardStep(s, t, now) else s
    case TearReadBack(t) =>
      if t < |s.teardowns| && s.teardowns[t].phase.Losing?
      then SetPhase(s, t, if s.row.Some? then Reported(Seen(s.row), ReadBack(s.teardowns[t].phase.race, |s.log|))
                          else Reported(Some(FinalStatus(s.teardowns[t].input)), RowGone(s.teardowns[t].phase.race)))
      else s
    case TearRaise(t) =>
      if t < |s.teardowns| && !s.teardowns[t].phase.Reported? then SetPhase(s, t, Failing) else s
    case TearRecover(t, readable) =>
      if t < |s.teardowns| && s.teardowns[t].phase.Failing?
      then SetPhase(s, t, Reported(if readable then Seen(s.row) else None, Broke(|s.log|)))
      else s
    case ResumeStart(leg) => s.(resumes := s.resumes + [Looking(leg)])
    case ResumeRead(r) =>
      if r < |s.resumes| && s.resumes[r].Looking?
      then s.(resumes := s.resumes[r := Reopening(s.resumes[r].leg, Seen(s.row))])
      else s
    case ResumeWrite(r, now) =>
      if r < |s.resumes| && s.resumes[r].Reopening? then ReopenStep(s, r, now) else s
    case OtherWrite(to, expected, patch, now) =>
      // no writer but the resume clears an end
      if patch.ended == Some(None) then s
      else
        (match Transition(s.row, Command(to, expected, false, patch), now)
         case Applied(row) => Land(s, ByOther, row, None)
         case _ => s)
    case Maintain =>
      if s.row.Some? && Terminal(s.row.value.status) then s.(row := None) else s
  }

  function Exec(s: State, acts: seq<Action>): State
    decreases |acts|
  {
    if acts == [] then s else Exec(Apply(s, acts[0]), acts[1..])
  }

  predicate Fresh(s: State) {
    && s.row.Some? && s.row.value.status == Running
    && s.teardowns == [] && s.resumes == [] && s.log == []
  }

  // ---------- What every step keeps ----------

  /** Status writes form a chain from the fresh row to the row as it stands. */
  function Last(log: seq<Event>): Status {
    if log == [] then Running else log[|log| - 1].after
  }

  predicate Chained(log: seq<Event>) {
    && (log != [] ==> log[0].before == Running)
    && forall i :: 0 < i < |log| ==> log[i].before == log[i - 1].after
  }

  predicate Sanctioned(e: Event) {
    && (Terminal(e.before) && e.after != e.before ==> e.who.ByResume? && e.after == Running)
    && (e.who.ByResume? ==> Terminal(e.before) && e.after == Running && e.ended.None?)
    && (e.who.ByTeardown? ==> !Terminal(e.before) && e.reason.Some?)
    && (Terminal(e.after) && e.after != e.before ==> e.ended.Some?)
  }

  /** The status the row had after the first n writes. */
  function StatusAt(log: seq<Event>, n: nat): Status
    requires n <= |log|
  {
    Last(log[..n])
  }

  /** The refusal was due: by then the row had left the open status the teardown saw. */
  predicate RaceOk(log: seq<Event>, r: Race) {
    && r.seen <= r.lost <= |log|
    && StatusAt(log, r.seen) == r.pre && !Terminal(r.pre) && StatusAt(log, r.lost) != r.pre
  }

  predicate ReportOk(s: State, t: nat, status: Option<Status>, how: How)
    requires t < |s.teardowns|
  {
    var own := Some(FinalStatus(s.teardowns[t].input));
    match how
    case Won => status == own && exists i :: 0 <= i < |s.log| && s.log[i].who == ByTeardown(t)
    case AlreadyTerminal(seen) => status == own && seen <= |s.log| && Terminal(StatusAt(s.log, seen))
    case ReadBack(race, read) =>
      RaceOk(s.log, race) && race.lost <= read <= |s.log| && status == Some(StatusAt(s.log, read))
    case RowGone(race) => status == own && RaceOk(s.log, race) && s.row.None?
    case Deferred => status == Some(s.teardowns[t].input.status)
    case Broke(read) => status.Some? ==> read <= |s.log| && status == Some(StatusAt(s.log, read))
  }

  predicate TeardownOk(s: State, t: nat)
    requires t < |s.teardowns|
  {
    match s.teardowns[t].phase
    case Guarding(_, pre, seen) => seen <= |s.log| && (pre.Some? ==> pre.value == StatusAt(s.log, seen))
    case Losing(race) => RaceOk(s.log, race)
    case Reported(status, how) => ReportOk(s, t, status, how)
    case _ => true
  }

  /** A write of teardown u: its verdict, with its own reason and end time. */
  predicate Signed(e: Event, u: Teardown) {
    && u.phase == Reported(Some(e.after), Won)
    && e.after == FinalStatus(u.input) && e.reason == Some(FinalReason(u.input)) && e.ended == Some(u.ended)
  }

  ghost predicate Writes(s: State) {
    && Chained(s.log)
    && (forall i :: 0 <= i < |s.log| ==> Sanctioned(s.log[i]))
    && (s.row.Some? ==> s.row.value.status == Last(s.log))
    && (s.row.None? ==> Terminal(Last(s.log)))
    && (s.row.Some? && Terminal(s.row.value.status) ==> s.row.value.ended.Some?)
  }

  ghost predicate Signatures(s: State) {
    && (forall i :: 0 <= i < |s.log| && s.log[i].who.ByTeardown? ==>
          s.log[i].who.t < |s.teardowns| && Signed(s.log[i], s.teardowns[s.log[i].who.t]))
    && (forall i, j :: 0 <= i < j < |s.log| && s.log[i].who.ByTeardown? ==> s.log[i].who != s.log[j].who)
  }

  /** The writes of resumes: one each, exactly for those that ended having reopened the row. */
  ghost predicate Reopens(s: State) {
    && (forall i :: 0 <= i < |s.log| && s.log[i].who.ByResume? ==>
          s.log[i].who.r < |s.resumes| && s.resumes[s.log[i].who.r] == Resumed(true))
    && (forall i, j :: 0 <= i < j < |s.log| && s.log[i].who.ByResume? ==> s.log[i].who != s.log[j].who)
    && (forall r :: 0 <= r < |s.resumes| && s.resumes[r] == Resumed(true) ==>
          exists i :: 0 <= i < |s.log| && s.log[i].who == ByResume(r))
  }

  ghost predicate Inv(s: State) {
    Writes(s) && Signatures(s) && Reopens(s) && forall t :: 0 <= t < |s.teardowns| ==> TeardownOk(s, t)
  }

  /** What happened up to a point stays what happened up to it. */
  lemma StatusStays(log: seq<Event>, log': seq<Event>)
    requires log <= log'
    ensures forall n: nat :: n <= |log| ==> StatusAt(log', n) == StatusAt(log, n)
  {
    forall n: nat | n <= |log| ensures StatusAt(log', n) == StatusAt(log, n) {
      assert log'[..n] == log[..n];
    }
  }

  /** A teardown that did not move keeps what it can vouch for as the log grows. */
  lemma TeardownKept(s: State, s': State, t: nat)
    requires t < |s.teardowns| && t < |s'.teardowns| && s'.teardowns[t] == s.teardowns[t] && TeardownOk(s, t)
    requires s.log <= s'.log && (s.row.None? ==> s'.row.None?)
    ensures TeardownOk(s', t)
  {
    hide Last, FinalStatus, StatusAt;
    StatusStays(s.log, s'.log);
    var p := s.teardowns[t].phase;
    if p.Reported? && p.how.Won? {
      var i :| 0 <= i < |s.log| && s.log[i].who == ByTeardown(t);
      assert s'.log[i] == s.log[i];
    }
  }

  /** What a landed write looks like, whoever made it. */
  lemma TransitionFacts(row: Row, c: Command, now: real, row': Row)
    requires Transition(Some(row), c, now) == Applied(row')
    ensures row'.status == c.to && row'.started == row.started
    ensures c.expected.Some? ==> row.status in c.expected.value
    ensures Terminal(row.status) && c.to != row.status ==> c.override
    ensures c.patch.ended.Some? && c.patch.ended.value.Some? ==> row'.ended == c.patch.ended.value
    ensures Terminal(c.to) && c.to != row.status ==> row'.ended.Some?
    ensures c.to == row.status || !Terminal(c.to) ==>
              row'.ended == if c.patch.ended.Some? then c.patch.ended.value else row.ended
  {
  }

  /** A write lands: the log grows by it, and nobody else moves. */
  lemma LandKeeps(s: State, s': State, e: Event, row: Row)
    requires Inv(s) && s.row.Some? && s'.row == Some(row) && s'.log == s.log + [e]
    requires Sanctioned(e) && e.before == s.row.value.status && e.after == row.status
    requires Terminal(row.status) ==> row.ended.Some?
    requires !e.who.ByTeardown? ==> s'.teardowns == s.teardowns
    requires e.who.ByTeardown? ==>
               && e.who.t < |s.teardowns| && !s.teardowns[e.who.t].phase.Reported?
               && s'.teardowns == s.teardowns[e.who.t := s.teardowns[e.who.t].(phase := Reported(Some(e.after), Won))]
               && Signed(e, s'.teardowns[e.who.t])
    requires s'.resumes == if e.who.ByResume? && e.who.r < |s.resumes| then s.resumes[e.who.r := Resumed(true)]
                           else s.resumes
    requires e.who.ByResume? ==> e.who.r < |s.resumes| && !s.resumes[e.who.r].Resumed?
    ensures Inv(s')
  {
    ReopensGrow(s, s', e);
    hide Sanctioned, FinalReason, FinalStatus, Reopens;
    forall t | 0 <= t < |s'.teardowns| ensures TeardownOk(s', t) {
      if e.who == ByTeardown(t) {
        assert s'.log[|s.log|] == e;
      } else {
        hide TeardownOk;
        TeardownKept(s, s', t);
      }
    }
    SignaturesGrow(s, s', e);
  }

  lemma SignaturesGrow(s: State, s': State, e: Event)
    requires Signatures(s) && s'.log == s.log + [e] && |s'.teardowns| == |s.teardowns|
    requires forall t :: 0 <= t < |s.teardowns| && s.teardowns[t].phase.Reported? ==> s'.teardowns[t] == s.teardowns[t]
    requires e.who.ByTeardown? ==>
               e.who.t < |s.teardowns| && !s.teardowns[e.who.t].phase.Reported? && Signed(e, s'.teardowns[e.who.t])
    ensures Signatures(s')
  {
    hide FinalStatus, FinalReason;
    forall i | 0 <= i < |s.log| && s.log[i].who.ByTeardown?
      ensures s.log[i].who != e.who && s'.teardowns[s.log[i].who.t] == s.teardowns[s.log[i].who.t]
    {
      assert Signed(s.log[i], s.teardowns[s.log[i].who.t]);
    }
  }

  lemma ReopensGrow(s: State, s': State, e: Event)
    requires Reopens(s) && s'.log == s.log + [e]
    requires s'.resumes == if e.who.ByResume? && e.who.r < |s.resumes| then s.resumes[e.who.r := Resumed(true)]
                           else s.resumes
    requires e.who.ByResume? ==> e.who.r < |s.resumes| && !s.resumes[e.who.r].Resumed?
    ensures Reopens(s')
  {
    forall r | 0 <= r < |s'.resumes| && s'.resumes[r] == Resumed(true)
      ensures exists i :: 0 <= i < |s'.log| && s'.log[i].who == ByResume(r)
    {
      if e.who == ByResume(r) {
        assert s'.log[|s.log|] == e;
      } else {
        var i :| 0 <= i < |s.log| && s.log[i].who == ByResume(r);
        assert s'.log[i] == s.log[i];
      }
    }
  }

  /** A resume that moved without a write has not ended as a reopening. */
  ghost predicate ResumesQuiet(s: State, s': State) {
    && |s.resumes| <= |s'.resumes|
    && (forall r :: 0 <= r < |s.resumes| && s'.resumes[r] != s.resumes[r] ==>
          !s.resumes[r].Resumed? && s'.resumes[r] != Resumed(true))
    && forall r :: |s.resumes| <= r < |s'.resumes| ==> s'.resumes[r] != Resumed(true)
  }

  lemma ReopensKept(s: State, s': State)
    requires Reopens(s) && s'.log == s.log && ResumesQuiet(s, s')
    ensures Reopens(s')
  {}

  /** No write: an actor moves on, or the row goes, and whoever moved is sound where it stands. */
  lemma StillKeeps(s: State, s': State)
    requires Inv(s) && s'.log == s.log && |s.teardowns| <= |s'.teardowns|
    requires s'.row == s.row || (s'.row.None? && Terminal(Last(s.log)))
    requires forall t :: 0 <= t < |s.teardowns| && s'.teardowns[t] != s.teardowns[t] ==>
               !s.teardowns[t].phase.Reported? && TeardownOk(s', t)
    requires forall t :: |s.teardowns| <= t < |s'.teardowns| ==> TeardownOk(s', t)
    requires ResumesQuiet(s, s')
    ensures Inv(s')
  {
    ReopensKept(s, s');
    hide TeardownOk, Sanctioned, FinalStatus, FinalReason, Reopens, ResumesQuiet;
    forall t | 0 <= t < |s'.teardowns| ensures TeardownOk(s', t) {
      if t < |s.teardowns| && s'.teardowns[t] == s.teardowns[t] { TeardownKept(s, s', t); }
    }
    forall i | 0 <= i < |s.log| && s.log[i].who.ByTeardown?
      ensures s'.teardowns[s.log[i].who.t] == s.teardowns[s.log[i].who.t]
    {
      assert Signed(s.log[i], s.teardowns[s.log[i].who.t]);
    }
  }

  lemma TearWriteKeeps(s: State, t: nat, now: real)
    requires Inv(s) && t < |s.teardowns| && s.teardowns[t].phase.Guarding?
    ensures Inv(GuardStep(s, t, now))
  {
    var s', u := GuardStep(s, t, now), s.teardowns[t];
    assert TeardownOk(s, t);
    assert s.log[..|s.log|] == s.log;
    if u.phase.pre.Some? && !Terminal(u.phase.pre.value) && Transition(s.row, TeardownCommand(u), now).Applied? {
      var row := Transition(s.row, TeardownCommand(u), now).row;
      TransitionFacts(s.row.value, TeardownCommand(u), now, row);
      hide Transition, FinalStatus, FinalReason;
      LandKeeps(s, s', s'.log[|s.log|], row);
    } else {
      hide FinalStatus, FinalReason, Sanctioned;
      StillKeeps(s, s');
    }
  }

  lemma ResumeWriteKeeps(s: State, r: nat, now: real)
    requires Inv(s) && r < |s.resumes| && s.resumes[r].Reopening?
    ensures Inv(ReopenStep(s, r, now))
  {
    var s' := ReopenStep(s, r, now);
    if s'.log != s.log {
      var c := ReopenCommand(s.resumes[r].leg);
      var row := Transition(s.row, c, now).row;
      TransitionFacts(s.row.value, c, now, row);
      hide Transition;
      LandKeeps(s, s', s'.log[|s.log|], row);
    } else {
      StillKeeps(s, s');
    }
  }

  lemma OtherWriteKeeps(s: State, a: Action)
    requires Inv(s) && a.OtherWrite?
    ensures Inv(Apply(s, a))
  {
    var s' := Apply(s, a);
    if s' != s {
      var c := Command(a.to, a.expected, false, a.patch);
      var row := Transition(s.row, c, a.now).row;
      TransitionFacts(s.row.value, c, a.now, row);
      hide Transition;
      LandKeeps(s, s', s'.log[|s.log|], row);
    }
  }

  /** Looking, losing, raising and recovering. */
  lemma TearStepKeeps(s: State, a: Action)
    requires Inv(s) && (a.TearStart? || a.TearRead? || a.TearReadBack? || a.TearRaise? || a.TearRecover?)
    ensures Inv(Apply(s, a))
  {
    hide FinalStatus, FinalReason, Sanctioned, Signatures;
    assert s.log[..|s.log|] == s.log;
    assert a.TearReadBack? && a.t < |s.teardowns| ==> TeardownOk(s, a.t);
    StillKeeps(s, Apply(s, a));
  }

  lemma StepKeeps(s: State, a: Action)
    requires Inv(s)
    ensures Inv(Apply(s, a)) && s.log <= Apply(s, a).log
  {
    hide Inv;
    match a
    case TearWrite(t, now) => if t < |s.teardowns| && s.teardowns[t].phase.Guarding? { TearWriteKeeps(s, t, now); }
    case ResumeWrite(r, now) => if r < |s.resumes| && s.resumes[r].Reopening? { ResumeWriteKeeps(s, r, now); }
    case OtherWrite(_, _, _, _) => OtherWriteKeeps(s, a);
    case TearStart(_, _, _) => TearStepKeeps(s, a);
    case TearRead(_) => TearStepKeeps(s, a);
    case TearReadBack(_) => TearStepKeeps(s, a);
    case TearRaise(_) => TearStepKeeps(s, a);
    case TearRecover(_, _) => TearStepKeeps(s, a);
    case ResumeStart(_) => RestKeeps(s, a);
    case ResumeRead(_) => RestKeeps(s, a);
    case Maintain => RestKeeps(s, a);
  }

  /** A resume that has not written yet, and maintenance removing a closed row. */
  lemma RestKeeps(s: State, a: Action)
    requires Inv(s) && (a.ResumeStart? || a.ResumeRead? || a.Maintain?)
    ensures Inv(Apply(s, a))
  {
    hide TeardownOk, Signatures, Sanctioned;
    StillKeeps(s, Apply(s, a));
  }

  lemma {:induction false} RunKeeps(s: State, acts: seq<Action>)
    requires Inv(s)
    ensures Inv(Exec(s, acts)) && s.log <= Exec(s, acts).log
    decreases |acts|
  {
    if acts != [] {
      StepKeeps(s, acts[0]);
      RunKeeps(Apply(s, acts[0]), acts[1..]);
    }
  }

  ghost predicate Reachable(s: State) {
    exists s0, acts :: Fresh(s0) && s == Exec(s0, acts)
  }

  lemma ReachableIsSound(s: State)
    requires Reachable(s)
    ensures Inv(s)
  {
    var s0, acts :| Fresh(s0) && s == Exec(s0, acts);
    RunKeeps(s0, acts);
  }

  // ---------- Whole runs ----------

  /** A terminal status is left by the resume override and by nothing else, and then only for running. */
  lemma TerminalIsLeftByResumeOnly(s: State, i: nat)
    requires Reachable(s) && i < |s.log| && Terminal(s.log[i].before) && s.log[i].after != s.log[i].before
    ensures s.log[i].who.ByResume? && s.log[i].after == Running && s.log[i].ended.None?
  {
    ReachableIsSound(s);
  }

  /** Between a terminal status and a later write from a running one, a resume took place. */
  lemma {:induction false} ReopenedBetween(log: seq<Event>, i: nat, j: nat)
    requires Chained(log) && forall k :: 0 <= k < |log| ==> Sanctioned(log[k])
    requires i < j < |log| && Terminal(log[i].after) && !Terminal(log[j].before)
    ensures exists k :: i < k < j && log[k].who.ByResume?
    decreases j - i
  {
    assert log[i + 1].before == log[i].after;
    if !log[i + 1].who.ByResume? {
      assert Sanctioned(log[i + 1]);
      ReopenedBetween(log, i + 1, j);
    }
  }

  /** At most one terminal teardown write lands between two reopenings; each carries the end time its own
      teardown took, in the same step, with a reason of its own status. */
  lemma OneTerminalTeardownPerOpening(s: State, i: nat, j: nat)
    requires Reachable(s) && i < j < |s.log|
    requires s.log[i].who.ByTeardown? && Terminal(s.log[i].after)
    requires s.log[j].who.ByTeardown? && Terminal(s.log[j].after)
    ensures exists k :: i < k < j && s.log[k].who.ByResume?
    ensures s.log[i].who != s.log[j].who
    ensures OwnWrite(s, i) && OwnWrite(s, j)
  {
    ReachableIsSound(s);
    assert Sanctioned(s.log[i]) && Sanctioned(s.log[j]);
    ReopenedBetween(s.log, i, j);
    TerminalWriteIsOwn(s, i);
    TerminalWriteIsOwn(s, j);
  }

  /** The write ends the run when its teardown says it ended, and for a reason of the status it sets. */
  predicate OwnWrite(s: State, i: nat)
    requires i < |s.log| && s.log[i].who.ByTeardown?
  {
    && s.log[i].who.t < |s.teardowns| && s.log[i].ended == Some(s.teardowns[s.log[i].who.t].ended)
    && s.log[i].reason.Some? && s.log[i].reason.value.Family() == s.log[i].after
  }

  lemma TerminalWriteIsOwn(s: State, i: nat)
    requires Reachable(s) && i < |s.log| && s.log[i].who.ByTeardown? && Terminal(s.log[i].after)
    ensures OwnWrite(s, i)
  {
    ReachableIsSound(s);
    assert Signed(s.log[i], s.teardowns[s.log[i].who.t]);
    ReasonBelongsToStatus(s.teardowns[s.log[i].who.t].input);
  }

  function Entries(log: seq<Event>): nat {
    if log == [] then 0
    else Entries(log[..|log| - 1])
         + (if !Terminal(log[|log| - 1].before) && Terminal(log[|log| - 1].after) then 1 else 0)
  }

  function Reopenings(log: seq<Event>): nat {
    if log == [] then 0
    else Reopenings(log[..|log| - 1]) + (if log[|log| - 1].who.ByResume? then 1 else 0)
  }

  /** Closings and reopenings balance: a run has closed exactly as often as it was reopened, once more
      if it stands closed now. */
  lemma {:induction false} ClosingsBalance(log: seq<Event>)
    requires Chained(log) && forall k :: 0 <= k < |log| ==> Sanctioned(log[k])
    ensures Entries(log) == Reopenings(log) + if Terminal(Last(log)) then 1 else 0
  {
    if log != [] {
      var front := log[..|log| - 1];
      forall k | 0 <= k < |front| ensures Sanctioned(front[k]) { assert front[k] == log[k]; }
      ClosingsBalance(front);
      assert Sanctioned(log[|log| - 1]);
    }
  }

  lemma RunClosesOncePerOpening(s: State)
    requires Reachable(s)
    ensures Entries(s.log) == Reopenings(s.log) + if s.row.None? || Terminal(s.row.value.status) then 1 else 0
  {
    ReachableIsSound(s);
    ClosingsBalance(s.log);
  }

  /** What a teardown reports, over every run.  A win is its own verdict, landed.  A lost race is reported
      as the status the row really had at a read no earlier than the refusal, the row having left by then
      the open status the teardown saw.  Only a row it found closed, or one gone for good, leaves it with
      the verdict it wanted and no write. */
  lemma ReportsAreTrue(s: State, t: nat)
    requires Reachable(s) && t < |s.teardowns| && s.teardowns[t].phase.Reported?
    ensures var Reported(status, how) := s.teardowns[t].phase;
            var own := Some(FinalStatus(s.teardowns[t].input));
            && (how.Won? <==> exists i :: 0 <= i < |s.log| && s.log[i].who == ByTeardown(t))
            && match how
               case Won => status == own
               case ReadBack(race, read) =>
                 && race.seen < race.lost <= read <= |s.log|
                 && StatusAt(s.log, race.seen) == race.pre && !Terminal(race.pre)
                 && StatusAt(s.log, race.lost) != race.pre
                 && status == Some(StatusAt(s.log, read))
               case AlreadyTerminal(seen) => status == own && seen <= |s.log| && Terminal(StatusAt(s.log, seen))
               case RowGone(_) => status == own && s.row.None?
               case Deferred => status == Some(s.teardowns[t].input.status)
               case Broke(read) => status.Some? ==> read <= |s.log| && status == Some(StatusAt(s.log, read))
  {
    ReachableIsSound(s);
    assert TeardownOk(s, t);
    forall i | 0 <= i < |s.log| && s.log[i].who == ByTeardown(t) ensures s.teardowns[t].phase.how.Won? {
      assert Signed(s.log[i], s.teardowns[t]);
    }
  }

  /** The winner of a lost race: some other actor's write lies between the look and the refusal. */
  lemma SomebodyElseWon(s: State, t: nat)
    requires Reachable(s) && t < |s.teardowns| && s.teardowns[t].phase.Reported?
    requires s.teardowns[t].phase.how.ReadBack? || s.teardowns[t].phase.how.RowGone?
    ensures var race := s.teardowns[t].phase.how.race;
            exists k :: race.seen <= k < race.lost <= |s.log|
                        && s.log[k].who != ByTeardown(t) && s.log[k].before == race.pre && s.log[k].after != race.pre
  {
    ReachableIsSound(s);
    assert TeardownOk(s, t);
    var race := s.teardowns[t].phase.how.race;
    var k := LeavingWrite(s.log, race.pre, race.seen, race.lost);
  }

  lemma {:induction false} LeavingWrite(log: seq<Event>, pre: Status, m: nat, n: nat) returns (k: nat)
    requires Chained(log) && m <= n <= |log| && StatusAt(log, m) == pre && StatusAt(log, n) != pre
    ensures m <= k < n && log[k].before == pre && log[k].after != pre
  {
    if StatusAt(log, n - 1) == pre {
      k := n - 1;
    } else {
      k := LeavingWrite(log, pre, m, n - 1);
    }
  }

  /** Every write a teardown lands pairs a status with a reason of its family, given it was asked to close
      the run; and a landed completion rests on evidence. */
  lemma LandedVerdictsAgree(s: State, t: nat, now: real)
    requires t < |s.teardowns| && s.teardowns[t].phase.Guarding? && Terminal(s.teardowns[t].input.status)
    requires |Apply(s, TearWrite(t, now)).log| > |s.log|
    ensures var e := Apply(s, TearWrite(t, now)).log[|s.log|];
            && e.who == ByTeardown(t) && e.before == s.teardowns[t].phase.pre.value && !Terminal(e.before)
            && e.reason.Some? && e.reason.value.Family() == e.after
            && e.ended == Some(s.teardowns[t].ended)
            && (e.after == Completed ==> !Contradicted(s.teardowns[t].input) && Trusted(s.teardowns[t].input))
  {
    ReasonBelongsToStatus(s.teardowns[t].input);
  }

  /** A teardown's write lands exactly when the row still has the open status the teardown saw. */
  lemma LandsExactlyWhenUnmoved(s: State, t: nat, now: real)
    requires t < |s.teardowns| && s.teardowns[t].phase.Guarding?
    ensures var pre := s.teardowns[t].phase.pre;
            |Apply(s, TearWrite(t, now)).log| > |s.log|
            <==> pre.Some? && !Terminal(pre.value) && Seen(s.row) == pre
  {
  }

  /** What a resume reports, over every run: it says it reopened the row exactly when a write of its own is
      among those that landed, and then exactly one is. */
  lemma ResumeReportsAreTrue(s: State, r: nat)
    requires Reachable(s) && r < |s.resumes| && s.resumes[r].Resumed?
    ensures s.resumes[r].reopened <==> exists i :: 0 <= i < |s.log| && s.log[i].who == ByResume(r)
    ensures forall i, j :: 0 <= i < |s.log| && 0 <= j < |s.log| && s.log[i].who == s.log[j].who == ByResume(r) ==>
              i == j
  {
    ReachableIsSound(s);
  }

  /** A resume moves the row exactly when it finds it closed both at its look and at its write. */
  lemma ReopensExactlyWhenClosed(s: State, r: nat, now: real)
    requires r < |s.resumes| && s.resumes[r].Reopening?
    ensures var s' := Apply(s, ResumeWrite(r, now));
            var o := s.resumes[r];
            var opens := o.existing.Some? && Terminal(o.existing.value)
                         && s.row.Some? && Terminal(s.row.value.status);
            && s'.resumes[r] == Resumed(opens)
            && (opens ==> s'.row == Some(s.row.value.(status := Running, ended := None, leg := Some(o.leg))))
            && (!opens ==> s'.row == s.row && s'.log == s.log)
  {
  }
}
