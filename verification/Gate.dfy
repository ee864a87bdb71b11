/** Security controls around a tool call: each control is asked in turn, may rewrite the arguments or
    refuse, and with user hooks in the chain the whole pass is run again after them. */
module Gate {
  import opened Wrappers

  type Args = map<string, string>

  /** What one control or user hook did when it was called.  A control that says it cannot answer is
      Unavailable; any other exception is Raises. */
  datatype Answer = Quiet | Rewrites(args: Args) | Forbids(why: string) | Unavailable(why: string) | Raises(why: string)

  datatype GateResult = GateResult(allowed: bool, control: string, tool: string, action: string,
                                   reason: string, mutated: Option<Args>, errored: bool)

  /** One call of a hook, in the order calls happened.  The dictionary is handed over by reference: args is
      what it held when the hook was called, left what it held when the hook was done. */
  datatype Entry =
    | Control(index: nat, action: string, args: Args, left: Args, answer: Answer)
    | User(index: nat, action: string, args: Args, left: Args, answer: Answer)
  {
    /** The arguments the next one is handed: a returned dictionary, or the one at hand as it is now. */
    function Passed(): Args { if answer.Rewrites? then answer.args else left }

    predicate Untouched() { !answer.Rewrites? && left == args }
  }

  function ActionOf(args: Args, default: string): string {
    if "action" in args then args["action"] else default
  }

  predicate Allows(a: Answer) { a.Quiet? || a.Rewrites? }

  /** Denial is a PermissionError, rewriting a returned dict; every other exception fails closed. */
  function Adapt(control: string, tool: string, action: string, a: Answer): (g: GateResult)
    ensures g.allowed <==> Allows(a)
    ensures g.errored <==> a.Unavailable? || a.Raises?
    ensures g.mutated == if a.Rewrites? then Some(a.args) else None
    ensures g.control == control && g.tool == tool && g.action == action
  {
    match a
    case Quiet => GateResult(true, control, tool, action, "allow", None, false)
    case Rewrites(args) => GateResult(true, control, tool, action, "allow", Some(args), false)
    case Forbids(why) => GateResult(false, control, tool, action, why, None, false)
    case Unavailable(why) => GateResult(false, control, tool, action, why, None, true)
    case Raises(why) => GateResult(false, control, tool, action, "evaluator error: " + why, None, true)
  }

  // ---------- What a run of calls makes of the arguments ----------

  function ArgsAfter(calls: seq<Entry>, args: Args): Args {
    if calls == [] then args else calls[|calls| - 1].Passed()
  }

  /** The verb follows a returned dictionary only; one changed in place is asked about under the old verb. */
  function ActionAfter(calls: seq<Entry>, action: string): string {
    if calls == [] then action
    else
      var before := ActionAfter(calls[..|calls| - 1], action);
      var a := calls[|calls| - 1].answer;
      if a.Rewrites? then ActionOf(a.args, before) else before
  }

  /** The controls from the first on, each asked once about the arguments as folded through those before
      it; only the last of them may refuse. */
  ghost predicate IsPass(calls: seq<Entry>, action: string, args: Args) {
    && (forall i :: 0 <= i < |calls| ==>
          calls[i].Control? && calls[i].index == i
          && calls[i].args == ArgsAfter(calls[..i], args)
          && calls[i].action == ActionAfter(calls[..i], action))
    && (forall i :: 0 <= i < |calls| - 1 ==> Allows(calls[i].answer))
  }

  ghost predicate FullPass(calls: seq<Entry>, controls: nat, action: string, args: Args) {
    && IsPass(calls, action, args) && |calls| == controls
    && forall i :: 0 <= i < |calls| ==> Allows(calls[i].answer)
  }

  /** Every user hook once, in order, each handed what the one before it left. */
  ghost predicate IsUserRun(calls: seq<Entry>, args: Args) {
    && (forall i :: 0 <= i < |calls| ==>
          calls[i].User? && calls[i].index == i
          && calls[i].args == ArgsAfter(calls[..i], args)
          && calls[i].action == ActionOf(calls[i].args, ""))
    && (forall i :: 0 <= i < |calls| - 1 ==> Allows(calls[i].answer))
  }

  datatype Outcome = Ready(args: Args) | Denied(verdict: GateResult) | UserRaised

  /** Controls that leave the arguments alone are all asked about one and the same argument set. */
  lemma {:induction false} QuietPassKeepsArgs(calls: seq<Entry>, action: string, args: Args, n: nat)
    requires n <= |calls| && IsPass(calls, action, args) && forall i :: 0 <= i < n ==> calls[i].Untouched()
    ensures ArgsAfter(calls[..n], args) == args
  {
    if n > 0 {
      QuietPassKeepsArgs(calls, action, args, n - 1);
      assert calls[n - 1].args == ArgsAfter(calls[..n - 1], args);
    }
  }

  /** So when the composed hook is ready with r and its controls neither returned nor changed anything, each
      of them allowed r itself. */
  lemma QuietControlsAllowTheResult(calls: seq<Entry>, controls: nat, action: string, args: Args)
    requires FullPass(calls, controls, action, args)
    requires forall i :: 0 <= i < |calls| ==> calls[i].Untouched()
    ensures forall i :: 0 <= i < controls ==>
              calls[i].index == i && calls[i].args == ArgsAfter(calls, args) && Allows(calls[i].answer)
  {
    forall i | 0 <= i < controls ensures calls[i].args == ArgsAfter(calls, args) {
      QuietPassKeepsArgs(calls, action, args, i);
      QuietPassKeepsArgs(calls, action, args, |calls|);
      assert calls[..|calls|] == calls;
    }
  }

  /** The last control to touch the arguments has the last word on them. */
  lemma {:induction false} LastTouchWins(calls: seq<Entry>, action: string, args: Args, k: nat, n: nat)
    requires IsPass(calls, action, args) && k < n <= |calls|
    requires forall i :: k < i < n ==> calls[i].Untouched()
    ensures ArgsAfter(calls[..n], args) == calls[k].Passed()
  {
    if k < n - 1 {
      LastTouchWins(calls, action, args, k, n - 1);
      assert calls[n - 1].args == ArgsAfter(calls[..n - 1], args);
    }
  }

  // ---------- The code ----------

  /** The hooks of one tool.  A hook is anything: what it answers, and what it leaves in the dictionary it was
      handed, may depend on every call made so far. */
  class Chain {
    const tool: string
    const names: seq<string>
    const users: nat
    const control: (seq<Entry>, nat, string, Args) -> (Answer, Args)
    const user: (seq<Entry>, nat, string, Args) -> (Answer, Args)
    var calls: seq<Entry>

    constructor (tool: string, names: seq<string>, users: nat,
                 control: (seq<Entry>, nat, string, Args) -> (Answer, Args),
                 user: (seq<Entry>, nat, string, Args) -> (Answer, Args))
      ensures this.tool == tool && this.names == names && this.users == users
      ensures this.control == control && this.user == user && calls == []
    {
      this.tool, this.names, this.users := tool, names, users;
      this.control, this.user, this.calls := control, user, [];
    }

    /** What calling control i now would come to. */
    function ControlCall(i: nat, action: string, args: Args): Entry
      reads this
    {
      var (answer, left) := control(calls, i, action, args);
      Control(i, action, args, left, answer)
    }

    function UserCall(i: nat, args: Args): Entry
      reads this
    {
      var (answer, left) := user(calls, i, ActionOf(args, ""), args);
      User(i, ActionOf(args, ""), args, left, answer)
    }

    /** One evaluator: the hook is called exactly once; held is the dictionary afterwards. */
    method Evaluate(i: nat, action: string, args: Args) returns (g: GateResult, held: Args)
      requires i < |names|
      modifies this
      ensures calls == old(calls) + [old(ControlCall(i, action, args))]
      ensures g == Adapt(names[i], tool, action, old(ControlCall(i, action, args)).answer)
      ensures held == old(ControlCall(i, action, args)).left
    {
      var (answer, left) := control(calls, i, action, args);
      calls := calls + [Control(i, action, args, left, answer)];
      g, held := Adapt(names[i], tool, action, answer), left;
    }

    /** Every control once against the arguments as they stand, stopping at the first refusal. */
    method RunGatePass(action: string, args: Args) returns (out: Args, deny: Option<GateResult>, ghost pass: seq<Entry>)
      modifies this
      ensures calls == old(calls) + pass && IsPass(pass, action, args) && |pass| <= |names|
      ensures deny.None? ==> FullPass(pass, |names|, action, args) && out == ArgsAfter(pass, args)
      ensures deny.Some? ==>
                Refuses(pass, deny.value) && !deny.value.allowed && out == pass[|pass| - 1].left
    {
      out, deny, pass := args, None, [];
      var verb := action;
      for i := 0 to |names|
        invariant calls == old(calls) + pass && |pass| == i && FullPass(pass, i, action, args)
        invariant out == ArgsAfter(pass, args) && verb == ActionAfter(pass, action)
      {
        ghost var entry := ControlCall(i, verb, out);
        var g;
        g, out := Evaluate(i, verb, out);
        PassGrows(pass, entry, action, args);
        pass := pass + [entry];
        if !g.allowed {
          return out, Some(g), pass;
        }
        if g.mutated.Some? {
          out := g.mutated.value;
          verb := ActionOf(out, verb);
        }
      }
    }

    method Handle(i: nat, args: Args) returns (answer: Answer, held: Args)
      modifies this
      ensures calls == old(calls) + [old(UserCall(i, args))]
      ensures answer == old(UserCall(i, args)).answer && held == old(UserCall(i, args)).left
    {
      var (done, left) := user(calls, i, ActionOf(args, ""), args);
      calls := calls + [User(i, ActionOf(args, ""), args, left, done)];
      answer, held := done, left;
    }

    /** The user hooks, in order; one that raises ends the call. */
    method RunUserHooks(args: Args) returns (out: Args, raised: bool, ghost run: seq<Entry>)
      modifies this
      ensures calls == old(calls) + run && IsUserRun(run, args) && |run| <= users
      ensures !raised ==> |run| == users && out == ArgsAfter(run, args)
      ensures raised ==> run != [] && !Allows(run[|run| - 1].answer)
    {
      out, run := args, [];
      assert IsUserRun(run, args) && out == ArgsAfter(run, args);
      hide IsUserRun, ArgsAfter;
      for i := 0 to users
        invariant calls == old(calls) + run && |run| == i && IsUserRun(run, args)
        invariant out == ArgsAfter(run, args)
        invariant run != [] ==> Allows(run[|run| - 1].answer)
      {
        ghost var entry := UserCall(i, out);
        var answer, held := Handle(i, out);
        UsersGrow(run, entry, args);
        run := run + [entry];
        if !Allows(answer) {
          raised := true;
          return;
        }
        out := if answer.Rewrites? then answer.args else held;
      }
      raised := false;
    }

    /** The verdict is the refusal of the last control asked. */
    ghost predicate Refuses(pass: seq<Entry>, g: GateResult) {
      && 0 < |pass| <= |names| && !Allows(pass[|pass| - 1].answer)
      && g == Adapt(names[|pass| - 1], tool, pass[|pass| - 1].action, pass[|pass| - 1].answer)
    }

    /** The composed pre-hook.  first, run and final are the calls it made, in that order: with user hooks
        and controls both present, what it returns went through a whole pass of every control after the last
        user hook, and nothing rewrote it after that pass. */
    method Chained(args: Args)
      returns (r: Outcome, ghost first: seq<Entry>, ghost run: seq<Entry>, ghost final: seq<Entry>)
      modifies this
      ensures calls == old(calls) + first + run + final
      ensures IsPass(first, ActionOf(args, ""), args) && |first| <= |names|
      ensures r.Ready? ==>
                && FullPass(first, |names|, ActionOf(args, ""), args)
                && IsUserRun(run, ArgsAfter(first, args)) && |run| == users
                && var left := ArgsAfter(run, ArgsAfter(first, args));
                   if users > 0 && names != []
                   then FullPass(final, |names|, ActionOf(left, ActionOf(args, "")), left)
                        && r.args == ArgsAfter(final, left)
                   else final == [] && r.args == left
      ensures r.Denied? ==>
                && !r.verdict.allowed
                && if final == [] then run == [] && Refuses(first, r.verdict)
                   else |run| == users && users > 0 && Refuses(final, r.verdict)
      ensures !FullPass(first, |names|, ActionOf(args, ""), args) ==> r.Denied? && run == [] && final == []
      ensures r.UserRaised? ==> final == [] && run != [] && !Allows(run[|run| - 1].answer)
    {
      first, run, final := [], [], [];
      var action := ActionOf(args, "");
      var left, deny;
      left, deny, first := RunGatePass(action, args);
      if deny.Some? {
        return Denied(deny.value), first, run, final;
      }
      var raised;
      left, raised, run := RunUserHooks(left);
      if raised {
        return UserRaised, first, run, final;
      }
      if users > 0 && names != [] {
        left, deny, final := RunGatePass(ActionOf(left, action), left);
        if deny.Some? {
          return Denied(deny.value), first, run, final;
        }
      }
      return Ready(left), first, run, final;
    }
  }

  lemma PassGrows(pass: seq<Entry>, entry: Entry, action: string, args: Args)
    requires FullPass(pass, |pass|, action, args)
    requires entry.Control? && entry.index == |pass|
    requires entry.args == ArgsAfter(pass, args) && entry.action == ActionAfter(pass, action)
    ensures IsPass(pass + [entry], action, args)
    ensures ArgsAfter(pass + [entry], args) == entry.Passed()
    ensures ActionAfter(pass + [entry], action)
         == if entry.answer.Rewrites? then ActionOf(entry.answer.args, ActionAfter(pass, action))
            else ActionAfter(pass, action)
  {
    var grown := pass + [entry];
    assert grown[..|pass|] == pass;
    forall i | 0 <= i < |pass| ensures grown[..i] == pass[..i] {}
  }

  lemma UsersGrow(run: seq<Entry>, entry: Entry, args: Args)
    requires IsUserRun(run, args) && (run != [] ==> Allows(run[|run| - 1].answer))
    requires entry.User? && entry.index == |run| && entry.args == ArgsAfter(run, args)
    requires entry.action == ActionOf(entry.args, "")
    ensures IsUserRun(run + [entry], args)
    ensures ArgsAfter(run + [entry], args) == entry.Passed()
  {
    var grown := run + [entry];
    assert grown[..|run|] == run;
    forall i | 0 <= i < |run| ensures grown[..i] == run[..i] {}
  }
}
