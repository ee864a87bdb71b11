/** Just-in-time nudges: rules fire by policy, their messages are merged under a token cap, and only what
    survived the cap is booked as delivered. */
module Nudge {
  import opened Wrappers

  /** Any policy the engine does not know lets a rule fire every time. */
  datatype Policy = Once | Always | Cooldown(n: int) | Unknown

  datatype Rule = Rule(id: string, policy: Policy, priority: int)

  /** What a rule's condition and message come to on one call: the condition says no or raises; or it says
      yes, and the message renders or raises. */
  datatype Answer = No | ConditionRaises | RenderRaises | Says(text: string)

  datatype Nudge = Nudge(rule: Rule, text: string)

  datatype Call = Call(tool: string, action: string, ok: bool)

  /** The engine's bookkeeping: deliveries by rule id, the call of the last one, calls so far. */
  datatype Books = Books(fired: map<string, nat>, last: map<string, nat>, calls: nat)

  function Fired(b: Books, id: string): nat { if id in b.fired then b.fired[id] else 0 }

  // ---------- One call ----------

  predicate Permits(r: Rule, b: Books) {
    match r.policy
    case Once => Fired(b, r.id) == 0
    case Cooldown(n) => r.id !in b.last || b.calls - b.last[r.id] >= n
    case _ => true
  }

  /** Eligible rules among the first n, with their messages, in declaration order. */
  function Candidates(rules: seq<Rule>, answers: seq<Answer>, b: Books, n: nat := |rules|): (c: seq<Nudge>)
    requires n <= |rules| == |answers|
  {
    if n == 0 then []
    else
      var c := Candidates(rules, answers, b, n - 1);
      if answers[n - 1].Says? && Permits(rules[n - 1], b)
      then c + [Nudge(rules[n - 1], answers[n - 1].text)] else c
  }

  function Insert(c: seq<Nudge>, x: Nudge): seq<Nudge> {
    if c == [] || x.rule.priority >= c[0].rule.priority then [x] + c else [c[0]] + Insert(c[1..], x)
  }

  /** candidates.sort(key=-priority): stable, highest priority first. */
  function Sort(c: seq<Nudge>): seq<Nudge> {
    if c == [] then [] else Insert(Sort(c[1..]), c[0])
  }

  function Price(text: string, tokens: string -> nat): nat { if text == "" then 0 else tokens(text) }

  function Total(kept: seq<Nudge>, tokens: string -> nat): nat {
    if kept == [] then 0 else Total(kept[..|kept| - 1], tokens) + Price(kept[|kept| - 1].text, tokens)
  }

  /** The greedy cap: the first candidate always, a later one when it still fits beside what is kept. */
  function Kept(c: seq<Nudge>, cap: int, tokens: string -> nat): seq<Nudge> {
    if c == [] then []
    else
      var kept := Kept(c[..|c| - 1], cap, tokens);
      var x := c[|c| - 1];
      if kept != [] && Total(kept, tokens) + Price(x.text, tokens) > cap then kept else kept + [x]
  }

  function Joined(kept: seq<Nudge>): string {
    if kept == [] then ""
    else if |kept| == 1 then kept[0].text
    else Joined(kept[..|kept| - 1]) + " " + kept[|kept| - 1].text
  }

  function Book(b: Books, survivors: seq<Nudge>): Books {
    if survivors == [] then b
    else
      var before := Book(b, survivors[..|survivors| - 1]);
      var id := survivors[|survivors| - 1].rule.id;
      before.(fired := before.fired[id := Fired(before, id) + 1], last := before.last[id := before.calls])
  }

  datatype Config = Config(rules: seq<Rule>, cap: int, tokens: string -> nat)

  /** The nudges delivered by the next call, and the books after it. */
  function Survivors(g: Config, answers: seq<Answer>, b: Books): seq<Nudge>
    requires |answers| == |g.rules|
  {
    Kept(Sort(Candidates(g.rules, answers, b.(calls := b.calls + 1))), g.cap, g.tokens)
  }

  function After(g: Config, answers: seq<Answer>, b: Books): Books
    requires |answers| == |g.rules|
  {
    Book(b.(calls := b.calls + 1), Survivors(g, answers, b))
  }

  // ---------- The engine ----------

  function LastOf<T>(s: seq<T>, n: nat): seq<T> { if |s| <= n then s else s[|s| - n..] }

  class NudgeEngine {
    const config: Config
    const ringSize: nat
    var ring: seq<Call>
    var fired: map<string, nat>
    var lastFiredAt: map<string, nat>
    var callCount: nat

    constructor (config: Config, ringSize: nat)
      ensures this.config == config && this.ringSize == ringSize
      ensures ring == [] && State() == Books(map[], map[], 0)
    {
      this.config, this.ringSize := config, ringSize;
      ring, fired, lastFiredAt, callCount := [], map[], map[], 0;
    }

    function State(): Books
      reads this
    {
      Books(fired, lastFiredAt, callCount)
    }

    method RecordCall(call: Call)
      modifies this`ring
      ensures ring == LastOf(old(ring) + [call], ringSize)
    {
      ring := ring + [call];
      if |ring| > ringSize {
        ring := ring[|ring| - ringSize..];
      }
    }

    method ShouldFire(r: Rule) returns (fires: bool)
      ensures fires <==> Permits(r, State())
    {
      if r.policy == Once {
        return r.id !in fired || fired[r.id] == 0;
      }
      if r.policy == Always {
        return true;
      }
      if r.policy.Cooldown? {
        return r.id !in lastFiredAt || callCount - lastFiredAt[r.id] >= r.policy.n;
      }
      return true;
    }

    method MarkFired(r: Rule)
      modifies this`fired, this`lastFiredAt
      ensures fired == old(fired)[r.id := Fired(old(State()), r.id) + 1]
      ensures lastFiredAt == old(lastFiredAt)[r.id := callCount]
    {
      fired := fired[r.id := (if r.id in fired then fired[r.id] else 0) + 1];
      lastFiredAt := lastFiredAt[r.id := callCount];
    }

    method Merge(c: seq<Nudge>) returns (merged: Option<string>, survivors: seq<Nudge>)
      ensures survivors == Kept(c, config.cap, config.tokens)
      ensures merged == if survivors == [] then None else Some(Joined(survivors))
    {
      survivors := [];
      var used := 0;
      for i := 0 to |c|
        invariant survivors == Kept(c[..i], config.cap, config.tokens)
        invariant used == Total(survivors, config.tokens)
      {
        assert c[..i + 1][..i] == c[..i];
        var cost := if c[i].text == "" then 0 else config.tokens(c[i].text);
        if !(survivors != [] && used + cost > config.cap) {
          assert (survivors + [c[i]])[..|survivors|] == survivors;
          survivors := survivors + [c[i]];
          used := used + cost;
        }
      }
      assert c[..|c|] == c;
      merged := if survivors == [] then None else Some(Joined(survivors));
    }

    method Collect(answers: seq<Answer>) returns (candidates: seq<Nudge>)
      requires |answers| == |config.rules|
      ensures candidates == Candidates(config.rules, answers, State())
    {
      candidates := [];
      for i := 0 to |answers|
        invariant candidates == Candidates(config.rules, answers, State(), i)
      {
        if answers[i] == No || answers[i] == ConditionRaises {
          continue;
        }
        var eligible := ShouldFire(config.rules[i]);
        if !eligible || answers[i] == RenderRaises {
          continue;
        }
        candidates := candidates + [Nudge(config.rules[i], answers[i].text)];
      }
    }

    /** Fires what may fire, delivers what fits, and books exactly what was delivered. */
    method Evaluate(answers: seq<Answer>) returns (merged: Option<string>, survivors: seq<Nudge>)
      requires |answers| == |config.rules|
      modifies this`fired, this`lastFiredAt, this`callCount
      ensures survivors == Survivors(config, answers, old(State()))
      ensures State() == After(config, answers, old(State()))
      ensures merged == if survivors == [] then None else Some(Joined(survivors))
    {
      callCount := callCount + 1;
      var candidates := Collect(answers);
      merged, survivors := Merge(Sort(candidates));
      MarkAll(survivors);
    }

    method MarkAll(survivors: seq<Nudge>)
      modifies this`fired, this`lastFiredAt
      ensures State() == Book(old(State()), survivors)
    {
      for i := 0 to |survivors|
        invariant State() == Book(old(State()), survivors[..i])
      {
        BookNext(old(State()), survivors, i);
        MarkFired(survivors[i].rule);
      }
      assert survivors[..|survivors|] == survivors;
    }
  }

  lemma BookNext(b: Books, survivors: seq<Nudge>, i: nat)
    requires i < |survivors|
    ensures var before, id := Book(b, survivors[..i]), survivors[i].rule.id;
            Book(b, survivors[..i + 1]) == before.(fired := before.fired[id := Fired(before, id) + 1],
                                                   last := before.last[id := before.calls])
  {
    assert survivors[..i + 1][..i] == survivors[..i];
  }

  // ---------- The order ----------

  function OfPriority(c: seq<Nudge>, p: int): seq<Nudge> {
    if c == [] then [] else (if c[0].rule.priority == p then [c[0]] else []) + OfPriority(c[1..], p)
  }

  predicate Descending(c: seq<Nudge>) {
    forall i, j :: 0 <= i < j < |c| ==> c[i].rule.priority >= c[j].rule.priority
  }

  lemma {:induction false} InsertKeeps(c: seq<Nudge>, x: Nudge)
    ensures multiset(Insert(c, x)) == multiset(c) + multiset{x}
  {
    if c != [] {
      InsertKeeps(c[1..], x);
      assert c == [c[0]] + c[1..];
    }
  }

  lemma {:induction false} InsertOrders(c: seq<Nudge>, x: Nudge)
    requires Descending(c)
    ensures Descending(Insert(c, x))
  {
    if c == [] || x.rule.priority >= c[0].rule.priority {
      HeadFirst(x, c);
    } else {
      InsertOrders(c[1..], x);
      InsertKeeps(c[1..], x);
      var tail := Insert(c[1..], x);
      forall y | y in tail ensures c[0].rule.priority >= y.rule.priority {
        assert y in multiset(tail);
        assert y == x || y in multiset(c[1..]);
      }
      hide Insert;
      HeadFirst(c[0], tail);
    }
  }

  lemma HeadFirst(x: Nudge, tail: seq<Nudge>)
    requires Descending(tail) && forall y :: y in tail ==> x.rule.priority >= y.rule.priority
    ensures Descending([x] + tail)
  {}

  lemma OfPriorityCons(x: Nudge, c: seq<Nudge>, p: int)
    ensures OfPriority([x] + c, p) == (if x.rule.priority == p then [x] else []) + OfPriority(c, p)
  {
    assert ([x] + c)[1..] == c;
  }

  /** Equal priorities keep their order: x goes before the ones it precedes. */
  lemma {:induction false} InsertIsStable(c: seq<Nudge>, x: Nudge, p: int)
    ensures OfPriority(Insert(c, x), p) == (if x.rule.priority == p then [x] else []) + OfPriority(c, p)
  {
    if c == [] || x.rule.priority >= c[0].rule.priority {
      OfPriorityCons(x, c, p);
    } else {
      assert Insert(c, x) == [c[0]] + Insert(c[1..], x);
      OfPriorityCons(c[0], Insert(c[1..], x), p);
      InsertIsStable(c[1..], x, p);
      OfPriorityCons(c[0], c[1..], p);
      assert c == [c[0]] + c[1..];
    }
  }

  /** The sort keeps every candidate, puts higher priorities first, and leaves equal priorities in
      declaration order. */
  lemma {:induction false} SortIsStable(c: seq<Nudge>)
    ensures Descending(Sort(c)) && multiset(Sort(c)) == multiset(c)
    ensures forall p :: OfPriority(Sort(c), p) == OfPriority(c, p)
  {
    if c != [] {
      SortIsStable(c[1..]);
      InsertOrders(Sort(c[1..]), c[0]);
      InsertKeeps(Sort(c[1..]), c[0]);
      assert c == [c[0]] + c[1..];
      forall p ensures OfPriority(Sort(c), p) == OfPriority(c, p) {
        InsertIsStable(Sort(c[1..]), c[0], p);
      }
    }
  }

  // ---------- The cap ----------

  predicate Subsequence(a: seq<Nudge>, b: seq<Nudge>) {
    if b == [] then a == []
    else Subsequence(a, b[..|b| - 1])
         || (a != [] && a[|a| - 1] == b[|b| - 1] && Subsequence(a[..|a| - 1], b[..|b| - 1]))
  }

  function Max(a: int, b: int): int { if a >= b then a else b }

  /** Survivors come in priority order, headed by the top candidate, and cost no more than the cap or, if
      it alone is dearer, than that first one. */
  lemma {:induction false} SurvivorsFit(c: seq<Nudge>, cap: int, tokens: string -> nat)
    ensures Subsequence(Kept(c, cap, tokens), c)
    ensures c != [] ==>
              && Kept(c, cap, tokens) != [] && Kept(c, cap, tokens)[0] == c[0]
              && Total(Kept(c, cap, tokens), tokens) <= Max(cap, Price(c[0].text, tokens))
  {
    if c != [] {
      var front := c[..|c| - 1];
      SurvivorsFit(front, cap, tokens);
      var kept, x := Kept(front, cap, tokens), c[|c| - 1];
      assert (kept + [x])[..|kept|] == kept;
      if front == [] {
        assert [x][..0] == [];
      }
    }
  }

  /** The cap drops a candidate only for want of room: at its turn, what is kept so far and it together
      exceed the cap. */
  lemma {:induction false} DroppedOnlyForRoom(c: seq<Nudge>, cap: int, tokens: string -> nat, k: nat)
    requires k < |c| && c[k] !in Kept(c, cap, tokens)
    ensures Total(Kept(c[..k], cap, tokens), tokens) + Price(c[k].text, tokens) > cap
    ensures k > 0
  {
    var front := c[..|c| - 1];
    if k == |c| - 1 {
      assert c[..k] == front;
      assert c[k] in Kept(front, cap, tokens) + [c[k]];
    } else {
      assert c[..k] == front[..k] && c[k] == front[k];
      DroppedOnlyForRoom(front, cap, tokens, k);
    }
  }

  // ---------- Whole runs ----------

  /** The answers of successive calls, one per rule each. */
  ghost predicate Aligned(g: Config, run: seq<seq<Answer>>) {
    forall i :: 0 <= i < |run| ==> |run[i]| == |g.rules|
  }

  function Empty(): Books { Books(map[], map[], 0) }

  function BooksAt(g: Config, run: seq<seq<Answer>>, k: nat): Books
    requires Aligned(g, run) && k <= |run|
  {
    if k == 0 then Empty() else After(g, run[k - 1], BooksAt(g, run, k - 1))
  }

  /** What call k of the run delivers, counting from 0. */
  function Delivered(g: Config, run: seq<seq<Answer>>, k: nat): seq<Nudge>
    requires Aligned(g, run) && k < |run|
  {
    Survivors(g, run[k], BooksAt(g, run, k))
  }

  function Count(kept: seq<Nudge>, id: string): nat {
    if kept == [] then 0
    else Count(kept[..|kept| - 1], id) + (if kept[|kept| - 1].rule.id == id then 1 else 0)
  }

  function DeliveriesBefore(g: Config, run: seq<seq<Answer>>, id: string, k: nat): nat
    requires Aligned(g, run) && k <= |run|
  {
    if k == 0 then 0 else DeliveriesBefore(g, run, id, k - 1) + Count(Delivered(g, run, k - 1), id)
  }

  lemma {:induction false} BookCounts(b: Books, kept: seq<Nudge>, id: string)
    ensures Book(b, kept).calls == b.calls
    ensures Fired(Book(b, kept), id) == Fired(b, id) + Count(kept, id)
    ensures if Count(kept, id) > 0 then id in Book(b, kept).last && Book(b, kept).last[id] == b.calls
            else (id in Book(b, kept).last <==> id in b.last)
                 && (id in b.last ==> Book(b, kept).last[id] == b.last[id])
  {
    if kept != [] {
      BookCounts(b, kept[..|kept| - 1], id);
    }
  }

  /** One call: its own number is the mark of what it delivers, and of nothing else. */
  lemma BooksStep(g: Config, run: seq<seq<Answer>>, id: string, k: nat)
    requires Aligned(g, run) && k < |run|
    ensures var b, b', n := BooksAt(g, run, k), BooksAt(g, run, k + 1), Count(Delivered(g, run, k), id);
            && b'.calls == b.calls + 1
            && Fired(b', id) == Fired(b, id) + n
            && if n > 0 then id in b'.last && b'.last[id] == b'.calls
               else (id in b'.last <==> id in b.last) && (id in b.last ==> b'.last[id] == b.last[id])
  {
    var b := BooksAt(g, run, k);
    BookCounts(b.(calls := b.calls + 1), Delivered(g, run, k), id);
    assert BooksAt(g, run, k + 1) == Book(b.(calls := b.calls + 1), Delivered(g, run, k));
  }

  lemma BooksStart(g: Config, run: seq<seq<Answer>>, id: string)
    requires Aligned(g, run)
    ensures BooksAt(g, run, 0).calls == 0 && id !in BooksAt(g, run, 0).last
    ensures Fired(BooksAt(g, run, 0), id) == DeliveriesBefore(g, run, id, 0) == 0
  {}

  lemma DeliveriesStep(g: Config, run: seq<seq<Answer>>, id: string, k: nat)
    requires Aligned(g, run) && k < |run|
    ensures DeliveriesBefore(g, run, id, k + 1) == DeliveriesBefore(g, run, id, k) + Count(Delivered(g, run, k), id)
  {
    hide Delivered, Count;
  }

  lemma {:induction false} CountsAreExact(g: Config, run: seq<seq<Answer>>, id: string, k: nat)
    requires Aligned(g, run) && k <= |run|
    ensures BooksAt(g, run, k).calls == k
    ensures Fired(BooksAt(g, run, k), id) == DeliveriesBefore(g, run, id, k)
    ensures id in BooksAt(g, run, k).last ==> 0 < BooksAt(g, run, k).last[id] <= k
  {
    hide *;
    if k == 0 {
      BooksStart(g, run, id);
    } else {
      CountsAreExact(g, run, id, k - 1);
      BooksStep(g, run, id, k - 1);
      DeliveriesStep(g, run, id, k - 1);
    }
  }

  lemma {:induction false} MarkIsNoEarlier(g: Config, run: seq<seq<Answer>>, id: string, i: nat, k: nat)
    requires Aligned(g, run) && i < k <= |run| && Count(Delivered(g, run, i), id) > 0
    ensures id in BooksAt(g, run, k).last && BooksAt(g, run, k).last[id] >= i + 1
    decreases k - i
  {
    hide *;
    BooksStep(g, run, id, k - 1);
    CountsAreExact(g, run, id, k - 1);
    if i < k - 1 {
      MarkIsNoEarlier(g, run, id, i, k - 1);
    }
  }

  lemma {:induction false} MarkIsADelivery(g: Config, run: seq<seq<Answer>>, id: string, k: nat)
    requires Aligned(g, run) && k <= |run| && id in BooksAt(g, run, k).last
    ensures var mark := BooksAt(g, run, k).last[id];
            0 < mark <= k && Count(Delivered(g, run, mark - 1), id) > 0
  {
    hide *;
    if k == 0 {
      BooksStart(g, run, id);
    } else {
      BooksStep(g, run, id, k - 1);
      CountsAreExact(g, run, id, k - 1);
      if Count(Delivered(g, run, k - 1), id) == 0 {
        MarkIsADelivery(g, run, id, k - 1);
      }
    }
  }

  /** The books are exact: at every point of a run they hold how often a rule was delivered, whatever was
      eligible and dropped, and the call of the latest delivery, if there was one. */
  lemma BooksAreExact(g: Config, run: seq<seq<Answer>>, id: string, k: nat)
    requires Aligned(g, run) && k <= |run|
    ensures BooksAt(g, run, k).calls == k
    ensures Fired(BooksAt(g, run, k), id) == DeliveriesBefore(g, run, id, k)
    ensures id in BooksAt(g, run, k).last ==>
              && 0 < BooksAt(g, run, k).last[id] <= k
              && Count(Delivered(g, run, BooksAt(g, run, k).last[id] - 1), id) > 0
    ensures forall i :: 0 <= i < k && Count(Delivered(g, run, i), id) > 0 ==>
              id in BooksAt(g, run, k).last && BooksAt(g, run, k).last[id] >= i + 1
  {
    hide *;
    CountsAreExact(g, run, id, k);
    if id in BooksAt(g, run, k).last {
      MarkIsADelivery(g, run, id, k);
    }
    forall i | 0 <= i < k && Count(Delivered(g, run, i), id) > 0
      ensures id in BooksAt(g, run, k).last && BooksAt(g, run, k).last[id] >= i + 1
    {
      MarkIsNoEarlier(g, run, id, i, k);
    }
  }

  lemma {:induction false} CandidatesPermitted(rules: seq<Rule>, answers: seq<Answer>, b: Books, n: nat, x: Nudge)
    requires n <= |rules| == |answers| && x in Candidates(rules, answers, b, n)
    ensures exists i :: 0 <= i < n && rules[i] == x.rule && answers[i] == Says(x.text)
    ensures Permits(x.rule, b)
  {
    if x !in Candidates(rules, answers, b, n - 1) {
      assert rules[n - 1] == x.rule;
    } else {
      CandidatesPermitted(rules, answers, b, n - 1, x);
    }
  }

  lemma {:induction false} KeptFrom(c: seq<Nudge>, cap: int, tokens: string -> nat, x: Nudge)
    requires x in Kept(c, cap, tokens)
    ensures x in c
  {
    if x in Kept(c[..|c| - 1], cap, tokens) {
      KeptFrom(c[..|c| - 1], cap, tokens, x);
    }
  }

  lemma DeliveredIsPermitted(g: Config, run: seq<seq<Answer>>, k: nat, x: Nudge)
    requires Aligned(g, run) && k < |run| && x in Delivered(g, run, k)
    ensures x.rule in g.rules && Permits(x.rule, BooksAt(g, run, k).(calls := BooksAt(g, run, k).calls + 1))
  {
    var b := BooksAt(g, run, k);
    var c := Candidates(g.rules, run[k], b.(calls := b.calls + 1));
    KeptFrom(Sort(c), g.cap, g.tokens, x);
    SortIsStable(c);
    assert x in multiset(Sort(c));
    CandidatesPermitted(g.rules, run[k], b.(calls := b.calls + 1), |g.rules|, x);
  }

  lemma {:induction false} CountPositive(kept: seq<Nudge>, x: Nudge)
    requires x in kept
    ensures Count(kept, x.rule.id) > 0
  {
    if x in kept[..|kept| - 1] {
      CountPositive(kept[..|kept| - 1], x);
    }
  }

  lemma {:induction false} DeliveriesMount(g: Config, run: seq<seq<Answer>>, id: string, i: nat, k: nat)
    requires Aligned(g, run) && i < k <= |run|
    ensures DeliveriesBefore(g, run, id, k) >= DeliveriesBefore(g, run, id, i) + Count(Delivered(g, run, i), id)
    decreases k - i
  {
    hide Delivered, BooksAt;
    if i < k - 1 {
      DeliveriesMount(g, run, id, i, k - 1);
    }
  }

  /** Over any run: once an id was delivered in one call, no later call delivers it again under a once
      policy, and one under a cooldown of n comes at least n calls later. */
  lemma PoliciesHoldAcrossCalls(g: Config, run: seq<seq<Answer>>, i: nat, j: nat, x: Nudge, y: Nudge)
    requires Aligned(g, run) && i < j < |run|
    requires x in Delivered(g, run, i) && y in Delivered(g, run, j) && x.rule.id == y.rule.id
    ensures !y.rule.policy.Once?
    ensures y.rule.policy.Cooldown? ==> j - i >= y.rule.policy.n
  {
    DeliveredIsPermitted(g, run, j, y);
    BooksAreExact(g, run, y.rule.id, j);
    CountPositive(Delivered(g, run, i), x);
    DeliveriesMount(g, run, y.rule.id, i, j);
    if y.rule.policy.Cooldown? {
      LastIsLater(g, run, y.rule.id, i, j);
    }
  }

  /** The cooldown clock restarts at the latest delivery, so it is checked against that one. */
  lemma LastIsLater(g: Config, run: seq<seq<Answer>>, id: string, i: nat, j: nat)
    requires Aligned(g, run) && i < j <= |run| && Count(Delivered(g, run, i), id) > 0
    ensures id in BooksAt(g, run, j).last && i + 1 <= BooksAt(g, run, j).last[id] <= j
  {
    BooksAreExact(g, run, id, j);
  }

  /** A rule the cap dropped, or that never fired, keeps its books: neither its count nor its last call
      moves. */
  lemma DroppedKeepsItsBooks(g: Config, answers: seq<Answer>, b: Books, id: string)
    requires |answers| == |g.rules|
    requires forall i :: 0 <= i < |Survivors(g, answers, b)| ==> Survivors(g, answers, b)[i].rule.id != id
    ensures var b' := After(g, answers, b);
            && Fired(b', id) == Fired(b, id) && (id in b'.last <==> id in b.last)
            && (id in b.last ==> b'.last[id] == b.last[id])
  {
    NotCounted(Survivors(g, answers, b), id);
    BookCounts(b.(calls := b.calls + 1), Survivors(g, answers, b), id);
  }

  lemma {:induction false} NotCounted(kept: seq<Nudge>, id: string)
    requires forall i :: 0 <= i < |kept| ==> kept[i].rule.id != id
    ensures Count(kept, id) == 0
  {
    if kept != [] {
      NotCounted(kept[..|kept| - 1], id);
    }
  }

  // ---------- Inside one call ----------

  /** At most one rule carries the id. */
  predicate Solo(rules: seq<Rule>, id: string) {
    forall i, j :: 0 <= i < j < |rules| ==> rules[i].id != id || rules[j].id != id
  }

  function RulesWith(rules: seq<Rule>, id: string, n: nat := |rules|): nat
    requires n <= |rules|
  {
    if n == 0 then 0 else RulesWith(rules, id, n - 1) + if rules[n - 1].id == id then 1 else 0
  }

  lemma {:induction false} SoloCounts(rules: seq<Rule>, id: string, n: nat)
    requires n <= |rules| && Solo(rules, id)
    ensures RulesWith(rules, id, n) <= 1
    ensures RulesWith(rules, id, n) == 1 ==> exists i :: 0 <= i < n && rules[i].id == id
  {
    if n > 0 {
      SoloCounts(rules, id, n - 1);
    }
  }

  lemma {:induction false} CandidatesCount(rules: seq<Rule>, answers: seq<Answer>, b: Books, id: string, n: nat)
    requires n <= |rules| == |answers|
    ensures Count(Candidates(rules, answers, b, n), id) <= RulesWith(rules, id, n)
  {
    if n > 0 {
      CandidatesCount(rules, answers, b, id, n - 1);
      var c := Candidates(rules, answers, b, n - 1);
      var x := Nudge(rules[n - 1], if answers[n - 1].Says? then answers[n - 1].text else "");
      assert (c + [x])[..|c|] == c;
    }
  }

  lemma {:induction false} CountCons(x: Nudge, c: seq<Nudge>, id: string)
    ensures Count([x] + c, id) == (if x.rule.id == id then 1 else 0) + Count(c, id)
  {
    if c == [] {
      assert [x] + c == [x] && [x][..0] == [];
    } else {
      assert ([x] + c)[..|c|] == [x] + c[..|c| - 1];
      CountCons(x, c[..|c| - 1], id);
    }
  }

  lemma {:induction false} InsertCount(c: seq<Nudge>, x: Nudge, id: string)
    ensures Count(Insert(c, x), id) == (if x.rule.id == id then 1 else 0) + Count(c, id)
  {
    CountCons(x, c, id);
    if c != [] {
      assert c == [c[0]] + c[1..];
      CountCons(c[0], c[1..], id);
      InsertCount(c[1..], x, id);
      CountCons(c[0], Insert(c[1..], x), id);
    }
  }

  lemma {:induction false} SortCount(c: seq<Nudge>, id: string)
    ensures Count(Sort(c), id) == Count(c, id)
  {
    if c != [] {
      assert c == [c[0]] + c[1..];
      CountCons(c[0], c[1..], id);
      SortCount(c[1..], id);
      InsertCount(Sort(c[1..]), c[0], id);
    }
  }

  lemma {:induction false} KeptCount(c: seq<Nudge>, cap: int, tokens: string -> nat, id: string)
    ensures Count(Kept(c, cap, tokens), id) <= Count(c, id)
    ensures cap < 0 ==> |Kept(c, cap, tokens)| <= 1
  {
    if c != [] {
      var kept := Kept(c[..|c| - 1], cap, tokens);
      KeptCount(c[..|c| - 1], cap, tokens, id);
      assert (kept + [c[|c| - 1]])[..|kept|] == kept;
    }
  }

  lemma {:induction false} CountAtMostLength(c: seq<Nudge>, id: string)
    ensures Count(c, id) <= |c|
  {
    if c != [] {
      CountAtMostLength(c[..|c| - 1], id);
    }
  }

  lemma CallDeliversAtMostOne(g: Config, run: seq<seq<Answer>>, id: string, k: nat)
    requires Aligned(g, run) && k < |run| && (Solo(g.rules, id) || g.cap < 0)
    ensures Count(Delivered(g, run, k), id) <= 1
  {
    hide Sort, Kept, Candidates, BooksAt, Count;
    var b := BooksAt(g, run, k).(calls := BooksAt(g, run, k).calls + 1);
    var c := Candidates(g.rules, run[k], b);
    KeptCount(Sort(c), g.cap, g.tokens, id);
    CountAtMostLength(Kept(Sort(c), g.cap, g.tokens), id);
    if Solo(g.rules, id) {
      SortCount(c, id);
      CandidatesCount(g.rules, run[k], b, id, |g.rules|);
      SoloCounts(g.rules, id, |g.rules|);
    }
  }

  lemma {:induction false} CountFinds(kept: seq<Nudge>, id: string) returns (x: Nudge)
    requires Count(kept, id) > 0
    ensures x in kept && x.rule.id == id
  {
    x := kept[|kept| - 1];
    if x.rule.id != id {
      x := CountFinds(kept[..|kept| - 1], id);
    }
  }

  lemma OnceDeliversUnseenOnly(g: Config, run: seq<seq<Answer>>, id: string, k: nat)
    requires Aligned(g, run) && k < |run| && Count(Delivered(g, run, k), id) > 0
    requires forall r :: r in g.rules && r.id == id ==> r.policy.Once?
    ensures DeliveriesBefore(g, run, id, k) == 0
  {
    hide Delivered, BooksAt;
    var x := CountFinds(Delivered(g, run, k), id);
    DeliveredIsPermitted(g, run, k, x);
    BooksAreExact(g, run, id, k);
  }

  lemma {:induction false} OnceStaysAtOne(g: Config, run: seq<seq<Answer>>, id: string, k: nat)
    requires Aligned(g, run) && k <= |run| && (Solo(g.rules, id) || g.cap < 0)
    requires forall r :: r in g.rules && r.id == id ==> r.policy.Once?
    ensures DeliveriesBefore(g, run, id, k) <= 1
  {
    hide Delivered, BooksAt;
    if k > 0 {
      OnceStaysAtOne(g, run, id, k - 1);
      CallDeliversAtMostOne(g, run, id, k - 1);
      if Count(Delivered(g, run, k - 1), id) > 0 {
        OnceDeliversUnseenOnly(g, run, id, k - 1);
      }
    }
  }

  /** Two rules speak in the first call, the rest stay silent. */
  function TwoSpeak(rules: seq<Rule>, i: nat, j: nat): seq<Answer> {
    seq(|rules|, k requires 0 <= k < |rules| => if k == i || k == j then Says("") else No)
  }

  lemma {:induction false} TwoCandidates(rules: seq<Rule>, i: nat, j: nat, b: Books, n: nat)
    requires i < j < |rules| && n <= |rules| && Permits(rules[i], b) && Permits(rules[j], b)
    ensures Candidates(rules, TwoSpeak(rules, i, j), b, n)
         == (if i < n then [Nudge(rules[i], "")] else []) + (if j < n then [Nudge(rules[j], "")] else [])
  {
    if n > 0 {
      TwoCandidates(rules, i, j, b, n - 1);
    }
  }

  /** A once id is delivered at most once in every run exactly when one rule carries it, or the cap leaves
      room for a single message: the books are written only after the call that two rules share. */
  lemma OnceExactlyWhenSolo(g: Config, id: string)
    requires forall r :: r in g.rules && r.id == id ==> r.policy.Once?
    ensures (forall run :: Aligned(g, run) ==> DeliveriesBefore(g, run, id, |run|) <= 1)
            <==> Solo(g.rules, id) || g.cap < 0
  {
    hide DeliveriesBefore;
    if Solo(g.rules, id) || g.cap < 0 {
      forall run | Aligned(g, run) ensures DeliveriesBefore(g, run, id, |run|) <= 1 {
        OnceStaysAtOne(g, run, id, |run|);
      }
    } else {
      var i, j :| 0 <= i < j < |g.rules| && g.rules[i].id == id && g.rules[j].id == id;
      SharersSpeakTogether(g, id, i, j);
    }
  }

  lemma SharersSpeakTogether(g: Config, id: string, i: nat, j: nat)
    requires i < j < |g.rules| && g.rules[i].id == id && g.rules[j].id == id && g.cap >= 0
    requires g.rules[i].policy.Once? && g.rules[j].policy.Once?
    ensures var run := [TwoSpeak(g.rules, i, j)];
            Aligned(g, run) && |run| == 1 && DeliveriesBefore(g, run, id, 1) == 2
  {
    var run, b := [TwoSpeak(g.rules, i, j)], Empty().(calls := 1);
    var x, y := Nudge(g.rules[i], ""), Nudge(g.rules[j], "");
    TwoCandidates(g.rules, i, j, b, |g.rules|);
    BothKept(x, y, g.cap, g.tokens, id);
    hide Kept, Sort, Count, Permits, Candidates;
    assert Delivered(g, run, 0) == Kept(Sort([x, y]), g.cap, g.tokens);
    assert DeliveriesBefore(g, run, id, 0) == 0;
  }

  lemma BothKept(x: Nudge, y: Nudge, cap: int, tokens: string -> nat, id: string)
    requires cap >= 0 && x.text == "" && y.text == "" && x.rule.id == id && y.rule.id == id
    ensures Count(Kept(Sort([x, y]), cap, tokens), id) == 2
  {
    assert [x, y][1..] == [y] && [y][1..] == [];
    assert Sort([y]) == Insert([], y) == [y];
    var sorted := Sort([x, y]);
    assert sorted == Insert([y], x);
    assert [y][1..] == [] && Insert([], x) == [x];
    assert sorted == [x, y] || sorted == [y, x];
    assert sorted[..1] == [sorted[0]] && [sorted[0]][..0] == [];
    assert Kept([sorted[0]], cap, tokens) == [sorted[0]];
    assert Total([sorted[0]], tokens) == 0;
    assert Kept(sorted, cap, tokens) == sorted;
    assert Count([sorted[0]], id) == 1;
  }

  // ---------- The ring ----------

  /** The ring after recording the calls one by one. */
  function Recorded(calls: seq<Call>, size: nat): seq<Call> {
    if calls == [] then [] else LastOf(Recorded(calls[..|calls| - 1], size) + [calls[|calls| - 1]], size)
  }

  lemma TailOfTail(calls: seq<Call>, next: Call, size: nat)
    ensures LastOf(LastOf(calls, size) + [next], size) == LastOf(calls + [next], size)
  {}

  /** Recording call by call leaves the last ringSize calls of all that were recorded. */
  lemma {:induction false} RingIsTheTail(calls: seq<Call>, size: nat)
    ensures Recorded(calls, size) == LastOf(calls, size)
  {
    if calls != [] {
      RingIsTheTail(calls[..|calls| - 1], size);
      TailOfTail(calls[..|calls| - 1], calls[|calls| - 1], size);
      assert calls == calls[..|calls| - 1] + [calls[|calls| - 1]];
    }
  }

  function Recent(calls: seq<Call>, tool: string): seq<Call> {
    if calls == [] then []
    else (if calls[0].tool == tool then [calls[0]] else []) + Recent(calls[1..], tool)
  }

  lemma {:induction false} RecentAppend(a: seq<Call>, b: seq<Call>, tool: string)
    ensures Recent(a + b, tool) == Recent(a, tool) + Recent(b, tool)
  {
    if a == [] {
      assert a + b == b;
    } else {
      assert (a + b)[0] == a[0] && (a + b)[1..] == a[1..] + b;
      RecentAppend(a[1..], b, tool);
      var head := if a[0].tool == tool then [a[0]] else [];
      assert head + (Recent(a[1..], tool) + Recent(b, tool)) == head + Recent(a[1..], tool) + Recent(b, tool);
    }
  }

  /** The condition of the bash-failure rule, over the calls it is shown. */
  predicate FailureStreak(calls: seq<Call>) {
    var recent := LastOf(Recent(calls, "bash"), 3);
    |recent| == 3 && forall i :: 0 <= i < 3 ==> !recent[i].ok
  }

  /** The ring never invents a streak, and misses one exactly when other calls pushed it out. */
  lemma StreakSeenInTheRing(history: seq<Call>, size: nat)
    ensures FailureStreak(LastOf(history, size))
            <==> FailureStreak(history) && |Recent(LastOf(history, size), "bash")| >= 3
  {
    var ring := LastOf(history, size);
    var pushed := history[..|history| - |ring|];
    assert history == pushed + ring;
    RecentAppend(pushed, ring, "bash");
    var r, a := Recent(ring, "bash"), Recent(pushed, "bash");
    if |r| >= 3 {
      assert LastOf(a + r, 3) == LastOf(r, 3);
    }
  }
}
