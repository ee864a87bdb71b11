/** The context block: several references distilled into one text under a shared character budget. */
module ContextBudget {
  import opened Wrappers

  const MARKER := "\n[...truncated...]\n"
  const BARE_MARKER := "[...truncated...]"
  const SEPARATOR := "\n\n"
  const CHARS_PER_TOKEN := 4

  /** The part of a reference that its wrapper prints, and the texts it can be distilled to. */
  datatype Header = Header(kind: string, ref: string, model: Option<string>)

  datatype Body = Body(saved: Option<string>, summary: Option<string>, head: Option<string>, tail: Option<string>)

  datatype Candidate = Candidate(header: Header, body: Body)

  function OrEmpty(text: Option<string>): string { if text.Some? then text.value else "" }

  function Max(a: int, b: int): int { if a >= b then a else b }

  function FirstChars(text: string, n: nat): string { if n <= |text| then text[..n] else text }

  /** text[-n:], which for n == 0 would be the whole text; the source guards that case. */
  function LastChars(text: string, n: nat): string {
    if n == 0 then "" else if n <= |text| then text[|text| - n..] else text
  }

  function HeadTailTruncate(head: string, tail: string, budget: int): (text: string)
    ensures |text| <= Max(budget, |BARE_MARKER|)
  {
    MarkerLengths();
    if budget <= |MARKER| then BARE_MARKER
    else
      var avail := budget - |MARKER|;
      var headBudget := avail / 2;
      FirstChars(head, headBudget) + MARKER + LastChars(tail, avail - headBudget)
  }

  lemma MarkerLengths()
    ensures |MARKER| == 19 && |BARE_MARKER| == 17 && MARKER == "\n" + BARE_MARKER + "\n"
    ensures |SEPARATOR| == 2
  {
  }

  /** First rung that fits; the last one always answers, at no more than the budget or the bare marker. */
  function Distill(b: Body, budget: int): (r: (string, bool))
    ensures |r.0| <= Max(budget, |BARE_MARKER|)
    ensures !r.1 ==> |r.0| <= budget && (b.saved == Some(r.0) || b.summary == Some(r.0))
  {
    if b.saved.Some? && |b.saved.value| <= budget then (b.saved.value, false)
    else if b.summary.Some? && |b.summary.value| <= budget then (b.summary.value, false)
    else (HeadTailTruncate(OrEmpty(b.head), OrEmpty(b.tail), budget), true)
  }

  function Opening(h: Header): string {
    "<prior-run-context ref=\"" + h.ref + "\" kind=\"" + h.kind + "\" model=\""
    + (if h.model.Some? && h.model.value != "" then h.model.value else "unknown") + "\">\n"
  }

  const CLOSING := "\n</prior-run-context>"

  function WrapBlock(h: Header, text: string): string {
    Opening(h) + text + CLOSING
  }

  /** What a wrapper costs beside its text. */
  function Wrapping(h: Header): nat { |WrapBlock(h, "")| }

  lemma WrapLength(h: Header, text: string)
    ensures |WrapBlock(h, text)| == Wrapping(h) + |text|
  {
  }

  function Join(blocks: seq<string>): string {
    if blocks == [] then ""
    else if |blocks| == 1 then blocks[0]
    else Join(blocks[..|blocks| - 1]) + SEPARATOR + blocks[|blocks| - 1]
  }

  // ---------- The allocation ----------

  /** The overhead of the k-th kept reference: its wrapper, and the separator before all but the first. */
  function Overhead(headers: seq<Header>, k: nat): nat
    requires k < |headers|
  {
    Wrapping(headers[k]) + if k == 0 then 0 else |SEPARATOR|
  }

  function Reserved(headers: seq<Header>, n: nat): nat
    requires n <= |headers|
  {
    if n == 0 then 0 else Reserved(headers, n - 1) + Overhead(headers, n - 1)
  }

  /** The first n overheads and one bare marker fit. */
  predicate Fits(headers: seq<Header>, n: nat, total: int)
    requires n <= |headers|
  {
    Reserved(headers, n) + |BARE_MARKER| <= total
  }

  /** How many leading references are kept, looking at the first n. */
  function KeptOf(headers: seq<Header>, n: nat, total: int): (kept: nat)
    requires n <= |headers|
    ensures kept <= n
  {
    if n == 0 then 0
    else
      var kept := KeptOf(headers, n - 1, total);
      if kept == n - 1 && Fits(headers, n, total) then n else kept
  }

  function Headers(cands: seq<Candidate>): (headers: seq<Header>)
    ensures |headers| == |cands|
    ensures forall i :: 0 <= i < |cands| ==> headers[i] == cands[i].header
  {
    seq(|cands|, i requires 0 <= i < |cands| => cands[i].header)
  }

  function Bodies(cands: seq<Candidate>): (bodies: seq<Body>)
    ensures |bodies| == |cands|
    ensures forall i :: 0 <= i < |cands| ==> bodies[i] == cands[i].body
  {
    seq(|cands|, i requires 0 <= i < |cands| => cands[i].body)
  }

  /** What is left of the budget after k references took their overhead and text. */
  function Remaining(headers: seq<Header>, bodies: seq<Body>, total: int, k: nat): int
    requires k <= |headers| == |bodies|
    decreases k, 0
  {
    if k == 0 then total
    else
      var left := Remaining(headers, bodies, total, k - 1);
      left - Overhead(headers, k - 1) - |TextOf(headers, bodies, total, k - 1)|
  }

  function TextOf(headers: seq<Header>, bodies: seq<Body>, total: int, k: nat): string
    requires k < |headers| == |bodies|
    decreases k, 1
  {
    Distill(bodies[k], Max(Remaining(headers, bodies, total, k) - Overhead(headers, k), 0)).0
  }

  function Blocks(headers: seq<Header>, bodies: seq<Body>, total: int, k: nat): (blocks: seq<string>)
    requires k <= |headers| == |bodies|
    ensures |blocks| == k
  {
    if k == 0 then []
    else Blocks(headers, bodies, total, k - 1)
         + [WrapBlock(headers[k - 1], TextOf(headers, bodies, total, k - 1))]
  }

  /** The whole result, as the three branches of the source give it. */
  function Built(headers: seq<Header>, bodies: seq<Body>, total: int): string
    requires |headers| == |bodies|
  {
    if headers == [] then ""
    else if |headers| == 1 then
      WrapBlock(headers[0], Distill(bodies[0], Max(total - Wrapping(headers[0]), 0)).0)
    else Join(Blocks(headers, bodies, total, KeptOf(headers, |headers|, total)))
  }

  // ---------- The code ----------

  /** One reference takes what the budget leaves after its wrapper; several reserve their overheads in
      order, drop the first that does not fit and all after it, and then share what is left. */
  method BuildContextBlock(cands: seq<Candidate>, budgetTokens: int) returns (block: string)
    ensures block == Built(Headers(cands), Bodies(cands), budgetTokens * CHARS_PER_TOKEN)
  {
    hide Wrapping, WrapBlock, Distill, KeptOf;
    ghost var headers, bodies := Headers(cands), Bodies(cands);
    if cands == [] {
      return "";
    }
    var total := budgetTokens * CHARS_PER_TOKEN;
    if |cands| == 1 {
      var overhead := Wrapping(cands[0].header);
      return WrapBlock(cands[0].header, Distill(cands[0].body, Max(total - overhead, 0)).0);
    }
    MarkerLengths();
    var fitted := Fit(cands, total);
    if fitted == [] {
      return "";
    }
    var remaining := total;
    var blocks := [];
    for k := 0 to |fitted|
      invariant blocks == Blocks(headers, bodies, total, k)
      invariant remaining == Remaining(headers, bodies, total, k)
    {
      var (candidate, overhead) := fitted[k];
      var text := Distill(candidate.body, Max(remaining - overhead, 0)).0;
      remaining := remaining - (overhead + |text|);
      blocks := blocks + [WrapBlock(candidate.header, text)];
    }
    block := Join(blocks);
  }

  /** The reservation loop. */
  method Fit(cands: seq<Candidate>, total: int) returns (fitted: seq<(Candidate, nat)>)
    ensures |fitted| == KeptOf(Headers(cands), |cands|, total)
    ensures forall k :: 0 <= k < |fitted| ==>
              fitted[k] == (cands[k], Overhead(Headers(cands), k))
  {
    hide Wrapping;
    ghost var headers := Headers(cands);
    fitted := [];
    var reserved := 0;
    var k := 0;
    while k < |cands|
      invariant 0 <= k <= |cands| && |fitted| == k == KeptOf(headers, k, total)
      invariant reserved == Reserved(headers, k)
      invariant forall i :: 0 <= i < k ==> fitted[i] == (cands[i], Overhead(headers, i))
    {
      var overhead := Wrapping(cands[k].header) + if fitted != [] then |SEPARATOR| else 0;
      if reserved + overhead + |BARE_MARKER| > total {
        KeptStops(headers, k, |cands|, total);
        return;
      }
      fitted := fitted + [(cands[k], overhead)];
      reserved := reserved + overhead;
      k := k + 1;
    }
  }

  lemma {:induction false} KeptStops(headers: seq<Header>, k: nat, n: nat, total: int)
    requires k < n <= |headers| && KeptOf(headers, k, total) == k && !Fits(headers, k + 1, total)
    ensures KeptOf(headers, n, total) == k
    decreases n
  {
    if k + 1 < n {
      KeptStops(headers, k, n - 1, total);
    }
  }

  // ---------- Which references are kept ----------

  lemma {:induction false} ReservedMounts(headers: seq<Header>, m: nat, n: nat)
    requires m <= n <= |headers|
    ensures Reserved(headers, m) <= Reserved(headers, n)
  {
    if m < n {
      ReservedMounts(headers, m, n - 1);
    }
  }

  /** The kept references are the longest prefix whose overheads and one bare marker fit. */
  lemma {:induction false} KeptIsTheLongestFit(headers: seq<Header>, n: nat, total: int, m: nat)
    requires 0 < m <= n <= |headers|
    ensures m <= KeptOf(headers, n, total) <==> Fits(headers, m, total)
  {
    if m < n {
      KeptIsTheLongestFit(headers, n - 1, total, m);
      if KeptOf(headers, n - 1, total) == n - 1 {
        assert Fits(headers, m, total);
      }
    } else if n > 1 {
      KeptIsTheLongestFit(headers, n - 1, total, n - 1);
      ReservedMounts(headers, n - 1, n);
    }
  }

  // ---------- How long the block is ----------

  /** Every character is accounted for: the joined block takes exactly what the budget lost. */
  lemma {:induction false} LengthIsBudgetSpent(headers: seq<Header>, bodies: seq<Body>, total: int, k: nat)
    requires k <= |headers| == |bodies|
    ensures |Join(Blocks(headers, bodies, total, k))| == total - Remaining(headers, bodies, total, k)
  {
    if k > 0 {
      LengthIsBudgetSpent(headers, bodies, total, k - 1);
      var blocks := Blocks(headers, bodies, total, k);
      assert blocks[..k - 1] == Blocks(headers, bodies, total, k - 1);
      WrapLength(headers[k - 1], TextOf(headers, bodies, total, k - 1));
    }
  }

  /** What references after the first may add beyond the budget: their overheads and bare markers. */
  function Excess(headers: seq<Header>, k: nat): nat
    requires k <= |headers|
  {
    if k <= 1 then 0 else Excess(headers, k - 1) + Overhead(headers, k - 1) + |BARE_MARKER|
  }

  lemma {:induction false} OverdrawnByExcessAtMost(headers: seq<Header>, bodies: seq<Body>, total: int, k: nat)
    requires 0 < k <= |headers| == |bodies| && Fits(headers, 1, total)
    ensures Remaining(headers, bodies, total, k) + Excess(headers, k) >= 0
  {
    hide Wrapping;
    assert Reserved(headers, 1) == Overhead(headers, 0);
    if k > 1 {
      OverdrawnByExcessAtMost(headers, bodies, total, k - 1);
    }
  }

  /** The true bound for several references. */
  lemma BlockIsBounded(headers: seq<Header>, bodies: seq<Body>, total: int)
    requires |headers| == |bodies| && |headers| >= 2
    ensures var kept := KeptOf(headers, |headers|, total);
            |Built(headers, bodies, total)| <= Max(total, 0) + Excess(headers, kept)
  {
    var kept := KeptOf(headers, |headers|, total);
    LengthIsBudgetSpent(headers, bodies, total, kept);
    if kept > 0 {
      KeptIsTheLongestFit(headers, |headers|, total, 1);
      OverdrawnByExcessAtMost(headers, bodies, total, kept);
    }
  }

  /** Within the budget, as long as every reference starts with room for its overhead and a marker. */
  lemma {:induction false} RoomyStepsStayInside(headers: seq<Header>, bodies: seq<Body>, total: int, k: nat)
    requires k <= |headers| == |bodies| && total >= 0
    requires forall i :: 0 <= i < k ==>
               Remaining(headers, bodies, total, i) >= Overhead(headers, i) + |BARE_MARKER|
    ensures |Join(Blocks(headers, bodies, total, k))| <= total
  {
    LengthIsBudgetSpent(headers, bodies, total, k);
    if k > 0 {
      RoomyStepsStayInside(headers, bodies, total, k - 1);
    }
  }

  // ---------- When the budget really is one ----------

  /** A reference with nothing to quote. */
  const SILENT := Body(None, None, None, None)

  /** A first reference that takes all the budget, and others with nothing to quote. */
  function Greedy(headers: seq<Header>, total: int): (bodies: seq<Body>)
    requires headers != [] && total >= Wrapping(headers[0])
    ensures |bodies| == |headers|
  {
    [Body(Some(seq(total - Wrapping(headers[0]), _ => 'x')), None, None, None)]
    + seq(|headers| - 1, _ => SILENT)
  }

  lemma {:induction false} GreedyOverdraws(headers: seq<Header>, total: int, k: nat)
    requires 0 < k <= |headers| && total >= Wrapping(headers[0])
    ensures Remaining(headers, Greedy(headers, total), total, k) + Excess(headers, k) == 0
  {
    hide Wrapping;
    var bodies := Greedy(headers, total);
    MarkerLengths();
    if k > 1 {
      GreedyOverdraws(headers, total, k - 1);
      assert bodies[k - 1] == SILENT;
    } else {
      assert Remaining(headers, bodies, total, 0) == total;
      assert TextOf(headers, bodies, total, 0) == bodies[0].saved.value;
    }
  }

  /** The bound is attained: some contents overshoot by all of it. */
  lemma BoundIsAttained(headers: seq<Header>, total: int)
    requires |headers| >= 2 && KeptOf(headers, |headers|, total) > 0
    ensures total >= Wrapping(headers[0])
    ensures var kept := KeptOf(headers, |headers|, total);
            |Built(headers, Greedy(headers, total), total)| == total + Excess(headers, kept)
  {
    KeptIsTheLongestFit(headers, |headers|, total, 1);
    assert Reserved(headers, 1) == Overhead(headers, 0);
    var kept := KeptOf(headers, |headers|, total);
    GreedyOverdraws(headers, total, kept);
    LengthIsBudgetSpent(headers, Greedy(headers, total), total, kept);
  }

  /** Whatever the contents, the block stays within the budget. */
  ghost predicate BudgetHolds(headers: seq<Header>, total: int) {
    forall bodies: seq<Body> :: |bodies| == |headers| ==> |Built(headers, bodies, total)| <= Max(total, 0)
  }

  /** The budget bounds the block exactly when there is nothing to print, or one reference with room for
      its wrapper and a marker, or several of which at most one is kept. */
  lemma BudgetHoldsExactlyWhen(headers: seq<Header>, total: int)
    ensures BudgetHolds(headers, total) <==>
              if |headers| <= 1 then headers == [] || Wrapping(headers[0]) + |BARE_MARKER| <= total
              else KeptOf(headers, |headers|, total) <= 1
  {
    MarkerLengths();
    if |headers| == 1 {
      SingleReference(headers, total);
    } else if |headers| >= 2 {
      var kept := KeptOf(headers, |headers|, total);
      if kept <= 1 {
        forall bodies: seq<Body> | |bodies| == |headers|
          ensures |Built(headers, bodies, total)| <= Max(total, 0)
        {
          BlockIsBounded(headers, bodies, total);
        }
      } else {
        BoundIsAttained(headers, total);
        KeptIsTheLongestFit(headers, |headers|, total, 1);
        assert Excess(headers, kept) > 0;
        assert |Built(headers, Greedy(headers, total), total)| > Max(total, 0);
      }
    }
  }

  lemma SingleReference(headers: seq<Header>, total: int)
    requires |headers| == 1
    ensures BudgetHolds(headers, total) <==> Wrapping(headers[0]) + |BARE_MARKER| <= total
  {
    hide Wrapping, WrapBlock, Distill;
    if Wrapping(headers[0]) + |BARE_MARKER| <= total {
      forall bodies: seq<Body> | |bodies| == 1 ensures |Built(headers, bodies, total)| <= Max(total, 0) {
        RoomyReferenceFits(headers[0], bodies[0], total);
      }
    } else {
      CrampedReferenceOverruns(headers[0], total);
      assert |Built(headers, [SILENT], total)| > Max(total, 0);
    }
  }

  lemma RoomyReferenceFits(h: Header, b: Body, total: int)
    requires Wrapping(h) + |BARE_MARKER| <= total
    ensures |WrapBlock(h, Distill(b, Max(total - Wrapping(h), 0)).0)| <= total
  {
    hide Wrapping, WrapBlock, Distill;
    WrapLength(h, Distill(b, Max(total - Wrapping(h), 0)).0);
  }

  lemma CrampedReferenceOverruns(h: Header, total: int)
    requires Wrapping(h) + |BARE_MARKER| > total
    ensures |WrapBlock(h, Distill(SILENT, Max(total - Wrapping(h), 0)).0)| > Max(total, 0)
  {
    hide Wrapping, WrapBlock;
    MarkerLengths();
    WrapLength(h, BARE_MARKER);
  }
}
