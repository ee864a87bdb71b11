/** Splitting a benchmark arm into chunks, checking a result entry, and merging the chunks' results, over the reals. */
module Bench {
  import opened Wrappers

  // ---------- Chunk sizes ----------

  datatype Sizes = BadChunks | BadTotal | Sizes(sizes: seq<int>)

  function ChunkSizes(total: int, chunks: int): Sizes {
    if chunks < 1 then BadChunks
    else if total < 1 then BadTotal
    else
      Sizes(Split(total, if chunks < total then chunks else total))
  }

  function Split(total: int, n: int): seq<int>
    requires n >= 1
  {
    seq(n, i => total / n + if i < total % n then 1 else 0)
  }

  function Sum(s: seq<int>): int { if s == [] then 0 else Sum(s[..|s| - 1]) + s[|s| - 1] }

  /** Largest first, and no two more than one apart. */
  predicate Even(s: seq<int>) {
    && (forall i, j :: 0 <= i < j < |s| ==> s[i] >= s[j])
    && (forall i, j :: 0 <= i < j < |s| ==> s[i] - s[j] <= 1)
  }

  /** A run of n parts, the first k of them one larger. */
  predicate Stepped(s: seq<int>, base: int, k: int) {
    forall i :: 0 <= i < |s| ==> s[i] == base + if i < k then 1 else 0
  }

  lemma {:induction false} SteppedSum(s: seq<int>, base: int, k: nat)
    requires Stepped(s, base, k)
    ensures Sum(s) == |s| * base + if k < |s| then k else |s|
  {
    if s != [] {
      SteppedSum(s[..|s| - 1], base, k);
    }
  }

  /** A usable request is split without loss into positive parts, as many as asked for unless that would
      leave one empty; anything else is refused. */
  lemma ChunksCoverTheTotal(total: int, chunks: int)
    ensures ChunkSizes(total, chunks).Sizes? <==> chunks >= 1 && total >= 1
    ensures chunks >= 1 && total >= 1 ==>
              var s := ChunkSizes(total, chunks).sizes;
              && |s| == (if chunks < total then chunks else total)
              && Sum(s) == total
              && Even(s)
              && forall i :: 0 <= i < |s| ==> s[i] >= 1
  {
    if chunks >= 1 && total >= 1 {
      SplitIsEven(total, if chunks < total then chunks else total);
    }
  }

  lemma SplitIsEven(total: int, n: int)
    requires 1 <= n <= total
    ensures Sum(Split(total, n)) == total && Even(Split(total, n))
    ensures forall i :: 0 <= i < n ==> Split(total, n)[i] >= 1
  {
    var base, k := total / n, total % n;
    QuotientIsPositive(total, n);
    SplitIsStepped(total, n);
    SteppedSum(Split(total, n), base, k);
  }

  lemma QuotientIsPositive(total: int, n: int)
    requires 1 <= n <= total
    ensures total / n >= 1 && total == n * (total / n) + total % n && 0 <= total % n < n
  {
    var q := total / n;
    if q < 1 {
      TimesAtLeast(n, 1 - q);
    }
  }

  lemma SplitIsStepped(total: int, n: int)
    requires 1 <= n <= total
    ensures |Split(total, n)| == n && Stepped(Split(total, n), total / n, total % n)
  {}

  lemma TimesAtLeast(n: int, d: int)
    requires n > 0 && d >= 1
    ensures n * d >= n
  {}

  /** The split is the only even one: nothing else with as many parts, largest first and at most one apart,
      sums to the total. */
  lemma EvenSplitIsUnique(total: int, chunks: int, s: seq<int>)
    requires chunks >= 1 && total >= 1 && Sum(s) == total && Even(s)
    requires |s| == if chunks < total then chunks else total
    ensures s == ChunkSizes(total, chunks).sizes
  {
    var n, base := |s|, s[|s| - 1];
    var k := EvenIsStepped(s);
    SteppedSum(s, base, k);
    QuotientIs(total, n, base, k);
  }

  lemma EvenIsStepped(s: seq<int>) returns (k: nat)
    requires s != [] && Even(s)
    ensures k < |s| && Stepped(s, s[|s| - 1], k)
  {
    k := 0;
    while k < |s| - 1 && s[k] > s[|s| - 1]
      invariant k < |s| && forall i :: 0 <= i < k ==> s[i] == s[|s| - 1] + 1
    {
      k := k + 1;
    }
  }

  lemma QuotientIs(total: int, n: int, q: int, r: int)
    requires n > 0 && total == n * q + r && 0 <= r < n
    ensures total / n == q && total % n == r
  {
    var d := total / n - q;
    assert total == n * (total / n) + total % n;
    assert n * d == r - total % n;
    if d >= 1 { TimesAtLeast(n, d); }
    if d <= -1 { TimesAtLeast(n, -d); }
  }

  // ---------- One result entry ----------

  /** What a JSON field may hold; a flag is not a number here, whatever the language says. */
  datatype Field = Flag | Whole(n: int) | Fraction(x: real) | NotFinite | Other

  datatype Flaw = NotAnObject | BadRuns | NotANumber(field: string) | Infinite(field: string) | Negative(field: string)

  const DURATIONS: seq<string> := ["min", "mean", "median", "max"]

  predicate Number(f: Option<Field>) { f.Some? && (f.value.Whole? || f.value.Fraction?) }

  function Amount(f: Field): real
    requires f.Whole? || f.Fraction?
  {
    if f.Whole? then f.n as real else f.x
  }

  function Lookup(entry: map<string, Field>, key: string): Option<Field> {
    if key in entry then Some(entry[key]) else None
  }

  predicate Usable(f: Option<Field>) { Number(f) && Amount(f.value) >= 0.0 }

  predicate UsableRuns(f: Option<Field>) { f.Some? && f.value.Whole? && f.value.n > 0 }

  /** Which of three things is wrong with a duration. */
  predicate Names(flaw: Flaw, key: string, f: Option<Field>) {
    match flaw
    case NotANumber(k) => k == key && !Number(f) && f != Some(NotFinite)
    case Infinite(k) => k == key && f == Some(NotFinite)
    case Negative(k) => k == key && Number(f) && Amount(f.value) < 0.0
    case _ => false
  }

  /** No complaint exactly when the run count is a positive whole number and all four durations are finite
      and not negative; otherwise the first thing wrong, in the order runs, min, mean, median, max. */
  method ValidateStat(stat: Option<map<string, Field>>) returns (flaw: Option<Flaw>)
    ensures flaw == Some(NotAnObject) <==> stat.None?
    ensures flaw == Some(BadRuns) <==> stat.Some? && !UsableRuns(Lookup(stat.value, "runs"))
    ensures flaw.None? <==> stat.Some? && UsableRuns(Lookup(stat.value, "runs"))
                            && forall i :: 0 <= i < |DURATIONS| ==> Usable(Lookup(stat.value, DURATIONS[i]))
    ensures flaw.Some? && !flaw.value.NotAnObject? && !flaw.value.BadRuns? ==>
              exists i :: 0 <= i < |DURATIONS| && Names(flaw.value, DURATIONS[i], Lookup(stat.value, DURATIONS[i]))
                          && forall j :: 0 <= j < i ==> Usable(Lookup(stat.value, DURATIONS[j]))
  {
    if stat.None? {
      return Some(NotAnObject);
    }
    var runs := Lookup(stat.value, "runs");
    if runs.None? || !runs.value.Whole? || runs.value.n <= 0 {
      return Some(BadRuns);
    }
    for i := 0 to |DURATIONS|
      invariant forall j :: 0 <= j < i ==> Usable(Lookup(stat.value, DURATIONS[j]))
    {
      var field := DURATIONS[i];
      var value := Lookup(stat.value, field);
      if value.None? || value.value.Flag? || value.value.Other? {
        assert Names(NotANumber(field), DURATIONS[i], value);
        return Some(NotANumber(field));
      }
      if value.value.NotFinite? {
        assert Names(Infinite(field), DURATIONS[i], value);
        return Some(Infinite(field));
      }
      if Amount(value.value) < 0.0 {
        assert Names(Negative(field), DURATIONS[i], value);
        return Some(Negative(field));
      }
    }
    return None;
  }

  // ---------- Merging ----------

  datatype Stat = Stat(runs: int, min: real, mean: real, median: real, max: real) {
    /** What ValidateStat lets through, with the averages inside the extremes. */
    predicate Sound() { runs > 0 && 0.0 <= min <= mean <= max && min <= median <= max }
  }

  datatype Entry = Entry(name: string, stat: Stat)

  datatype Merge = NoChunks | DividedByZero | Merged(results: map<string, Stat>)

  /** The stats recorded under a name, in order. */
  function StatsOf(entries: seq<Entry>, name: string): seq<Stat> {
    if entries == [] then []
    else
      var last := entries[|entries| - 1];
      StatsOf(entries[..|entries| - 1], name) + if last.name == name then [last.stat] else []
  }

  function Flat(chunks: seq<seq<Entry>>): seq<Entry> {
    if chunks == [] then [] else Flat(chunks[..|chunks| - 1]) + chunks[|chunks| - 1]
  }

  function Grouped(entries: seq<Entry>): map<string, seq<Stat>> {
    map name | name in NamesIn(entries) :: StatsOf(entries, name)
  }

  function NamesIn(entries: seq<Entry>): set<string> { set e | e in entries :: e.name }

  function Runs(stats: seq<Stat>): int {
    if stats == [] then 0 else Runs(stats[..|stats| - 1]) + stats[|stats| - 1].runs
  }

  /** The whole time spent, as each mean tells it. */
  function Time(stats: seq<Stat>): real {
    if stats == [] then 0.0
    else Time(stats[..|stats| - 1]) + stats[|stats| - 1].mean * stats[|stats| - 1].runs as real
  }

  function Least(s: seq<real>): (m: real)
    requires s != []
    ensures m in s && forall x :: x in s ==> m <= x
  {
    if |s| == 1 then s[0]
    else
      assert s == [s[0]] + s[1..];
      var m := Least(s[1..]);
      if s[0] <= m then s[0] else m
  }

  function Greatest(s: seq<real>): (m: real)
    requires s != []
    ensures m in s && forall x :: x in s ==> x <= m
  {
    if |s| == 1 then s[0]
    else
      assert s == [s[0]] + s[1..];
      var m := Greatest(s[1..]);
      if s[0] >= m then s[0] else m
  }

  function Insert(x: real, s: seq<real>): (r: seq<real>)
    ensures multiset(r) == multiset(s) + multiset{x}
  {
    if s == [] || x <= s[0] then [x] + s
    else
      assert s == [s[0]] + s[1..];
      [s[0]] + Insert(x, s[1..])
  }

  function Sort(s: seq<real>): (r: seq<real>)
    ensures multiset(r) == multiset(s) && |r| == |s|
  {
    if s == [] then [] else
      assert s == [s[0]] + s[1..];
      assert |multiset(Insert(s[0], Sort(s[1..])))| == |Insert(s[0], Sort(s[1..]))|;
      Insert(s[0], Sort(s[1..]))
  }

  function Median(s: seq<real>): real
    requires s != []
  {
    var t := Sort(s);
    if |t| % 2 == 1 then t[|t| / 2] else (t[|t| / 2 - 1] + t[|t| / 2]) / 2.0
  }

  function Mins(stats: seq<Stat>): seq<real> { seq(|stats|, i requires 0 <= i < |stats| => stats[i].min) }
  function Medians(stats: seq<Stat>): seq<real> { seq(|stats|, i requires 0 <= i < |stats| => stats[i].median) }
  function Maxes(stats: seq<Stat>): seq<real> { seq(|stats|, i requires 0 <= i < |stats| => stats[i].max) }

  function MergeStats(stats: seq<Stat>): Stat
    requires stats != [] && Runs(stats) != 0
  {
    Stat(Runs(stats), Least(Mins(stats)), Time(stats) / Runs(stats) as real, Median(Medians(stats)),
         Greatest(Maxes(stats)))
  }

  /** Group every chunk's stats by name, then merge each group. */
  method MergeArm(chunks: seq<seq<Entry>>) returns (r: Merge)
    ensures r.NoChunks? <==> chunks == []
    ensures r.DividedByZero? <==> exists name :: name in NamesIn(Flat(chunks)) && Runs(StatsOf(Flat(chunks), name)) == 0
    ensures r.Merged? ==> r.results.Keys == NamesIn(Flat(chunks))
    ensures r.Merged? ==> forall name :: name in r.results ==>
              StatsOf(Flat(chunks), name) != [] && Runs(StatsOf(Flat(chunks), name)) != 0
              && r.results[name] == MergeStats(StatsOf(Flat(chunks), name))
  {
    hide MergeStats, Runs, StatsOf;
    if chunks == [] {
      return NoChunks;
    }
    var all: map<string, seq<Stat>> := Gather(chunks);
    var merged: map<string, Stat> := map[];
    var left := all.Keys;
    while left != {}
      invariant left <= all.Keys
      invariant merged.Keys == all.Keys - left
      invariant forall name :: name in merged ==>
                  all[name] != [] && Runs(all[name]) != 0 && merged[name] == MergeStats(all[name])
      decreases left
    {
      var name :| name in left;
      NamedIsNonEmpty(Flat(chunks), name);
      if Runs(all[name]) == 0 {
        return DividedByZero;
      }
      merged, left := merged[name := MergeStats(all[name])], left - {name};
    }
    forall name | name in NamesIn(Flat(chunks))
      ensures name in merged && all[name] == StatsOf(Flat(chunks), name) {
    }
    return Merged(merged);
  }

  method Gather(chunks: seq<seq<Entry>>) returns (all: map<string, seq<Stat>>)
    ensures all == Grouped(Flat(chunks))
  {
    hide Grouped;
    all := map[];
    GroupedNone();
    for i := 0 to |chunks|
      invariant all == Grouped(Flat(chunks[..i]))
    {
      var chunk, before := chunks[i], Flat(chunks[..i]);
      assert before + chunk[..0] == before;
      for j := 0 to |chunk|
        invariant all == Grouped(before + chunk[..j])
      {
        var e := chunk[j];
        GroupedGrows(before + chunk[..j], e);
        all := all[e.name := (if e.name in all then all[e.name] else []) + [e.stat]];
        assert before + chunk[..j + 1] == before + chunk[..j] + [e];
      }
      assert chunk[..|chunk|] == chunk && chunks[..i + 1][..i] == chunks[..i];
    }
    assert chunks[..|chunks|] == chunks;
  }

  lemma GroupedNone()
    ensures Grouped([]) == map[]
  {}

  lemma GroupedGrows(entries: seq<Entry>, e: Entry)
    ensures var all := Grouped(entries);
            Grouped(entries + [e]) == all[e.name := (if e.name in all then all[e.name] else []) + [e.stat]]
  {
    var more := entries + [e];
    StatsOfNext(entries, e);
    hide StatsOf;
    assert NamesIn(more) == NamesIn(entries) + {e.name};
    if e.name !in NamesIn(entries) {
      UnnamedIsEmpty(entries, e.name);
    }
    var want := Grouped(entries)[e.name := StatsOf(entries, e.name) + [e.stat]];
    assert forall name :: name in NamesIn(more) ==> StatsOf(more, name) == want[name];
    assert Grouped(more) == want;
  }

  lemma StatsOfNext(entries: seq<Entry>, e: Entry)
    ensures forall name :: StatsOf(entries + [e], name)
                        == StatsOf(entries, name) + if name == e.name then [e.stat] else []
  {
    assert (entries + [e])[..|entries|] == entries;
  }

  lemma {:induction false} UnnamedIsEmpty(entries: seq<Entry>, name: string)
    requires name !in NamesIn(entries)
    ensures StatsOf(entries, name) == []
  {
    if entries != [] {
      UnnamedIsEmpty(entries[..|entries| - 1], name);
    }
  }

  lemma {:induction false} NamedIsNonEmpty(entries: seq<Entry>, name: string)
    requires name in NamesIn(entries)
    ensures StatsOf(entries, name) != []
  {
    if entries[|entries| - 1].name != name {
      var e :| e in entries && e.name == name;
      assert e in entries[..|entries| - 1];
      NamedIsNonEmpty(entries[..|entries| - 1], name);
    }
  }

  // ---------- What merging keeps ----------

  predicate Ascending(s: seq<real>) { forall i, j :: 0 <= i < j < |s| ==> s[i] <= s[j] }

  lemma {:induction false} InsertKeepsSorted(x: real, s: seq<real>)
    requires Ascending(s)
    ensures Ascending(Insert(x, s))
  {
    if s == [] || x <= s[0] {
      HeadLeast(x, s);
    } else {
      InsertKeepsSorted(x, s[1..]);
      var r := Insert(x, s[1..]);
      forall y | y in r ensures s[0] <= y {
        assert y in multiset(r);
        assert y == x || y in multiset(s[1..]);
      }
      HeadLeast(s[0], r);
    }
  }

  lemma HeadLeast(x: real, tail: seq<real>)
    requires Ascending(tail) && forall y :: y in tail ==> x <= y
    ensures Ascending([x] + tail)
  {
    assert forall j :: 0 <= j < |tail| ==> tail[j] in tail;
  }

  lemma {:induction false} SortIsSorted(s: seq<real>)
    ensures Ascending(Sort(s))
  {
    if s != [] {
      SortIsSorted(s[1..]);
      InsertKeepsSorted(s[0], Sort(s[1..]));
    }
  }

  /** The median lies between any bounds of what it is taken of. */
  lemma MedianIsInside(s: seq<real>, lo: real, hi: real)
    requires s != [] && forall x :: x in s ==> lo <= x <= hi
    ensures lo <= Median(s) <= hi
  {
    var t := Sort(s);
    assert multiset(t) == multiset(s);
    forall i | 0 <= i < |t| ensures lo <= t[i] <= hi {
      assert t[i] in multiset(s);
      assert t[i] in s;
    }
  }

  /** The order in which the chunks came does not matter to it. */
  lemma MedianIgnoresOrder(s: seq<real>, t: seq<real>)
    requires s != [] && multiset(s) == multiset(t)
    ensures t != [] && Median(s) == Median(t)
  {
    hide Sort, Ascending;
    assert |multiset(s)| == |s| && |multiset(t)| == |t|;
    SortIsSorted(s);
    SortIsSorted(t);
    SortedIsUnique(Sort(s), Sort(t));
  }

  lemma {:induction false} SortedIsUnique(s: seq<real>, t: seq<real>)
    requires multiset(s) == multiset(t) && Ascending(s) && Ascending(t)
    ensures s == t
  {
    assert |multiset(s)| == |s| && |multiset(t)| == |t|;
    if s != [] {
      SameFirst(s, t);
      assert s == [s[0]] + s[1..] && t == [t[0]] + t[1..];
      assert multiset(s[1..]) == multiset(s) - multiset{s[0]};
      assert multiset(t[1..]) == multiset(t) - multiset{t[0]};
      SortedIsUnique(s[1..], t[1..]);
    }
  }

  lemma SameFirst(s: seq<real>, t: seq<real>)
    requires s != [] && t != [] && multiset(s) == multiset(t) && Ascending(s) && Ascending(t)
    ensures s[0] == t[0]
  {
    assert s[0] in multiset(t) && t[0] in multiset(s);
    var i :| 0 <= i < |t| && t[i] == s[0];
    var j :| 0 <= j < |s| && s[j] == t[0];
  }

  lemma {:induction false} TimeIsBounded(stats: seq<Stat>, lo: real, hi: real)
    requires forall s :: s in stats ==> s.runs > 0 && lo <= s.mean <= hi
    ensures Runs(stats) >= |stats|
    ensures lo * Runs(stats) as real <= Time(stats) <= hi * Runs(stats) as real
  {
    hide Runs, Time;
    RunAndTimeStep(stats);
    if stats != [] {
      var before, last := stats[..|stats| - 1], stats[|stats| - 1];
      assert last in stats;
      TimeIsBounded(before, lo, hi);
      AddedTime(lo, hi, Time(before), Runs(before), last.mean, last.runs);
    }
  }

  lemma RunAndTimeStep(stats: seq<Stat>)
    ensures stats == [] ==> Runs(stats) == 0 && Time(stats) == 0.0
    ensures stats != [] ==>
              var before, last := stats[..|stats| - 1], stats[|stats| - 1];
              && Runs(stats) == Runs(before) + last.runs
              && Time(stats) == Time(before) + last.mean * last.runs as real
  {}

  lemma AddedTime(lo: real, hi: real, time: real, runs: int, mean: real, more: int)
    requires lo * runs as real <= time <= hi * runs as real && lo <= mean <= hi && more > 0
    ensures lo * (runs + more) as real <= time + mean * more as real <= hi * (runs + more) as real
  {}

  lemma QuotientInside(lo: real, hi: real, t: real, n: real)
    requires n > 0.0 && lo * n <= t <= hi * n
    ensures lo <= t / n <= hi && t / n * n == t
  {}

  /** Merging sound stats gives a sound stat: every run is counted once, the mean times the runs is the time
      the chunks spent, and the extremes are extremes some chunk saw, with none beyond them. */
  lemma MergeIsSound(stats: seq<Stat>)
    requires stats != [] && forall s :: s in stats ==> s.Sound()
    ensures Runs(stats) > 0
    ensures var m := MergeStats(stats);
            && m.Sound()
            && m.runs == Runs(stats)
            && m.mean * m.runs as real == Time(stats)
            && (exists s :: s in stats && s.min == m.min) && (forall s :: s in stats ==> m.min <= s.min)
            && (exists s :: s in stats && s.max == m.max) && (forall s :: s in stats ==> s.max <= m.max)
  {
    hide Least, Greatest, Median, Time, Runs;
    var lo, hi := Least(Mins(stats)), Greatest(Maxes(stats));
    ExtremesAreSeen(stats);
    MeanIsInside(stats, lo, hi);
    MediansAreInside(stats, lo, hi);
  }

  lemma MeanIsInside(stats: seq<Stat>, lo: real, hi: real)
    requires stats != [] && forall s :: s in stats ==> s.runs > 0 && lo <= s.mean <= hi
    ensures Runs(stats) > 0
    ensures var mean := Time(stats) / Runs(stats) as real;
            lo <= mean <= hi && mean * Runs(stats) as real == Time(stats)
  {
    hide Time, Runs;
    TimeIsBounded(stats, lo, hi);
    QuotientInside(lo, hi, Time(stats), Runs(stats) as real);
  }

  lemma MediansAreInside(stats: seq<Stat>, lo: real, hi: real)
    requires stats != [] && forall s :: s in stats ==> lo <= s.median <= hi
    ensures lo <= Median(Medians(stats)) <= hi
  {
    hide Median;
    forall x | x in Medians(stats) ensures lo <= x <= hi {
      var i :| 0 <= i < |stats| && stats[i].median == x;
      assert stats[i] in stats;
    }
    MedianIsInside(Medians(stats), lo, hi);
  }

  lemma ExtremesAreSeen(stats: seq<Stat>)
    requires stats != []
    ensures var lo, hi := Least(Mins(stats)), Greatest(Maxes(stats));
            && (exists s :: s in stats && s.min == lo) && (forall s :: s in stats ==> lo <= s.min)
            && (exists s :: s in stats && s.max == hi) && (forall s :: s in stats ==> s.max <= hi)
  {
    var lo, hi := Least(Mins(stats)), Greatest(Maxes(stats));
    forall s | s in stats ensures lo <= s.min && s.max <= hi {
      var i :| 0 <= i < |stats| && stats[i] == s;
      assert Mins(stats)[i] == s.min && Maxes(stats)[i] == s.max;
      assert s.min in Mins(stats) && s.max in Maxes(stats);
    }
    var i :| 0 <= i < |stats| && Mins(stats)[i] == lo;
    var j :| 0 <= j < |stats| && Maxes(stats)[j] == hi;
    assert stats[i] in stats && stats[j] in stats;
  }

  /** An arm run in the chunks it was split into reports exactly the runs that were asked for. */
  lemma {:induction false} ChunkedArmRunsTheTotal(total: int, chunks: int, stats: seq<Stat>)
    requires chunks >= 1 && total >= 1
    requires var sizes := ChunkSizes(total, chunks).sizes;
             |stats| == |sizes| && forall i :: 0 <= i < |sizes| ==> stats[i].runs == sizes[i]
    ensures stats != [] && Runs(stats) != 0 && MergeStats(stats).runs == total
  {
    ChunksCoverTheTotal(total, chunks);
    RunsAreTheSum(stats, ChunkSizes(total, chunks).sizes);
  }

  lemma {:induction false} RunsAreTheSum(stats: seq<Stat>, sizes: seq<int>)
    requires |stats| == |sizes| && forall i :: 0 <= i < |sizes| ==> stats[i].runs == sizes[i]
    ensures Runs(stats) == Sum(sizes)
  {
    if stats != [] {
      RunsAreTheSum(stats[..|stats| - 1], sizes[..|sizes| - 1]);
    }
  }
}
