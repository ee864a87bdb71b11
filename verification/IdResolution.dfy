/** Finding the one record an id or an id prefix names, across several tables. */
module IdResolution {
  import opened Text
  import opened Wrappers

  // ---------- The LIKE pattern ----------

  /** text.replace(c, sub) for a single character c. */
  function ReplaceAll(text: string, c: char, sub: string): string {
    if text == "" then "" else (if text[0] == c then sub else [text[0]]) + ReplaceAll(text[1..], c, sub)
  }

  /** Backslashes first, so the ones the later replacements add are left alone. */
  function Escaped(text: string): string {
    ReplaceAll(ReplaceAll(ReplaceAll(text, '\\', "\\\\"), '%', "\\%"), '_', "\\_")
  }

  function LikePrefixPattern(id: string): string { Escaped(id) + "%" }

  predicate Meta(c: char) { c == '\\' || c == '%' || c == '_' }

  function EscapedEach(text: string): string {
    if text == "" then ""
    else (if Meta(text[0]) then ['\\', text[0]] else [text[0]]) + EscapedEach(text[1..])
  }

  lemma {:induction false} ReplaceSplits(a: string, b: string, c: char, sub: string)
    ensures ReplaceAll(a + b, c, sub) == ReplaceAll(a, c, sub) + ReplaceAll(b, c, sub)
  {
    if a == "" {
      assert a + b == b;
    } else {
      assert (a + b)[1..] == a[1..] + b;
      ReplaceSplits(a[1..], b, c, sub);
    }
  }

  /** The three replacements, one after the other, escape each character once. */
  lemma {:induction false} EscapingIsPerCharacter(text: string)
    ensures Escaped(text) == EscapedEach(text)
  {
    if text != "" {
      EscapingIsPerCharacter(text[1..]);
      var head := if text[0] == '\\' then "\\\\" else [text[0]];
      var rest := ReplaceAll(text[1..], '\\', "\\\\");
      ReplaceSplits(head, rest, '%', "\\%");
      ReplaceSplits(ReplaceAll(head, '%', "\\%"), ReplaceAll(rest, '%', "\\%"), '_', "\\_");
      OneCharacter(text[0]);
    }
  }

  lemma One(x: char, c: char, sub: string)
    ensures ReplaceAll([x], c, sub) == if x == c then sub else [x]
  {}

  lemma OneCharacter(c: char)
    ensures Escaped([c]) == if Meta(c) then ['\\', c] else [c]
  {
    One(c, '\\', "\\\\");
    One(c, '%', "\\%");
    One(c, '_', "\\_");
    var b, u := "\\", "%";
    assert "\\\\" == b + b && "\\%" == b + u;
    ReplaceSplits(b, b, '%', "\\%");
    ReplaceSplits(b, b, '_', "\\_");
    ReplaceSplits(b, u, '_', "\\_");
    One('\\', '%', "\\%");
    One('\\', '_', "\\_");
    One('%', '_', "\\_");
  }

  /** text LIKE pattern ESCAPE '\': % is any run of characters, _ any one, and a character after the
      escape stands for itself.  fold is the comparison's case folding, the identity where there is none. */
  predicate Like(text: string, pattern: string, fold: char -> char)
    decreases |pattern|, |text|
  {
    if pattern == "" then text == ""
    else if pattern[0] == '%' then
      Like(text, pattern[1..], fold) || (text != "" && Like(text[1..], pattern, fold))
    else if pattern[0] == '_' then text != "" && Like(text[1..], pattern[1..], fold)
    else if pattern[0] == '\\' then
      |pattern| > 1 && text != "" && fold(text[0]) == fold(pattern[1]) && Like(text[1..], pattern[2..], fold)
    else text != "" && fold(text[0]) == fold(pattern[0]) && Like(text[1..], pattern[1..], fold)
  }

  /** Starts with, up to the folding. */
  predicate StartsFolded(text: string, prefix: string, fold: char -> char) {
    |prefix| <= |text| && forall i :: 0 <= i < |prefix| ==> fold(text[i]) == fold(prefix[i])
  }

  lemma {:induction false} PercentMatchesAll(text: string, fold: char -> char)
    ensures Like(text, "%", fold)
  {
    assert "%"[1..] == "";
    if text != "" {
      PercentMatchesAll(text[1..], fold);
    }
  }

  lemma {:induction false} EscapedMatches(text: string, prefix: string, fold: char -> char)
    ensures Like(text, EscapedEach(prefix) + "%", fold) <==> StartsFolded(text, prefix, fold)
    decreases |prefix|
  {
    var pattern := EscapedEach(prefix) + "%";
    if prefix == "" {
      assert pattern == "%";
      PercentMatchesAll(text, fold);
    } else {
      var rest := EscapedEach(prefix[1..]) + "%";
      if Meta(prefix[0]) {
        assert pattern == ['\\', prefix[0]] + rest;
        assert pattern[2..] == rest;
      } else {
        assert pattern == [prefix[0]] + rest;
        assert pattern[1..] == rest;
      }
      if text != "" {
        EscapedMatches(text[1..], prefix[1..], fold);
        StartsByHead(text, prefix, fold);
      }
    }
  }

  lemma StartsByHead(text: string, prefix: string, fold: char -> char)
    requires text != "" && prefix != ""
    ensures StartsFolded(text, prefix, fold)
            <==> fold(text[0]) == fold(prefix[0]) && StartsFolded(text[1..], prefix[1..], fold)
  {
    if fold(text[0]) == fold(prefix[0]) && StartsFolded(text[1..], prefix[1..], fold) {
      forall i | 0 <= i < |prefix| ensures fold(text[i]) == fold(prefix[i]) {
        if i > 0 {
          assert text[1..][i - 1] == text[i] && prefix[1..][i - 1] == prefix[i];
        }
      }
    }
  }

  /** Whatever metacharacters the prefix holds, LIKE over its escaped form is starts-with, up to folding. */
  lemma LikeIsStartsWith(text: string, prefix: string, fold: char -> char)
    ensures Like(text, LikePrefixPattern(prefix), fold) <==> StartsFolded(text, prefix, fold)
  {
    EscapingIsPerCharacter(prefix);
    EscapedMatches(text, prefix, fold);
  }

  function Substr(text: string, n: nat): string { if |text| <= n then text else text[..n] }

  /** The query's condition, with the exact comparison beside the LIKE, is plain starts-with under any
      folding. */
  lemma QueryIsStartsWith(text: string, prefix: string, fold: char -> char)
    ensures Like(text, LikePrefixPattern(prefix), fold) && Substr(text, |prefix|) == prefix <==> prefix <= text
  {
    LikeIsStartsWith(text, prefix, fold);
    if Substr(text, |prefix|) == prefix {
      assert |text| >= |prefix|;
    }
  }

  // ---------- The store and its queries ----------

  datatype Row = Row(id: string, data: nat)

  /** Each table's rows in the order of their ids, which are its primary key; how its backend folds case. */
  datatype Store = Store(tables: map<string, seq<Row>>, fold: char -> char)

  const CANDIDATES_SHOWN := 5

  function RowsOf(db: Store, table: string): seq<Row> { if table in db.tables then db.tables[table] else [] }

  function FetchExact(rows: seq<Row>, id: string): Option<Row> {
    if rows == [] then None else if rows[0].id == id then Some(rows[0]) else FetchExact(rows[1..], id)
  }

  function Matching(rows: seq<Row>, id: string, fold: char -> char): seq<Row> {
    if rows == [] then []
    else (if Like(rows[0].id, LikePrefixPattern(id), fold) && Substr(rows[0].id, |id|) == id
          then [rows[0]] else [])
         + Matching(rows[1..], id, fold)
  }

  function Limit(rows: seq<Row>, n: nat): seq<Row> { if |rows| <= n then rows else rows[..n] }

  function FetchPrefix(db: Store, table: string, id: string, limit: nat): seq<Row> {
    Limit(Matching(RowsOf(db, table), id, db.fold), limit)
  }

  datatype Hit = Hit(table: string, row: Row)

  function Tagged(table: string, rows: seq<Row>): (hits: seq<Hit>)
    ensures |hits| == |rows| && forall i :: 0 <= i < |rows| ==> hits[i] == Hit(table, rows[i])
  {
    seq(|rows|, i requires 0 <= i < |rows| => Hit(table, rows[i]))
  }

  /** Hits of the first n tables, each table answering with at most limit rows. */
  function Hits(db: Store, tables: seq<string>, id: string, limit: nat, n: nat := |tables|): seq<Hit>
    requires n <= |tables|
  {
    if n == 0 then []
    else Hits(db, tables, id, limit, n - 1) + Tagged(tables[n - 1], FetchPrefix(db, tables[n - 1], id, limit))
  }

  // ---------- Resolution ----------

  datatype Resolution =
    | Missing
    | Found(table: string, row: Row)
    | Ambiguous(kind: Option<string>, candidates: seq<Hit>)

  /** Every hit lies in the first one's table. */
  predicate OneKind(hits: seq<Hit>) {
    forall i :: 0 <= i < |hits| ==> hits[i].table == hits[0].table
  }

  function Judge(hits: seq<Hit>): Resolution {
    if hits == [] then Missing
    else if |hits| == 1 then Found(hits[0].table, hits[0].row)
    else Ambiguous(if OneKind(hits) then Some(hits[0].table) else None, hits)
  }

  /** The first table holding the exact id. */
  function ExactIn(db: Store, tables: seq<string>, id: string): Option<Hit> {
    if tables == [] then None
    else
      var row := FetchExact(RowsOf(db, tables[0]), id);
      if row.Some? then Some(Hit(tables[0], row.value)) else ExactIn(db, tables[1..], id)
  }

  function Resolved(db: Store, tables: seq<string>, id: string, limit: nat): Resolution {
    if id == "" then Missing
    else
      var exact := ExactIn(db, tables, id);
      if exact.Some? then Found(exact.value.table, exact.value.row)
      else Judge(Hits(db, tables, id, limit))
  }

  /** Exact ids first, in table order; then prefixes gathered from every table. */
  method ResolveEntity(db: Store, given: string, tables: seq<string>) returns (r: Resolution)
    ensures r == Resolved(db, tables, Strip(given), CANDIDATES_SHOWN + 1)
  {
    var id := Strip(given);
    if id == "" {
      return Missing;
    }
    for i := 0 to |tables|
      invariant ExactIn(db, tables, id) == ExactIn(db, tables[i..], id)
    {
      var row := FetchExact(RowsOf(db, tables[i]), id);
      if row.Some? {
        return Found(tables[i], row.value);
      }
      assert tables[i..][1..] == tables[i + 1..];
    }
    var hits := [];
    for i := 0 to |tables|
      invariant hits == Hits(db, tables, id, CANDIDATES_SHOWN + 1, i)
    {
      hits := hits + Tagged(tables[i], FetchPrefix(db, tables[i], id, CANDIDATES_SHOWN + 1));
    }
    if hits == [] {
      return Missing;
    }
    if |hits| > 1 {
      var kinds := set h | h in hits :: h.table;
      KindsCount(hits);
      return Ambiguous(if kinds == {hits[0].table} then Some(hits[0].table) else None, hits);
    }
    return Found(hits[0].table, hits[0].row);
  }

  lemma KindsCount(hits: seq<Hit>)
    requires hits != []
    ensures (set h | h in hits :: h.table) == {hits[0].table} <==> OneKind(hits)
  {
    var kinds := set h | h in hits :: h.table;
    assert hits[0] in hits && hits[0].table in kinds;
    if kinds == {hits[0].table} {
      forall i | 0 <= i < |hits| ensures hits[i].table == hits[0].table {
        assert hits[i] in hits && hits[i].table in kinds;
      }
    }
  }

  /** One table: the same policy. */
  method FetchUniqueRow(db: Store, table: string, given: string) returns (r: Resolution)
    ensures r == Resolved(db, [table], Strip(given), CANDIDATES_SHOWN + 1)
  {
    var id := Strip(given);
    if id == "" {
      return Missing;
    }
    var row := FetchExact(RowsOf(db, table), id);
    if row.Some? {
      return Found(table, row.value);
    }
    assert [table][1..] == [] && ExactIn(db, [table], id) == None;
    var rows := FetchPrefix(db, table, id, CANDIDATES_SHOWN + 1);
    assert Hits(db, [table], id, CANDIDATES_SHOWN + 1) == Tagged(table, rows);
    if rows == [] {
      return Missing;
    }
    if |rows| > 1 {
      return Ambiguous(Some(table), Tagged(table, rows));
    }
    return Found(table, rows[0]);
  }

  // ---------- What resolution decides ----------

  /** All rows of all tables whose id starts with the prefix, table by table. */
  function AllWithPrefix(db: Store, tables: seq<string>, id: string, n: nat := |tables|): seq<Hit>
    requires n <= |tables|
  {
    if n == 0 then []
    else AllWithPrefix(db, tables, id, n - 1) + Tagged(tables[n - 1], Starting(RowsOf(db, tables[n - 1]), id))
  }

  function Starting(rows: seq<Row>, id: string): seq<Row> {
    if rows == [] then [] else (if id <= rows[0].id then [rows[0]] else []) + Starting(rows[1..], id)
  }

  lemma {:induction false} MatchingIsStarting(rows: seq<Row>, id: string, fold: char -> char)
    ensures Matching(rows, id, fold) == Starting(rows, id)
  {
    if rows != [] {
      QueryIsStartsWith(rows[0].id, id, fold);
      MatchingIsStarting(rows[1..], id, fold);
    }
  }

  /** Hits and full matches agree on how many there are up to one, and on the tables they come from. */
  ghost predicate SameVerdict(hits: seq<Hit>, all: seq<Hit>) {
    && (|hits| <= 1 || |all| <= 1 ==> hits == all)
    && (hits != [] && all != [] ==> hits[0] == all[0])
    && (OneKind(hits) <==> OneKind(all))
    && (hits == [] <==> all == [])
  }

  lemma {:induction false} LimitKeepsTheVerdict(db: Store, tables: seq<string>, id: string, limit: nat, n: nat)
    requires limit >= 2 && n <= |tables|
    ensures SameVerdict(Hits(db, tables, id, limit, n), AllWithPrefix(db, tables, id, n))
  {
    hide *;
    if n > 0 {
      LimitKeepsTheVerdict(db, tables, id, limit, n - 1);
      NextKeepsTheVerdict(db, tables, id, limit, n);
    } else {
      NothingYet(db, tables, id, limit);
    }
  }

  lemma NextKeepsTheVerdict(db: Store, tables: seq<string>, id: string, limit: nat, n: nat)
    requires limit >= 2 && 0 < n <= |tables|
    requires SameVerdict(Hits(db, tables, id, limit, n - 1), AllWithPrefix(db, tables, id, n - 1))
    ensures SameVerdict(Hits(db, tables, id, limit, n), AllWithPrefix(db, tables, id, n))
  {
    hide *;
    var rows := Starting(RowsOf(db, tables[n - 1]), id);
    HitsOfNext(db, tables, id, limit, n);
    LimitIsPrefix(rows, limit);
    TableKeepsTheVerdict(Hits(db, tables, id, limit, n - 1), AllWithPrefix(db, tables, id, n - 1),
                         tables[n - 1], Limit(rows, limit), rows);
  }

  lemma NothingYet(db: Store, tables: seq<string>, id: string, limit: nat)
    ensures SameVerdict(Hits(db, tables, id, limit, 0), AllWithPrefix(db, tables, id, 0))
  {}

  lemma LimitIsPrefix(rows: seq<Row>, limit: nat)
    requires limit >= 2
    ensures Limit(rows, limit) <= rows && (Limit(rows, limit) == rows || |Limit(rows, limit)| >= 2)
  {}

  lemma HitsOfNext(db: Store, tables: seq<string>, id: string, limit: nat, n: nat)
    requires 0 < n <= |tables|
    ensures var table := tables[n - 1];
            var rows := Starting(RowsOf(db, table), id);
            && Hits(db, tables, id, limit, n) == Hits(db, tables, id, limit, n - 1) + Tagged(table, Limit(rows, limit))
            && AllWithPrefix(db, tables, id, n) == AllWithPrefix(db, tables, id, n - 1) + Tagged(table, rows)
  {
    hide Starting, Matching, Like, Tagged;
    MatchingIsStarting(RowsOf(db, tables[n - 1]), id, db.fold);
  }

  lemma TableKeepsTheVerdict(hits: seq<Hit>, all: seq<Hit>, table: string, some: seq<Row>, rows: seq<Row>)
    requires SameVerdict(hits, all)
    requires some <= rows && (some == rows || |some| >= 2)
    ensures SameVerdict(hits + Tagged(table, some), all + Tagged(table, rows))
  {
    var h, a := hits + Tagged(table, some), all + Tagged(table, rows);
    if OneKind(h) {
      forall i | 0 <= i < |a| ensures a[i].table == a[0].table {
        assert forall k :: 0 <= k < |hits| ==> h[k] == hits[k];
        if some != [] && hits != [] {
          assert h[|hits|].table == table && h[0] == hits[0];
        }
      }
    }
    if OneKind(a) {
      forall i | 0 <= i < |h| ensures h[i].table == h[0].table {
        assert forall k :: 0 <= k < |all| ==> a[k] == all[k];
        if some != [] && all != [] {
          assert a[|all|].table == table && a[0] == all[0];
        }
      }
    }
  }

  /** Over any contents and any table order: an exact id wins from the first table holding it; otherwise a
      row is returned exactly when one row in all has the prefix, none when none has, and two or more are
      refused, naming their kind exactly when they share one.  The per-table limit decides nothing. */
  lemma ResolutionIsUnambiguous(db: Store, tables: seq<string>, id: string, limit: nat)
    requires id != "" && limit >= 2
    ensures var r, exact, all := Resolved(db, tables, id, limit), ExactIn(db, tables, id),
                                 AllWithPrefix(db, tables, id);
            if exact.Some? then r == Found(exact.value.table, exact.value.row)
            else
              && (r.Missing? <==> |all| == 0)
              && (r.Found? <==> |all| == 1) && (r.Found? ==> all == [Hit(r.table, r.row)])
              && (r.Ambiguous? <==> |all| >= 2)
              && (r.Ambiguous? ==> r.kind == if OneKind(all) then Some(all[0].table) else None)
  {
    LimitKeepsTheVerdict(db, tables, id, limit, |tables|);
  }

  lemma {:induction false} ExactIsFirst(db: Store, tables: seq<string>, id: string)
    ensures match ExactIn(db, tables, id)
            case None => forall i :: 0 <= i < |tables| ==> FetchExact(RowsOf(db, tables[i]), id).None?
            case Some(hit) =>
              exists i :: 0 <= i < |tables| && tables[i] == hit.table
                          && FetchExact(RowsOf(db, tables[i]), id) == Some(hit.row)
                          && forall j :: 0 <= j < i ==> FetchExact(RowsOf(db, tables[j]), id).None?
  {
    if tables != [] && FetchExact(RowsOf(db, tables[0]), id).None? {
      ExactIsFirst(db, tables[1..], id);
      var hit := ExactIn(db, tables, id);
      if hit.Some? {
        var i :| 0 <= i < |tables[1..]| && tables[1..][i] == hit.value.table
                 && FetchExact(RowsOf(db, tables[1..][i]), id) == Some(hit.value.row)
                 && forall j :: 0 <= j < i ==> FetchExact(RowsOf(db, tables[1..][j]), id).None?;
        forall j | 0 <= j < i + 1 ensures FetchExact(RowsOf(db, tables[j]), id).None? {
          if j > 0 { assert tables[1..][j - 1] == tables[j]; }
        }
        assert tables[i + 1] == hit.value.table;
      } else {
        forall i | 0 <= i < |tables| ensures FetchExact(RowsOf(db, tables[i]), id).None? {
          if i > 0 { assert tables[1..][i - 1] == tables[i]; }
        }
      }
    }
  }
}
