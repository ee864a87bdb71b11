/** Reading the worktree paths out of a NUL-delimited status listing, raw and after its caller stripped it. */
module StatusPaths {
  import opened Text
  import opened Wrappers

  const NUL := '\0'

  // ---------- The reader ----------

  /** Python's split on a one-character separator. */
  function Split(text: string): (fields: seq<string>)
    ensures |fields| > 0
    decreases |text|
  {
    var n := FirstNul(text);
    if n == |text| then [text] else [text[..n]] + Split(text[n + 1..])
  }

  function FirstNul(text: string): (n: nat)
    ensures n <= |text| && NUL !in text[..n]
    ensures n < |text| ==> text[n] == NUL
  {
    if text == "" || text[0] == NUL then 0
    else
      var n := 1 + FirstNul(text[1..]);
      assert text[..n] == [text[0]] + text[1..][..n - 1];
      n
  }

  function NonEmpty(fields: seq<string>): seq<string> {
    if fields == [] then []
    else if fields[0] == "" then NonEmpty(fields[1..])
    else [fields[0]] + NonEmpty(fields[1..])
  }

  /** The status letters of an entry that is followed by the name it came from. */
  predicate Moved(entry: string)
    requires |entry| >= 2
  {
    'R' in entry[..2] || 'C' in entry[..2]
  }

  function Parse(fields: seq<string>): seq<string> {
    if fields == [] then []
    else if |fields[0]| < 4 then Parse(fields[1..])
    else if Moved(fields[0]) && |fields| > 1 then [fields[0][3..]] + Parse(fields[2..])
    else [fields[0][3..]] + Parse(fields[1..])
  }

  method ReadPaths(porcelain: string) returns (paths: seq<string>)
    ensures paths == Parse(NonEmpty(Split(porcelain)))
  {
    hide Split, NonEmpty, Moved;
    var fields := NonEmpty(Split(porcelain));
    paths := [];
    var index := 0;
    while index < |fields|
      invariant index <= |fields| + 1
      invariant paths + Parse(if index <= |fields| then fields[index..] else []) == Parse(fields)
    {
      var entry := fields[index];
      assert fields[index..][1..] == fields[index + 1..];
      index := index + 1;
      if |entry| < 4 {
        continue;
      }
      paths := paths + [entry[3..]];
      if Moved(entry) {
        assert index < |fields| ==> fields[index - 1..][2..] == fields[index + 1..];
        index := index + 1;
      }
    }
  }

  // ---------- The listing ----------

  /** One record of the listing: two status letters, the path, and for a move the name it came from. */
  datatype Record = Record(x: char, y: char, path: string, origin: Option<string>) {
    predicate Valid() {
      && x != NUL && y != NUL && IsName(path)
      && (origin.Some? <==> x in "RC" || y in "RC")
      && (origin.Some? ==> IsName(origin.value))
    }

    /** The letters the format uses, not both blank. */
    predicate HasLetters() {
      x in " MTADRCU?!" && y in " MTADRCU?!" && !(x == ' ' && y == ' ')
    }
  }

  predicate IsName(name: string) { name != "" && NUL !in name }

  function Entry(r: Record): string { [r.x, r.y, ' '] + r.path }

  function FieldsOf(rs: seq<Record>): seq<string> {
    if rs == [] then []
    else [Entry(rs[0])] + (if rs[0].origin.Some? then [rs[0].origin.value] else []) + FieldsOf(rs[1..])
  }

  function Terminated(fields: seq<string>): string {
    if fields == [] then "" else fields[0] + [NUL] + Terminated(fields[1..])
  }

  function Listing(rs: seq<Record>): string { Terminated(FieldsOf(rs)) }

  function Paths(rs: seq<Record>): seq<string> { seq(|rs|, i requires 0 <= i < |rs| => rs[i].path) }

  lemma EntryIsName(r: Record)
    requires r.Valid()
    ensures IsName(Entry(r)) && IsName(Entry(r)[1..])
  {}

  lemma {:induction false} FieldsAreNames(rs: seq<Record>)
    requires forall r :: r in rs ==> r.Valid()
    ensures forall f :: f in FieldsOf(rs) ==> IsName(f)
  {
    if rs != [] {
      assert rs[0].Valid();
      EntryIsName(rs[0]);
      FieldsAreNames(rs[1..]);
    }
  }

  lemma FirstNulEndsTheName(name: string, rest: string)
    requires IsName(name)
    ensures FirstNul(name + [NUL] + rest) == |name|
  {
    var text := name + [NUL] + rest;
    assert text[|name|] == NUL && text[..|name|] == name;
  }

  lemma {:induction false} SplitTerminated(fields: seq<string>)
    requires forall f :: f in fields ==> IsName(f)
    ensures NonEmpty(Split(Terminated(fields))) == fields
  {
    if fields == [] {
      assert Split("") == [""];
    } else {
      SplitOne(fields[0], Terminated(fields[1..]));
      hide Split, NonEmpty;
      SplitTerminated(fields[1..]);
    }
  }

  lemma SplitOne(name: string, rest: string)
    requires IsName(name)
    ensures NonEmpty(Split(name + [NUL] + rest)) == [name] + NonEmpty(Split(rest))
  {
    var text := name + [NUL] + rest;
    FirstNulEndsTheName(name, rest);
    assert text[..|name|] == name && text[|name| + 1..] == rest;
    assert ([name] + Split(rest))[1..] == Split(rest);
  }

  lemma EntryIsWhole(r: Record)
    requires r.Valid()
    ensures |Entry(r)| >= 4 && Entry(r)[3..] == r.path && (Moved(Entry(r)) <==> r.origin.Some?)
  {
    assert Entry(r)[..2] == [r.x, r.y];
  }

  lemma {:induction false} ParseFields(rs: seq<Record>)
    requires forall r :: r in rs ==> r.Valid()
    ensures Parse(FieldsOf(rs)) == Paths(rs)
  {
    if rs != [] {
      ParseFields(rs[1..]);
      EntryIsWhole(rs[0]);
      ParseEntry(Entry(rs[0]), rs);
      assert Paths(rs) == [rs[0].path] + Paths(rs[1..]);
    }
  }

  /** The first entry read in whole, whatever stands for it, as long as it says the same about a move. */
  lemma ParseEntry(entry: string, rs: seq<Record>)
    requires rs != [] && |entry| >= 4 && (Moved(entry) <==> rs[0].origin.Some?)
    ensures Parse([entry] + FieldsOf(rs)[1..]) == [entry[3..]] + Parse(FieldsOf(rs[1..]))
  {
    var fields := [entry] + FieldsOf(rs)[1..];
    if rs[0].origin.Some? {
      assert fields[2..] == FieldsOf(rs[1..]);
    } else {
      assert fields[1..] == FieldsOf(rs[1..]);
    }
  }

  /** Round trip on the raw listing: exactly the worktree paths, in order, and no name a file moved from. */
  lemma RawListingIsReadBack(rs: seq<Record>)
    requires forall r :: r in rs ==> r.Valid()
    ensures Parse(NonEmpty(Split(Listing(rs)))) == Paths(rs)
  {
    FieldsAreNames(rs);
    SplitTerminated(FieldsOf(rs));
    ParseFields(rs);
  }

  // ---------- The listing its caller strips ----------

  lemma {:induction false} TerminatedEndsInNul(fields: seq<string>)
    requires fields != []
    ensures Terminated(fields) != "" && Terminated(fields)[|Terminated(fields)| - 1] == NUL
  {
    if |fields| > 1 {
      TerminatedEndsInNul(fields[1..]);
    }
  }

  /** Stripping a listing takes the blank of the first status column, and nothing else. */
  lemma StripTakesTheFirstBlank(rs: seq<Record>)
    requires rs != [] && forall r :: r in rs ==> r.Valid() && r.HasLetters()
    ensures Strip(Listing(rs))
         == if rs[0].x == ' ' then Terminated([Entry(rs[0])[1..]] + FieldsOf(rs)[1..]) else Listing(rs)
  {
    assert rs[0] in rs && rs[0].Valid() && rs[0].HasLetters();
    FirstColumn(rs);
    LetterIsNoSpace(rs[0].x);
    LetterIsNoSpace(rs[0].y);
    TerminatedEndsInNul(FieldsOf(rs));
    hide *;
    if !Space(rs[0].y) {
      StripOneBlank(Listing(rs));
    } else {
      NothingToStrip(Listing(rs));
    }
  }

  lemma LetterIsNoSpace(c: char)
    requires c in " MTADRCU?!"
    ensures Space(c) <==> c == ' '
  {}

  lemma NothingToStrip(text: string)
    requires text != "" && !Space(text[0]) && text[|text| - 1] == NUL
    ensures Strip(text) == text
  {}

  lemma StripOneBlank(text: string)
    requires |text| > 1 && !Space(text[1]) && text[|text| - 1] == NUL
    ensures Strip(text) == if Space(text[0]) then text[1..] else text
  {
    if Space(text[0]) {
      assert text[1..][|text| - 2] == NUL;
      NothingToStrip(text[1..]);
    } else {
      NothingToStrip(text);
    }
  }

  lemma TerminatedCons(field: string, rest: seq<string>)
    ensures Terminated([field] + rest) == field + [NUL] + Terminated(rest)
  {
    assert ([field] + rest)[1..] == rest;
  }

  lemma DropFirst(field: string, rest: string)
    requires |field| > 1
    ensures var text := field + [NUL] + rest;
            |text| > 1 && text[0] == field[0] && text[1] == field[1] && text[1..] == field[1..] + [NUL] + rest
  {}

  lemma FirstField(rs: seq<Record>)
    requires rs != []
    ensures FieldsOf(rs) != [] && FieldsOf(rs) == [Entry(rs[0])] + FieldsOf(rs)[1..]
  {}

  /** The listing past its first column is what a shorter first entry would print. */
  lemma FirstColumn(rs: seq<Record>)
    requires rs != []
    ensures var text := Listing(rs);
            && |text| > 1 && text[0] == rs[0].x && text[1] == rs[0].y
            && FieldsOf(rs) != [] && text[1..] == Terminated([Entry(rs[0])[1..]] + FieldsOf(rs)[1..])
  {
    assert Entry(rs[0])[0] == rs[0].x && Entry(rs[0])[1] == rs[0].y;
    assert Listing(rs) == Terminated(FieldsOf(rs));
    hide *;
    FirstField(rs);
    var e, rest := Entry(rs[0]), FieldsOf(rs)[1..];
    TerminatedCons(e, rest);
    TerminatedCons(e[1..], rest);
    DropFirst(e, Terminated(rest));
  }

  /** A name a file moved from, read as an entry by mistake, whose own path part is by chance the path that
      was lost, and which leaves the rest in step or is followed by another such chance. */
  predicate Chance(path: string, origin: string, rest: seq<Record>)
    decreases |rest|
  {
    && |origin| >= 4 && origin[3..] == path
    && (Moved(origin) && rest != [] ==>
          rest[0].origin.Some? && Chance(rest[0].path, rest[0].origin.value, rest[1..]))
  }

  lemma {:induction false} OriginReadAsEntry(path: string, origin: string, rest: seq<Record>)
    requires forall r :: r in rest ==> r.Valid()
    ensures Parse([origin] + FieldsOf(rest)) == [path] + Paths(rest) <==> Chance(path, origin, rest)
    decreases |rest|
  {
    var fields := [origin] + FieldsOf(rest);
    assert fields[1..] == FieldsOf(rest);
    ParseFields(rest);
    if |origin| < 4 {
      assert |Parse(fields)| == |rest|;
    } else if Moved(origin) && rest != [] {
      var after := FieldsOf(rest)[1..];
      assert fields[2..] == after;
      assert Parse(fields) == [origin[3..]] + Parse(after);
      ParseFields(rest[1..]);
      if rest[0].origin.Some? {
        assert after == [rest[0].origin.value] + FieldsOf(rest[1..]);
        OriginReadAsEntry(rest[0].path, rest[0].origin.value, rest[1..]);
        assert Paths(rest) == [rest[0].path] + Paths(rest[1..]);
        SameTails(origin[3..], Parse(after), path, Paths(rest));
      } else {
        assert after == FieldsOf(rest[1..]);
        assert |Parse(fields)| == |rest|;
      }
    } else {
      SameTails(origin[3..], Paths(rest), path, Paths(rest));
      assert Parse(fields) == [origin[3..]] + Parse(FieldsOf(rest));
    }
  }

  lemma SameTails(a: string, s: seq<string>, b: string, t: seq<string>)
    ensures [a] + s == [b] + t <==> a == b && s == t
  {
    assert ([a] + s)[0] == a && ([a] + s)[1..] == s;
    assert ([b] + t)[0] == b && ([b] + t)[1..] == t;
  }

  /** What the caller really reads is right exactly when there is nothing to read, when the first status
      column is set, or when a one-letter first path, lost with its column, is by chance what the name it
      moved from reads as. */
  lemma StrippedListingIsRightExactlyWhen(rs: seq<Record>)
    requires forall r :: r in rs ==> r.Valid() && r.HasLetters()
    ensures Parse(NonEmpty(Split(Strip(Listing(rs))))) == Paths(rs)
            <==> rs == [] || rs[0].x != ' '
                 || (|rs[0].path| == 1 && rs[0].origin.Some? && Chance(rs[0].path, rs[0].origin.value, rs[1..]))
  {
    if rs == [] {
      assert Split("") == [""];
    } else if rs[0].x != ' ' {
      StripTakesTheFirstBlank(rs);
      RawListingIsReadBack(rs);
    } else {
      BlankFirstColumn(rs);
    }
  }

  lemma BlankFirstColumn(rs: seq<Record>)
    requires rs != [] && rs[0].x == ' ' && forall r :: r in rs ==> r.Valid() && r.HasLetters()
    ensures Parse(NonEmpty(Split(Strip(Listing(rs))))) == Paths(rs)
            <==> |rs[0].path| == 1 && rs[0].origin.Some? && Chance(rs[0].path, rs[0].origin.value, rs[1..])
  {
    hide Split, NonEmpty, Strip, Parse, Chance;
    var fields := [Entry(rs[0])[1..]] + FieldsOf(rs)[1..];
    StripTakesTheFirstBlank(rs);
    FieldsAreNames(rs);
    EntryIsName(rs[0]);
    forall f | f in fields ensures IsName(f) {
      if f in FieldsOf(rs)[1..] { assert f in FieldsOf(rs); }
    }
    SplitTerminated(fields);
    ShortEntryParses(rs);
  }

  lemma ShortEntryParses(rs: seq<Record>)
    requires rs != [] && rs[0].x == ' ' && forall r :: r in rs ==> r.Valid()
    ensures FieldsOf(rs) != []
    ensures Parse([Entry(rs[0])[1..]] + FieldsOf(rs)[1..]) == Paths(rs)
            <==> |rs[0].path| == 1 && rs[0].origin.Some? && Chance(rs[0].path, rs[0].origin.value, rs[1..])
  {
    assert rs[0] in rs && rs[0].Valid();
    hide Chance, Parse, FieldsOf, Paths, Entry;
    if |rs[0].path| > 1 {
      LongEntryIsWrong(rs);
    } else {
      ShortEntryIsLost(rs);
    }
  }

  lemma PathsCons(rs: seq<Record>)
    requires rs != []
    ensures Paths(rs) == [rs[0].path] + Paths(rs[1..])
  {}

  lemma LongEntryIsWrong(rs: seq<Record>)
    requires rs != [] && rs[0].x == ' ' && |rs[0].path| > 1 && forall r :: r in rs ==> r.Valid()
    ensures FieldsOf(rs) != [] && Parse([Entry(rs[0])[1..]] + FieldsOf(rs)[1..]) != Paths(rs)
  {
    FirstField(rs);
    PathsCons(rs);
    assert rs[0] in rs;
    LongEntryLosesALetter(rs);
    ParseFields(rs[1..]);
    hide *;
    var own := rs[0].path;
    SameTails(own[1..], Paths(rs[1..]), own, Paths(rs[1..]));
    assert |own[1..]| < |own|;
  }

  lemma ShortEntryIsLost(rs: seq<Record>)
    requires rs != [] && |rs[0].path| == 1 && forall r :: r in rs ==> r.Valid()
    ensures FieldsOf(rs) != []
    ensures Parse([Entry(rs[0])[1..]] + FieldsOf(rs)[1..]) == Paths(rs)
            <==> rs[0].origin.Some? && Chance(rs[0].path, rs[0].origin.value, rs[1..])
  {
    FirstField(rs);
    PathsCons(rs);
    ParseFields(rs[1..]);
    assert |Entry(rs[0])[1..]| < 4;
    var rest := FieldsOf(rs)[1..];
    TooShortIsSkipped(Entry(rs[0])[1..], rest);
    if rs[0].origin.Some? {
      assert rest == [rs[0].origin.value] + FieldsOf(rs[1..]);
      OriginReadAsEntry(rs[0].path, rs[0].origin.value, rs[1..]);
      hide *;
    } else {
      assert rest == FieldsOf(rs[1..]) && |Paths(rs[1..])| < |Paths(rs)|;
      hide *;
    }
  }

  lemma LongEntryLosesALetter(rs: seq<Record>)
    requires rs != [] && rs[0].x == ' ' && |rs[0].path| > 1 && rs[0].Valid()
    ensures Parse([Entry(rs[0])[1..]] + FieldsOf(rs)[1..]) == [rs[0].path[1..]] + Parse(FieldsOf(rs[1..]))
  {
    var entry := Entry(rs[0])[1..];
    assert entry == [rs[0].y, ' '] + rs[0].path;
    assert entry[..2] == [rs[0].y, ' '];
    ParseEntry(entry, rs);
  }

  lemma TooShortIsSkipped(entry: string, rest: seq<string>)
    requires |entry| < 4
    ensures Parse([entry] + rest) == Parse(rest)
  {}
}
