/** Redaction of nested error details before they are shown. */
module Redaction {

  const MASK := "***"
  const MAX_DETAIL_LEN := 500
  const TRUNCATED := "... (truncated)"

  /** Details: text, a dictionary in insertion order, a list, or anything else. */
  datatype Value = Str(s: string) | Dict(items: seq<Entry>) | List(elems: seq<Value>) | Atom(id: int)

  datatype Entry = Entry(key: string, value: Value)

  /** Which names are sensitive, and what becomes of a URL's credentials. */
  datatype Rules = Rules(sensitive: string -> bool, redactUrl: string -> string)

  predicate LooksLikeUrl(text: string) {
    |text| >= 3 && (text[..3] == "://" || LooksLikeUrl(text[1..]))
  }

  function RedactValue(r: Rules, key: string, v: Value): Value
    decreases v, 1
  {
    if r.sensitive(key) then
      match v
      case Str(s) => Str(if LooksLikeUrl(s) then r.redactUrl(s) else MASK)
      case Dict(items) => Dict(Blanked(items))
      case List(elems) => List(RedactElems(r, key, elems))
      case Atom(_) => Str(MASK)
    else
      match v
      case Str(s) => Str(if LooksLikeUrl(s) then r.redactUrl(s) else s)
      case Dict(items) => Dict(RedactItems(r, items))
      case List(elems) => List(RedactElems(r, key, elems))
      case Atom(_) => v
  }

  function RedactElems(r: Rules, key: string, elems: seq<Value>): (out: seq<Value>)
    ensures |out| == |elems|
    decreases elems, 0
  {
    if elems == [] then [] else [RedactValue(r, key, elems[0])] + RedactElems(r, key, elems[1..])
  }

  /** Under a sensitive name a whole dictionary is blanked, keys kept. */
  function Blanked(items: seq<Entry>): (out: seq<Entry>)
    ensures |out| == |items|
  {
    if items == [] then [] else [Entry(items[0].key, Str(MASK))] + Blanked(items[1..])
  }

  function Shortened(v: Value): Value {
    if v.Str? && |v.s| > MAX_DETAIL_LEN then Str(v.s[..MAX_DETAIL_LEN] + TRUNCATED) else v
  }

  function RedactItems(r: Rules, items: seq<Entry>): (out: seq<Entry>)
    ensures |out| == |items|
    decreases items, 0
  {
    if items == [] then []
    else [Entry(items[0].key, Shortened(RedactValue(r, items[0].key, items[0].value)))] + RedactItems(r, items[1..])
  }

  /** The loop over the entries of one dictionary. */
  method RedactDetails(r: Rules, details: seq<Entry>) returns (redacted: seq<Entry>)
    ensures redacted == RedactItems(r, details)
  {
    hide RedactItems, RedactValue;
    redacted := [];
    assert details[0..] == details;
    for i := 0 to |details|
      invariant redacted + RedactItems(r, details[i..]) == RedactItems(r, details)
    {
      var v := RedactValue(r, details[i].key, details[i].value);
      if v.Str? && |v.s| > MAX_DETAIL_LEN {
        v := Str(v.s[..MAX_DETAIL_LEN] + TRUNCATED);
      }
      RedactNext(r, details, i);
      redacted := redacted + [Entry(details[i].key, v)];
    }
    RedactNone(r, details);
  }

  lemma RedactNext(r: Rules, details: seq<Entry>, i: nat)
    requires i < |details|
    ensures RedactItems(r, details[i..])
         == [Entry(details[i].key, Shortened(RedactValue(r, details[i].key, details[i].value)))]
            + RedactItems(r, details[i + 1..])
  {
    hide RedactValue;
    assert details[i..][1..] == details[i + 1..];
  }

  lemma RedactNone(r: Rules, details: seq<Entry>)
    ensures RedactItems(r, details[|details|..]) == []
  {}

  // ---------- What redaction hides ----------

  /** A leaf a sensitive name hides altogether. */
  predicate HiddenLeaf(v: Value) {
    v.Atom? || (v.Str? && !LooksLikeUrl(v.s))
  }

  /** Two trees of one shape that differ only where a sensitive name hides it: at leaves that are no URLs,
      and anywhere inside a dictionary under such a name. */
  predicate Alike(r: Rules, key: string, v: Value, w: Value)
    decreases v, 1
  {
    if v.List? && w.List? then AlikeElems(r, key, v.elems, w.elems)
    else if r.sensitive(key) then
      v == w || (HiddenLeaf(v) && HiddenLeaf(w)) || (v.Dict? && w.Dict? && SameKeys(v.items, w.items))
    else if v.Dict? && w.Dict? then AlikeItems(r, v.items, w.items)
    else v == w
  }

  predicate AlikeElems(r: Rules, key: string, vs: seq<Value>, ws: seq<Value>)
    decreases vs, 0
  {
    |vs| == |ws|
    && (vs == [] || (Alike(r, key, vs[0], ws[0]) && AlikeElems(r, key, vs[1..], ws[1..])))
  }

  predicate AlikeItems(r: Rules, vs: seq<Entry>, ws: seq<Entry>)
    decreases vs, 0
  {
    |vs| == |ws|
    && (vs == [] || (&& vs[0].key == ws[0].key && Alike(r, vs[0].key, vs[0].value, ws[0].value)
                     && AlikeItems(r, vs[1..], ws[1..])))
  }

  predicate SameKeys(vs: seq<Entry>, ws: seq<Entry>) {
    |vs| == |ws| && forall i :: 0 <= i < |vs| ==> vs[i].key == ws[i].key
  }

  /** What is shown does not depend on what is hidden, at any depth and for any notion of a sensitive
      name. */
  lemma {:induction false} HiddenDataNeverShows(r: Rules, key: string, v: Value, w: Value)
    requires Alike(r, key, v, w)
    ensures RedactValue(r, key, v) == RedactValue(r, key, w)
    decreases v, 1
  {
    if v.List? && w.List? {
      ElemsNeverShow(r, key, v.elems, w.elems);
    } else if r.sensitive(key) {
      if v.Dict? && w.Dict? && v != w {
        BlankedAlike(v.items, w.items);
      }
    } else if v.Dict? && w.Dict? {
      ItemsNeverShow(r, v.items, w.items);
    }
  }

  lemma {:induction false} ElemsNeverShow(r: Rules, key: string, vs: seq<Value>, ws: seq<Value>)
    requires AlikeElems(r, key, vs, ws)
    ensures RedactElems(r, key, vs) == RedactElems(r, key, ws)
    decreases vs, 0
  {
    if vs != [] {
      HiddenDataNeverShows(r, key, vs[0], ws[0]);
      ElemsNeverShow(r, key, vs[1..], ws[1..]);
    }
  }

  lemma {:induction false} ItemsNeverShow(r: Rules, vs: seq<Entry>, ws: seq<Entry>)
    requires AlikeItems(r, vs, ws)
    ensures RedactItems(r, vs) == RedactItems(r, ws)
    decreases vs, 0
  {
    if vs != [] {
      HiddenDataNeverShows(r, vs[0].key, vs[0].value, ws[0].value);
      ItemsNeverShow(r, vs[1..], ws[1..]);
    }
  }

  lemma {:induction false} BlankedAlike(vs: seq<Entry>, ws: seq<Entry>)
    requires SameKeys(vs, ws)
    ensures Blanked(vs) == Blanked(ws)
  {
    if vs != [] {
      BlankedAlike(vs[1..], ws[1..]);
    }
  }

  // ---------- What redaction keeps ----------

  /** Nothing under a sensitive name: every key on every path from the root is an ordinary one, and no
      text looks like a URL or is long. */
  predicate Plain(r: Rules, v: Value)
    decreases v, 1
  {
    match v
    case Str(s) => !LooksLikeUrl(s) && |s| <= MAX_DETAIL_LEN
    case Atom(_) => true
    case List(elems) => PlainElems(r, elems)
    case Dict(items) => PlainItems(r, items)
  }

  predicate PlainElems(r: Rules, elems: seq<Value>)
    decreases elems, 0
  {
    elems == [] || (Plain(r, elems[0]) && PlainElems(r, elems[1..]))
  }

  predicate PlainItems(r: Rules, items: seq<Entry>)
    decreases items, 0
  {
    items == [] || (!r.sensitive(items[0].key) && Plain(r, items[0].value) && PlainItems(r, items[1..]))
  }

  /** Details with nothing to hide come out as they went in. */
  lemma {:induction false} PlainIsUntouched(r: Rules, key: string, v: Value)
    requires Plain(r, v) && !r.sensitive(key)
    ensures RedactValue(r, key, v) == v
    decreases v, 1
  {
    match v
    case List(elems) => PlainElemsUntouched(r, key, elems);
    case Dict(items) => PlainItemsUntouched(r, items);
    case _ =>
  }

  lemma {:induction false} PlainElemsUntouched(r: Rules, key: string, elems: seq<Value>)
    requires PlainElems(r, elems) && !r.sensitive(key)
    ensures RedactElems(r, key, elems) == elems
    decreases elems, 0
  {
    if elems != [] {
      PlainIsUntouched(r, key, elems[0]);
      PlainElemsUntouched(r, key, elems[1..]);
    }
  }

  lemma {:induction false} PlainItemsUntouched(r: Rules, items: seq<Entry>)
    requires PlainItems(r, items)
    ensures RedactItems(r, items) == items
    decreases items, 0
  {
    if items != [] {
      PlainIsUntouched(r, items[0].key, items[0].value);
      PlainItemsUntouched(r, items[1..]);
    }
  }

  /** Shape and keys survive: entry by entry the same keys, in the same order. */
  lemma {:induction false} KeysSurvive(r: Rules, items: seq<Entry>)
    ensures SameKeys(items, RedactItems(r, items)) && SameKeys(items, Blanked(items))
  {
    if items != [] {
      KeysSurvive(r, items[1..]);
    }
  }
}
