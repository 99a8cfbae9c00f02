/**
 Bounded redaction of audit metadata (backend/app/audit/redaction.py): a recursive sanitiser followed by a
 loop that shortens the sanitised tree until its JSON text fits a byte budget.
 */
module Redaction {
  import opened Outcomes
  import opened Utf8
  import opened Json
  import opened JsonTree
  import Canonical

  const REDACTED := "[REDACTED]"
  const TRUNCATED := "[TRUNCATED]"
  const MAX_DEPTH := 5
  const MAX_ENTRIES := 50
  const MAX_ITEMS := 20
  const MAX_CHARS := 512

  /** Library text functions the sanitiser calls: path basename of an absolute path, and Unicode case folding. */
  datatype Host = Host(basename: string -> string, casefold: string -> string)

  /** The values the sanitiser tells apart.  A key is known by its `str`, another object by its `str` too. */
  datatype Raw =
    | RawMap(entries: seq<Entry>)
    | RawList(items: seq<Raw>)
    | RawText(s: string)
    | RawScalar(v: Scalar)
    | RawOther(shown: string)

  datatype Entry = Entry(key: string, value: Raw)

  type Scalar = v: Json | IsAtom(v) witness Null

  // ---------- text ----------

  function EscapeHtml(s: string): string {
    if s == "" then ""
    else (match s[0]
          case '&' => "&amp;"
          case '<' => "&lt;"
          case '>' => "&gt;"
          case '"' => "&quot;"
          case '\'' => "&#x27;"
          case c => [c]) + EscapeHtml(s[1..])
  }

  function Clip(h: Host, s: string): (r: string)
    ensures |r| <= MAX_CHARS
  {
    var escaped := EscapeHtml(h.basename(s));
    if |escaped| <= MAX_CHARS then escaped else escaped[..MAX_CHARS]
  }

  predicate Contains(s: string, marker: string) {
    marker <= s || (s != "" && Contains(s[1..], marker))
  }

  predicate MarksSecret(h: Host, key: string) {
    var folded := h.casefold(key);
    && folded !in ["prompt_tokens", "completion_tokens", "total_tokens"]
    && exists marker :: marker in SECRET_MARKERS && Contains(folded, marker)
  }

  const SECRET_MARKERS: seq<string> :=
    ["api_key", "authorization", "token", "password", "secret", "cookie", "env",
     "prompt", "response", "header", "file_content"]

  predicate Sensitive(h: Host, key: string) {
    MarksSecret(h, key) || MarksSecret(h, h.basename(key))
  }

  // ---------- sanitising ----------

  /** `fields[key] = value`: a key that is there keeps its place. */
  function Put(fields: seq<Field>, key: string, value: Json): (r: seq<Field>)
    ensures r != []
  {
    if fields == [] then [Field(key, value)]
    else if fields[0].key == key then [Field(key, value)] + fields[1..]
    else [fields[0]] + Put(fields[1..], key, value)
  }

  function Sanitize(h: Host, v: Raw, depth: nat): Json
    decreases v, 0
  {
    if depth > MAX_DEPTH then Str(TRUNCATED)
    else match v
      case RawMap(entries) =>
        Obj(SanitizeEntries(h, if |entries| <= MAX_ENTRIES then entries else entries[..MAX_ENTRIES], depth))
      case RawList(items) =>
        Arr(SanitizeItems(h, if |items| <= MAX_ITEMS then items else items[..MAX_ITEMS], depth))
      case RawText(s) => Str(Clip(h, s))
      case RawScalar(x) => x
      case RawOther(shown) => Str(Clip(h, shown))
  }

  function SanitizeEntries(h: Host, entries: seq<Entry>, depth: nat): seq<Field>
    decreases entries, 1
  {
    if entries == [] then []
    else
      var last := entries[|entries| - 1];
      Put(SanitizeEntries(h, entries[..|entries| - 1], depth), Clip(h, last.key), EntryValue(h, last, depth))
  }

  function EntryValue(h: Host, e: Entry, depth: nat): Json
    decreases e, 1
  {
    if Sensitive(h, e.key) then Str(REDACTED) else Sanitize(h, e.value, depth + 1)
  }

  function SanitizeItems(h: Host, items: seq<Raw>, depth: nat): (r: seq<Json>)
    ensures |r| == |items|
    decreases items, 1
  {
    if items == [] then []
    else SanitizeItems(h, items[..|items| - 1], depth) + [Sanitize(h, items[|items| - 1], depth + 1)]
  }

  /** The entries whose key is allowed, in order. */
  function Allowed(entries: seq<Entry>, allowed: set<string>): seq<Entry> {
    if entries == [] then []
    else
      var rest := Allowed(entries[..|entries| - 1], allowed);
      var last := entries[|entries| - 1];
      if last.key in allowed then rest + [last] else rest
  }

  // ---------- limits of a sanitised value ----------

  /** At most `room` levels of containers, each container, key and string within its limit, no key twice. */
  predicate Bounded(v: Json, room: nat)
    decreases v, 0
  {
    match v
    case Str(s) => |s| <= MAX_CHARS
    case Arr(items) => room > 0 && |items| <= MAX_ITEMS && forall x :: x in items ==> Bounded(x, room - 1)
    case Obj(fields) =>
      && room > 0
      && |fields| <= MAX_ENTRIES
      && Distinct(Keys(fields))
      && forall f :: f in fields ==> |f.key| <= MAX_CHARS && Bounded(f.value, room - 1)
    case _ => true
  }

  lemma {:induction false} PutField(fields: seq<Field>, key: string, value: Json)
    ensures |fields| <= |Put(fields, key, value)| <= |fields| + 1
    ensures forall f :: f in Put(fields, key, value) ==> f in fields || f == Field(key, value)
    ensures Field(key, value) in Put(fields, key, value)
    ensures forall f :: f in fields && f.key != key ==> f in Put(fields, key, value)
    ensures Distinct(Keys(fields)) ==> Distinct(Keys(Put(fields, key, value)))
  {
    hide Distinct;
    if fields != [] && fields[0].key != key {
      PutField(fields[1..], key, value);
      if Distinct(Keys(fields)) {
        PutAfter(fields, key, value);
      }
    } else if fields != [] {
      assert Keys([Field(key, value)] + fields[1..]) == Keys(fields);
    } else {
      OneDistinct(Field(key, value));
    }
  }

  lemma OneDistinct(f: Field)
    ensures Distinct(Keys([f]))
  {
  }

  /** The first key stays distinct from those that setting another key leaves behind it. */
  lemma PutAfter(fields: seq<Field>, key: string, value: Json)
    requires fields != [] && fields[0].key != key && Distinct(Keys(fields))
    requires forall f :: f in Put(fields[1..], key, value) ==> f in fields[1..] || f == Field(key, value)
    requires Distinct(Keys(fields[1..])) ==> Distinct(Keys(Put(fields[1..], key, value)))
    ensures Distinct(Keys(fields[1..])) && Distinct(Keys([fields[0]] + Put(fields[1..], key, value)))
  {
    hide Put;
    var rest := Put(fields[1..], key, value);
    assert Keys(fields[1..]) == Keys(fields)[1..];
    forall i | 0 <= i < |rest| ensures rest[i].key != fields[0].key {
      assert rest[i] in rest;
      if rest[i] != Field(key, value) {
        var j :| 0 <= j < |fields[1..]| && fields[1..][j] == rest[i];
        assert Keys(fields)[j + 1] == rest[i].key && Keys(fields)[0] == fields[0].key;
      }
    }
    DistinctCons(fields[0], rest);
  }

  lemma DistinctCons(f: Field, fields: seq<Field>)
    requires Distinct(Keys(fields))
    requires forall i :: 0 <= i < |fields| ==> fields[i].key != f.key
    ensures Distinct(Keys([f] + fields))
  {
    assert Keys([f] + fields) == [f.key] + Keys(fields);
  }

  /** Whatever the input, a sanitised value is at most five containers deep and within every limit. */
  lemma {:induction false} SanitizeBounds(h: Host, v: Raw, depth: nat)
    requires depth <= MAX_DEPTH + 1
    ensures Bounded(Sanitize(h, v, depth), MAX_DEPTH + 1 - depth)
    decreases v, 0
  {
    match v
    case RawMap(entries) =>
      if depth <= MAX_DEPTH {
        assert entries[..|entries|] == entries;
        EntriesBounds(h, entries, if |entries| <= MAX_ENTRIES then |entries| else MAX_ENTRIES, depth);
      }
    case RawList(items) =>
      if depth <= MAX_DEPTH {
        assert items[..|items|] == items;
        ItemsBounds(h, items, if |items| <= MAX_ITEMS then |items| else MAX_ITEMS, depth);
      }
    case _ =>
  }

  lemma NoneDistinct()
    ensures Distinct(Keys([]))
  {
  }

  lemma EntryValueBounded(h: Host, e: Entry, depth: nat, room: nat)
    requires Bounded(Sanitize(h, e.value, depth + 1), room)
    ensures Bounded(EntryValue(h, e, depth), room) && |Clip(h, e.key)| <= MAX_CHARS
  {
    hide Sanitize;
  }

  lemma {:induction false} EntriesBounds(h: Host, entries: seq<Entry>, n: nat, depth: nat)
    requires n <= |entries| && depth <= MAX_DEPTH
    ensures var fields := SanitizeEntries(h, entries[..n], depth);
            && |fields| <= n
            && Distinct(Keys(fields))
            && forall f :: f in fields ==> |f.key| <= MAX_CHARS && Bounded(f.value, MAX_DEPTH - depth)
    decreases entries, 1, n
  {
    hide Bounded, Sanitize, EntryValue, Clip, Put, Distinct;
    if n == 0 {
      assert entries[..n] == [];
      NoneDistinct();
    } else {
      EntriesBounds(h, entries, n - 1, depth);
      assert entries[..n][..n - 1] == entries[..n - 1];
      var e := entries[n - 1];
      SanitizeBounds(h, e.value, depth + 1);
      EntryValueBounded(h, e, depth, MAX_DEPTH - depth);
      PutField(SanitizeEntries(h, entries[..n - 1], depth), Clip(h, e.key), EntryValue(h, e, depth));
    }
  }

  lemma {:induction false} ItemsBounds(h: Host, items: seq<Raw>, n: nat, depth: nat)
    requires n <= |items| && depth <= MAX_DEPTH
    ensures forall x :: x in SanitizeItems(h, items[..n], depth) ==> Bounded(x, MAX_DEPTH - depth)
    decreases items, 1, n
  {
    if n > 0 {
      ItemsBounds(h, items, n - 1, depth);
      assert items[..n][..n - 1] == items[..n - 1];
      SanitizeBounds(h, items[n - 1], depth + 1);
    }
  }

  // ---------- strings that may still be cut ----------

  predicate Marker(s: string) {
    s == REDACTED || s == TRUNCATED
  }

  predicate Cuttable(v: Json) {
    v.Str? && v.s != "" && !Marker(v.s)
  }

  datatype Location = Location(path: Path, text: string)

  function Under(i: nat, ls: seq<Location>): (r: seq<Location>)
    ensures |r| == |ls|
    ensures forall k :: 0 <= k < |r| ==> r[k] == ls[k].(path := [i] + ls[k].path)
  {
    seq(|ls|, k requires 0 <= k < |ls| => ls[k].(path := [i] + ls[k].path))
  }

  /** Every cuttable string with its path, in the order a reader meets them. */
  function Locations(v: Json): seq<Location>
    decreases v, 0
  {
    match v
    case Str(s) => if Cuttable(v) then [Location([], s)] else []
    case Arr(items) => ItemLocations(items)
    case Obj(fields) => FieldLocations(fields)
    case _ => []
  }

  function ItemLocations(items: seq<Json>): seq<Location>
    decreases items, 1
  {
    if items == [] then []
    else ItemLocations(items[..|items| - 1]) + Under(|items| - 1, Locations(items[|items| - 1]))
  }

  function FieldLocations(fields: seq<Field>): seq<Location>
    decreases fields, 1
  {
    if fields == [] then []
    else FieldLocations(fields[..|fields| - 1]) + Under(|fields| - 1, Locations(fields[|fields| - 1].value))
  }

  /** No string is left to cut. */
  predicate Spent(v: Json) {
    match v
    case Arr(items) => forall x :: x in items ==> Spent(x)
    case Obj(fields) => forall f :: f in fields ==> Spent(f.value)
    case _ => !Cuttable(v)
  }

  predicate Locates(v: Json, l: Location) {
    At(v, l.path) == Some(Str(l.text)) && Cuttable(Str(l.text))
  }

  lemma {:induction false} LocationLocates(v: Json, l: Location)
    requires l in Locations(v)
    ensures Locates(v, l)
    decreases v, 0
  {
    match v
    case Arr(items) => ItemLocationLocates(items, l);
    case Obj(fields) => FieldLocationLocates(fields, l);
    case _ =>
  }

  lemma UnderMember(i: nat, ls: seq<Location>, l: Location)
    requires l in Under(i, ls)
    ensures l.path != [] && l.path[0] == i && l.(path := l.path[1..]) in ls
  {
    var k :| 0 <= k < |ls| && Under(i, ls)[k] == l;
    assert l.path[1..] == ls[k].path;
    assert l.(path := l.path[1..]) == ls[k];
  }

  lemma {:induction false} ItemLocationLocates(items: seq<Json>, l: Location)
    requires l in ItemLocations(items)
    ensures l.path != [] && l.path[0] < |items|
    ensures Locates(items[l.path[0]], l.(path := l.path[1..]))
    decreases items, 1
  {
    var n := |items| - 1;
    if l in ItemLocations(items[..n]) {
      ItemLocationLocates(items[..n], l);
    } else {
      UnderMember(n, Locations(items[n]), l);
      LocationLocates(items[n], l.(path := l.path[1..]));
    }
  }

  lemma {:induction false} FieldLocationLocates(fields: seq<Field>, l: Location)
    requires l in FieldLocations(fields)
    ensures l.path != [] && l.path[0] < |fields|
    ensures Locates(fields[l.path[0]].value, l.(path := l.path[1..]))
    decreases fields, 1
  {
    var n := |fields| - 1;
    if l in FieldLocations(fields[..n]) {
      FieldLocationLocates(fields[..n], l);
    } else {
      UnderMember(n, Locations(fields[n].value), l);
      LocationLocates(fields[n].value, l.(path := l.path[1..]));
    }
  }

  lemma {:induction false} LocationsOrSpent(v: Json)
    ensures Locations(v) == [] <==> Spent(v)
    decreases v, 0
  {
    match v
    case Arr(items) => ItemLocationsOrSpent(items);
    case Obj(fields) => FieldLocationsOrSpent(fields);
    case _ =>
  }

  lemma SpentItems(items: seq<Json>)
    requires items != []
    ensures Spent(Arr(items)) <==> Spent(Arr(items[..|items| - 1])) && Spent(items[|items| - 1])
  {
    var n := |items| - 1;
    assert items[n] in items && items == items[..n] + [items[n]];
  }

  lemma {:induction false} ItemLocationsOrSpent(items: seq<Json>)
    ensures ItemLocations(items) == [] <==> Spent(Arr(items))
    decreases items, 1
  {
    if items != [] {
      var n := |items| - 1;
      hide Locations, Spent;
      LocationsOrSpent(items[n]);
      ItemLocationsOrSpent(items[..n]);
      SpentItems(items);
    }
  }

  lemma SpentFields(fields: seq<Field>)
    requires fields != []
    ensures Spent(Obj(fields)) <==> Spent(Obj(fields[..|fields| - 1])) && Spent(fields[|fields| - 1].value)
  {
    var n := |fields| - 1;
    assert fields[n] in fields && fields == fields[..n] + [fields[n]];
  }

  lemma {:induction false} FieldLocationsOrSpent(fields: seq<Field>)
    ensures FieldLocations(fields) == [] <==> Spent(Obj(fields))
    decreases fields, 1
  {
    if fields != [] {
      var n := |fields| - 1;
      hide Locations, Spent;
      LocationsOrSpent(fields[n].value);
      FieldLocationsOrSpent(fields[..n]);
      SpentFields(fields);
    }
  }

  // ---------- one turn of the loop ----------

  predicate LongestAt(ls: seq<Location>, r: Location, i: nat) {
    && i < |ls| && ls[i] == r
    && (forall j :: 0 <= j < |ls| ==> |Encode(ls[j].text)| <= |Encode(r.text)|)
    && (forall j :: 0 <= j < i ==> |Encode(ls[j].text)| < |Encode(r.text)|)
  }

  /** None has more bytes, and none before it as many. */
  ghost predicate IsFirstLongest(ls: seq<Location>, r: Location) {
    exists i: nat :: LongestAt(ls, r, i)
  }

  lemma OneIsLongest(ls: seq<Location>)
    requires |ls| == 1
    ensures IsFirstLongest(ls, ls[0])
  {
    assert LongestAt(ls, ls[0], 0);
  }

  lemma LongestOfMore(ls: seq<Location>, best: Location)
    requires |ls| > 1 && IsFirstLongest(ls[..|ls| - 1], best)
    ensures best in ls
    ensures var last := ls[|ls| - 1];
            IsFirstLongest(ls, if |Encode(last.text)| > |Encode(best.text)| then last else best)
  {
    hide Encode;
    var n := |ls| - 1;
    var i: nat :| LongestAt(ls[..n], best, i);
    assert forall j :: 0 <= j < n ==> ls[..n][j] == ls[j];
    if |Encode(ls[n].text)| > |Encode(best.text)| {
      assert LongestAt(ls, ls[n], n);
    } else {
      assert LongestAt(ls, best, i);
    }
  }

  /** The first of the longest, as Python's `max` with a key picks it. */
  function Longest(ls: seq<Location>): (r: Location)
    requires ls != []
    ensures r in ls && IsFirstLongest(ls, r)
  {
    if |ls| == 1 then
      OneIsLongest(ls);
      ls[0]
    else
      var n := |ls| - 1;
      var best := Longest(ls[..n]);
      LongestOfMore(ls, best);
      if |Encode(ls[n].text)| > |Encode(best.text)| then ls[n] else best
  }

  /** The first half of a string's bytes, whole characters only. */
  function Halved(s: string): string {
    var encoded := Encode(s);
    DecodeIgnore(encoded[..|encoded| / 2])
  }

  lemma HalvedShortens(s: string)
    ensures Halved(s) <= s
    ensures s != "" ==> |Encode(Halved(s))| < |Encode(s)|
    ensures var n := |Encode(Halved(s))|;
            n <= |Encode(s)| / 2 && (Halved(s) < s ==> n + |EncodeChar(s[|Halved(s)|])| > |Encode(s)| / 2)
  {
    DecodeCut(s, |Encode(s)| / 2);
    assert s != "" ==> |Encode(s)| >= |EncodeChar(s[0])|;
  }

  function EncodedSize(v: Json): nat {
    |Canonical.Bytes(v)|
  }

  /** Cut the longest string, or drop one entry when none is left to cut.  None: nothing to do either way. */
  function Turn(v: Json): (r: Option<Json>) {
    var strings := Locations(v);
    if strings != [] then
      var l := Longest(strings);
      LocationLocates(v, l);
      Some(ReplaceAt(v, l.path, Halved(l.text)))
    else RemoveLast(v)
  }

  /** Each turn lowers the pair of node count and string bytes, in that order of importance. */
  lemma TurnProgress(v: Json)
    ensures Turn(v).Some? <==> Nodes(v) > 1 || !Spent(v)
    ensures Turn(v).Some? && !Spent(v) ==> Nodes(Turn(v).value) == Nodes(v) && Weight(Turn(v).value) < Weight(v)
    ensures Turn(v).Some? && Spent(v) ==> Nodes(Turn(v).value) == Nodes(v) - 1
  {
    LocationsOrSpent(v);
    if Spent(v) {
      RemoveLastNodes(v);
    } else {
      var l := Longest(Locations(v));
      LocationLocates(v, l);
      HalvedShortens(l.text);
      ReplaceAtSizes(v, l.path, Halved(l.text));
    }
  }

  function Shrink(v: Json, maxBytes: nat): Json
    decreases Nodes(v), Weight(v)
  {
    if EncodedSize(v) <= maxBytes then v
    else
      TurnProgress(v);
      match Turn(v)
      case Some(v') => Shrink(v', maxBytes)
      case None => Obj([])
  }

  // ---------- the loop ends within the budget ----------

  lemma NoFields(fields: seq<Field>)
    ensures FieldNodes(fields) == 0 ==> fields == []
  {
  }

  lemma EmptyObjectSize(v: Json)
    requires v.Obj? && Nodes(v) == 1
    ensures EncodedSize(v) == 2
  {
    NoFields(v.fields);
    assert Canonical.Canon(v) == Obj([]);
    assert Canonical.Dumps(v) == "{" + "}" + "" == ['{', '}'];
    assert ['{', '}'][1..] == ['}'] && ['}'][1..] == "";
    assert Encode("") == [];
    assert Encode(['}']) == EncodeChar('}') + Encode(['}'][1..]);
    assert Encode(['{', '}']) == EncodeChar('{') + Encode(['}']);
  }

  /** The `return {}` after a failed removal is never reached for a dictionary. */
  lemma FallbackUnreachable(v: Json, maxBytes: nat)
    requires v.Obj? && maxBytes >= 2 && EncodedSize(v) > maxBytes
    ensures Turn(v).Some? && Turn(v).value.Obj?
  {
    TurnProgress(v);
    if Nodes(v) == 1 {
      EmptyObjectSize(v);
    }
    LocationsOrSpent(v);
    if !Spent(v) {
      LocationLocates(v, Longest(Locations(v)));
    }
  }

  // ---------- what the loop keeps ----------

  /**
   `a` is `b` with strings cut to a prefix and trailing entries dropped.  Markers are kept whole, so nothing
   that was replaced by one can come back in part.
   */
  predicate Shortens(a: Json, b: Json)
    decreases b, 0
  {
    match b
    case Str(s) => a.Str? && a.s <= s && (s == "[REDACTED]" || s == "[TRUNCATED]" ==> a.s == s)
    case Arr(items) => a.Arr? && ItemsShorten(a.items, items)
    case Obj(fields) => a.Obj? && FieldsShorten(a.fields, fields)
    case _ => a == b
  }

  predicate ItemsShorten(xs: seq<Json>, ys: seq<Json>)
    decreases ys, 1
  {
    |xs| <= |ys| && forall i :: 0 <= i < |xs| ==> Shortens(xs[i], ys[i])
  }

  predicate FieldsShorten(fs: seq<Field>, gs: seq<Field>)
    decreases gs, 1
  {
    |fs| <= |gs| && forall i :: 0 <= i < |fs| ==> FieldShortens(fs[i], gs[i])
  }

  predicate FieldShortens(f: Field, g: Field)
    decreases g, 1
  {
    f.key == g.key && Shortens(f.value, g.value)
  }

  lemma {:induction false} ShortensReflexive(v: Json)
    ensures Shortens(v, v)
    decreases v
  {
    match v
    case Arr(items) =>
      forall i | 0 <= i < |items| ensures Shortens(items[i], items[i]) {
        ShortensReflexive(items[i]);
      }
    case Obj(fields) =>
      forall i | 0 <= i < |fields| ensures FieldShortens(fields[i], fields[i]) {
        ShortensReflexive(fields[i].value);
      }
    case _ =>
  }

  lemma {:induction false} ShortensTransitive(a: Json, b: Json, c: Json)
    requires Shortens(a, b) && Shortens(b, c)
    ensures Shortens(a, c)
    decreases c
  {
    match c
    case Arr(items) =>
      forall i | 0 <= i < |a.items| ensures Shortens(a.items[i], items[i]) {
        ShortensTransitive(a.items[i], b.items[i], items[i]);
      }
    case Obj(fields) =>
      forall i | 0 <= i < |a.fields| ensures FieldShortens(a.fields[i], fields[i]) {
        assert FieldShortens(a.fields[i], b.fields[i]) && FieldShortens(b.fields[i], fields[i]);
        ShortensTransitive(a.fields[i].value, b.fields[i].value, fields[i].value);
      }
    case _ =>
  }

  /** Shortening never makes two keys of a dictionary collide, so a position keeps naming one entry. */
  lemma {:induction false} ShortensWellFormed(a: Json, b: Json)
    requires Shortens(a, b) && WellFormed(b)
    ensures WellFormed(a)
    decreases b
  {
    match b
    case Arr(items) =>
      forall x | x in a.items ensures WellFormed(x) {
        var i :| 0 <= i < |a.items| && a.items[i] == x;
        ShortensWellFormed(x, items[i]);
      }
    case Obj(fields) =>
      forall f | f in a.fields ensures WellFormed(f.value) {
        var i :| 0 <= i < |a.fields| && a.fields[i] == f;
        assert FieldShortens(f, fields[i]);
        ShortensWellFormed(f.value, fields[i].value);
      }
      assert Keys(a.fields) == Keys(fields)[..|a.fields|] by {
        assert forall i :: 0 <= i < |a.fields| ==> FieldShortens(a.fields[i], fields[i]);
      }
    case _ =>
  }

  lemma {:induction false} ReplaceAtShortens(v: Json, path: Path, s: string)
    requires At(v, path).Some? && Shortens(Str(s), At(v, path).value)
    ensures Shortens(ReplaceAt(v, path, s), v)
    decreases path
  {
    if path != [] {
      match v
      case Arr(items) =>
        ReplaceAtShortens(items[path[0]], path[1..], s);
        forall i | 0 <= i < |items| ensures Shortens(items[i], items[i]) {
          ShortensReflexive(items[i]);
        }
      case Obj(fields) =>
        ReplaceAtShortens(fields[path[0]].value, path[1..], s);
        forall i | 0 <= i < |fields| ensures FieldShortens(fields[i], fields[i]) {
          ShortensReflexive(fields[i].value);
        }
    }
  }

  lemma {:induction false} RemoveLastShortens(v: Json)
    requires RemoveLast(v).Some?
    ensures Shortens(RemoveLast(v).value, v)
    ensures Spent(v) ==> Spent(RemoveLast(v).value)
    decreases v, 0
  {
    ShortensReflexive(v);
    match v
    case Arr(items) =>
      RemoveInItemsShortens(items);
    case Obj(fields) =>
      RemoveInFieldsShortens(fields);
  }

  lemma {:induction false} RemoveInItemsShortens(items: seq<Json>)
    ensures RemoveInItems(items).Some? ==>
              && ItemsShorten(RemoveInItems(items).value, items)
              && (Spent(Arr(items)) ==> Spent(Arr(RemoveInItems(items).value)))
    decreases items, 1
  {
    if items != [] {
      var n := |items| - 1;
      ShortensReflexive(Arr(items));
      RemoveInItemsShortens(items[..n]);
      assert Spent(Arr(items)) ==> Spent(Arr(items[..n])) && Spent(items[n]);
      if RemoveLast(items[n]).Some? {
        RemoveLastShortens(items[n]);
      }
    }
  }

  lemma {:induction false} RemoveInFieldsShortens(fields: seq<Field>)
    ensures RemoveInFields(fields).Some? ==>
              && FieldsShorten(RemoveInFields(fields).value, fields)
              && (Spent(Obj(fields)) ==> Spent(Obj(RemoveInFields(fields).value)))
    decreases fields, 1
  {
    if fields != [] {
      var n := |fields| - 1;
      ShortensReflexive(Obj(fields));
      RemoveInFieldsShortens(fields[..n]);
      assert Spent(Obj(fields)) ==> Spent(Obj(fields[..n])) && Spent(fields[n].value);
      if RemoveLast(fields[n].value).Some? {
        RemoveLastShortens(fields[n].value);
      }
    }
  }

  lemma TurnShortens(v: Json)
    requires Turn(v).Some?
    ensures Shortens(Turn(v).value, v)
    ensures Spent(v) ==> Spent(Turn(v).value)
  {
    LocationsOrSpent(v);
    if Spent(v) {
      RemoveLastShortens(v);
    } else {
      var l := Longest(Locations(v));
      LocationLocates(v, l);
      HalvedShortens(l.text);
      ReplaceAtShortens(v, l.path, Halved(l.text));
    }
  }

  /**
   The loop ends with a tree that fits.  That tree is the given one shortened, it is the given one untouched if
   that already fitted, and entries are dropped only once every string is empty or a marker.
   */
  lemma {:induction false} ShrinkFits(v: Json, maxBytes: nat)
    requires v.Obj? && maxBytes >= 2
    ensures EncodedSize(Shrink(v, maxBytes)) <= maxBytes
    ensures Shrink(v, maxBytes).Obj?
    ensures Shortens(Shrink(v, maxBytes), v)
    ensures EncodedSize(v) <= maxBytes ==> Shrink(v, maxBytes) == v
    ensures Nodes(Shrink(v, maxBytes)) < Nodes(v) ==> Spent(Shrink(v, maxBytes))
    ensures Spent(v) ==> Spent(Shrink(v, maxBytes))
    decreases Nodes(v), Weight(v)
  {
    if EncodedSize(v) <= maxBytes {
      ShortensReflexive(v);
    } else {
      FallbackUnreachable(v, maxBytes);
      TurnProgress(v);
      TurnShortens(v);
      var v' := Turn(v).value;
      ShrinkFits(v', maxBytes);
      ShortensTransitive(Shrink(v', maxBytes), v', v);
    }
  }

  // ---------- redact_metadata ----------

  datatype Redacted = Done(value: Json) | BudgetTooSmall

  function RedactedMetadata(h: Host, entries: seq<Entry>, allowed: set<string>, maxBytes: int): Redacted {
    if maxBytes < 2 then BudgetTooSmall
    else Done(Shrink(Obj(SanitizeEntries(h, Allowed(entries, allowed), 0)), maxBytes))
  }

  method RedactMetadata(h: Host, entries: seq<Entry>, allowed: set<string>, maxBytes: int)
    returns (r: Redacted)
    ensures r == RedactedMetadata(h, entries, allowed, maxBytes)
  {
    if maxBytes < 2 {
      return BudgetTooSmall;
    }
    var fields: seq<Field> := [];
    for i := 0 to |entries|
      invariant fields == SanitizeEntries(h, Allowed(entries[..i], allowed), 0)
    {
      var e := entries[i];
      assert entries[..i + 1][..i] == entries[..i];
      if e.key in allowed {
        var kept := Allowed(entries[..i], allowed);
        assert (kept + [e])[..|kept|] == kept;
        fields := Put(fields, Clip(h, e.key), if Sensitive(h, e.key) then Str(REDACTED) else Sanitize(h, e.value, 1));
      }
    }
    assert entries[..|entries|] == entries;
    var result := Obj(fields);
    while EncodedSize(result) > maxBytes
      invariant Shrink(Obj(fields), maxBytes) == Shrink(result, maxBytes)
      decreases Nodes(result), Weight(result)
    {
      TurnProgress(result);
      var strings := Locations(result);
      if strings != [] {
        var longest := Longest(strings);
        LocationLocates(result, longest);
        result := ReplaceAt(result, longest.path, Halved(longest.text));
      } else {
        match RemoveLast(result) {
          case Some(shorter) => result := shorter;
          case None => return Done(Obj([]));
        }
      }
    }
    return Done(result);
  }

  // ---------- secrets do not influence the result ----------

  /** `v` and `w` differ at most in what is stored under sensitive keys, at any depth. */
  predicate SameButSecrets(h: Host, v: Raw, w: Raw)
    decreases v, 0
  {
    match (v, w)
    case (RawMap(es), RawMap(fs)) => EntriesSameButSecrets(h, es, fs)
    case (RawList(xs), RawList(ys)) =>
      |xs| == |ys| && forall i :: 0 <= i < |xs| ==> SameButSecrets(h, xs[i], ys[i])
    case _ => v == w
  }

  predicate EntriesSameButSecrets(h: Host, es: seq<Entry>, fs: seq<Entry>)
    decreases es, 1
  {
    |es| == |fs| && forall i :: 0 <= i < |es| ==> EntrySameButSecret(h, es[i], fs[i])
  }

  predicate EntrySameButSecret(h: Host, e: Entry, f: Entry)
    decreases e, 1
  {
    e.key == f.key && (Sensitive(h, e.key) || SameButSecrets(h, e.value, f.value))
  }

  lemma {:induction false} SanitizeHidesSecrets(h: Host, v: Raw, w: Raw, depth: nat)
    requires SameButSecrets(h, v, w)
    ensures Sanitize(h, v, depth) == Sanitize(h, w, depth)
    decreases v, 0
  {
    match (v, w)
    case (RawMap(es), RawMap(fs)) =>
      var n := if |es| <= MAX_ENTRIES then |es| else MAX_ENTRIES;
      assert es[..|es|] == es && fs[..|fs|] == fs;
      EntriesHideSecrets(h, es, fs, n, depth);
    case (RawList(xs), RawList(ys)) =>
      var n := if |xs| <= MAX_ITEMS then |xs| else MAX_ITEMS;
      assert xs[..|xs|] == xs && ys[..|ys|] == ys;
      ItemsHideSecrets(h, xs, ys, n, depth);
    case _ =>
  }

  lemma {:induction false} EntriesHideSecrets(h: Host, es: seq<Entry>, fs: seq<Entry>, n: nat, depth: nat)
    requires EntriesSameButSecrets(h, es, fs) && n <= |es|
    ensures SanitizeEntries(h, es[..n], depth) == SanitizeEntries(h, fs[..n], depth)
    decreases es, 1, n
  {
    hide MarksSecret, Put, Clip;
    if n > 0 {
      EntriesHideSecrets(h, es, fs, n - 1, depth);
      assert es[..n][..n - 1] == es[..n - 1] && fs[..n][..n - 1] == fs[..n - 1];
      assert EntrySameButSecret(h, es[n - 1], fs[n - 1]);
      if !Sensitive(h, es[n - 1].key) {
        SanitizeHidesSecrets(h, es[n - 1].value, fs[n - 1].value, depth + 1);
      }
    }
  }

  lemma {:induction false} ItemsHideSecrets(h: Host, xs: seq<Raw>, ys: seq<Raw>, n: nat, depth: nat)
    requires |xs| == |ys| && n <= |xs|
    requires forall i :: 0 <= i < |xs| ==> SameButSecrets(h, xs[i], ys[i])
    ensures SanitizeItems(h, xs[..n], depth) == SanitizeItems(h, ys[..n], depth)
    decreases xs, 1, n
  {
    hide Sanitize, SameButSecrets;
    if n > 0 {
      ItemsHideSecrets(h, xs, ys, n - 1, depth);
      assert xs[..n][..n - 1] == xs[..n - 1] && ys[..n][..n - 1] == ys[..n - 1];
      SanitizeHidesSecrets(h, xs[n - 1], ys[n - 1], depth + 1);
    }
  }

  lemma EntryKeySame(h: Host, e: Entry, f: Entry)
    requires EntrySameButSecret(h, e, f)
    ensures e.key == f.key
  {
  }

  lemma {:induction false} AllowedHidesSecrets(h: Host, es: seq<Entry>, fs: seq<Entry>, allowed: set<string>)
    requires EntriesSameButSecrets(h, es, fs)
    ensures EntriesSameButSecrets(h, Allowed(es, allowed), Allowed(fs, allowed))
  {
    hide EntrySameButSecret;
    if es != [] {
      var n := |es| - 1;
      EntryKeySame(h, es[n], fs[n]);
      AllowedHidesSecrets(h, es[..n], fs[..n], allowed);
    }
  }

  /**
   Non-interference: inputs that differ only under sensitive keys give the same result, through sanitising,
   clipping and every turn of the loop.
   */
  lemma RedactionHidesSecrets(h: Host, es: seq<Entry>, fs: seq<Entry>, allowed: set<string>, maxBytes: int)
    requires EntriesSameButSecrets(h, es, fs)
    ensures RedactedMetadata(h, es, allowed, maxBytes) == RedactedMetadata(h, fs, allowed, maxBytes)
  {
    var kept, kept' := Allowed(es, allowed), Allowed(fs, allowed);
    AllowedHidesSecrets(h, es, fs, allowed);
    EntriesHideSecrets(h, kept, kept', |kept|, 0);
    assert kept[..|kept|] == kept && kept'[..|kept'|] == kept';
  }

  /** Any budget of at least two bytes is met, and by the sanitised metadata, shortened. */
  lemma RedactedFits(h: Host, entries: seq<Entry>, allowed: set<string>, maxBytes: int)
    requires maxBytes >= 2
    ensures var r := RedactedMetadata(h, entries, allowed, maxBytes);
            && r.Done? && r.value.Obj?
            && EncodedSize(r.value) <= maxBytes
            && Shortens(r.value, Obj(SanitizeEntries(h, Allowed(entries, allowed), 0)))
  {
    ShrinkFits(Obj(SanitizeEntries(h, Allowed(entries, allowed), 0)), maxBytes);
  }
}
