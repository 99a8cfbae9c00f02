/**
 What redaction puts under each key of audit metadata, said without running it (backend/app/audit/redaction.py).
 */
module RedactionLaw {
  import opened Outcomes
  import opened Json
  import opened Redaction

  // ---------- secret keys ----------

  /** The folded text has one of the markers in it and is none of the three counters. */
  ghost predicate TellsSecret(text: string) {
    && text != "prompt_tokens" && text != "completion_tokens" && text != "total_tokens"
    && exists before: string, marker: string, after: string ::
         && text == before + marker + after
         && marker in ["api_key", "authorization", "token", "password", "secret", "cookie", "env", "prompt", "response",
                       "header", "file_content"]
  }

  ghost predicate SecretKey(h: Host, key: string) {
    TellsSecret(h.casefold(key)) || TellsSecret(h.casefold(h.basename(key)))
  }

  lemma {:induction false} PlacedIsContained(before: string, marker: string, after: string)
    ensures Contains(before + marker + after, marker)
  {
    var s := before + marker + after;
    if before == "" {
      assert s == marker + after;
    } else {
      PlacedIsContained(before[1..], marker, after);
      assert s[1..] == before[1..] + marker + after;
    }
  }

  lemma {:induction false} ContainedIsPlaced(s: string, marker: string) returns (before: string, after: string)
    requires Contains(s, marker)
    ensures s == before + marker + after
  {
    if marker <= s {
      before, after := "", s[|marker|..];
    } else {
      before, after := ContainedIsPlaced(s[1..], marker);
      before := [s[0]] + before;
    }
  }

  lemma MarksExactlyWhen(h: Host, key: string)
    ensures MarksSecret(h, key) <==> TellsSecret(h.casefold(key))
  {
    hide Contains;
    var text := h.casefold(key);
    if MarksSecret(h, key) {
      var marker :| marker in SECRET_MARKERS && Contains(text, marker);
      var before, after := ContainedIsPlaced(text, marker);
    }
    if TellsSecret(text) {
      var before: string, marker: string, after: string :|
        && text == before + marker + after
        && marker in ["api_key", "authorization", "token", "password", "secret", "cookie", "env", "prompt", "response",
                      "header", "file_content"];
      PlacedIsContained(before, marker, after);
      assert marker in SECRET_MARKERS;
    }
  }

  lemma SensitiveExactlyWhen(h: Host, key: string)
    ensures Sensitive(h, key) <==> SecretKey(h, key)
  {
    hide MarksSecret, TellsSecret;
    MarksExactlyWhen(h, key);
    MarksExactlyWhen(h, h.basename(key));
  }

  // ---------- texts ----------

  /** The five entities, read back. */
  function Unescape(s: string): string {
    if s == "" then ""
    else if s[0] != '&' then [s[0]] + Unescape(s[1..])
    else if "&amp;" <= s then "&" + Unescape(s[5..])
    else if "&lt;" <= s then "<" + Unescape(s[4..])
    else if "&gt;" <= s then ">" + Unescape(s[4..])
    else if "&quot;" <= s then "\"" + Unescape(s[6..])
    else if "&#x27;" <= s then "'" + Unescape(s[6..])
    else [s[0]] + Unescape(s[1..])
  }

  lemma UnescapesPlain(c: char, rest: string)
    requires c !in ['&', '<', '>', '"', '\'']
    ensures EscapeHtml([c]) == [c] && Unescape([c] + rest) == [c] + Unescape(rest)
  {
    assert EscapeHtml([c][1..]) == "";
    assert ([c] + rest)[0] == c && ([c] + rest)[1..] == rest;
  }

  lemma UnescapesEntity(c: char, rest: string)
    requires c in ['&', '<', '>', '"', '\'']
    ensures Unescape(EscapeHtml([c]) + rest) == [c] + Unescape(rest)
  {
    assert EscapeHtml([c][1..]) == "";
    var piece := EscapeHtml([c]);
    var s := piece + rest;
    assert s[..|piece|] == piece && s[|piece|..] == rest && s[0] == '&' && s[1] == piece[1];
  }

  lemma {:induction false} EscapeAppend(a: string, b: string)
    ensures EscapeHtml(a + b) == EscapeHtml(a) + EscapeHtml(b)
  {
    if a == "" {
      assert a + b == b;
    } else {
      assert (a + b)[0] == a[0] && (a + b)[1..] == a[1..] + b;
      EscapeAppend(a[1..], b);
    }
  }

  lemma {:induction false} EscapeUnescapes(s: string)
    ensures Unescape(EscapeHtml(s)) == s
  {
    hide Unescape, EscapeHtml;
    if s == "" {
      NothingEscaped();
    } else {
      EscapeUnescapes(s[1..]);
      assert s == [s[0]] + s[1..];
      EscapeAppend([s[0]], s[1..]);
      if s[0] in ['&', '<', '>', '"', '\''] {
        UnescapesEntity(s[0], EscapeHtml(s[1..]));
      } else {
        UnescapesPlain(s[0], EscapeHtml(s[1..]));
      }
    }
  }

  lemma NothingEscaped()
    ensures EscapeHtml("") == "" && Unescape("") == ""
  {
  }

  predicate NoMarkup(s: string) {
    '<' !in s && '>' !in s && '"' !in s && '\'' !in s
  }

  lemma EscapedOne(c: char)
    ensures NoMarkup(EscapeHtml([c]))
  {
    assert EscapeHtml([c][1..]) == "";
  }

  /** An escaped text has no markup in it, and tells what it was before. */
  lemma {:induction false} EscapeTells(s: string)
    ensures Unescape(EscapeHtml(s)) == s && NoMarkup(EscapeHtml(s))
  {
    hide Unescape, EscapeHtml;
    EscapeUnescapes(s);
    if s == "" {
      NothingEscaped();
    } else {
      EscapeTells(s[1..]);
      assert s == [s[0]] + s[1..];
      EscapeAppend([s[0]], s[1..]);
      EscapedOne(s[0]);
    }
  }

  /** A clipped text is what its basename looks like escaped, and of that no more than the first 512 characters. */
  lemma ClipIs(h: Host, s: string)
    ensures var shown := EscapeHtml(h.basename(s));
            Clip(h, s) == if |shown| <= 512 then shown else shown[..512]
  {
  }

  // ---------- what is shown under which key ----------

  predicate Admitted(e: Entry, allowed: Option<set<string>>) {
    allowed.None? || e.key in allowed.value
  }

  /** The `i`-th entry is admitted, and this is the key it is shown under. */
  predicate Under(h: Host, es: seq<Entry>, allowed: Option<set<string>>, i: nat, key: string) {
    i < |es| && Admitted(es[i], allowed) && Clip(h, es[i].key) == key
  }

  predicate LastUnder(h: Host, es: seq<Entry>, allowed: Option<set<string>>, i: nat, key: string) {
    i < |es| && Under(h, es, allowed, i, key) && forall j: nat :: i < j < |es| ==> !Under(h, es, allowed, j, key)
  }

  /** What stands for a value found at this depth. */
  ghost predicate Shows(h: Host, v: Raw, depth: nat, x: Json)
    decreases v, 0
  {
    if depth > 5 then x == Str("[TRUNCATED]")
    else match v
      case RawMap(entries) =>
        x.Obj? && ShowsEntries(h, if |entries| <= 50 then entries else entries[..50], None, depth, x.fields)
      case RawList(items) =>
        && x.Arr? && |x.items| == (if |items| <= 20 then |items| else 20)
        && forall i :: 0 <= i < |x.items| ==> Shows(h, items[i], depth + 1, x.items[i])
      case RawText(s) => x == Str(Clip(h, s))
      case RawScalar(y) => x == y
      case RawOther(shown) => x == Str(Clip(h, shown))
  }

  ghost predicate ShowsEntry(h: Host, e: Entry, depth: nat, x: Json)
    decreases e, 1
  {
    if SecretKey(h, e.key) then x == Str("[REDACTED]") else Shows(h, e.value, depth + 1, x)
  }

  /** The field shows the last admitted entry under its key. */
  ghost predicate ComesFrom(h: Host, es: seq<Entry>, allowed: Option<set<string>>, depth: nat, f: Field)
    decreases es, 2
  {
    exists i: nat :: LastUnder(h, es, allowed, i, f.key) && ShowsEntry(h, es[i], depth, f.value)
  }

  /** The first key occurs before the second does. */
  ghost predicate Before(h: Host, es: seq<Entry>, allowed: Option<set<string>>, first: string, second: string) {
    exists i: nat :: Under(h, es, allowed, i, first) && forall j: nat :: j <= i ==> !Under(h, es, allowed, j, second)
  }

  /**
   Each field comes from the last admitted entry shown under its key, each admitted entry's key is there, once, and the
   keys come in the order in which they first occur.
   */
  ghost predicate ShowsEntries(h: Host, es: seq<Entry>, allowed: Option<set<string>>, depth: nat, fields: seq<Field>)
    decreases es, 3
  {
    && Distinct(Keys(fields))
    && (forall p :: 0 <= p < |fields| ==> ComesFrom(h, es, allowed, depth, fields[p]))
    && (forall i: nat :: i < |es| && Admitted(es[i], allowed) ==> Clip(h, es[i].key) in Keys(fields))
    && (forall p, q :: 0 <= p < q < |fields| ==> Before(h, es, allowed, fields[p].key, fields[q].key))
  }

  // ---------- sanitising shows it ----------

  lemma {:induction false} PutAt(fields: seq<Field>, key: string, value: Json) returns (k: nat)
    ensures k <= |fields| && (key !in Keys(fields) <==> k == |fields|)
    ensures k < |fields| ==> fields[k].key == key
    ensures Put(fields, key, value) == fields[..k] + [Field(key, value)] + if k < |fields| then fields[k + 1..] else []
  {
    if fields == [] {
      k := 0;
    } else if fields[0].key == key {
      k := 0;
      assert Keys(fields)[0] == key;
    } else {
      hide Keys;
      k := PutAt(fields[1..], key, value);
      KeysOfTail(fields, key);
      Shifted(fields, k, Field(key, value));
      k := k + 1;
    }
  }

  lemma KeysOfTail(fields: seq<Field>, key: string)
    requires fields != [] && fields[0].key != key
    ensures key in Keys(fields) <==> key in Keys(fields[1..])
  {
    assert Keys(fields) == [fields[0].key] + Keys(fields[1..]);
  }

  lemma Shifted(fields: seq<Field>, k: nat, f: Field)
    requires fields != [] && k <= |fields| - 1
    ensures [fields[0]] + (fields[1..][..k] + [f] + if k < |fields| - 1 then fields[1..][k + 1..] else [])
         == fields[..k + 1] + [f] + if k + 1 < |fields| then fields[k + 2..] else []
  {
    assert fields[..k + 1] == [fields[0]] + fields[1..][..k];
    assert k + 1 < |fields| ==> fields[k + 2..] == fields[1..][k + 1..];
  }

  lemma UnderMore(h: Host, es: seq<Entry>, e: Entry, allowed: Option<set<string>>, i: nat, key: string)
    ensures Under(h, es + [e], allowed, i, key) <==>
            if i < |es| then Under(h, es, allowed, i, key)
            else i == |es| && Admitted(e, allowed) && Clip(h, e.key) == key
  {
  }

  lemma ComesFromMore(h: Host, es: seq<Entry>, e: Entry, allowed: Option<set<string>>, depth: nat, f: Field)
    requires ComesFrom(h, es, allowed, depth, f) && (Admitted(e, allowed) ==> Clip(h, e.key) != f.key)
    ensures ComesFrom(h, es + [e], allowed, depth, f)
  {
    hide Under, ShowsEntry, Clip;
    var i: nat :| LastUnder(h, es, allowed, i, f.key) && ShowsEntry(h, es[i], depth, f.value);
    forall j: nat
      ensures Under(h, es + [e], allowed, j, f.key) ==> Under(h, es, allowed, j, f.key)
      ensures Under(h, es, allowed, j, f.key) ==> j < |es| && Under(h, es + [e], allowed, j, f.key)
    {
      UnderMore(h, es, e, allowed, j, f.key);
      UnderWithin(h, es, allowed, j, f.key);
    }
    assert LastUnder(h, es + [e], allowed, i, f.key) && (es + [e])[i] == es[i];
  }

  lemma UnderWithin(h: Host, es: seq<Entry>, allowed: Option<set<string>>, i: nat, key: string)
    ensures Under(h, es, allowed, i, key) ==> i < |es|
  {
  }

  lemma ComesFromNew(h: Host, es: seq<Entry>, e: Entry, allowed: Option<set<string>>, depth: nat, x: Json)
    requires Admitted(e, allowed) && ShowsEntry(h, e, depth, x)
    ensures ComesFrom(h, es + [e], allowed, depth, Field(Clip(h, e.key), x))
  {
    hide Under, ShowsEntry, Clip;
    var n := |es|;
    UnderMore(h, es, e, allowed, n, Clip(h, e.key));
    assert LastUnder(h, es + [e], allowed, n, Clip(h, e.key)) && (es + [e])[n] == e;
  }

  lemma BeforeMore(h: Host, es: seq<Entry>, e: Entry, allowed: Option<set<string>>, first: string, second: string)
    requires Before(h, es, allowed, first, second)
    ensures Before(h, es + [e], allowed, first, second)
  {
    hide Under;
    var i: nat :| Under(h, es, allowed, i, first) && forall j: nat :: j <= i ==> !Under(h, es, allowed, j, second);
    UnderWithin(h, es, allowed, i, first);
    UnderMore(h, es, e, allowed, i, first);
    forall j: nat | j <= i
      ensures !Under(h, es + [e], allowed, j, second)
    {
      UnderMore(h, es, e, allowed, j, second);
    }
  }

  /** A key that did not occur yet comes after each that did. */
  lemma BeforeNew(h: Host, es: seq<Entry>, e: Entry, allowed: Option<set<string>>, depth: nat, f: Field, second: string)
    requires ComesFrom(h, es, allowed, depth, f) && forall i: nat :: !Under(h, es, allowed, i, second)
    ensures Before(h, es + [e], allowed, f.key, second)
  {
    hide Under, ShowsEntry;
    var i: nat :| LastUnder(h, es, allowed, i, f.key) && ShowsEntry(h, es[i], depth, f.value);
    UnderWithin(h, es, allowed, i, f.key);
    UnderMore(h, es, e, allowed, i, f.key);
    forall j: nat | j <= i
      ensures !Under(h, es + [e], allowed, j, second)
    {
      UnderMore(h, es, e, allowed, j, second);
    }
  }

  lemma {:induction false} PutShows(h: Host, es: seq<Entry>, e: Entry, allowed: Option<set<string>>, depth: nat,
                                    fields: seq<Field>, x: Json)
    requires ShowsEntries(h, es, allowed, depth, fields) && Admitted(e, allowed) && ShowsEntry(h, e, depth, x)
    ensures ShowsEntries(h, es + [e], allowed, depth, Put(fields, Clip(h, e.key), x))
  {
    hide ComesFrom, Before, ShowsEntry, Clip, Put, Distinct, Admitted;
    var key := Clip(h, e.key);
    var k := PutAt(fields, key, x);
    var r := Put(fields, key, x);
    PutField(fields, key, x);
    PutKeys(fields, k, key, x);
    ComesFromNew(h, es, e, allowed, depth, x);
    forall p | 0 <= p < |r|
      ensures ComesFrom(h, es + [e], allowed, depth, r[p])
    {
      if p != k {
        assert r[p] == fields[p];
        DistinctAt(r, p, k);
        ComesFromMore(h, es, e, allowed, depth, fields[p]);
      }
    }
    forall i: nat | i < |es + [e]| && Admitted((es + [e])[i], allowed)
      ensures Clip(h, (es + [e])[i].key) in Keys(r)
    {
      if i < |es| {
        assert (es + [e])[i] == es[i];
      }
    }
    forall p, q | 0 <= p < q < |r|
      ensures Before(h, es + [e], allowed, r[p].key, r[q].key)
    {
      if q < |fields| {
        assert r[p].key == fields[p].key && r[q].key == fields[q].key;
        BeforeMore(h, es, e, allowed, fields[p].key, fields[q].key);
      } else {
        NotYetUnder(h, es, allowed, depth, fields, key);
        BeforeNew(h, es, e, allowed, depth, fields[p], key);
      }
    }
  }

  lemma NotYetUnder(h: Host, es: seq<Entry>, allowed: Option<set<string>>, depth: nat, fields: seq<Field>, key: string)
    requires ShowsEntries(h, es, allowed, depth, fields) && key !in Keys(fields)
    ensures forall i: nat :: !Under(h, es, allowed, i, key)
  {
    hide ComesFrom, Before, Clip, Admitted;
  }

  lemma PutKeys(fields: seq<Field>, k: nat, key: string, x: Json)
    requires k <= |fields| && (k < |fields| ==> fields[k].key == key)
    ensures var r := fields[..k] + [Field(key, x)] + if k < |fields| then fields[k + 1..] else [];
            && |r| == (if k < |fields| then |fields| else |fields| + 1)
            && r[k] == Field(key, x)
            && (forall p :: 0 <= p < |fields| && p != k ==> r[p] == fields[p])
            && key in Keys(r) && (forall s :: s in Keys(fields) ==> s in Keys(r))
  {
    var r := fields[..k] + [Field(key, x)] + if k < |fields| then fields[k + 1..] else [];
    assert Keys(r)[k] == key;
    forall s | s in Keys(fields)
      ensures s in Keys(r)
    {
      var p :| 0 <= p < |fields| && Keys(fields)[p] == s;
      assert Keys(r)[p] == s;
    }
  }

  lemma DistinctAt(fields: seq<Field>, p: nat, q: nat)
    requires Distinct(Keys(fields)) && p < |fields| && q < |fields| && p != q
    ensures fields[p].key != fields[q].key
  {
    assert Keys(fields)[p] == fields[p].key && Keys(fields)[q] == fields[q].key;
  }

  /** An entry that is not admitted changes nothing. */
  lemma {:induction false} SkipShows(h: Host, es: seq<Entry>, e: Entry, allowed: Option<set<string>>, depth: nat,
                                     fields: seq<Field>)
    requires ShowsEntries(h, es, allowed, depth, fields) && !Admitted(e, allowed)
    ensures ShowsEntries(h, es + [e], allowed, depth, fields)
  {
    hide ComesFrom, Before, Clip, Distinct, Admitted;
    forall p | 0 <= p < |fields|
      ensures ComesFrom(h, es + [e], allowed, depth, fields[p])
    {
      ComesFromMore(h, es, e, allowed, depth, fields[p]);
    }
    forall i: nat | i < |es + [e]| && Admitted((es + [e])[i], allowed)
      ensures Clip(h, (es + [e])[i].key) in Keys(fields)
    {
      assert i < |es| && (es + [e])[i] == es[i];
    }
    forall p, q | 0 <= p < q < |fields|
      ensures Before(h, es + [e], allowed, fields[p].key, fields[q].key)
    {
      BeforeMore(h, es, e, allowed, fields[p].key, fields[q].key);
    }
  }

  lemma NothingShown(h: Host, allowed: Option<set<string>>, depth: nat)
    ensures ShowsEntries(h, [], allowed, depth, [])
  {
  }

  /** Sanitising shows every value as said, at every depth. */
  lemma {:induction false} SanitizeShows(h: Host, v: Raw, depth: nat)
    ensures Shows(h, v, depth, Sanitize(h, v, depth))
    decreases v, 0
  {
    hide ShowsEntries, Clip;
    match v
    case RawMap(entries) =>
      if depth <= 5 {
        assert entries[..|entries|] == entries;
        EntriesShow(h, entries, if |entries| <= 50 then |entries| else 50, depth);
      }
    case RawList(items) =>
      if depth <= 5 {
        assert items[..|items|] == items;
        ItemsShow(h, items, if |items| <= 20 then |items| else 20, depth);
      }
    case _ =>
  }

  lemma {:induction false} ItemsShow(h: Host, items: seq<Raw>, n: nat, depth: nat)
    requires n <= |items|
    ensures |SanitizeItems(h, items[..n], depth)| == n
    ensures forall i :: 0 <= i < n ==> Shows(h, items[i], depth + 1, SanitizeItems(h, items[..n], depth)[i])
    decreases items, 1, n
  {
    hide Shows, Sanitize;
    if n > 0 {
      ItemsShow(h, items, n - 1, depth);
      assert items[..n][..n - 1] == items[..n - 1];
      SanitizeShows(h, items[n - 1], depth + 1);
    }
  }

  lemma {:induction false} EntriesShow(h: Host, entries: seq<Entry>, n: nat, depth: nat)
    requires n <= |entries|
    ensures ShowsEntries(h, entries[..n], None, depth, SanitizeEntries(h, entries[..n], depth))
    decreases entries, 1, n
  {
    hide Shows, Sanitize, ShowsEntries, ShowsEntry, EntryValue, Clip, Put;
    if n == 0 {
      assert entries[..n] == [];
      NothingShown(h, None, depth);
    } else {
      var e := entries[n - 1];
      EntriesShow(h, entries, n - 1, depth);
      assert entries[..n] == entries[..n - 1] + [e] && entries[..n][..n - 1] == entries[..n - 1];
      SanitizeShows(h, e.value, depth + 1);
      EntryShows(h, e, depth);
      PutShows(h, entries[..n - 1], e, None, depth, SanitizeEntries(h, entries[..n - 1], depth),
               EntryValue(h, e, depth));
    }
  }

  lemma EntryShows(h: Host, e: Entry, depth: nat)
    requires Shows(h, e.value, depth + 1, Sanitize(h, e.value, depth + 1))
    ensures ShowsEntry(h, e, depth, EntryValue(h, e, depth))
  {
    hide Shows, Sanitize, Sensitive, SecretKey;
    SensitiveExactlyWhen(h, e.key);
  }

  lemma {:induction false} AllowedShow(h: Host, entries: seq<Entry>, allowed: set<string>)
    ensures ShowsEntries(h, entries, Some(allowed), 0, SanitizeEntries(h, Allowed(entries, allowed), 0))
  {
    hide Shows, Sanitize, ShowsEntries, ShowsEntry, EntryValue, Clip, Put;
    if entries == [] {
      NothingShown(h, Some(allowed), 0);
    } else {
      var n := |entries| - 1;
      var e := entries[n];
      AllowedShow(h, entries[..n], allowed);
      assert entries == entries[..n] + [e];
      var kept := Allowed(entries[..n], allowed);
      if e.key in allowed {
        assert (kept + [e])[..|kept|] == kept;
        SanitizeShows(h, e.value, 1);
        EntryShows(h, e, 0);
        PutShows(h, entries[..n], e, Some(allowed), 0, SanitizeEntries(h, kept, 0), EntryValue(h, e, 0));
      } else {
        SkipShows(h, entries[..n], e, Some(allowed), 0, SanitizeEntries(h, kept, 0));
      }
    }
  }

  /**
   Every budget of at least two bytes gives what the allowed entries show, shortened, and as it is when that fits: under
   each key the last allowed entry's value, `[REDACTED]` exactly when its key tells a secret.
   */
  lemma RedactedShows(h: Host, entries: seq<Entry>, allowed: set<string>, maxBytes: int) returns (fields: seq<Field>)
    requires maxBytes >= 2
    ensures ShowsEntries(h, entries, Some(allowed), 0, fields)
    ensures var r := RedactedMetadata(h, entries, allowed, maxBytes);
            && r.Done? && Shortens(r.value, Obj(fields))
            && (EncodedSize(Obj(fields)) <= maxBytes ==> r.value == Obj(fields))
  {
    hide Shows, Sanitize, ShowsEntries, ShowsEntry, EntryValue, Clip, Put, Shortens;
    fields := SanitizeEntries(h, Allowed(entries, allowed), 0);
    AllowedShow(h, entries, allowed);
    RedactedFits(h, entries, allowed, maxBytes);
  }
}
