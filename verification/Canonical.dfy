/**
 Canonical bytes: the sorted-key text of a value, encoded as UTF-8.  Every digest of the platform is taken
 over these bytes, so what matters is exactly which values share them.
 */
module Canonical {
  import opened Outcomes
  import opened Utf8
  import opened Json

  // ---------- code-point order of strings ----------

  predicate Less(a: string, b: string) {
    if b == "" then false
    else if a == "" then true
    else if a[0] != b[0] then a[0] < b[0]
    else Less(a[1..], b[1..])
  }

  lemma {:induction false} LessTransitive(a: string, b: string, c: string)
    requires Less(a, b) && Less(b, c)
    ensures Less(a, c)
  {
    if a != "" && a[0] == b[0] == c[0] {
      LessTransitive(a[1..], b[1..], c[1..]);
    }
  }

  lemma {:induction false} LessTotal(a: string, b: string)
    ensures a != b ==> Less(a, b) || Less(b, a)
    ensures Less(a, b) ==> a != b && !Less(b, a)
  {
    if a != "" && b != "" && a[0] == b[0] {
      LessTotal(a[1..], b[1..]);
      assert a == [a[0]] + a[1..] && b == [b[0]] + b[1..];
    }
  }

  /** Sorted by key, each key once. */
  predicate Sorted(fields: seq<Field>) {
    forall i, j :: 0 <= i < j < |fields| ==> Less(fields[i].key, fields[j].key)
  }

  // ---------- sorting the keys of every dictionary ----------

  function Insert(f: Field, fields: seq<Field>): seq<Field> {
    if fields == [] || !Less(fields[0].key, f.key) then [f] + fields
    else [fields[0]] + Insert(f, fields[1..])
  }

  function Sort(fields: seq<Field>): seq<Field> {
    if fields == [] then [] else Insert(fields[0], Sort(fields[1..]))
  }

  function Canon(v: Json): Json
    decreases v, 0
  {
    match v
    case Arr(items) => Arr(CanonItems(items))
    case Obj(fields) => Obj(Sort(CanonFields(fields)))
    case _ => v
  }

  function CanonItems(items: seq<Json>): (r: seq<Json>)
    ensures |r| == |items| && forall i :: 0 <= i < |r| ==> r[i] == Canon(items[i])
    decreases items, 1
  {
    if items == [] then [] else [Canon(items[0])] + CanonItems(items[1..])
  }

  function CanonFields(fields: seq<Field>): (r: seq<Field>)
    ensures |r| == |fields|
    ensures forall i :: 0 <= i < |r| ==> r[i] == Field(fields[i].key, Canon(fields[i].value))
    decreases fields, 1
  {
    if fields == [] then []
    else [Field(fields[0].key, Canon(fields[0].value))] + CanonFields(fields[1..])
  }

  /** `json.dumps(v, ensure_ascii=False, sort_keys=True, separators=(",", ":"))` */
  function Dumps(v: Json): string {
    Print(Canon(v))
  }

  function Bytes(v: Json): seq<byte> {
    Encode(Dumps(v))
  }

  /** Equality of Python values: dictionaries are equal when they hold equal values under the same keys. */
  predicate DictEq(v: Json, w: Json)
    decreases v, 0
  {
    match (v, w)
    case (Arr(xs), Arr(ys)) => |xs| == |ys| && forall i :: 0 <= i < |xs| ==> DictEq(xs[i], ys[i])
    case (Obj(fs), Obj(gs)) =>
      && (forall f :: f in fs ==> exists g :: g in gs && FieldEq(f, g))
      && (forall g :: g in gs ==> exists f :: f in fs && FieldEq(f, g))
    case _ => v == w
  }

  predicate FieldEq(f: Field, g: Field)
    decreases f, 1
  {
    f.key == g.key && DictEq(f.value, g.value)
  }

  // ---------- sorting keeps the fields and orders them ----------

  lemma {:induction false} InsertFields(f: Field, fields: seq<Field>)
    ensures forall g :: g in Insert(f, fields) <==> g == f || g in fields
    ensures Sorted(fields) && (forall g :: g in fields ==> g.key != f.key) ==> Sorted(Insert(f, fields))
  {
    if fields != [] && Less(fields[0].key, f.key) {
      InsertFields(f, fields[1..]);
      if Sorted(fields) && (forall g :: g in fields ==> g.key != f.key) {
        SortedCons(fields[0], Insert(f, fields[1..]));
      }
    } else if fields != [] {
      if Sorted(fields) && (forall g :: g in fields ==> g.key != f.key) {
        assert fields[0] in fields;
        LessTotal(f.key, fields[0].key);
        forall g | g in fields ensures Less(f.key, g.key) {
          if g != fields[0] {
            LessTransitive(f.key, fields[0].key, g.key);
          }
        }
        SortedCons(f, fields);
      }
    }
  }

  lemma SortedCons(f: Field, fields: seq<Field>)
    requires Sorted(fields)
    requires forall g :: g in fields ==> Less(f.key, g.key)
    ensures Sorted([f] + fields)
  {
    var all := [f] + fields;
    forall i, j | 0 <= i < j < |all| ensures Less(all[i].key, all[j].key) {
      assert all[j] == fields[j - 1];
    }
  }

  lemma {:induction false} SortFields(fields: seq<Field>)
    ensures forall f :: f in Sort(fields) <==> f in fields
    ensures Distinct(Keys(fields)) ==> Sorted(Sort(fields))
  {
    if fields != [] {
      SortFields(fields[1..]);
      InsertFields(fields[0], Sort(fields[1..]));
      if Distinct(Keys(fields)) {
        assert forall i :: 0 <= i < |fields| ==> Keys(fields)[i] == fields[i].key;
        assert Keys(fields[1..]) == Keys(fields)[1..];
      }
    }
  }

  /** Two sorted lists with the same fields are the same list. */
  lemma {:induction false} SortedUnique(fs: seq<Field>, gs: seq<Field>)
    requires Sorted(fs) && Sorted(gs)
    requires forall f :: f in fs <==> f in gs
    ensures fs == gs
  {
    if fs == [] {
      HasMember(gs);
    } else {
      assert fs[0] in gs && gs[0] in fs by { assert fs[0] in fs; assert gs != []; assert gs[0] in gs; }
      LessTotal(fs[0].key, gs[0].key);
      assert fs[0] == gs[0];
      forall f ensures f in fs[1..] <==> f in gs[1..] {
        TailMembers(fs, f);
        TailMembers(gs, f);
      }
      SortedUnique(fs[1..], gs[1..]);
    }
  }

  lemma HasMember(fs: seq<Field>)
    ensures fs == [] || exists f :: f in fs
  {
    if fs != [] {
      assert fs[0] in fs;
    }
  }

  lemma TailMembers(fs: seq<Field>, f: Field)
    requires fs != [] && Sorted(fs)
    ensures f in fs[1..] <==> f in fs && f != fs[0]
  {
    if f in fs[1..] {
      var i :| 1 <= i < |fs| && fs[i] == f;
      LessTotal(fs[0].key, fs[i].key);
    }
  }

  // ---------- canonical forms decide equality ----------

  /** The canonical form of a value is shared by exactly the values Python calls equal to it. */
  lemma {:induction false} CanonDecidesEquality(v: Json, w: Json)
    requires WellFormed(v) && WellFormed(w)
    ensures Canon(v) == Canon(w) <==> DictEq(v, w)
    decreases v
  {
    match (v, w) {
      case (Arr(xs), Arr(ys)) =>
        if |xs| == |ys| {
          forall i | 0 <= i < |xs| ensures Canon(xs[i]) == Canon(ys[i]) <==> DictEq(xs[i], ys[i]) {
            CanonDecidesEquality(xs[i], ys[i]);
          }
          if DictEq(v, w) {
            assert CanonItems(xs) == CanonItems(ys);
          }
          if Canon(v) == Canon(w) {
            assert forall i :: 0 <= i < |xs| ==> CanonItems(xs)[i] == CanonItems(ys)[i];
          }
        }
      case (Obj(fs), Obj(gs)) =>
        forall f, g | f in fs && g in gs ensures CanonField(f) == CanonField(g) <==> FieldEq(f, g) {
          CanonDecidesEquality(f.value, g.value);
        }
        CanonFieldsDecideEquality(fs, gs);
      case _ =>
    }
  }

  function CanonField(f: Field): Field {
    Field(f.key, Canon(f.value))
  }

  lemma CanonFieldsMembers(fields: seq<Field>)
    ensures forall f :: f in fields ==> CanonField(f) in CanonFields(fields)
    ensures forall c :: c in CanonFields(fields) ==> exists f :: f in fields && c == CanonField(f)
    ensures Keys(CanonFields(fields)) == Keys(fields)
  {
    var r := CanonFields(fields);
    forall f | f in fields ensures CanonField(f) in r {
      var i :| 0 <= i < |fields| && fields[i] == f;
      assert r[i] == CanonField(f);
    }
    forall c | c in r ensures exists f :: f in fields && c == CanonField(f) {
      var i :| 0 <= i < |r| && r[i] == c;
      assert fields[i] in fields && c == CanonField(fields[i]);
    }
  }

  predicate Matched(fs: seq<Field>, gs: seq<Field>) {
    && (forall f :: f in fs ==> exists g :: g in gs && CanonField(f) == CanonField(g))
    && (forall g :: g in gs ==> exists f :: f in fs && CanonField(f) == CanonField(g))
  }

  lemma SortDecidesMatched(fs: seq<Field>, gs: seq<Field>)
    requires Distinct(Keys(fs)) && Distinct(Keys(gs))
    ensures Sort(CanonFields(fs)) == Sort(CanonFields(gs)) <==> Matched(fs, gs)
  {
    CanonFieldsMembers(fs);
    CanonFieldsMembers(gs);
    SortFields(CanonFields(fs));
    SortFields(CanonFields(gs));
    if Matched(fs, gs) {
      SortedUnique(Sort(CanonFields(fs)), Sort(CanonFields(gs)));
    }
    if Sort(CanonFields(fs)) == Sort(CanonFields(gs)) {
      forall f | f in fs ensures exists g :: g in gs && CanonField(f) == CanonField(g) {
        assert CanonField(f) in Sort(CanonFields(gs));
        assert CanonField(f) in CanonFields(gs);
      }
      forall g | g in gs ensures exists f :: f in fs && CanonField(f) == CanonField(g) {
        assert CanonField(g) in Sort(CanonFields(fs));
        assert CanonField(g) in CanonFields(fs);
      }
    }
  }

  lemma CanonFieldsDecideEquality(fs: seq<Field>, gs: seq<Field>)
    requires Distinct(Keys(fs)) && Distinct(Keys(gs))
    requires forall f, g :: f in fs && g in gs ==> (CanonField(f) == CanonField(g) <==> FieldEq(f, g))
    ensures Sort(CanonFields(fs)) == Sort(CanonFields(gs)) <==> DictEq(Obj(fs), Obj(gs))
  {
    hide Sort, CanonFields, CanonField, FieldEq;
    SortDecidesMatched(fs, gs);
  }

  /** Two values have the same canonical bytes exactly when Python calls them equal. */
  lemma BytesDecideEquality(v: Json, w: Json)
    requires WellFormed(v) && WellFormed(w)
    ensures Bytes(v) == Bytes(w) <==> DictEq(v, w)
  {
    CanonDecidesEquality(v, w);
    if Bytes(v) == Bytes(w) {
      EncodeInjective(Dumps(v), Dumps(w));
      ParsePrint(Canon(v));
      ParsePrint(Canon(w));
    }
  }

  /** Parsing canonical text gives back an equal value. */
  lemma ParseDumps(v: Json)
    ensures Parse(Dumps(v)) == Some(Canon(v))
  {
    ParsePrint(Canon(v));
  }
}
