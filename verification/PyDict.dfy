/** Reading Python dictionaries that are kept as JSON objects, and when two of them are equal. */
module PyDict {
  import opened Outcomes
  import opened Json
  import opened Canonical

  type Dict = v: Json | v.Obj? && WellFormed(v) witness Obj([])

  function Lookup(fields: seq<Field>, key: string): Option<Json> {
    if fields == [] then None
    else if fields[0].key == key then Some(fields[0].value)
    else Lookup(fields[1..], key)
  }

  /** `v.get(key)` of a dictionary; a value that is no dictionary has nothing under any key. */
  function Get(v: Json, key: string): Option<Json> {
    if v.Obj? then Lookup(v.fields, key) else None
  }

  /** `v.get(key, default)` */
  function GetOr(v: Json, key: string, default: Json): Json {
    match Get(v, key)
    case Some(x) => x
    case None => default
  }

  function TextArray(ss: seq<string>): Json {
    Arr(seq(|ss|, i requires 0 <= i < |ss| => Str(ss[i])))
  }

  function OptionText(o: Option<string>): Json {
    match o
    case Some(s) => Str(s)
    case None => Null
  }

  function ZipFields(keys: seq<string>, values: seq<Json>): (r: seq<Field>)
    requires |keys| == |values|
    ensures |r| == |keys| && Keys(r) == keys
    ensures forall i :: 0 <= i < |r| ==> r[i] == Field(keys[i], values[i])
  {
    seq(|keys|, i requires 0 <= i < |keys| => Field(keys[i], values[i]))
  }

  /** The dictionary with these keys and values, in order. */
  function Zip(keys: seq<string>, values: seq<Json>): (r: Dict)
    requires |keys| == |values| && Distinct(keys)
    requires forall i :: 0 <= i < |values| ==> WellFormed(values[i])
    ensures r.fields == ZipFields(keys, values)
  {
    var fields := ZipFields(keys, values);
    assert forall f :: f in fields ==> WellFormed(f.value);
    Obj(fields)
  }

  lemma DistinctAppend(a: seq<string>, b: seq<string>)
    requires Distinct(a) && Distinct(b)
    requires forall i, j :: 0 <= i < |a| && 0 <= j < |b| ==> a[i] != b[j]
    ensures Distinct(a + b)
  {
  }

  lemma ZipGets(keys: seq<string>, values: seq<Json>)
    requires |keys| == |values| && Distinct(keys)
    requires forall i :: 0 <= i < |values| ==> WellFormed(values[i])
    ensures forall i :: 0 <= i < |keys| ==> Get(Zip(keys, values), keys[i]) == Some(values[i])
  {
    var fields := Zip(keys, values).fields;
    LookupAll(fields);
    forall i | 0 <= i < |keys| ensures Get(Zip(keys, values), keys[i]) == Some(values[i]) {
      assert fields[i] == Field(keys[i], values[i]);
    }
  }

  lemma TextArrayWellFormed(ss: seq<string>)
    ensures WellFormed(TextArray(ss))
  {
  }

  lemma {:induction false} LookupAt(fields: seq<Field>, i: nat)
    requires Distinct(Keys(fields)) && i < |fields|
    ensures Lookup(fields, fields[i].key) == Some(fields[i].value)
  {
    assert Keys(fields)[0] == fields[0].key && Keys(fields)[i] == fields[i].key;
    if i > 0 {
      assert Keys(fields[1..]) == Keys(fields)[1..];
      LookupAt(fields[1..], i - 1);
    }
  }

  /** In a dictionary without repeated keys every entry is what its key looks up. */
  lemma LookupAll(fields: seq<Field>)
    requires Distinct(Keys(fields))
    ensures forall i :: 0 <= i < |fields| ==> Lookup(fields, fields[i].key) == Some(fields[i].value)
  {
    forall i | 0 <= i < |fields| ensures Lookup(fields, fields[i].key) == Some(fields[i].value) {
      LookupAt(fields, i);
    }
  }

  lemma {:induction false} LookupMissing(fields: seq<Field>, key: string)
    requires forall i :: 0 <= i < |fields| ==> fields[i].key != key
    ensures Lookup(fields, key) == None
  {
    if fields != [] {
      LookupMissing(fields[1..], key);
    }
  }

  /** A dictionary without repeated keys looks up the same however its entries are ordered. */
  lemma LookupPermuted(fs: seq<Field>, gs: seq<Field>, key: string)
    requires Distinct(Keys(fs)) && Distinct(Keys(gs))
    requires forall f :: f in fs <==> f in gs
    ensures Lookup(fs, key) == Lookup(gs, key)
  {
    if i :| 0 <= i < |fs| && fs[i].key == key {
      assert fs[i] in gs;
      var j :| 0 <= j < |gs| && gs[j] == fs[i];
      LookupAt(fs, i);
      LookupAt(gs, j);
    } else {
      forall j | 0 <= j < |gs| ensures gs[j].key != key {
        assert gs[j] in fs;
      }
      LookupMissing(fs, key);
      LookupMissing(gs, key);
    }
  }

  lemma {:induction false} LookupAppend(fs: seq<Field>, gs: seq<Field>, key: string)
    ensures Lookup(fs + gs, key) == if Lookup(fs, key).Some? then Lookup(fs, key) else Lookup(gs, key)
  {
    if fs == [] {
      assert fs + gs == gs;
    } else {
      assert (fs + gs)[1..] == fs[1..] + gs;
      LookupAppend(fs[1..], gs, key);
    }
  }

  lemma {:induction false} DictEqReflexive(v: Json)
    ensures DictEq(v, v)
    decreases v
  {
    match v
    case Arr(items) =>
      forall i | 0 <= i < |items| ensures DictEq(items[i], items[i]) {
        DictEqReflexive(items[i]);
      }
    case Obj(fields) =>
      forall f | f in fields ensures FieldEq(f, f) {
        DictEqReflexive(f.value);
      }
    case _ =>
  }

  /** Entry by entry, the same keys with equal values. */
  predicate FieldsEq(fs: seq<Field>, gs: seq<Field>) {
    |fs| == |gs| && forall i :: 0 <= i < |fs| ==> FieldEq(fs[i], gs[i])
  }

  lemma FieldsEqReflexive(fs: seq<Field>)
    ensures FieldsEq(fs, fs)
  {
    forall i | 0 <= i < |fs| ensures FieldEq(fs[i], fs[i]) {
      DictEqReflexive(fs[i].value);
    }
  }

  lemma FieldsEqAppend(fs: seq<Field>, fs': seq<Field>, gs: seq<Field>, gs': seq<Field>)
    requires FieldsEq(fs, fs') && FieldsEq(gs, gs')
    ensures FieldsEq(fs + gs, fs' + gs')
  {
  }

  lemma FieldsEqMembers(fs: seq<Field>, gs: seq<Field>)
    requires FieldsEq(fs, gs)
    ensures forall f :: f in fs ==> exists g :: g in gs && FieldEq(f, g)
    ensures forall g :: g in gs ==> exists f :: f in fs && FieldEq(f, g)
  {
    forall f | f in fs ensures exists g :: g in gs && FieldEq(f, g) {
      var i :| 0 <= i < |fs| && fs[i] == f;
      assert gs[i] in gs;
    }
    forall g | g in gs ensures exists f :: f in fs && FieldEq(f, g) {
      var i :| 0 <= i < |gs| && gs[i] == g;
      assert fs[i] in fs;
    }
  }

  /** The order in which two groups of keys were written does not matter. */
  lemma DictEqSwapped(fs: seq<Field>, fs': seq<Field>, gs: seq<Field>, gs': seq<Field>)
    requires FieldsEq(fs, fs') && FieldsEq(gs, gs')
    ensures DictEq(Obj(fs + gs), Obj(gs' + fs'))
  {
    FieldsEqMembers(fs, fs');
    FieldsEqMembers(gs, gs');
    assert forall f :: f in fs + gs <==> f in fs || f in gs;
    assert forall f :: f in gs' + fs' <==> f in fs' || f in gs';
  }

  lemma SameFieldsEqual(fs: seq<Field>, gs: seq<Field>)
    requires forall f :: f in fs <==> f in gs
    ensures DictEq(Obj(fs), Obj(gs))
  {
    forall f | f in fs ensures FieldEq(f, f) {
      DictEqReflexive(f.value);
    }
  }

  predicate WellFormedFields(fs: seq<Field>) {
    Distinct(Keys(fs)) && forall i :: 0 <= i < |fs| ==> WellFormed(fs[i].value)
  }

  lemma WellFormedObject(fs: seq<Field>)
    requires WellFormedFields(fs)
    ensures WellFormed(Obj(fs))
  {
  }

  lemma WellFormedAppend(fs: seq<Field>, gs: seq<Field>)
    requires WellFormedFields(fs) && WellFormedFields(gs)
    requires forall i, j :: 0 <= i < |fs| && 0 <= j < |gs| ==> fs[i].key != gs[j].key
    ensures WellFormedFields(fs + gs) && WellFormedFields(gs + fs)
  {
    assert Keys(fs + gs) == Keys(fs) + Keys(gs) && Keys(gs + fs) == Keys(gs) + Keys(fs);
    forall i, j | 0 <= i < |fs| && 0 <= j < |gs| ensures Keys(fs)[i] != Keys(gs)[j] {
      assert fs[i].key != gs[j].key;
    }
    DistinctAppend(Keys(fs), Keys(gs));
    DistinctAppend(Keys(gs), Keys(fs));
  }
}
