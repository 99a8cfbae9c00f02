/**
 A JSON value as a tree: paths to its strings, what changing one string or dropping one entry does to its
 size, and the relation "this tree is that one, shortened".

 The keys of one dictionary are distinct, so a step of a path is the position of an entry in dictionaries and
 lists alike.
 */
module JsonTree {
  import opened Outcomes
  import opened Utf8
  import opened Json

  // ---------- sizes ----------

  /** Values in the tree, the root included. */
  function Nodes(v: Json): (n: nat)
    ensures n >= 1
    decreases v, 0
  {
    match v
    case Arr(items) => 1 + ItemNodes(items)
    case Obj(fields) => 1 + FieldNodes(fields)
    case _ => 1
  }

  function ItemNodes(items: seq<Json>): nat
    decreases items, 1
  {
    if items == [] then 0 else ItemNodes(items[..|items| - 1]) + Nodes(items[|items| - 1])
  }

  function FieldNodes(fields: seq<Field>): nat
    decreases fields, 1
  {
    if fields == [] then 0 else FieldNodes(fields[..|fields| - 1]) + Nodes(fields[|fields| - 1].value)
  }

  /** UTF-8 bytes of all string values together. */
  function Weight(v: Json): nat
    decreases v, 0
  {
    match v
    case Str(s) => |Encode(s)|
    case Arr(items) => ItemWeight(items)
    case Obj(fields) => FieldWeight(fields)
    case _ => 0
  }

  function ItemWeight(items: seq<Json>): nat
    decreases items, 1
  {
    if items == [] then 0 else ItemWeight(items[..|items| - 1]) + Weight(items[|items| - 1])
  }

  function FieldWeight(fields: seq<Field>): nat
    decreases fields, 1
  {
    if fields == [] then 0 else FieldWeight(fields[..|fields| - 1]) + Weight(fields[|fields| - 1].value)
  }

  lemma {:induction false} UpdateItem(items: seq<Json>, i: nat, x: Json)
    requires i < |items|
    ensures ItemNodes(items[i := x]) == ItemNodes(items) - Nodes(items[i]) + Nodes(x)
    ensures ItemWeight(items[i := x]) == ItemWeight(items) - Weight(items[i]) + Weight(x)
  {
    var n := |items| - 1;
    if i < n {
      UpdateItem(items[..n], i, x);
      assert items[i := x][..n] == items[..n][i := x];
    } else {
      assert items[i := x][..n] == items[..n];
    }
  }

  lemma {:induction false} UpdateField(fields: seq<Field>, i: nat, x: Json)
    requires i < |fields|
    ensures FieldNodes(fields[i := fields[i].(value := x)])
         == FieldNodes(fields) - Nodes(fields[i].value) + Nodes(x)
    ensures FieldWeight(fields[i := fields[i].(value := x)])
         == FieldWeight(fields) - Weight(fields[i].value) + Weight(x)
  {
    var n := |fields| - 1;
    var changed := fields[i := fields[i].(value := x)];
    if i < n {
      UpdateField(fields[..n], i, x);
      assert changed[..n] == fields[..n][i := fields[i].(value := x)];
    } else {
      assert changed[..n] == fields[..n];
    }
  }

  // ---------- paths ----------

  type Path = seq<nat>

  /** The value at the end of a path. */
  function At(v: Json, path: Path): Option<Json> {
    if path == [] then Some(v)
    else match v
      case Arr(items) => if path[0] < |items| then At(items[path[0]], path[1..]) else None
      case Obj(fields) => if path[0] < |fields| then At(fields[path[0]].value, path[1..]) else None
      case _ => None
  }

  /** The tree with the value at the end of `path` replaced by a string. */
  function ReplaceAt(v: Json, path: Path, s: string): Json
    requires At(v, path).Some?
  {
    if path == [] then Str(s)
    else match v
      case Arr(items) => Arr(items[path[0] := ReplaceAt(items[path[0]], path[1..], s)])
      case Obj(fields) =>
        var f := fields[path[0]];
        Obj(fields[path[0] := f.(value := ReplaceAt(f.value, path[1..], s))])
  }

  lemma {:induction false} ReplaceAtSizes(v: Json, path: Path, s: string)
    requires At(v, path).Some?
    ensures Nodes(At(v, path).value) == 1 ==> Nodes(ReplaceAt(v, path, s)) == Nodes(v)
    ensures Weight(ReplaceAt(v, path, s)) == Weight(v) - Weight(At(v, path).value) + |Encode(s)|
    ensures At(ReplaceAt(v, path, s), path) == Some(Str(s))
    decreases path
  {
    if path != [] {
      match v
      case Arr(items) =>
        ReplaceAtSizes(items[path[0]], path[1..], s);
        UpdateItem(items, path[0], ReplaceAt(items[path[0]], path[1..], s));
      case Obj(fields) =>
        ReplaceAtSizes(fields[path[0]].value, path[1..], s);
        UpdateField(fields, path[0], ReplaceAt(fields[path[0]].value, path[1..], s));
    }
  }

  /** Any path that does not pass through or end at the replaced value leads where it led before. */
  lemma {:induction false} ReplaceAtElsewhere(v: Json, path: Path, s: string, other: Path)
    requires At(v, path).Some? && !(path <= other) && !(other <= path)
    ensures At(ReplaceAt(v, path, s), other) == At(v, other)
    decreases path
  {
    if path[0] == other[0] {
      assert path == [path[0]] + path[1..] && other == [other[0]] + other[1..];
      match v
      case Arr(items) => ReplaceAtElsewhere(items[path[0]], path[1..], s, other[1..]);
      case Obj(fields) => ReplaceAtElsewhere(fields[path[0]].value, path[1..], s, other[1..]);
    }
  }

  // ---------- dropping one entry ----------

  /** Drops the last entry that can go: the deepest one in the last non-empty container.  None: nothing to drop. */
  function RemoveLast(v: Json): Option<Json>
    decreases v, 0
  {
    match v
    case Arr(items) =>
      (match RemoveInItems(items)
       case Some(items') => Some(Arr(items'))
       case None => if items == [] then None else Some(Arr(items[..|items| - 1])))
    case Obj(fields) =>
      (match RemoveInFields(fields)
       case Some(fields') => Some(Obj(fields'))
       case None => if fields == [] then None else Some(Obj(fields[..|fields| - 1])))
    case _ => None
  }

  /** Tries the items from the last to the first. */
  function RemoveInItems(items: seq<Json>): (r: Option<seq<Json>>)
    ensures r.Some? ==> |r.value| == |items|
    decreases items, 1
  {
    if items == [] then None else
    var init, last := items[..|items| - 1], items[|items| - 1];
    match RemoveLast(last)
    case Some(last') => Some(init + [last'])
    case None =>
      match RemoveInItems(init)
      case Some(init') => Some(init' + [last])
      case None => None
  }

  function RemoveInFields(fields: seq<Field>): (r: Option<seq<Field>>)
    ensures r.Some? ==> |r.value| == |fields|
    decreases fields, 1
  {
    if fields == [] then None else
    var init, last := fields[..|fields| - 1], fields[|fields| - 1];
    match RemoveLast(last.value)
    case Some(v) => Some(init + [last.(value := v)])
    case None =>
      match RemoveInFields(init)
      case Some(init') => Some(init' + [last])
      case None => None
  }

  /** Holds something that can go. */
  predicate Filled(v: Json) {
    (v.Arr? && v.items != []) || (v.Obj? && v.fields != [])
  }

  lemma {:induction false} FilledGives(v: Json)
    ensures RemoveLast(v).Some? <==> Filled(v)
  {
  }

  /** The last of the items that hold something. */
  predicate LastFilled(items: seq<Json>, i: nat) {
    i < |items| && Filled(items[i]) && forall j :: i < j < |items| ==> !Filled(items[j])
  }

  lemma {:induction false} NothingInItems(items: seq<Json>)
    ensures RemoveInItems(items).None? <==> forall x :: x in items ==> !Filled(x)
  {
    hide RemoveLast, Filled;
    if items != [] {
      FilledGives(items[|items| - 1]);
      NothingInItems(items[..|items| - 1]);
      assert items == items[..|items| - 1] + [items[|items| - 1]];
    }
  }

  lemma {:induction false} RemovesInItems(items: seq<Json>, i: nat)
    requires LastFilled(items, i)
    ensures RemoveLast(items[i]).Some? && RemoveInItems(items) == Some(items[i := RemoveLast(items[i]).value])
  {
    hide RemoveLast, Filled;
    FilledGives(items[i]);
    var init, last := items[..|items| - 1], items[|items| - 1];
    if i < |init| {
      FilledGives(last);
      RemovesInItems(init, i);
      assert init[i := RemoveLast(items[i]).value] + [last] == items[i := RemoveLast(items[i]).value];
    } else {
      assert init + [RemoveLast(last).value] == items[i := RemoveLast(last).value];
    }
  }

  function Values(fields: seq<Field>): (r: seq<Json>)
    ensures |r| == |fields| && forall i :: 0 <= i < |r| ==> r[i] == fields[i].value
  {
    seq(|fields|, i requires 0 <= i < |fields| => fields[i].value)
  }

  lemma {:induction false} NothingInFields(fields: seq<Field>)
    ensures RemoveInFields(fields).None? <==> forall f :: f in fields ==> !Filled(f.value)
  {
    hide RemoveLast, Filled;
    if fields != [] {
      FilledGives(fields[|fields| - 1].value);
      NothingInFields(fields[..|fields| - 1]);
      assert fields == fields[..|fields| - 1] + [fields[|fields| - 1]];
    }
  }

  lemma {:induction false} RemovesInFields(fields: seq<Field>, i: nat)
    requires LastFilled(Values(fields), i)
    ensures RemoveLast(fields[i].value).Some?
    ensures RemoveInFields(fields) == Some(fields[i := fields[i].(value := RemoveLast(fields[i].value).value)])
  {
    hide RemoveLast, Filled;
    FilledGives(fields[i].value);
    var init, last := fields[..|fields| - 1], fields[|fields| - 1];
    var f := fields[i].(value := RemoveLast(fields[i].value).value);
    assert Values(fields)[|init|] == last.value;
    if i < |init| {
      FilledGives(last.value);
      forall j | i <= j < |init| ensures Values(init)[j] == Values(fields)[j] {
      }
      RemovesInFields(init, i);
      assert init[i := f] + [last] == fields[i := f];
    } else {
      assert init + [f] == fields[i := f];
    }
  }

  /**
   What goes: something from the last entry that holds anything, and from that in the same way; the last entry itself
   if none holds anything.
   */
  lemma RemovesWhere(items: seq<Json>, fields: seq<Field>, i: nat)
    ensures i < |items| && LastFilled(items, i) ==>
              && RemoveLast(items[i]).Some?
              && RemoveLast(Arr(items)) == Some(Arr(items[i := RemoveLast(items[i]).value]))
    ensures i < |fields| && LastFilled(Values(fields), i) ==>
              && RemoveLast(fields[i].value).Some?
              && RemoveLast(Obj(fields))
                   == Some(Obj(fields[i := fields[i].(value := RemoveLast(fields[i].value).value)]))
    ensures (forall x :: x in items ==> !Filled(x)) ==>
              RemoveLast(Arr(items)) == if items == [] then None else Some(Arr(items[..|items| - 1]))
    ensures (forall f :: f in fields ==> !Filled(f.value)) ==>
              RemoveLast(Obj(fields)) == if fields == [] then None else Some(Obj(fields[..|fields| - 1]))
  {
    hide Filled;
    NothingInItems(items);
    NothingInFields(fields);
    if i < |items| && LastFilled(items, i) {
      RemovesInItems(items, i);
    }
    if i < |fields| && LastFilled(Values(fields), i) {
      RemovesInFields(fields, i);
    }
  }

  /** Exactly one value goes, and something goes from every container that is not empty. */
  lemma {:induction false} RemoveLastNodes(v: Json)
    ensures RemoveLast(v).Some? <==> Nodes(v) > 1
    ensures RemoveLast(v).Some? ==> Nodes(RemoveLast(v).value) == Nodes(v) - 1
    decreases v, 0
  {
    match v
    case Arr(items) =>
      RemoveInItemsNodes(items);
      if RemoveInItems(items).None? && items != [] {
        assert items[|items| - 1] in items;
      }
    case Obj(fields) =>
      RemoveInFieldsNodes(fields);
      if RemoveInFields(fields).None? && fields != [] {
        assert fields[|fields| - 1] in fields;
      }
    case _ =>
  }

  lemma {:induction false} RemoveInItemsNodes(items: seq<Json>)
    ensures RemoveInItems(items).Some? ==> ItemNodes(RemoveInItems(items).value) == ItemNodes(items) - 1
    ensures RemoveInItems(items).None? ==> forall x :: x in items ==> Nodes(x) == 1
    decreases items, 1
  {
    if items != [] {
      var init, last := items[..|items| - 1], items[|items| - 1];
      RemoveLastNodes(last);
      RemoveInItemsNodes(init);
      if RemoveLast(last).Some? {
        assert (init + [RemoveLast(last).value])[..|init|] == init;
      } else if RemoveInItems(init).Some? {
        assert (RemoveInItems(init).value + [last])[..|init|] == RemoveInItems(init).value;
      }
    }
  }

  lemma {:induction false} RemoveInFieldsNodes(fields: seq<Field>)
    ensures RemoveInFields(fields).Some? ==> FieldNodes(RemoveInFields(fields).value) == FieldNodes(fields) - 1
    ensures RemoveInFields(fields).None? ==> forall f :: f in fields ==> Nodes(f.value) == 1
    decreases fields, 1
  {
    if fields != [] {
      var init, last := fields[..|fields| - 1], fields[|fields| - 1];
      RemoveLastNodes(last.value);
      RemoveInFieldsNodes(init);
      if RemoveLast(last.value).Some? {
        assert (init + [last.(value := RemoveLast(last.value).value)])[..|init|] == init;
      } else if RemoveInFields(init).Some? {
        assert (RemoveInFields(init).value + [last])[..|init|] == RemoveInFields(init).value;
      }
    }
  }
}
