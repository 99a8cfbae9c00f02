/**
 Optimistic locking of provider configuration, key by key (backend/app/model_providers/store.py).

 The three tables are one map; a key says which table it is in.  A value is whatever the tables hold, known only up to
 equality; `none` stands for the empty dictionary an unset active model has.
 */
module ProviderStore {
  import opened Outcomes

  datatype Key = Provider(id: string) | Custom(id: string) | ActiveModel

  datatype Row<V> = Row(value: V, version: nat)

  type Rows<V> = map<Key, Row<V>>

  datatype SaveError = ConcurrentUpdate

  /** What a client loaded: the values it may edit a copy of, and their versions. */
  datatype Loaded<V> = Loaded(original: map<Key, V>, versions: map<Key, nat>)

  function Load<V>(rows: Rows<V>, none: V): Loaded<V> {
    Loaded(
      (map k | k in rows :: rows[k].value) + if ActiveModel in rows then map[] else map[ActiveModel := none],
      map k | k in rows :: rows[k].version)
  }

  /** The state a plain dictionary is saved against. */
  function Unloaded<V>(none: V): Loaded<V> {
    Loaded(map[ActiveModel := none], map[])
  }

  // ---------- one save ----------

  function Expected<V>(l: Loaded<V>, k: Key): nat {
    if k in l.versions then l.versions[k] else 0
  }

  predicate Changed<V(==)>(l: Loaded<V>, data: map<Key, V>, k: Key) {
    k in data && !(k in l.original && data[k] == l.original[k])
  }

  /** The row is still the one that was loaded, or still missing. */
  predicate Current<V>(rows: Rows<V>, l: Loaded<V>, k: Key) {
    if Expected(l, k) == 0 then k !in rows else k in rows && rows[k].version == Expected(l, k)
  }

  predicate Accepts<V(==)>(rows: Rows<V>, l: Loaded<V>, data: map<Key, V>) {
    forall k :: k in data && Changed(l, data, k) ==> Current(rows, l, k)
  }

  function Written<V(==)>(l: Loaded<V>, data: map<Key, V>): Rows<V> {
    map k | k in data && Changed(l, data, k) :: Row(data[k], Expected(l, k) + 1)
  }

  function Saved<V(==)>(rows: Rows<V>, l: Loaded<V>, data: map<Key, V>): Result<Rows<V>, SaveError> {
    if Accepts(rows, l, data) then Ok(rows + Written(l, data)) else Err(ConcurrentUpdate)
  }

  /** The rows a save leaves: a refused one is rolled back. */
  function After<V(==)>(rows: Rows<V>, l: Loaded<V>, data: map<Key, V>): Rows<V> {
    if Accepts(rows, l, data) then rows + Written(l, data) else rows
  }

  // ---------- the tables ----------

  class Tables<V(==)> {
    var rows: Rows<V>

    constructor ()
      ensures rows == map[]
    {
      rows := map[];
    }

    /** One entry of the loop: skip it, update the row if it is still current, or insert it. */
    method SaveEntry(l: Loaded<V>, data: map<Key, V>, k: Key) returns (r: Result<(), SaveError>)
      requires k in data
      modifies this
      ensures r.Ok? <==> (Changed(l, data, k) ==> Current(old(rows), l, k))
      ensures rows == if r.Ok? && Changed(l, data, k) then old(rows)[k := Row(data[k], Expected(l, k) + 1)]
                      else old(rows)
    {
      if k in l.original && data[k] == l.original[k] {
        return Ok(());
      }
      var expected := if k in l.versions then l.versions[k] else 0;
      if expected != 0 {
        if k !in rows || rows[k].version != expected {
          return Err(ConcurrentUpdate);
        }
        rows := rows[k := Row(data[k], expected + 1)];
      } else {
        if k in rows {
          return Err(ConcurrentUpdate);
        }
        rows := rows[k := Row(data[k], 1)];
      }
      return Ok(());
    }

    /** Entries in the order the client's dictionary holds them. */
    method SaveEntries(l: Loaded<V>, data: map<Key, V>, order: seq<Key>) returns (r: Result<(), SaveError>)
      requires forall i, j :: 0 <= i < j < |order| ==> order[i] != order[j]
      requires forall k :: k in data <==> k in order
      modifies this
      ensures r.Ok? <==> Accepts(old(rows), l, data)
      ensures r.Ok? ==> rows == old(rows) + Written(l, data)
    {
      hide *;
      NothingWritten(rows, l, data);
      for i := 0 to |order|
        invariant AcceptsFor(old(rows), l, data, order[..i])
        invariant rows == old(rows) + WrittenFor(l, data, order[..i])
      {
        var k := order[i];
        assert k in data && k !in order[..i];
        SkipsOthers(old(rows), rows, l, data, order[..i], k);
        r := SaveEntry(l, data, k);
        OneMore(old(rows), l, data, order[..i], k);
        assert order[..i + 1] == order[..i] + [k];
        if r.Err? {
          return;
        }
      }
      assert order[..|order|] == order;
      AllWritten(old(rows), l, data, order);
      return Ok(());
    }

    method Save(l: Loaded<V>, data: map<Key, V>, order: seq<Key>) returns (r: Result<(), SaveError>)
      requires forall i, j :: 0 <= i < j < |order| ==> order[i] != order[j]
      requires forall k :: k in data <==> k in order
      modifies this
      ensures match Saved(old(rows), l, data)
              case Ok(after) => r.Ok? && rows == after
              case Err(e) => r == Err(e) && rows == old(rows)
    {
      var saved := rows;
      r := SaveEntries(l, data, order);
      if r.Err? {
        rows := saved;
        r := Err(ConcurrentUpdate);
      }
    }
  }

  function WrittenFor<V(==)>(l: Loaded<V>, data: map<Key, V>, keys: seq<Key>): Rows<V> {
    map k | k in data && k in keys && Changed(l, data, k) :: Row(data[k], Expected(l, k) + 1)
  }

  predicate AcceptsFor<V(==)>(rows: Rows<V>, l: Loaded<V>, data: map<Key, V>, keys: seq<Key>) {
    forall k :: k in data && k in keys && Changed(l, data, k) ==> Current(rows, l, k)
  }

  lemma NothingWritten<V>(rows: Rows<V>, l: Loaded<V>, data: map<Key, V>)
    ensures AcceptsFor(rows, l, data, []) && rows + WrittenFor(l, data, []) == rows
  {
  }

  /** What one more entry adds, and that a refused entry refuses the whole save. */
  lemma OneMore<V>(rows: Rows<V>, l: Loaded<V>, data: map<Key, V>, keys: seq<Key>, k: Key)
    requires k in data && AcceptsFor(rows, l, data, keys)
    ensures rows + WrittenFor(l, data, keys + [k]) ==
            if Changed(l, data, k) then (rows + WrittenFor(l, data, keys))[k := Row(data[k], Expected(l, k) + 1)]
            else rows + WrittenFor(l, data, keys)
    ensures (Changed(l, data, k) ==> Current(rows, l, k)) <==> AcceptsFor(rows, l, data, keys + [k])
    ensures !(Changed(l, data, k) ==> Current(rows, l, k)) ==> !Accepts(rows, l, data)
  {
    hide Changed, Current;
    assert WrittenFor(l, data, keys + [k]) ==
           if Changed(l, data, k) then WrittenFor(l, data, keys)[k := Row(data[k], Expected(l, k) + 1)]
           else WrittenFor(l, data, keys);
  }

  lemma AllWritten<V>(rows: Rows<V>, l: Loaded<V>, data: map<Key, V>, keys: seq<Key>)
    requires forall k :: k in data <==> k in keys
    requires AcceptsFor(rows, l, data, keys)
    ensures Accepts(rows, l, data) && WrittenFor(l, data, keys) == Written(l, data)
  {
  }

  lemma SkipsOthers<V>(before: Rows<V>, rows: Rows<V>, l: Loaded<V>, data: map<Key, V>, keys: seq<Key>, k: Key)
    requires rows == before + WrittenFor(l, data, keys) && k !in keys
    ensures Current(rows, l, k) <==> Current(before, l, k)
  {
  }

  // ---------- many clients ----------

  datatype Step<V> =
    | LoadBy(client: nat)
    | SaveBy(client: nat, data: map<Key, V>)

  /** A dictionary without an active model is saved as one whose active model is unset. */
  function Full<V>(data: map<Key, V>, none: V): map<Key, V> {
    if ActiveModel in data then data else data[ActiveModel := none]
  }

  /** Saving what was loaded writes nothing, and what was loaded tells of an unset active model. */
  lemma LoadIs<V>(rows: Rows<V>, none: V)
    ensures var l := Load(rows, none);
            && l.original.Keys == rows.Keys + {ActiveModel} && l.versions.Keys == rows.Keys
            && (forall k :: k in rows ==> l.original[k] == rows[k].value && l.versions[k] == rows[k].version)
            && (ActiveModel !in rows ==> l.original[ActiveModel] == none)
            && Saved(rows, l, l.original) == Ok(rows)
  {
    var l := Load(rows, none);
    assert Written(l, l.original) == map[];
    assert rows + map[] == rows;
  }

  /** A dictionary is saved with its own active model, or else with an unset one. */
  lemma FullIs<V>(data: map<Key, V>, none: V)
    ensures Full(data, none).Keys == data.Keys + {ActiveModel}
    ensures forall k :: k in data ==> Full(data, none)[k] == data[k]
    ensures ActiveModel !in data ==> Full(data, none)[ActiveModel] == none
  {
  }

  datatype World<V> = World(rows: Rows<V>, clients: map<nat, Loaded<V>>)

  /** The state a client saves against: what it loaded last, or nothing. */
  function LoadedBy<V>(w: World<V>, client: nat, none: V): Loaded<V> {
    if client in w.clients then w.clients[client] else Unloaded(none)
  }

  /** A client that loaded nothing can only insert keys that are not there. */
  lemma UnloadedInserts<V>(w: World<V>, client: nat, none: V, data: map<Key, V>)
    requires forall k :: k in w.rows ==> w.rows[k].version >= 1
    ensures client in w.clients ==> LoadedBy(w, client, none) == w.clients[client]
    ensures client !in w.clients ==>
              var l := LoadedBy(w, client, none);
              (Saved(w.rows, l, data).Ok? <==>
               forall k :: k in data && (k == ActiveModel ==> data[k] != none) ==> k !in w.rows)
  {
    if client !in w.clients {
      var l := LoadedBy(w, client, none);
      assert forall k :: k in data ==> (Changed(l, data, k) <==> (k == ActiveModel ==> data[k] != none));
      assert forall k :: Current(w.rows, l, k) <==> k !in w.rows;
    }
  }

  function Next<V(==)>(w: World<V>, none: V, step: Step<V>): World<V> {
    match step
    case LoadBy(client) => w.(clients := w.clients[client := Load(w.rows, none)])
    case SaveBy(client, data) => w.(rows := After(w.rows, LoadedBy(w, client, none), Full(data, none)))
  }

  function Run<V(==)>(none: V, steps: seq<Step<V>>): World<V> {
    if steps == [] then World(map[], map[])
    else Next(Run(none, steps[..|steps| - 1]), none, steps[|steps| - 1])
  }

  /** A version a client holds was current when it loaded, and as long as it is current so is the value. */
  ghost predicate Traces<V>(rows: Rows<V>, l: Loaded<V>) {
    && (forall k :: k in l.versions ==>
          && k in l.original && k in rows && 1 <= l.versions[k] <= rows[k].version
          && (rows[k].version == l.versions[k] ==> rows[k].value == l.original[k]))
    && (forall k :: k in l.original && k != ActiveModel ==> k in l.versions)
  }

  ghost predicate Sound<V>(w: World<V>) {
    && (forall k :: k in w.rows ==> w.rows[k].version >= 1)
    && (forall c :: c in w.clients ==> Traces(w.rows, w.clients[c]))
  }

  lemma SaveTraces<V>(rows: Rows<V>, l: Loaded<V>, data: map<Key, V>, other: Loaded<V>)
    requires Traces(rows, l) && Traces(rows, other)
    ensures Traces(After(rows, l, data), other)
  {
  }

  lemma NextSound<V>(w: World<V>, none: V, step: Step<V>)
    requires Sound(w)
    ensures Sound(Next(w, none, step))
  {
    if step.SaveBy? {
      var l := LoadedBy(w, step.client, none);
      var data := Full(step.data, none);
      forall c | c in w.clients ensures Traces(After(w.rows, l, data), w.clients[c]) {
        SaveTraces(w.rows, l, data, w.clients[c]);
      }
    }
  }

  lemma {:induction false} RunSound<V>(none: V, steps: seq<Step<V>>)
    ensures Sound(Run(none, steps))
  {
    if steps != [] {
      RunSound(none, steps[..|steps| - 1]);
      NextSound(Run(none, steps[..|steps| - 1]), none, steps[|steps| - 1]);
    }
  }

  /** After any interleaving, a client that has just loaded can save anything, and its loading disturbs no one. */
  lemma FreshSaveSucceeds<V>(none: V, steps: seq<Step<V>>, client: nat, data: map<Key, V>)
    ensures var w, w' := Run(none, steps), Run(none, steps + [LoadBy(client)]);
            && w'.rows == w.rows && Saved(w'.rows, LoadedBy(w', client, none), data).Ok?
            && (forall other :: other in w.clients && other != client ==>
                  other in w'.clients && w'.clients[other] == w.clients[other])
  {
    RunSound(none, steps);
    assert (steps + [LoadBy(client)])[..|steps|] == steps;
  }

  /**
   After any interleaving, a save that goes through overwrites a key only while its stored value is the one that client
   loaded, inserts only keys it did not find, and leaves every key it did not change alone.
   */
  lemma SaveOverwritesOnlyWhatWasLoaded<V>(none: V, steps: seq<Step<V>>, client: nat, data: map<Key, V>, k: Key)
    requires var w := Run(none, steps); Saved(w.rows, LoadedBy(w, client, none), Full(data, none)).Ok?
    ensures var w := Run(none, steps);
            var l := LoadedBy(w, client, none);
            var full := Full(data, none);
            var after := Saved(w.rows, l, full).value;
            if Changed(l, full, k) then
              && k in after && after[k].value == full[k]
              && (if k in w.rows then
                    && k in l.original && w.rows[k].value == l.original[k]
                    && after[k].version == w.rows[k].version + 1
                  else k !in l.versions && after[k].version == 1)
            else (k in after <==> k in w.rows) && (k in after ==> after[k] == w.rows[k])
  {
    RunSound(none, steps);
  }

  // ---------- two clients that loaded the same rows ----------

  /** Of two saves from one base, the second goes through exactly when it changes no key the first one changed. */
  lemma SecondSaveExactlyWhen<V>(rows: Rows<V>, none: V, a: map<Key, V>, b: map<Key, V>)
    requires forall k :: k in rows ==> rows[k].version >= 1
    ensures var l := Load(rows, none);
            && Saved(rows, l, a).Ok?
            && (Saved(Saved(rows, l, a).value, l, b).Ok? <==>
                forall k :: k in a && k in b ==> !(Changed(l, a, k) && Changed(l, b, k)))
  {
    var l := Load(rows, none);
    assert Accepts(rows, l, a);
    var first := rows + Written(l, a);
    if k :| k in a && k in b && Changed(l, a, k) && Changed(l, b, k) {
      assert first[k].version == Expected(l, k) + 1;
      assert !Current(first, l, k);
    }
  }

  /** Saves of different keys from one base give the same rows in either order. */
  lemma DisjointSavesCommute<V>(rows: Rows<V>, none: V, a: map<Key, V>, b: map<Key, V>)
    requires forall k :: k in rows ==> rows[k].version >= 1
    requires forall k :: k in a && k in b ==> !(Changed(Load(rows, none), a, k) && Changed(Load(rows, none), b, k))
    ensures var l := Load(rows, none);
            && Saved(rows, l, a).Ok? && Saved(rows, l, b).Ok?
            && Saved(Saved(rows, l, a).value, l, b).Ok?
            && Saved(Saved(rows, l, a).value, l, b) == Saved(Saved(rows, l, b).value, l, a)
  {
    var l := Load(rows, none);
    SecondSaveExactlyWhen(rows, none, a, b);
    SecondSaveExactlyWhen(rows, none, b, a);
    WritesCommute(rows, l, a, b);
  }

  lemma WritesCommute<V>(rows: Rows<V>, l: Loaded<V>, a: map<Key, V>, b: map<Key, V>)
    requires forall k :: k in a && k in b ==> !(Changed(l, a, k) && Changed(l, b, k))
    ensures rows + Written(l, a) + Written(l, b) == rows + Written(l, b) + Written(l, a)
  {
    hide Changed;
  }

  // ---------- versions count writes ----------

  function WroteBy<V(==)>(w: World<V>, none: V, step: Step<V>, k: Key): nat {
    if step.LoadBy? then 0
    else
      var l, data := LoadedBy(w, step.client, none), Full(step.data, none);
      if Changed(l, data, k) && Accepts(w.rows, l, data) then 1 else 0
  }

  function Writes<V(==)>(none: V, steps: seq<Step<V>>, k: Key): nat {
    if steps == [] then 0
    else
      var n := |steps| - 1;
      Writes(none, steps[..n], k) + WroteBy(Run(none, steps[..n]), none, steps[n], k)
  }

  function VersionIn<V>(rows: Rows<V>, k: Key): nat {
    if k in rows then rows[k].version else 0
  }

  /** A key's version is the number of saves that changed it and went through; none of them was lost. */
  lemma {:induction false} VersionsCountWrites<V>(none: V, steps: seq<Step<V>>, k: Key)
    ensures VersionIn(Run(none, steps).rows, k) == Writes(none, steps, k)
  {
    if steps != [] {
      var n := |steps| - 1;
      VersionsCountWrites(none, steps[..n], k);
      RunSound(none, steps[..n]);
    }
  }
}
