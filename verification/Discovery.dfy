/** Reconciling a client's stored tools with a listing (backend/app/mcp/discovery_service.py, `sync`). */
module Discovery {
  import opened Outcomes
  import opened Json
  import opened PyDict

  /** A listed tool as it arrives; the schema may come under either of two names. */
  datatype Listed = Listed(name: string, description: Option<string>, snake: Option<Dict>, camel: Option<Dict>)

  datatype Tool = Tool(name: string, description: string, schema: Dict)

  const DEFAULT_SCHEMA := Obj([Field("type", Str("object"))])

  lemma DefaultSchemaWellFormed()
    ensures DEFAULT_SCHEMA.Obj? && WellFormed(DEFAULT_SCHEMA)
  {
    assert Keys(DEFAULT_SCHEMA.fields) == ["type"];
  }

  predicate Given(d: Option<Dict>) {
    d.Some? && d.value.fields != []
  }

  function Normalize(t: Listed): Tool {
    DefaultSchemaWellFormed();
    Tool(t.name, if t.description.Some? then t.description.value else "",
         if Given(t.snake) then t.snake.value else if Given(t.camel) then t.camel.value else DEFAULT_SCHEMA)
  }

  /** The schema under the first of the two names that holds more than nothing, or that of any object. */
  lemma NormalizeIs(t: Listed)
    ensures var n := Normalize(t);
            && n.name == t.name
            && (t.description == None ==> n.description == "")
            && (t.description.Some? ==> Some(n.description) == t.description)
            && (t.snake.Some? && t.snake.value.fields != [] ==> Some(n.schema) == t.snake)
            && (t.snake.None? || t.snake.value.fields == [] ==>
                  if t.camel.Some? && t.camel.value.fields != [] then Some(n.schema) == t.camel
                  else n.schema == Obj([Field("type", Str("object"))]))
  {
  }

  datatype Row = Row(description: string, schema: Dict, hash: string, version: nat, published: bool, available: bool)

  type Rows = map<string, Row>

  /** The tools of a listing by name: the last of a name counts, and nameless ones do not. */
  function Latest(listing: seq<Listed>): map<string, Tool> {
    if listing == [] then map[]
    else
      var last := listing[|listing| - 1];
      var earlier := Latest(listing[..|listing| - 1]);
      if last.name == "" then earlier else earlier[last.name := Normalize(last)]
  }

  predicate LastNamed(listing: seq<Listed>, i: nat, name: string) {
    && i < |listing| && listing[i].name == name
    && forall j :: i < j < |listing| ==> listing[j].name != name
  }

  lemma LastNamedMore(listing: seq<Listed>, i: nat, name: string)
    requires listing != []
    ensures LastNamed(listing, i, name) <==>
            if listing[|listing| - 1].name == name then i == |listing| - 1
            else LastNamed(listing[..|listing| - 1], i, name)
  {
  }

  /** The last tool of each name that is not empty counts, and no other. */
  lemma {:induction false} LatestIs(listing: seq<Listed>, name: string)
    ensures name in Latest(listing) <==> name != "" && exists i: nat :: LastNamed(listing, i, name)
    ensures forall i: nat :: LastNamed(listing, i, name) && name != "" ==>
              name in Latest(listing) && Latest(listing)[name] == Normalize(listing[i])
  {
    hide Normalize, LastNamed;
    if listing == [] {
      NoneNamed(name);
    } else {
      var n := |listing| - 1;
      LatestIs(listing[..n], name);
      forall i: nat
        ensures LastNamed(listing, i, name) <==>
                if listing[n].name == name then i == n else LastNamed(listing[..n], i, name)
        ensures LastNamed(listing[..n], i, name) ==> i < n && listing[..n][i] == listing[i]
      {
        LastNamedMore(listing, i, name);
        NamedWithin(listing[..n], i, name);
      }
      assert listing[n].name == name ==> LastNamed(listing, n, name);
    }
  }

  lemma NoneNamed(name: string)
    ensures forall i: nat :: !LastNamed([], i, name)
  {
  }

  lemma NamedWithin(listing: seq<Listed>, i: nat, name: string)
    ensures LastNamed(listing, i, name) ==> i < |listing|
  {
  }

  /** The digest of a tool, for whatever function stands for hashing its printed form. */
  type Digest = Tool -> string

  // ---------- one row ----------

  predicate Changes(digest: Digest, row: Row, t: Tool) {
    row.hash != digest(t) || !row.available
  }

  function Seen(digest: Digest, row: Option<Row>, t: Tool): Row {
    match row
    case None => Row(t.description, t.schema, digest(t), 1, false, true)
    case Some(r) =>
      if Changes(digest, r, t) then Row(t.description, t.schema, digest(t), r.version + 1, false, true) else r
  }

  function Missed(row: Row): Row {
    row.(available := false, published := false)
  }

  function RowOf(rows: Rows, name: string): Option<Row> {
    if name in rows then Some(rows[name]) else None
  }

  function Synced(digest: Digest, rows: Rows, listing: seq<Listed>): Rows {
    var tools := Latest(listing);
    map name | name in rows.Keys + tools.Keys ::
      if name in tools then Seen(digest, RowOf(rows, name), tools[name]) else Missed(rows[name])
  }

  datatype Diff = Diff(added: set<string>, changed: set<string>, removed: set<string>, same: set<string>)

  function DiffOf(digest: Digest, rows: Rows, listing: seq<Listed>): Diff {
    var tools := Latest(listing);
    Diff(
      (set name | name in tools && name !in rows),
      (set name | name in tools && name in rows && Changes(digest, rows[name], tools[name])),
      rows.Keys - tools.Keys,
      (set name | name in tools && name in rows && !Changes(digest, rows[name], tools[name])))
  }

  // ---------- the loop ----------

  class Tools {
    var rows: Rows

    constructor ()
      ensures rows == map[]
    {
      rows := map[];
    }

    /** One tool of the listing. */
    method SyncTool(digest: Digest, name: string, tool: Tool) returns (kind: Kind)
      modifies this
      ensures rows == old(rows)[name := Seen(digest, RowOf(old(rows), name), tool)]
      ensures kind == KindOf(digest, RowOf(old(rows), name), tool)
    {
      if name !in rows {
        rows := rows[name := Row(tool.description, tool.schema, digest(tool), 1, false, true)];
        return Added;
      }
      if rows[name].hash == digest(tool) && rows[name].available {
        assert rows == rows[name := rows[name]];
        return Same;
      }
      rows := rows[name := Row(tool.description, tool.schema, digest(tool), rows[name].version + 1, false, true)];
      return Changed;
    }

    /** `order` is the order in which the dictionary of listed tools is walked. */
    method Sync(digest: Digest, listing: seq<Listed>, order: seq<string>) returns (diff: Diff)
      requires forall i, j :: 0 <= i < j < |order| ==> order[i] != order[j]
      requires forall name :: name in order <==> name in Latest(listing)
      modifies this
      ensures rows == Synced(digest, old(rows), listing)
      ensures diff == DiffOf(digest, old(rows), listing)
    {
      hide *;
      var before := rows;
      var tools := Latest(listing);
      var kinds: map<string, Kind> := map[];
      NothingWalked(digest, rows, tools);
      for i := 0 to |order|
        invariant rows == SyncedFor(digest, before, tools, order[..i])
        invariant kinds == KindsFor(digest, before, tools, order[..i])
      {
        var name := order[i];
        assert name in tools && name !in order[..i];
        assert order[..i + 1] == order[..i] + [name];
        WalkOne(digest, before, tools, order[..i], name);
        var kind := SyncTool(digest, name, tools[name]);
        kinds := kinds[name := kind];
      }
      assert order[..|order|] == order;
      AllWalked(digest, before, listing, order);
      rows := map name | name in rows :: if name in tools then rows[name] else Missed(rows[name]);
      diff := Diff((set name | name in kinds && kinds[name] == Added),
                   (set name | name in kinds && kinds[name] == Changed),
                   before.Keys - tools.Keys, (set name | name in kinds && kinds[name] == Same));
    }
  }

  datatype Kind = Added | Changed | Same

  function KindOf(digest: Digest, row: Option<Row>, t: Tool): Kind {
    if row.None? then Added else if Changes(digest, row.value, t) then Changed else Same
  }

  function SyncedFor(digest: Digest, rows: Rows, tools: map<string, Tool>, names: seq<string>): Rows {
    map name | name in rows.Keys + tools.Keys && (name in rows || name in names) ::
      if name in names && name in tools then Seen(digest, RowOf(rows, name), tools[name]) else rows[name]
  }

  function KindsFor(digest: Digest, rows: Rows, tools: map<string, Tool>, names: seq<string>): map<string, Kind> {
    map name | name in tools && name in names :: KindOf(digest, RowOf(rows, name), tools[name])
  }

  lemma NothingWalked(digest: Digest, rows: Rows, tools: map<string, Tool>)
    ensures SyncedFor(digest, rows, tools, []) == rows && KindsFor(digest, rows, tools, []) == map[]
  {
  }

  lemma WalkOne(digest: Digest, rows: Rows, tools: map<string, Tool>, names: seq<string>, name: string)
    requires name in tools && name !in names
    ensures RowOf(SyncedFor(digest, rows, tools, names), name) == RowOf(rows, name)
    ensures SyncedFor(digest, rows, tools, names + [name]) ==
            SyncedFor(digest, rows, tools, names)[name := Seen(digest, RowOf(rows, name), tools[name])]
    ensures KindsFor(digest, rows, tools, names + [name]) ==
            KindsFor(digest, rows, tools, names)[name := KindOf(digest, RowOf(rows, name), tools[name])]
  {
    hide Seen, KindOf;
  }

  lemma AllWalked(digest: Digest, rows: Rows, listing: seq<Listed>, order: seq<string>)
    requires forall name :: name in order <==> name in Latest(listing)
    ensures var tools := Latest(listing);
            var walked := SyncedFor(digest, rows, tools, order);
            var kinds := KindsFor(digest, rows, tools, order);
            && Synced(digest, rows, listing) ==
               (map name | name in walked :: if name in tools then walked[name] else Missed(walked[name]))
            && DiffOf(digest, rows, listing) ==
               Diff((set name | name in kinds && kinds[name] == Added),
                    (set name | name in kinds && kinds[name] == Changed),
                    rows.Keys - tools.Keys, (set name | name in kinds && kinds[name] == Same))
  {
    hide Latest, Seen, Missed;
  }

  // ---------- one listing ----------

  /** Every listed tool is added, changed or the same, and exactly one of them; every other stored one is removed. */
  lemma DiffPartitions(digest: Digest, rows: Rows, listing: seq<Listed>)
    ensures var d := DiffOf(digest, rows, listing);
            && d.added + d.changed + d.same == Latest(listing).Keys
            && d.added !! d.changed && d.added !! d.same && d.changed !! d.same
            && d.changed + d.same + d.removed == rows.Keys && d.removed !! Latest(listing).Keys
  {
  }

  lemma SeenTwice(digest: Digest, row: Option<Row>, t: Tool)
    ensures var r := Seen(digest, row, t); !Changes(digest, r, t) && Seen(digest, Some(r), t) == r
  {
  }

  /** A listing repeated at once adds and changes nothing, and leaves every row as it is. */
  lemma RepeatChangesNothing(digest: Digest, rows: Rows, listing: seq<Listed>)
    ensures var after := Synced(digest, rows, listing);
            var d := DiffOf(digest, after, listing);
            && d.added == {} && d.changed == {} && d.same == Latest(listing).Keys
            && Synced(digest, after, listing) == after
  {
    hide Latest, Synced, DiffOf;
    var after := Synced(digest, rows, listing);
    forall name | name in after ensures RowAgain(digest, after, Latest(listing), name) {
      RowRepeats(digest, rows, listing, name);
    }
    RepeatDiff(digest, rows, listing);
    ListedAreStored(digest, rows, listing);
    RepeatRows(digest, after, listing);
  }

  lemma ListedAreStored(digest: Digest, rows: Rows, listing: seq<Listed>)
    ensures forall name :: name in Latest(listing) ==> name in Synced(digest, rows, listing)
  {
    hide Latest, Seen, Missed;
  }

  /** A row that the same listing leaves as it is. */
  predicate RowAgain(digest: Digest, rows: Rows, tools: map<string, Tool>, name: string)
    requires name in rows
  {
    if name in tools then
      !Changes(digest, rows[name], tools[name]) && Seen(digest, Some(rows[name]), tools[name]) == rows[name]
    else Missed(rows[name]) == rows[name]
  }

  lemma RowRepeats(digest: Digest, rows: Rows, listing: seq<Listed>, name: string)
    requires name in Synced(digest, rows, listing)
    ensures RowAgain(digest, Synced(digest, rows, listing), Latest(listing), name)
  {
    hide Latest, Seen, Changes;
    if name in Latest(listing) {
      SeenTwice(digest, RowOf(rows, name), Latest(listing)[name]);
    }
  }

  lemma RepeatDiff(digest: Digest, rows: Rows, listing: seq<Listed>)
    requires var after := Synced(digest, rows, listing);
             forall name :: name in after ==> RowAgain(digest, after, Latest(listing), name)
    ensures var d := DiffOf(digest, Synced(digest, rows, listing), listing);
            d.added == {} && d.changed == {} && d.same == Latest(listing).Keys
  {
    hide Latest, Seen, Changes, Missed;
  }

  lemma RepeatRows(digest: Digest, after: Rows, listing: seq<Listed>)
    requires forall name :: name in Latest(listing) ==> name in after
    requires forall name :: name in after ==> RowAgain(digest, after, Latest(listing), name)
    ensures Synced(digest, after, listing) == after
  {
    hide Latest, Seen, Changes, Missed;
    assert Synced(digest, after, listing).Keys == after.Keys;
  }

  // ---------- any sequence of listings and reviews ----------

  datatype Step =
    | List(listing: seq<Listed>)
    | Publish(name: string)

  function Next(digest: Digest, rows: Rows, step: Step): Rows {
    match step
    case List(listing) => Synced(digest, rows, listing)
    case Publish(name) => if name in rows then rows[name := rows[name].(published := true)] else rows
  }

  function Run(digest: Digest, steps: seq<Step>): Rows {
    if steps == [] then map[] else Next(digest, Run(digest, steps[..|steps| - 1]), steps[|steps| - 1])
  }

  /** The tools of the last listing. */
  function Current(steps: seq<Step>): set<string> {
    if steps == [] then {}
    else if steps[|steps| - 1].List? then Latest(steps[|steps| - 1].listing).Keys
    else Current(steps[..|steps| - 1])
  }

  predicate EverListed(steps: seq<Step>, name: string) {
    exists i :: 0 <= i < |steps| && steps[i].List? && name in Latest(steps[i].listing)
  }

  /** How many of the listings reported the tool as changed. */
  function ChangeCount(digest: Digest, steps: seq<Step>, name: string): nat {
    if steps == [] then 0
    else
      var n := |steps| - 1;
      ChangeCount(digest, steps[..n], name)
        + if steps[n].List? && name in DiffOf(digest, Run(digest, steps[..n]), steps[n].listing).changed then 1 else 0
  }

  lemma {:induction false} LatestNames(listing: seq<Listed>, name: string)
    requires name in Latest(listing)
    ensures Latest(listing)[name].name == name
  {
    if listing != [] && (listing[|listing| - 1].name != name || name == "") {
      LatestNames(listing[..|listing| - 1], name);
    }
  }

  /** What a row says of the tool as its digest was taken. */
  function Stored(name: string, row: Row): Tool {
    Tool(name, row.description, row.schema)
  }

  /** A stored digest is always that of the description and schema stored beside it. */
  lemma {:induction false} DigestsFit(digest: Digest, steps: seq<Step>, name: string)
    requires name in Run(digest, steps)
    ensures Run(digest, steps)[name].hash == digest(Stored(name, Run(digest, steps)[name]))
  {
    if steps != [] {
      hide Latest;
      var n := |steps| - 1;
      var before := Run(digest, steps[..n]);
      if name in before {
        DigestsFit(digest, steps[..n], name);
      }
      if steps[n].List? && name in Latest(steps[n].listing) {
        LatestNames(steps[n].listing, name);
      }
    }
  }

  /** After a listing a listed tool is stored as it was listed, unless the two collide under the digest. */
  lemma ListedAsStored(digest: Digest, steps: seq<Step>, listing: seq<Listed>, name: string)
    requires name in Latest(listing)
    ensures var rows := Run(digest, steps + [List(listing)]);
            && name in rows
            && digest(Stored(name, rows[name])) == digest(Latest(listing)[name])
  {
    hide Latest;
    var all := steps + [List(listing)];
    assert all[..|all| - 1] == steps;
    DigestsFit(digest, all, name);
  }

  predicate RowHolds(digest: Digest, steps: seq<Step>, name: string) {
    var rows := Run(digest, steps);
    && (name in rows <==> EverListed(steps, name))
    && (name in rows ==>
          && (rows[name].available <==> name in Current(steps))
          && rows[name].version == 1 + ChangeCount(digest, steps, name))
  }

  /**
   After any sequence of listings and reviews a tool is stored exactly when it was ever listed, is available exactly
   when it is in the last listing, and its version is one more than the number of times it was reported changed.
   */
  lemma {:induction false} RunHolds(digest: Digest, steps: seq<Step>, name: string)
    ensures RowHolds(digest, steps, name)
  {
    if steps != [] {
      hide Latest;
      var n := |steps| - 1;
      RunHolds(digest, steps[..n], name);
      EverListedGrows(steps, name);
      if name !in Run(digest, steps[..n]) {
        NeverChanged(digest, steps[..n], name);
      }
    }
  }

  lemma EverListedGrows(steps: seq<Step>, name: string)
    requires steps != []
    ensures EverListed(steps, name) <==>
            || EverListed(steps[..|steps| - 1], name)
            || (steps[|steps| - 1].List? && name in Latest(steps[|steps| - 1].listing))
  {
    hide Latest;
    if EverListed(steps[..|steps| - 1], name) {
      var i :| 0 <= i < |steps| - 1 && steps[..|steps| - 1][i].List? && name in Latest(steps[..|steps| - 1][i].listing);
      assert steps[i].List? && name in Latest(steps[i].listing);
    }
    if EverListed(steps, name) {
      var i :| 0 <= i < |steps| && steps[i].List? && name in Latest(steps[i].listing);
      if i < |steps| - 1 {
        assert steps[..|steps| - 1][i].List? && name in Latest(steps[..|steps| - 1][i].listing);
      }
    }
  }

  /** A tool that is not stored was never reported changed. */
  lemma {:induction false} NeverChanged(digest: Digest, steps: seq<Step>, name: string)
    requires name !in Run(digest, steps)
    ensures ChangeCount(digest, steps, name) == 0
  {
    if steps != [] {
      hide Latest;
      NeverChanged(digest, steps[..|steps| - 1], name);
    }
  }

  /** A tool that is changed or missing in a listing is published no longer. */
  lemma ChangeUnpublishes(digest: Digest, rows: Rows, listing: seq<Listed>, name: string)
    requires name in rows
    ensures var d := DiffOf(digest, rows, listing);
            var after := Synced(digest, rows, listing);
            && name in after
            && (after[name].published <==> rows[name].published && name in d.same)
  {
  }

  ghost predicate KeptSince(digest: Digest, steps: seq<Step>, i: nat, name: string) {
    && i < |steps| && steps[i] == Publish(name) && name in Run(digest, steps[..i])
    && forall j :: i < j < |steps| && steps[j].List? ==> SameAt(digest, steps, j, name)
  }

  /** It was published at some time and every listing since then reported it the same. */
  ghost predicate PublishedSince(digest: Digest, steps: seq<Step>, name: string) {
    exists i: nat :: KeptSince(digest, steps, i, name)
  }

  predicate SameAt(digest: Digest, steps: seq<Step>, j: nat, name: string)
    requires j < |steps| && steps[j].List?
  {
    name in DiffOf(digest, Run(digest, steps[..j]), steps[j].listing).same
  }

  lemma KeptSinceMore(digest: Digest, steps: seq<Step>, i: nat, name: string)
    requires steps != []
    ensures var n := |steps| - 1;
            KeptSince(digest, steps, i, name) <==>
              if i == n then steps[n] == Publish(name) && name in Run(digest, steps[..n])
              else KeptSince(digest, steps[..n], i, name) && (steps[n].List? ==> SameAt(digest, steps, n, name))
  {
    hide Run, DiffOf;
    var n := |steps| - 1;
    var earlier := steps[..n];
    assert forall j :: 0 <= j <= n ==> earlier[..j] == steps[..j];
    assert forall j :: 0 <= j < n ==> earlier[j] == steps[j];
    assert forall j :: 0 <= j < n && steps[j].List? ==>
        (SameAt(digest, earlier, j, name) <==> SameAt(digest, steps, j, name));
  }

  /** A stored tool is published exactly when it was and no listing since has said otherwise. */
  lemma {:induction false} PublishedExactlyWhen(digest: Digest, steps: seq<Step>, name: string)
    ensures name in Run(digest, steps) && Run(digest, steps)[name].published <==> PublishedSince(digest, steps, name)
  {
    hide Next, DiffOf, KeptSince;
    if steps == [] {
      NeverKept(digest, name);
    } else {
      var n := |steps| - 1;
      PublishedExactlyWhen(digest, steps[..n], name);
      PublishedStep(digest, Run(digest, steps[..n]), steps[n], name);
      forall i: nat
        ensures KeptSince(digest, steps, i, name) <==>
                if i == n then steps[n] == Publish(name) && name in Run(digest, steps[..n])
                else KeptSince(digest, steps[..n], i, name) && (steps[n].List? ==> SameAt(digest, steps, n, name))
        ensures KeptSince(digest, steps[..n], i, name) ==> i < n
      {
        KeptSinceMore(digest, steps, i, name);
        KeptWithin(digest, steps[..n], i, name);
      }
      KeptSinceMore(digest, steps, n, name);
    }
  }

  lemma NeverKept(digest: Digest, name: string)
    ensures forall i: nat :: !KeptSince(digest, [], i, name)
  {
  }

  lemma KeptWithin(digest: Digest, steps: seq<Step>, i: nat, name: string)
    ensures KeptSince(digest, steps, i, name) ==> i < |steps|
  {
  }

  lemma PublishedStep(digest: Digest, rows: Rows, step: Step, name: string)
    ensures var after := Next(digest, rows, step);
            name in after && after[name].published <==>
              match step
              case Publish(other) => name in rows && (other == name || rows[name].published)
              case List(listing) => name in rows && rows[name].published && name in DiffOf(digest, rows, listing).same
  {
    hide Latest;
    if step.List? && name in rows {
      ChangeUnpublishes(digest, rows, step.listing, name);
    }
  }
}
