/**
 The guard that runs before unit memberships are written (backend/app/identity/catalogue.py,
 `_enforce_single_active_unit_membership`): a user has at most one active membership.
 */
module Membership {
  import opened Outcomes

  datatype Row = Row(user: string, active: bool)

  datatype Change = New | Dirty | Deleted

  /**
   A membership the session is about to write.  A new one may not have its id yet; `pastUsers` are the users its
   history says it belonged to.  An empty user stands for a missing one.
   */
  datatype Tracked = Tracked(id: Option<string>, user: string, active: bool, change: Change, pastUsers: set<string>)

  datatype GuardError = MoreThanOneActive | NoSuchUser

  type Rows = map<string, Row>

  // ---------- the guard ----------

  function UsersOf(t: Tracked): set<string> {
    (if t.user == "" then {} else {t.user}) + set u | u in t.pastUsers && u != ""
  }

  /** Every user some tracked membership belongs or belonged to. */
  function Touched(tracked: seq<Tracked>): set<string> {
    if tracked == [] then {} else Touched(tracked[..|tracked| - 1]) + UsersOf(tracked[|tracked| - 1])
  }

  /** What stands for a membership in a user's set: its id, or its place while it has none. */
  datatype Marker = Stored(id: string) | PendingAt(place: nat)

  function MarkerAt(tracked: seq<Tracked>, i: nat): Marker
    requires i < |tracked|
  {
    if tracked[i].id.Some? then Stored(tracked[i].id.value) else PendingAt(i)
  }

  predicate Live(t: Tracked) {
    t.change != Deleted && t.active
  }

  predicate HasId(tracked: seq<Tracked>, id: string) {
    exists i :: 0 <= i < |tracked| && tracked[i].id == Some(id)
  }

  /** The active memberships of a user that stand in the database, as markers. */
  function Standing(rows: Rows, u: string): set<Marker> {
    set id | id in rows && rows[id].active && rows[id].user == u :: Stored(id)
  }

  /** The sets a user's markers go through when one more tracked membership is taken in. */
  function TakeIn(markers: set<Marker>, tracked: seq<Tracked>, i: nat, u: string): set<Marker>
    requires i < |tracked|
  {
    var kept := if tracked[i].id.Some? then markers - {Stored(tracked[i].id.value)} else markers;
    if Live(tracked[i]) && tracked[i].user == u then kept + {MarkerAt(tracked, i)} else kept
  }

  method TakeInEverywhere(activeByUser: map<string, set<Marker>>, tracked: seq<Tracked>, i: nat)
    returns (r: Result<map<string, set<Marker>>, GuardError>)
    requires i < |tracked|
    ensures r.Ok? <==> (Live(tracked[i]) ==> tracked[i].user in activeByUser)
    ensures r.Ok? ==> r.value.Keys == activeByUser.Keys
    ensures r.Ok? ==> forall u :: u in activeByUser ==> r.value[u] == TakeIn(activeByUser[u], tracked, i, u)
  {
    var sets := activeByUser;
    if tracked[i].id.Some? {
      var id := tracked[i].id.value;
      sets := map u | u in activeByUser :: activeByUser[u] - {Stored(id)};
    }
    if Live(tracked[i]) {
      var user := tracked[i].user;
      if user !in sets {
        return Err(NoSuchUser);
      }
      sets := sets[user := sets[user] + {MarkerAt(tracked, i)}];
    }
    return Ok(sets);
  }

  method TouchedUsers(tracked: seq<Tracked>) returns (users: set<string>)
    ensures users == Touched(tracked)
  {
    users := {};
    for i := 0 to |tracked|
      invariant users == Touched(tracked[..i])
    {
      assert tracked[..i + 1][..i] == tracked[..i];
      if tracked[i].user != "" {
        users := users + {tracked[i].user};
      }
      users := users + set u | u in tracked[i].pastUsers && u != "";
    }
    assert tracked[..|tracked|] == tracked;
  }

  method Guard(rows: Rows, tracked: seq<Tracked>) returns (r: Result<(), GuardError>)
    ensures r.Ok? <==> Accepts(rows, tracked)
  {
    hide Touched, Standing, TakeIn;
    if tracked == [] {
      NothingTracked();
      return Ok(());
    }
    var users := TouchedUsers(tracked);
    if users == {} {
      return Ok(());
    }
    var activeByUser := map u | u in users :: Standing(rows, u);
    for i := 0 to |tracked|
      invariant activeByUser.Keys == users
      invariant forall j :: 0 <= j < i && Live(tracked[j]) ==> tracked[j].user != ""
      invariant forall u :: u in users ==> activeByUser[u] == Expected(rows, tracked, i, u)
    {
      TouchedHas(tracked, i);
      TouchedNamed(tracked);
      var taken := TakeInEverywhere(activeByUser, tracked, i);
      if taken.Err? {
        return Err(taken.error);
      }
      activeByUser := taken.value;
    }
    if exists u :: u in users && |activeByUser[u]| > 1 {
      return Err(MoreThanOneActive);
    }
    return Ok(());
  }

  lemma NothingTracked()
    ensures Touched([]) == {}
  {
  }

  lemma {:induction false} TouchedNamed(tracked: seq<Tracked>)
    ensures "" !in Touched(tracked)
  {
    if tracked != [] {
      TouchedNamed(tracked[..|tracked| - 1]);
    }
  }

  /** The markers of a user once the first `n` tracked memberships were taken in. */
  function Expected(rows: Rows, tracked: seq<Tracked>, n: nat, u: string): set<Marker>
    requires n <= |tracked|
  {
    if n == 0 then Standing(rows, u) else TakeIn(Expected(rows, tracked, n - 1, u), tracked, n - 1, u)
  }

  predicate Accepts(rows: Rows, tracked: seq<Tracked>) {
    var users := Touched(tracked);
    users == {} ||
    (&& (forall i :: 0 <= i < |tracked| && Live(tracked[i]) ==> tracked[i].user != "")
     && forall u :: u in users ==> |Expected(rows, tracked, |tracked|, u)| <= 1)
  }

  /** No two tracked memberships are one row: the session keeps one object per identity. */
  predicate DistinctIds(tracked: seq<Tracked>) {
    forall i, j :: 0 <= i < j < |tracked| && tracked[i].id.Some? ==> tracked[i].id != tracked[j].id
  }

  lemma {:induction false} TouchedHas(tracked: seq<Tracked>, i: nat)
    requires i < |tracked|
    ensures UsersOf(tracked[i]) <= Touched(tracked)
  {
    var n := |tracked| - 1;
    if i < n {
      TouchedHas(tracked[..n], i);
    }
  }

  // ---------- the rows after the flush ----------

  /** Ids the database gives to memberships that have none. */
  predicate FreshIds(rows: Rows, tracked: seq<Tracked>, ids: seq<string>) {
    && |ids| == |tracked|
    && (forall i :: 0 <= i < |ids| && tracked[i].id.None? ==> ids[i] !in rows && !HasId(tracked, ids[i]))
    && (forall i, j :: 0 <= i < j < |ids| && tracked[i].id.None? && tracked[j].id.None? ==> ids[i] != ids[j])
  }

  function IdAt(tracked: seq<Tracked>, ids: seq<string>, i: nat): string
    requires i < |tracked| == |ids|
  {
    if tracked[i].id.Some? then tracked[i].id.value else ids[i]
  }

  /** Untracked rows stay, deleted ones go, and every other tracked membership is written as it is. */
  ghost predicate IsFlushed(rows: Rows, tracked: seq<Tracked>, ids: seq<string>, after: Rows)
    requires |ids| == |tracked|
  {
    && (forall id :: id in rows && !HasId(tracked, id) ==> id in after && after[id] == rows[id])
    && (forall i :: 0 <= i < |tracked| && tracked[i].change != Deleted ==>
          IdAt(tracked, ids, i) in after && after[IdAt(tracked, ids, i)] == Row(tracked[i].user, tracked[i].active))
    && (forall id :: id in after ==>
          || (id in rows && !HasId(tracked, id))
          || exists i :: 0 <= i < |tracked| && tracked[i].change != Deleted && IdAt(tracked, ids, i) == id)
  }

  predicate IsActive(rows: Rows, id: string, u: string) {
    id in rows && rows[id].active && rows[id].user == u
  }

  /** No two active memberships of the user. */
  ghost predicate AtMostOne(rows: Rows, u: string) {
    forall a, b :: IsActive(rows, a, u) && IsActive(rows, b, u) ==> a == b
  }

  /** The markers are those of untracked active rows and of live tracked memberships. */
  predicate Marks(rows: Rows, tracked: seq<Tracked>, n: nat, u: string, m: Marker)
    requires n <= |tracked|
  {
    || (m.Stored? && IsActive(rows, m.id, u) && !HasId(tracked[..n], m.id))
    || exists i :: 0 <= i < n && Live(tracked[i]) && tracked[i].user == u && MarkerAt(tracked, i) == m
  }

  lemma {:induction false} ExpectedMarks(rows: Rows, tracked: seq<Tracked>, n: nat, u: string, m: Marker)
    requires n <= |tracked| && DistinctIds(tracked)
    ensures m in Expected(rows, tracked, n, u) <==> Marks(rows, tracked, n, u, m)
  {
    if n > 0 {
      ExpectedMarks(rows, tracked, n - 1, u, m);
      assert tracked[..n] == tracked[..n - 1] + [tracked[n - 1]];
      if m.Stored? {
        HasIdOneMore(tracked, n, m.id);
      }
      if i :| 0 <= i < n - 1 && Live(tracked[i]) && tracked[i].user == u && MarkerAt(tracked, i) == m {
        assert MarkerAt(tracked, i) != MarkerAt(tracked, n - 1);
      }
    }
  }

  lemma HasIdOneMore(tracked: seq<Tracked>, n: nat, id: string)
    requires 0 < n <= |tracked|
    ensures HasId(tracked[..n], id) <==> HasId(tracked[..n - 1], id) || tracked[n - 1].id == Some(id)
  {
    if HasId(tracked[..n - 1], id) {
      var i :| 0 <= i < n - 1 && tracked[..n - 1][i].id == Some(id);
      assert tracked[..n][i].id == Some(id);
    }
    if tracked[n - 1].id == Some(id) {
      assert tracked[..n][n - 1].id == Some(id);
    }
  }

  lemma AtMostOneElement<T>(s: set<T>)
    ensures |s| <= 1 <==> forall a, b :: a in s && b in s ==> a == b
  {
    if |s| > 1 {
      var a :| a in s;
      var rest := s - {a};
      assert |rest| == |s| - 1;
      var b :| b in rest;
      assert a != b;
    } else if s != {} {
      var a :| a in s;
      assert s - {a} == {} by {
        assert |s - {a}| == |s| - 1 == 0;
      }
    }
  }

  /** The id a marker's membership has after the flush. */
  function IdOf(ids: seq<string>, m: Marker): string {
    match m
    case Stored(id) => id
    case PendingAt(i) => if i < |ids| then ids[i] else ""
  }

  lemma MarkIsActive(rows: Rows, tracked: seq<Tracked>, ids: seq<string>, after: Rows, u: string, m: Marker)
    requires DistinctIds(tracked) && FreshIds(rows, tracked, ids) && IsFlushed(rows, tracked, ids, after)
    requires Marks(rows, tracked, |tracked|, u, m)
    ensures IsActive(after, IdOf(ids, m), u)
  {
    assert tracked[..|tracked|] == tracked;
  }

  lemma ActiveIsMark(rows: Rows, tracked: seq<Tracked>, ids: seq<string>, after: Rows, u: string, id: string)
    returns (m: Marker)
    requires DistinctIds(tracked) && FreshIds(rows, tracked, ids) && IsFlushed(rows, tracked, ids, after)
    requires IsActive(after, id, u)
    ensures Marks(rows, tracked, |tracked|, u, m) && IdOf(ids, m) == id
  {
    assert tracked[..|tracked|] == tracked;
    if id in rows && !HasId(tracked, id) {
      return Stored(id);
    }
    var i :| 0 <= i < |tracked| && tracked[i].change != Deleted && IdAt(tracked, ids, i) == id;
    return MarkerAt(tracked, i);
  }

  lemma MarksAreDistinct(rows: Rows, tracked: seq<Tracked>, ids: seq<string>, u: string, m: Marker, n: Marker)
    requires DistinctIds(tracked) && FreshIds(rows, tracked, ids)
    requires Marks(rows, tracked, |tracked|, u, m) && Marks(rows, tracked, |tracked|, u, n)
    requires IdOf(ids, m) == IdOf(ids, n)
    ensures m == n
  {
    assert tracked[..|tracked|] == tracked;
  }

  lemma CountsAgree(rows: Rows, tracked: seq<Tracked>, ids: seq<string>, after: Rows, u: string)
    requires DistinctIds(tracked) && FreshIds(rows, tracked, ids) && IsFlushed(rows, tracked, ids, after)
    ensures |Expected(rows, tracked, |tracked|, u)| <= 1 <==> AtMostOne(after, u)
  {
    var marks := Expected(rows, tracked, |tracked|, u);
    AtMostOneElement(marks);
    forall m ensures m in marks <==> Marks(rows, tracked, |tracked|, u, m) {
      ExpectedMarks(rows, tracked, |tracked|, u, m);
    }
    if |marks| <= 1 {
      forall a, b | IsActive(after, a, u) && IsActive(after, b, u) ensures a == b {
        var m := ActiveIsMark(rows, tracked, ids, after, u, a);
        var n := ActiveIsMark(rows, tracked, ids, after, u, b);
      }
    }
    if AtMostOne(after, u) {
      forall m, n | m in marks && n in marks ensures m == n {
        MarkIsActive(rows, tracked, ids, after, u, m);
        MarkIsActive(rows, tracked, ids, after, u, n);
        MarksAreDistinct(rows, tracked, ids, u, m, n);
      }
    }
  }

  /**
   The guard accepts a batch exactly when, after the flush, every user the batch touches has at most one active
   membership, moved, new and deleted ones included, and no live membership lacks its user.
   */
  lemma AcceptsExactlyWhen(rows: Rows, tracked: seq<Tracked>, ids: seq<string>, after: Rows)
    requires DistinctIds(tracked) && FreshIds(rows, tracked, ids) && IsFlushed(rows, tracked, ids, after)
    requires Touched(tracked) != {}
    ensures Accepts(rows, tracked) <==>
            && (forall i :: 0 <= i < |tracked| && Live(tracked[i]) ==> tracked[i].user != "")
            && (forall u :: u in Touched(tracked) ==> AtMostOne(after, u))
  {
    forall u | u in Touched(tracked)
      ensures |Expected(rows, tracked, |tracked|, u)| <= 1 <==> AtMostOne(after, u)
    {
      CountsAgree(rows, tracked, ids, after, u);
    }
  }

  // ---------- any number of flushes ----------

  lemma UntouchedStay(rows: Rows, tracked: seq<Tracked>, ids: seq<string>, after: Rows, u: string)
    requires FreshIds(rows, tracked, ids) && IsFlushed(rows, tracked, ids, after)
    requires u !in Touched(tracked) && u != "" && AtMostOne(rows, u)
    ensures AtMostOne(after, u)
  {
    forall id | IsActive(after, id, u) ensures IsActive(rows, id, u) {
      if i :| 0 <= i < |tracked| && tracked[i].change != Deleted && IdAt(tracked, ids, i) == id {
        TouchedHas(tracked, i);
      }
    }
  }

  /** One flush: refused by the guard, refused for want of a user, or written. */
  datatype Flush = Flush(tracked: seq<Tracked>, ids: seq<string>, after: Rows)

  ghost predicate IsRun(rows: Rows, flushes: seq<Flush>, end: Rows)
    decreases |flushes|
  {
    if flushes == [] then end == rows
    else
      var f := flushes[|flushes| - 1];
      exists before ::
        && IsRun(rows, flushes[..|flushes| - 1], before)
        && DistinctIds(f.tracked) && FreshIds(before, f.tracked, f.ids)
        && if Accepts(before, f.tracked) && (forall i :: 0 <= i < |f.tracked| ==> f.tracked[i].user != "") then
             IsFlushed(before, f.tracked, f.ids, f.after) && end == f.after
           else end == before
  }

  /** However many flushes there are, no user ever has two active memberships. */
  lemma {:induction false} NeverTwoActive(flushes: seq<Flush>, end: Rows, u: string)
    requires IsRun(map[], flushes, end) && u != ""
    ensures AtMostOne(end, u)
    decreases |flushes|
  {
    if flushes != [] {
      var f := flushes[|flushes| - 1];
      var before :|
        && IsRun(map[], flushes[..|flushes| - 1], before)
        && DistinctIds(f.tracked) && FreshIds(before, f.tracked, f.ids)
        && if Accepts(before, f.tracked) && (forall i :: 0 <= i < |f.tracked| ==> f.tracked[i].user != "") then
             IsFlushed(before, f.tracked, f.ids, f.after) && end == f.after
           else end == before;
      NeverTwoActive(flushes[..|flushes| - 1], before, u);
      if end != before {
        if u in Touched(f.tracked) {
          AcceptsExactlyWhen(before, f.tracked, f.ids, f.after);
        } else {
          UntouchedStay(before, f.tracked, f.ids, f.after, u);
        }
      }
    }
  }
}
