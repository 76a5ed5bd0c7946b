/** The order of a project's issues (internal/db/issue.go): reordering, adding at the end,
    and what any listing then shows. */
module IssueBoard {
  import opened Wrappers

  datatype Issue = Issue(project: string, sortOrder: int, createdAt: int)

  type Table = map<string, Issue>

  predicate InProject(rows: Table, project: string, id: string) {
    id in rows && rows[id].project == project
  }

  // ---- listing ----

  /** ORDER BY sort_order, created_at: the second row is not before the first. */
  predicate InOrder(a: Issue, b: Issue) {
    a.sortOrder < b.sortOrder || (a.sortOrder == b.sortOrder && a.createdAt <= b.createdAt)
  }

  predicate AllIn(rows: Table, list: seq<string>) {
    forall i :: 0 <= i < |list| ==> list[i] in rows
  }

  predicate Sorted(rows: Table, list: seq<string>)
    requires AllIn(rows, list)
  {
    forall i, j :: 0 <= i < j < |list| ==> InOrder(rows[list[i]], rows[list[j]])
  }

  /** A result the query may return: rows equal in both columns come in any order. */
  ghost predicate IsListing(rows: Table, project: string, list: seq<string>) {
    && Distinct(list)
    && (forall id :: id in list <==> InProject(rows, project, id))
    && AllIn(rows, list) && Sorted(rows, list)
  }

  function PlaceFor(rows: Table, list: seq<string>, id: string): (n: nat)
    requires id in rows && AllIn(rows, list)
    ensures n <= |list|
    ensures forall i :: 0 <= i < n ==> InOrder(rows[list[i]], rows[id])
    ensures n < |list| ==> !InOrder(rows[list[n]], rows[id])
  {
    if list == [] || !InOrder(rows[list[0]], rows[id]) then 0 else 1 + PlaceFor(rows, list[1..], id)
  }

  function Inserted(list: seq<string>, n: nat, id: string): (more: seq<string>)
    requires n <= |list|
    ensures |more| == |list| + 1
    ensures forall i :: 0 <= i < |more| ==> more[i] == if i < n then list[i] else if i == n then id else list[i - 1]
  {
    list[..n] + [id] + list[n..]
  }

  lemma InsertedMembers(list: seq<string>, n: nat, id: string)
    requires n <= |list| && Distinct(list) && id !in list
    ensures Distinct(Inserted(list, n, id)) && forall x :: x in Inserted(list, n, id) <==> x in list || x == id
  {
    var more := Inserted(list, n, id);
    forall x ensures x in more <==> x in list || x == id {
      if x == id {
        assert more[n] == x;
      } else if i :| 0 <= i < |list| && list[i] == x {
        assert more[if i < n then i else i + 1] == x;
      }
    }
  }

  lemma InsertedPair(rows: Table, list: seq<string>, id: string, n: nat, i: nat, j: nat)
    requires id in rows && AllIn(rows, list) && Sorted(rows, list) && n <= |list|
    requires forall k :: 0 <= k < n ==> InOrder(rows[list[k]], rows[id])
    requires n < |list| ==> !InOrder(rows[list[n]], rows[id])
    requires i < j <= |list|
    ensures var more := Inserted(list, n, id);
            more[i] in rows && more[j] in rows && InOrder(rows[more[i]], rows[more[j]])
  {
    if i == n {
      assert j - 1 > n ==> InOrder(rows[list[n]], rows[list[j - 1]]);
    }
  }

  lemma InsertSorted(rows: Table, list: seq<string>, id: string)
    requires id in rows && AllIn(rows, list) && Sorted(rows, list)
    ensures var more := Inserted(list, PlaceFor(rows, list, id), id); AllIn(rows, more) && Sorted(rows, more)
  {
    var n := PlaceFor(rows, list, id);
    var more := Inserted(list, n, id);
    assert AllIn(rows, more);
    forall i, j | 0 <= i < j < |more| ensures InOrder(rows[more[i]], rows[more[j]]) {
      InsertedPair(rows, list, id, n, i, j);
    }
  }

  lemma {:induction false} ListingOf(rows: Table, ids: set<string>) returns (list: seq<string>)
    requires ids <= rows.Keys
    ensures Distinct(list) && (forall id :: id in list <==> id in ids)
    ensures AllIn(rows, list) && Sorted(rows, list)
    decreases ids
  {
    if ids == {} {
      list := [];
    } else {
      var id :| id in ids;
      var rest := ListingOf(rows, ids - {id});
      InsertSorted(rows, rest, id);
      InsertedMembers(rest, PlaceFor(rows, rest, id), id);
      list := Inserted(rest, PlaceFor(rows, rest, id), id);
    }
  }

  /** There is always a listing. */
  lemma ListingExists(rows: Table, project: string)
    ensures exists list :: IsListing(rows, project, list)
  {
    var list := ListingOf(rows, set id | id in rows && rows[id].project == project);
    assert IsListing(rows, project, list);
  }

  /** In a listing an issue never stands before one of smaller sort order, nor before an older
      one of the same. */
  lemma ListedByOrderAndAge(rows: Table, project: string, list: seq<string>, i: nat, j: nat)
    requires IsListing(rows, project, list) && i < j < |list|
    ensures list[i] in rows && list[j] in rows
    ensures rows[list[i]].sortOrder <= rows[list[j]].sortOrder
    ensures rows[list[i]].sortOrder == rows[list[j]].sortOrder ==> rows[list[i]].createdAt <= rows[list[j]].createdAt
  {
    assert InOrder(rows[list[i]], rows[list[j]]);
  }

  // ---- reordering ----

  function LastIndex(ids: seq<string>, id: string): (n: Option<nat>)
    ensures n.None? <==> id !in ids
    ensures n.Some? ==> n.value < |ids| && ids[n.value] == id && forall i :: n.value < i < |ids| ==> ids[i] != id
  {
    if ids == [] then None
    else if ids[|ids| - 1] == id then Some(|ids| - 1)
    else LastIndex(ids[..|ids| - 1], id)
  }

  /** An issue of the project that is listed gets the last place it is listed at; every
      other row stays. */
  function Reordered(rows: Table, project: string, ids: seq<string>): Table {
    map id | id in rows ::
      if rows[id].project == project && id in ids then rows[id].(sortOrder := LastIndex(ids, id).value) else rows[id]
  }

  lemma OrderAt(rows: Table, project: string, list: seq<string>, i: nat, j: nat)
    requires IsListing(rows, project, list) && i < j < |list|
    ensures InProject(rows, project, list[i]) && InProject(rows, project, list[j])
    ensures list[i] != list[j] && InOrder(rows[list[i]], rows[list[j]])
  {
    assert list[i] in list && list[j] in list;
  }

  lemma ReorderedAt(rows: Table, project: string, ids: seq<string>, id: string)
    requires InProject(Reordered(rows, project, ids), project, id) && id in ids
    ensures Reordered(rows, project, ids)[id].sortOrder == LastIndex(ids, id).value
  {
  }

  /** In any listing after a reorder, two listed issues of the project stand in the order of
      their last places in the list, whatever rows were left out of it. */
  lemma ListedInOrder(rows: Table, project: string, ids: seq<string>, list: seq<string>, i: nat, j: nat)
    requires IsListing(Reordered(rows, project, ids), project, list)
    requires i < j < |list| && list[i] in ids && list[j] in ids
    ensures LastIndex(ids, list[i]).value < LastIndex(ids, list[j]).value
  {
    OrderAt(Reordered(rows, project, ids), project, list, i, j);
    ReorderedAt(rows, project, ids, list[i]);
    ReorderedAt(rows, project, ids, list[j]);
  }

  lemma LastOfDistinct(ids: seq<string>, k: nat)
    requires Distinct(ids) && k < |ids|
    ensures LastIndex(ids, ids[k]) == Some(k)
  {
    assert ids[k] in ids;
  }

  /** The listed issues that are the project's. */
  function Own(rows: Table, project: string, ids: seq<string>): seq<string> {
    if ids == [] then []
    else
      var last := ids[|ids| - 1];
      Own(rows, project, ids[..|ids| - 1]) + if InProject(rows, project, last) then [last] else []
  }

  ghost predicate ByOrder(rows: Table, ids: seq<string>) {
    && (forall i :: 0 <= i < |ids| ==> ids[i] in rows)
    && (forall i, j :: 0 <= i < j < |ids| ==> rows[ids[i]].sortOrder < rows[ids[j]].sortOrder)
  }

  lemma ByOrderHead(rows: Table, ids: seq<string>, id: string)
    requires ByOrder(rows, ids) && ids != [] && id in ids && id != ids[0]
    ensures rows[ids[0]].sortOrder < rows[id].sortOrder
  {
  }

  /** A list with strictly growing sort orders is determined by its elements. */
  lemma {:induction false} ByOrderUnique(rows: Table, a: seq<string>, b: seq<string>)
    requires ByOrder(rows, a) && ByOrder(rows, b) && forall id :: id in a <==> id in b
    ensures a == b
  {
    assert b != [] ==> b[0] in b;
    if a != [] {
      assert a[0] in b;
      assert b[0] in a;
      if a[0] != b[0] {
        ByOrderHead(rows, a, b[0]);
        ByOrderHead(rows, b, a[0]);
        assert false;
      }
      forall id ensures id in a[1..] <==> id in b[1..] {
        assert id in a <==> id == a[0] || id in a[1..];
        assert id in b <==> id == b[0] || id in b[1..];
      }
      ByOrderUnique(rows, a[1..], b[1..]);
    }
  }

  lemma {:induction false} OwnMembers(rows: Table, project: string, ids: seq<string>, id: string)
    ensures id in Own(rows, project, ids) <==> id in ids && InProject(rows, project, id)
  {
    if ids != [] {
      OwnMembers(rows, project, ids[..|ids| - 1], id);
      assert ids == ids[..|ids| - 1] + [ids[|ids| - 1]];
    }
  }

  ghost predicate ByOrderBelow(rows: Table, ids: seq<string>, n: int) {
    ByOrder(rows, ids) && forall i :: 0 <= i < |ids| ==> rows[ids[i]].sortOrder < n
  }

  lemma ByOrderMore(rows: Table, ids: seq<string>, id: string, n: int)
    requires ByOrderBelow(rows, ids, n) && id in rows && rows[id].sortOrder == n
    ensures ByOrderBelow(rows, ids + [id], n + 1)
  {
  }

  /** The own ids of the first n in a duplicate-free list have growing places below n. */
  lemma {:induction false} OwnByOrder(rows: Table, project: string, ids: seq<string>, n: nat)
    requires Distinct(ids) && n <= |ids|
    ensures var after := Reordered(rows, project, ids);
            var own := Own(rows, project, ids[..n]);
            ByOrderBelow(after, own, n)
  {
    if n > 0 {
      OwnByOrder(rows, project, ids, n - 1);
      assert ids[..n][..n - 1] == ids[..n - 1];
      var after, id := Reordered(rows, project, ids), ids[n - 1];
      if InProject(rows, project, id) {
        LastOfDistinct(ids, n - 1);
        assert id in ids;
        ByOrderMore(after, Own(rows, project, ids[..n - 1]), id, n - 1);
      }
    }
  }

  lemma ListingByOrder(rows: Table, project: string, ids: seq<string>, list: seq<string>)
    requires IsListing(Reordered(rows, project, ids), project, list)
    requires forall id :: InProject(rows, project, id) ==> id in ids
    ensures ByOrder(Reordered(rows, project, ids), list)
  {
    var after := Reordered(rows, project, ids);
    forall i, j | 0 <= i < j < |list| ensures after[list[i]].sortOrder < after[list[j]].sortOrder {
      assert list[i] in list && list[j] in list;
      assert InProject(after, project, list[i]) && InProject(after, project, list[j]);
      assert InProject(rows, project, list[i]) && InProject(rows, project, list[j]);
      ListedInOrder(rows, project, ids, list, i, j);
    }
  }

  /** When a duplicate-free list covers the project, every listing is that list, without
      the ids that are not the project's. */
  lemma CoveringListIsTheOrder(rows: Table, project: string, ids: seq<string>, list: seq<string>)
    requires Distinct(ids) && forall id :: InProject(rows, project, id) ==> id in ids
    requires IsListing(Reordered(rows, project, ids), project, list)
    ensures list == Own(rows, project, ids)
  {
    var after := Reordered(rows, project, ids);
    OwnByOrder(rows, project, ids, |ids|);
    assert ids[..|ids|] == ids;
    forall id ensures id in list <==> id in Own(rows, project, ids) {
      OwnMembers(rows, project, ids, id);
      assert InProject(after, project, id) <==> InProject(rows, project, id);
    }
    assert ByOrder(after, list) by { ListingByOrder(rows, project, ids, list); }
    ByOrderUnique(after, list, Own(rows, project, ids));
  }

  /** Exactly the list, when it is exactly the project. */
  lemma {:induction false} OwnIsAll(rows: Table, project: string, ids: seq<string>)
    ensures Own(rows, project, ids) == ids <==> forall i :: 0 <= i < |ids| ==> InProject(rows, project, ids[i])
    ensures |Own(rows, project, ids)| <= |ids|
  {
    if ids != [] {
      var front := ids[..|ids| - 1];
      OwnIsAll(rows, project, front);
      assert ids == front + [ids[|ids| - 1]];
      assert forall i :: 0 <= i < |front| ==> front[i] == ids[i];
      if InProject(rows, project, ids[|ids| - 1]) {
        var own := Own(rows, project, front);
        assert (own + [ids[|ids| - 1]])[..|own|] == own;
      }
    }
  }

  /** Rows outside the project or the list keep everything; nothing but the order changes. */
  lemma OthersStay(rows: Table, project: string, ids: seq<string>, id: string)
    requires id in rows
    ensures var after := Reordered(rows, project, ids);
            && after.Keys == rows.Keys
            && after[id].(sortOrder := rows[id].sortOrder) == rows[id]
            && (rows[id].project != project || id !in ids ==> after[id] == rows[id])
  {
  }

  // ---- adding ----

  /** One more than the highest sort order of the project; 0 when it has no issues. */
  ghost predicate IsNextOrder(rows: Table, project: string, next: int) {
    && (forall id :: InProject(rows, project, id) ==> rows[id].sortOrder < next)
    && (next == 0 || exists id :: InProject(rows, project, id) && rows[id].sortOrder == next - 1)
    && ((forall id :: !InProject(rows, project, id)) ==> next == 0)
  }

  /** Nothing of the project is at or after the new issue. */
  lemma NewIsAfter(rows: Table, id: string, issue: Issue, other: string)
    requires id !in rows && IsNextOrder(rows, issue.project, issue.sortOrder)
    requires InProject(rows[id := issue], issue.project, other) && other != id
    ensures !InOrder(issue, rows[other])
  {
    assert InProject(rows, issue.project, other);
  }

  lemma NewIsAt(rows: Table, id: string, issue: Issue, list: seq<string>, k: nat)
    requires id !in rows && IsNextOrder(rows, issue.project, issue.sortOrder)
    requires IsListing(rows[id := issue], issue.project, list) && k < |list| && list[k] == id
    ensures k == |list| - 1
  {
    if k < |list| - 1 {
      OrderAt(rows[id := issue], issue.project, list, k, |list| - 1);
      NewIsAfter(rows, id, issue, list[|list| - 1]);
      assert false;
    }
  }

  lemma WithoutNew(rows: Table, id: string, issue: Issue, front: seq<string>)
    requires id !in rows && IsListing(rows[id := issue], issue.project, front + [id])
    ensures IsListing(rows, issue.project, front)
  {
    var after, project, list := rows[id := issue], issue.project, front + [id];
    assert list[|front|] == id;
    forall i | 0 <= i < |front| ensures list[i] == front[i] != id && InProject(rows, project, front[i]) {
      OrderAt(after, project, list, i, |front|);
    }
    forall x ensures x in front <==> InProject(rows, project, x) {
      assert x in list <==> x in front || x == id;
      assert x != id ==> (InProject(after, project, x) <==> InProject(rows, project, x));
    }
    forall i, j | 0 <= i < j < |front| ensures front[i] != front[j] && InOrder(rows[front[i]], rows[front[j]]) {
      OrderAt(after, project, list, i, j);
    }
  }

  /** A new issue is last in every listing, and the others keep their listing. */
  lemma NewIssueIsLast(rows: Table, id: string, issue: Issue, list: seq<string>)
    requires id !in rows && IsNextOrder(rows, issue.project, issue.sortOrder)
    requires IsListing(rows[id := issue], issue.project, list)
    ensures list != [] && list[|list| - 1] == id && IsListing(rows, issue.project, list[..|list| - 1])
  {
    assert InProject(rows[id := issue], issue.project, id);
    var k :| 0 <= k < |list| && list[k] == id;
    NewIsAt(rows, id, issue, list, k);
    assert list == list[..k] + [id];
    WithoutNew(rows, id, issue, list[..k]);
  }

  // ---- the code ----

  class IssueTable {
    var rows: Table

    constructor ()
      ensures rows == map[]
    {
      rows := map[];
    }

    /** SELECT COALESCE(MAX(sort_order), -1) + 1: one pass over the rows. */
    method NextOrder(project: string) returns (next: int)
      ensures IsNextOrder(rows, project, next)
    {
      var highest: Option<int> := None;
      var left := rows.Keys;
      while left != {}
        invariant left <= rows.Keys
        invariant highest.None? ==> forall id :: InProject(rows, project, id) ==> id in left
        invariant highest.Some? ==> exists id :: InProject(rows, project, id) && rows[id].sortOrder == highest.value
        invariant highest.Some? ==>
                    forall id :: InProject(rows, project, id) && id !in left ==> rows[id].sortOrder <= highest.value
        decreases left
      {
        var id :| id in left;
        left := left - {id};
        if rows[id].project == project && (highest.None? || rows[id].sortOrder > highest.value) {
          assert InProject(rows, project, id);
          highest := Some(rows[id].sortOrder);
        }
      }
      next := (if highest.None? then -1 else highest.value) + 1;
    }

    /** The fresh id and the clock are given; `fails` is a refused insert. */
    method CreateIssue(id: string, project: string, now: int, fails: bool) returns (ok: bool)
      requires id !in rows
      modifies this
      ensures ok == !fails
      ensures ok ==> id in rows && rows == old(rows)[id := rows[id]]
      ensures ok ==> rows[id].project == project && rows[id].createdAt == now
      ensures ok ==> IsNextOrder(old(rows), project, rows[id].sortOrder)
      ensures !ok ==> rows == old(rows)
    {
      var order := NextOrder(project);
      if fails {
        return false;
      }
      rows := rows[id := Issue(project, order, now)];
      return true;
    }

    /** One transaction; `failAt` is the statement that fails, and at the end of the list
        it is the commit. */
    method ReorderIssues(project: string, ids: seq<string>, failAt: Option<nat>) returns (ok: bool)
      modifies this
      ensures ok == (failAt.None? || failAt.value > |ids|)
      ensures rows == if ok then Reordered(old(rows), project, ids) else old(rows)
    {
      var before := rows;
      for i := 0 to |ids|
        invariant rows == Reordered(before, project, ids[..i])
        invariant failAt.None? || failAt.value >= i
      {
        if failAt == Some(i) {
          rows := before;
          return false;
        }
        var id := ids[i];
        OneMore(before, project, ids, i);
        if id in rows && rows[id].project == project {
          rows := rows[id := rows[id].(sortOrder := i)];
        }
      }
      assert ids[..|ids|] == ids;
      if failAt == Some(|ids|) {
        rows := before;
        return false;
      }
      return true;
    }
  }

  lemma OneMore(rows: Table, project: string, ids: seq<string>, i: nat)
    requires i < |ids|
    ensures var was := Reordered(rows, project, ids[..i]);
            Reordered(rows, project, ids[..i + 1]) ==
            if InProject(was, project, ids[i]) then was[ids[i] := was[ids[i]].(sortOrder := i)] else was
  {
    var was, now := Reordered(rows, project, ids[..i]), Reordered(rows, project, ids[..i + 1]);
    assert ids[..i + 1][..i] == ids[..i];
    assert ids[..i + 1] == ids[..i] + [ids[i]];
  }
}
