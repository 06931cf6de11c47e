/**
 * One database table whose rows belong to users, as every ledger router uses
 * it: rows are keyed by an autoincrement integer id, every row records its
 * owner, and a handler only ever sees a row through the query
 * `filter(id == ..., user_id == current_user.id).first()`.
 */
module Store {
  import opened Basics

  /** A stored row: the owning user's id and the record's own columns. */
  datatype Row<R> = Row(owner: int, data: R)

  /** The caller's rows with id in [0, n), as (id, record) pairs in increasing id order. */
  function Owned<R>(rows: map<int, Row<R>>, user: int, n: int): (r: seq<(int, R)>)
    ensures forall k :: 0 <= k < |r| ==>
      0 <= r[k].0 < n && r[k].0 in rows && rows[r[k].0] == Row(user, r[k].1)
    ensures forall id :: 0 <= id < n && id in rows && rows[id].owner == user ==>
      (id, rows[id].data) in r
    ensures forall k, l :: 0 <= k < l < |r| ==> r[k].0 < r[l].0
    decreases n
  {
    if n <= 0 then []
    else
      var id := n - 1;
      Owned(rows, user, id) + (if id in rows && rows[id].owner == user then [(id, rows[id].data)] else [])
  }

  /** The ids of a list of (id, record) pairs. */
  function IdsOf<R>(s: seq<(int, R)>): set<int>
  {
    if s == [] then {} else {s[0].0} + IdsOf(s[1..])
  }

  /** A list with strictly increasing ids has as many distinct ids as elements. */
  lemma {:induction false} IdsOfCount<R>(s: seq<(int, R)>)
    requires forall k, l :: 0 <= k < l < |s| ==> s[k].0 < s[l].0
    ensures |IdsOf(s)| == |s|
    ensures forall k :: 0 <= k < |s| ==> s[k].0 in IdsOf(s)
    ensures forall id :: id in IdsOf(s) ==> exists k :: 0 <= k < |s| && s[k].0 == id
  {
    if s != [] {
      var t := s[1..];
      assert forall k :: 0 <= k < |t| ==> t[k] == s[k + 1];
      IdsOfCount(t);
      forall k | 0 <= k < |t| ensures t[k].0 != s[0].0 {
        assert t[k] == s[k + 1];
      }
      assert s[0].0 !in IdsOf(t);
      forall id | id in IdsOf(s) ensures exists k :: 0 <= k < |s| && s[k].0 == id {
        if id != s[0].0 {
          var k :| 0 <= k < |t| && t[k].0 == id;
          assert s[k + 1].0 == id;
        }
      }
    }
  }

  /** When every id lies in [0, n), `Owned` lists exactly the caller's rows. */
  lemma OwnedMembers<R>(rows: map<int, Row<R>>, user: int, n: int)
    requires forall id :: id in rows ==> 0 <= id < n
    ensures forall id, x :: (id, x) in Owned(rows, user, n) <==> id in rows && rows[id] == Row(user, x)
  {
    var r := Owned(rows, user, n);
    forall id, x | (id, x) in r ensures id in rows && rows[id] == Row(user, x) {
      var k :| 0 <= k < |r| && r[k] == (id, x);
    }
  }

  /** A list that holds exactly the pairs of a set of ids, each id once, is as long as the set. */
  lemma IdsCount<R>(r: seq<(int, R)>, ids: set<int>)
    requires forall k, l :: 0 <= k < l < |r| ==> r[k].0 < r[l].0
    requires forall k :: 0 <= k < |r| ==> r[k].0 in ids
    requires forall id :: id in ids ==> exists k :: 0 <= k < |r| && r[k].0 == id
    ensures |r| == |ids|
  {
    IdsOfCount(r);
    forall id | id in ids ensures id in IdsOf(r) {
      var k :| 0 <= k < |r| && r[k].0 == id;
    }
    forall id | id in IdsOf(r) ensures id in ids {
      var k :| 0 <= k < |r| && r[k].0 == id;
    }
    assert IdsOf(r) == ids;
  }

  /** When every id lies in [0, n), `Owned` lists each of the caller's rows once, and nothing else. */
  lemma OwnedComplete<R>(rows: map<int, Row<R>>, user: int, n: int)
    requires forall id :: id in rows ==> 0 <= id < n
    ensures forall id, x :: (id, x) in Owned(rows, user, n) <==> id in rows && rows[id] == Row(user, x)
    ensures |Owned(rows, user, n)| == |set id | id in rows && rows[id].owner == user|
  {
    var r := Owned(rows, user, n);
    OwnedMembers(rows, user, n);
    var ids := set id | id in rows && rows[id].owner == user;
    forall id | id in ids ensures exists k :: 0 <= k < |r| && r[k].0 == id {
      assert (id, rows[id].data) in r;
    }
    IdsCount(r, ids);
  }

  /** Two tables that agree on one user's rows give that user the same view. */
  lemma {:induction false} OwnedDependsOnlyOnOwner<R>(rows1: map<int, Row<R>>, rows2: map<int, Row<R>>, user: int, n: int)
    requires forall id :: 0 <= id < n ==>
      ((id in rows1 && rows1[id].owner == user) <==> (id in rows2 && rows2[id].owner == user))
    requires forall id :: 0 <= id < n && id in rows1 && rows1[id].owner == user ==> rows1[id] == rows2[id]
    ensures Owned(rows1, user, n) == Owned(rows2, user, n)
    decreases n
  {
    if n > 0 {
      OwnedDependsOnlyOnOwner(rows1, rows2, user, n - 1);
    }
  }

  /** Adding the row with the next id appends it to its owner's view and leaves every other user's view as it was. */
  lemma {:induction false} OwnedAfterAdd<R>(rows: map<int, Row<R>>, n: int, owner: int, x: R, user: int)
    requires n >= 0
    requires forall id :: id in rows ==> id < n
    ensures Owned(rows[n := Row(owner, x)], user, n + 1)
         == Owned(rows, user, n) + (if owner == user then [(n, x)] else [])
  {
    var rows' := rows[n := Row(owner, x)];
    OwnedDependsOnlyOnOwner(rows', rows, user, n);
  }

  /** A table of owned rows. `nextId` is the id the next insertion receives. */
  class Table<R(!new)> {
    var rows: map<int, Row<R>>
    var nextId: int

    /** Every stored id was handed out before: ids start at 1 and stay below `nextId`. */
    ghost predicate Valid()
      reads this
    {
      nextId >= 1 && forall id :: id in rows ==> 1 <= id < nextId
    }

    constructor ()
      ensures Valid() && rows == map[] && nextId == 1
    {
      rows := map[];
      nextId := 1;
    }

    /** The ids of the caller's rows. */
    function OwnedIds(user: int): set<int>
      reads this
    {
      set id | id in rows && rows[id].owner == user
    }

    /** All of the caller's rows, each once, in id order. */
    function OwnedBy(user: int): (r: seq<(int, R)>)
      reads this
      requires Valid()
      ensures forall id, x :: (id, x) in r <==> id in rows && rows[id] == Row(user, x)
      ensures forall k, l :: 0 <= k < l < |r| ==> r[k].0 < r[l].0
      ensures |r| == |OwnedIds(user)|
    {
      OwnedComplete(rows, user, nextId);
      Owned(rows, user, nextId)
    }

    /** The row `id` if it exists and belongs to `user`: absent and foreign ids look the same. */
    function Find(user: int, id: int): (r: Option<R>)
      reads this
      ensures r.Some? <==> id in rows && rows[id].owner == user
      ensures r.Some? ==> rows[id] == Row(user, r.value)
    {
      if id in rows && rows[id].owner == user then Some(rows[id].data) else None
    }

    /** `db.add` + `commit` of a new row: it receives the next id. */
    method Add(user: int, x: R) returns (id: int)
      requires Valid()
      modifies this
      ensures Valid()
      ensures id == old(nextId) && id !in old(rows)
      ensures rows == old(rows)[id := Row(user, x)] && nextId == old(nextId) + 1
    {
      id := nextId;
      rows := rows[id := Row(user, x)];
      nextId := nextId + 1;
    }

    /** `commit` of an in-place change of an existing row's columns; the owner is kept. */
    method Put(id: int, x: R)
      requires Valid() && id in rows
      modifies this
      ensures Valid() && nextId == old(nextId)
      ensures rows == old(rows)[id := Row(old(rows)[id].owner, x)]
    {
      rows := rows[id := Row(rows[id].owner, x)];
    }

    /** `db.delete` + `commit`. */
    method Remove(id: int)
      requires Valid()
      modifies this
      ensures Valid() && nextId == old(nextId)
      ensures rows == old(rows) - {id}
    {
      rows := rows - {id};
    }
  }
}
