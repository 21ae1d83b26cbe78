// BaseRepository<T>: the generic reads (all of which see only rows that are
// not soft-deleted) and the generic writes (add, update with an UpdatedAt
// stamp, soft delete by entity or by id) over one entity set.

module BaseRepository {
  import opened Wrappers
  import opened Calendar
  import opened Persistence
  import opened Ordering

  /** `GetAsync(predicate)`: the live rows satisfying `p`, in table order. */
  function Get<T>(rows: seq<Row<T>>, p: Row<T> -> bool): (r: seq<Row<T>>)
    ensures |r| <= |rows|
    ensures forall k :: 0 <= k < |r| ==> r[k] in rows && Visible(r[k]) && p(r[k])
    ensures forall k :: 0 <= k < |rows| && Visible(rows[k]) && p(rows[k]) ==> rows[k] in r
  {
    if rows == [] then []
    else (if Visible(rows[0]) && p(rows[0]) then [rows[0]] else []) + Get(rows[1..], p)
  }

  /** A query no live row satisfies returns nothing. */
  lemma {:induction false} GetNone<T>(rows: seq<Row<T>>, p: Row<T> -> bool)
    requires forall k :: 0 <= k < |rows| ==> !(Visible(rows[k]) && p(rows[k]))
    ensures Get(rows, p) == []
  {
    if rows != [] {
      assert forall k :: 0 <= k < |rows| - 1 ==> rows[1..][k] == rows[k + 1];
      GetNone(rows[1..], p);
    }
  }

  /** `GetAllAsync()`: every live row. */
  function GetAll<T>(rows: seq<Row<T>>): (r: seq<Row<T>>)
    ensures forall k :: 0 <= k < |r| ==> r[k] in rows && Visible(r[k])
    ensures forall k :: 0 <= k < |rows| && Visible(rows[k]) ==> rows[k] in r
  {
    Get(rows, _ => true)
  }

  /** `GetAsync(predicate, orderBy)`: the live rows satisfying `p`, ordered by `le`. */
  function GetOrdered<T>(rows: seq<Row<T>>, p: Row<T> -> bool, le: (Row<T>, Row<T>) -> bool): (r: seq<Row<T>>)
    ensures multiset(r) == multiset(Get(rows, p))
  {
    SortBy(Get(rows, p), le)
  }

  /** Membership in a query result: exactly the live rows of the table that satisfy `p`. */
  lemma GetMembers<T>(rows: seq<Row<T>>, p: Row<T> -> bool, x: Row<T>)
    ensures x in Get(rows, p) <==> x in rows && Visible(x) && p(x)
  {
    var r := Get(rows, p);
    if x in r {
      var k :| 0 <= k < |r| && r[k] == x;
    }
    if x in rows && Visible(x) && p(x) {
      var k :| 0 <= k < |rows| && rows[k] == x;
    }
  }

  /** An ordered query holds exactly the live rows that satisfy `p`, sorted by a valid `OrderBy` comparison. */
  lemma GetOrderedSpec<T(!new)>(rows: seq<Row<T>>, p: Row<T> -> bool, le: (Row<T>, Row<T>) -> bool)
    requires TotalPreorder(le)
    ensures Sorted(GetOrdered(rows, p, le), le)
    ensures forall x {:trigger x in GetOrdered(rows, p, le)} :: x in GetOrdered(rows, p, le) <==> x in rows && Visible(x) && p(x)
  {
    SortBySorted(Get(rows, p), le);
    forall x ensures x in GetOrdered(rows, p, le) <==> x in rows && Visible(x) && p(x) {
      assert x in GetOrdered(rows, p, le) <==> x in multiset(GetOrdered(rows, p, le));
      assert x in Get(rows, p) <==> x in multiset(Get(rows, p));
      GetMembers(rows, p, x);
    }
  }

  /** The position of the first live row satisfying `p`: where `FirstOrDefault` finds its row. */
  function FirstIndex<T>(rows: seq<Row<T>>, p: Row<T> -> bool): (r: Option<nat>)
    ensures r.Some? ==> r.value < |rows| && Visible(rows[r.value]) && p(rows[r.value])
    ensures r.Some? ==> forall k :: 0 <= k < r.value ==> !(Visible(rows[k]) && p(rows[k]))
    ensures r.None? ==> forall k :: 0 <= k < |rows| ==> !(Visible(rows[k]) && p(rows[k]))
  {
    if rows == [] then None
    else if Visible(rows[0]) && p(rows[0]) then Some(0)
    else match FirstIndex(rows[1..], p)
      case None => None
      case Some(k) => Some(k + 1)
  }

  /** `FirstOrDefault` over a query's result is the row at `FirstIndex`, and it is missing exactly when the query is empty. */
  lemma {:induction false} FirstIndexIsHead<T>(rows: seq<Row<T>>, p: Row<T> -> bool)
    ensures FirstIndex(rows, p).None? <==> Get(rows, p) == []
    ensures FirstIndex(rows, p).Some? ==> Get(rows, p)[0] == rows[FirstIndex(rows, p).value]
  {
    if rows != [] && !(Visible(rows[0]) && p(rows[0])) {
      FirstIndexIsHead(rows[1..], p);
    }
  }

  /** `FirstOrDefaultAsync(e => e.Id == id && !e.IsDeleted)`. */
  function GetById<T>(rows: seq<Row<T>>, id: int): (r: Option<Row<T>>)
    ensures r.Some? ==> r.value in rows && Visible(r.value) && r.value.id == id
    ensures r.None? ==> forall k :: 0 <= k < |rows| && Visible(rows[k]) ==> rows[k].id != id
  {
    match FirstIndex(rows, (x: Row<T>) => x.id == id)
    case None => None
    case Some(k) => Some(rows[k])
  }

  /** The index of the row with identity `id` when there is one: ids are unique, so at most one. */
  function IndexOfId<T>(rows: seq<Row<T>>, id: int): (r: Option<nat>)
    ensures r.Some? ==> r.value < |rows| && rows[r.value].id == id
    ensures r.None? ==> forall k :: 0 <= k < |rows| ==> rows[k].id != id
  {
    if rows == [] then None
    else if rows[0].id == id then Some(0)
    else match IndexOfId(rows[1..], id)
      case None => None
      case Some(k) => Some(k + 1)
  }

  /** `UpdateAsync(entity)`: the changed entity gets UpdatedAt = now and its entry is marked Modified. */
  method Update<T>(s: DbSet<T>, i: nat, e: T, now: Ticks)
    requires s.Valid() && i < |s.rows|
    modifies s
    ensures s.Valid() && s.nextId == old(s.nextId)
    ensures s.rows == old(s.rows)[i := old(s.rows)[i].(entity := e, updatedAt := Some(now))]
    ensures s.states == old(s.states)[i := Modified]
  {
    s.SetModified(i, s.rows[i].(entity := e, updatedAt := Some(now)));
  }

  /** `DeleteAsync(entity)`: soft delete, IsDeleted = true and UpdatedAt = now, entry Modified. */
  method Delete<T>(s: DbSet<T>, i: nat, now: Ticks)
    requires s.Valid() && i < |s.rows|
    modifies s
    ensures s.Valid() && s.nextId == old(s.nextId)
    ensures s.rows == old(s.rows)[i := old(s.rows)[i].(isDeleted := true, updatedAt := Some(now))]
    ensures s.states == old(s.states)[i := Modified]
  {
    s.SetModified(i, s.rows[i].(isDeleted := true, updatedAt := Some(now)));
  }

  /** `DeleteAsync(id)`: soft-deletes the row with that id when it exists and is live; otherwise nothing changes. */
  method DeleteById<T>(s: DbSet<T>, id: int, now: Ticks)
    requires s.Valid()
    modifies s
    ensures s.Valid() && s.nextId == old(s.nextId)
    ensures match IndexOfId(old(s.rows), id)
      case Some(i) =>
        if Visible(old(s.rows)[i]) then
          s.rows == old(s.rows)[i := old(s.rows)[i].(isDeleted := true, updatedAt := Some(now))]
          && s.states == old(s.states)[i := Modified]
        else s.rows == old(s.rows) && s.states == old(s.states)
      case None => s.rows == old(s.rows) && s.states == old(s.states)
  {
    var found := IndexOfId(s.rows, id);
    if found.Some? && Visible(s.rows[found.value]) {
      Delete(s, found.value, now);
    }
  }

  /** After a soft delete, the row is gone from every read, and the reads of other ids are unaffected. */
  lemma {:induction false} DeletedIsHidden<T>(rows: seq<Row<T>>, i: nat, now: Ticks, id: int)
    requires i < |rows| && UniqueIds(rows)
    ensures GetById(rows[i := rows[i].(isDeleted := true, updatedAt := Some(now))], rows[i].id) == None
    ensures id != rows[i].id ==> GetById(rows[i := rows[i].(isDeleted := true, updatedAt := Some(now))], id) == GetById(rows, id)
  {
    var after := rows[i := rows[i].(isDeleted := true, updatedAt := Some(now))];
    var p := (x: Row<T>) => x.id == id;
    if id != rows[i].id {
      FirstIndexUnaffected(rows, after, p, i);
    }
  }

  /** Replacing a row the predicate rejects before and after leaves the first match where it was. */
  lemma {:induction false} FirstIndexUnaffected<T>(rows: seq<Row<T>>, after: seq<Row<T>>, p: Row<T> -> bool, i: nat)
    requires |after| == |rows| && i < |rows|
    requires forall k :: 0 <= k < |rows| && k != i ==> after[k] == rows[k]
    requires !p(rows[i]) && !p(after[i])
    ensures FirstIndex(after, p) == FirstIndex(rows, p)
    ensures FirstIndex(after, p).Some? ==> after[FirstIndex(after, p).value] == rows[FirstIndex(rows, p).value]
  {
    if i > 0 {
      assert after[0] == rows[0];
      if !(Visible(rows[0]) && p(rows[0])) {
        FirstIndexUnaffected(rows[1..], after[1..], p, i - 1);
      }
    } else if |rows| > 1 {
      assert after[1..] == rows[1..];
    }
  }

  /** Adding a row to the table adds it at the end of every query it satisfies, and changes no other query. */
  lemma {:induction false} GetAppend<T>(rows: seq<Row<T>>, x: Row<T>, p: Row<T> -> bool)
    ensures Get(rows + [x], p) == Get(rows, p) + (if Visible(x) && p(x) then [x] else [])
  {
    if rows == [] {
      assert rows + [x] == [x];
    } else {
      assert (rows + [x])[1..] == rows[1..] + [x];
      GetAppend(rows[1..], x, p);
    }
  }

  /** With unique ids, the row at `i` is the one its id finds. */
  lemma {:induction false} IndexOfUnique<T>(rows: seq<Row<T>>, i: nat)
    requires i < |rows| && UniqueIds(rows)
    ensures IndexOfId(rows, rows[i].id) == Some(i)
  {
    if i > 0 {
      assert rows[1..][i - 1] == rows[i];
      IndexOfUnique(rows[1..], i - 1);
    }
  }
}
