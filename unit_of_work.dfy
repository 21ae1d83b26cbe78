// UnitOfWork: the repositories share one ApplicationDbContext, and
// CompleteAsync is that context's SaveChangesAsync. Between two requests no
// entry is pending, so the only sets SaveChanges changes are the ones the
// current request wrote to; SaveChanges leaves a set with nothing pending
// exactly as it was (DbSet.SaveChanges). A service therefore completes its
// unit of work by saving the sets it holds.

module UnitOfWork {
  import opened Wrappers
  import opened Calendar
  import opened Persistence
  import opened Entities

  /** One entity set is consistent and holds no entry marked Deleted (the repositories only soft-delete). */
  ghost predicate SetValid<T>(s: DbSet<T>)
    reads s
  {
    s.Valid() && NoDeleted(s.states)
  }

  /** One entity set as it is between requests: consistent, with nothing pending. */
  ghost predicate SetReady<T>(s: DbSet<T>)
    reads s
  {
    SetValid(s) && s.Clean()
  }

  /**
   * Saves one entity set. With no entry marked Deleted the save always goes
   * through: every row takes the stamps its entry state called for and
   * nothing is pending afterwards.
   */
  method Save<T(==)>(s: DbSet<T>, now: Ticks)
    requires SetValid(s)
    modifies s
    ensures SetValid(s) && s.Clean() && Saved(s, now)
    ensures Stamped(old(s.rows), old(s.states), now) ==> s.rows == old(s.rows)
  {
    var ok := s.SaveChanges(now);
  }

  /**
   * Every pending entry already carries the stamps the save would give it:
   * an added row created now and live, a modified row updated now. The
   * repositories' AddAsync / UpdateAsync / DeleteAsync leave rows in this
   * shape when they are given the clock reading of the save.
   */
  predicate Stamped<T(==)>(rows: seq<Row<T>>, states: seq<EntryState>, now: Ticks)
  {
    |rows| == |states| && forall k :: 0 <= k < |rows| ==> Stamp(rows[k], states[k], now) == rows[k]
  }

  /** A set with nothing pending is already in the shape a save leaves it. */
  lemma CleanIsStamped<T>(rows: seq<Row<T>>, states: seq<EntryState>, now: Ticks)
    requires |rows| == |states| && forall k :: 0 <= k < |states| ==> states[k] == Unchanged
    ensures Stamped(rows, states, now)
  {
  }

  /** A row added with the save's clock reading (live, created now, never updated) is stamped. */
  lemma StampedAdd<T>(rows: seq<Row<T>>, states: seq<EntryState>, now: Ticks, r: Row<T>)
    requires Stamped(rows, states, now)
    requires r.createdAt == now && r.updatedAt == None && !r.isDeleted
    ensures Stamped(rows + [r], states + [Added], now)
  {
    var rows', states' := rows + [r], states + [Added];
    forall k | 0 <= k < |rows'| ensures Stamp(rows'[k], states'[k], now) == rows'[k] {
      if k < |rows| {
        assert rows'[k] == rows[k] && states'[k] == states[k];
      }
    }
  }

  /** A row marked Modified after it was given UpdatedAt = now is stamped. */
  lemma StampedModify<T>(rows: seq<Row<T>>, states: seq<EntryState>, now: Ticks, i: nat, r: Row<T>)
    requires Stamped(rows, states, now) && i < |rows|
    requires r.updatedAt == Some(now)
    ensures Stamped(rows[i := r], states[i := Modified], now)
  {
  }

  /** One entity set after a save: rows stamped by their old entry states, identities kept, and a clean set untouched. */
  twostate predicate Saved<T>(s: DbSet<T>, now: Ticks)
    reads s
  {
    s.nextId == old(s.nextId) && |s.rows| == |old(s.rows)| == |old(s.states)|
    && (forall i :: 0 <= i < |s.rows| ==> s.rows[i] == Stamp(old(s.rows)[i], old(s.states)[i], now))
    && (old(s.Clean()) ==> s.rows == old(s.rows) && s.states == old(s.states))
  }

  /** The Categories table as the initial migration creates it: the seeded predefined categories. */
  method OpenCategories() returns (c: DbSet<Category>)
    ensures fresh(c) && SetReady(c) && c.rows == SeedCategories()
  {
    SeedIdsUnique();
    c := new DbSet(SeedCategories(), 1);
  }

  /** Any other table of a new database: empty. */
  method OpenEmpty<T>() returns (s: DbSet<T>)
    ensures fresh(s) && SetReady(s) && s.rows == []
  {
    s := new DbSet([], 1);
  }
}
