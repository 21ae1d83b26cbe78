// ApplicationDbContext: one entity set per table together with the change
// tracker's entry states, the soft-delete global query filter, and the
// SaveChangesAsync override that stamps CreatedAt / UpdatedAt before saving.

module Persistence {
  import opened Wrappers
  import opened Calendar

  /** A stored entity: the BaseEntity columns and the entity's own fields. */
  datatype Row<T> = Row(id: int, createdAt: Ticks, updatedAt: Option<Ticks>, isDeleted: bool, entity: T)

  /** The change tracker's `EntityState` of one entry. */
  datatype EntryState = Unchanged | Added | Modified | Deleted

  /** The global query filter `e => !e.IsDeleted` installed on every BaseEntity type. */
  predicate Visible<T>(r: Row<T>)
  {
    !r.isDeleted
  }

  /** What the SaveChangesAsync override does to one entry it lets through. */
  function Stamp<T>(r: Row<T>, s: EntryState, now: Ticks): (out: Row<T>)
    ensures out.id == r.id && out.entity == r.entity
  {
    match s
    case Added => r.(createdAt := now, updatedAt := None, isDeleted := false)
    case Modified => r.(updatedAt := Some(now))
    case _ => r
  }

  /** An entry SaveChanges stamps as added is live and created now, whatever the entity said before. */
  lemma StampAdded<T>(r: Row<T>, now: Ticks)
    ensures Visible(Stamp(r, Added, now)) && Stamp(r, Added, now).createdAt == now
    ensures Stamp(r, Added, now).updatedAt == None
  {
  }

  /** Saving a modified entry keeps its creation time and its deleted flag, and records the update time. */
  lemma StampModified<T>(r: Row<T>, now: Ticks)
    ensures Stamp(r, Modified, now).createdAt == r.createdAt
    ensures Stamp(r, Modified, now).isDeleted == r.isDeleted
    ensures Stamp(r, Modified, now).updatedAt == Some(now)
  {
  }

  predicate UniqueIds<T>(rows: seq<Row<T>>)
  {
    forall i, j :: 0 <= i < j < |rows| ==> rows[i].id != rows[j].id
  }

  predicate NoDeleted(states: seq<EntryState>)
  {
    forall i :: 0 <= i < |states| ==> states[i] != Deleted
  }

  /** The position of the first entry marked Deleted, where SaveChangesAsync throws. */
  function FirstDeleted(states: seq<EntryState>): (k: nat)
    ensures k <= |states|
    ensures forall i :: 0 <= i < k ==> states[i] != Deleted
    ensures k < |states| ==> states[k] == Deleted
  {
    if states == [] || states[0] == Deleted then 0 else 1 + FirstDeleted(states[1..])
  }

  /**
   * A `DbSet<T>` with its tracked entries: `rows` are the table's rows as
   * the context sees them (loaded, attached or added), `states[i]` is the
   * entry state of `rows[i]`, and `nextId` is the identity value the
   * database hands out next.
   */
  class DbSet<T> {
    var rows: seq<Row<T>>
    var states: seq<EntryState>
    var nextId: int

    ghost predicate Valid()
      reads this
    {
      |rows| == |states| && UniqueIds(rows)
      && forall i :: 0 <= i < |rows| ==> rows[i].id < nextId
    }

    /** No pending change: what holds between two requests. */
    ghost predicate Clean()
      reads this
    {
      forall i :: 0 <= i < |states| ==> states[i] == Unchanged
    }

    /** A set opened on the seeded rows, with identities handed out from `firstId` on. */
    constructor (seed: seq<Row<T>>, firstId: int)
      requires UniqueIds(seed) && forall i :: 0 <= i < |seed| ==> seed[i].id < firstId
      ensures Valid() && Clean() && rows == seed && nextId == firstId
    {
      rows := seed;
      states := seq(|seed|, _ => Unchanged);
      nextId := firstId;
    }

    /**
     * `DbSet.AddAsync(entity)`: the entity is tracked as Added. The identity
     * column's value is taken here rather than at the INSERT.
     */
    method Add(e: T, now: Ticks) returns (r: Row<T>)
      requires Valid()
      modifies this
      ensures Valid()
      ensures r == Row(old(nextId), now, None, false, e)
      ensures rows == old(rows) + [r] && states == old(states) + [Added]
      ensures nextId == old(nextId) + 1
    {
      r := Row(nextId, now, None, false, e);
      rows := rows + [r];
      states := states + [Added];
      nextId := nextId + 1;
    }

    /** `Entry(entity).State = EntityState.Modified` after the caller changed the entity to `r`. */
    method SetModified(i: nat, r: Row<T>)
      requires Valid() && i < |rows| && r.id == rows[i].id
      modifies this
      ensures Valid()
      ensures rows == old(rows)[i := r] && states == old(states)[i := Modified]
      ensures nextId == old(nextId)
    {
      rows := rows[i := r];
      states := states[i := Modified];
    }

    /**
     * The SaveChangesAsync override: one pass over the tracked entries with
     * a single clock reading. Added entries get CreatedAt = now, no
     * UpdatedAt and IsDeleted = false; Modified ones get UpdatedAt = now; an
     * entry in state Deleted aborts the save (the stamps made before it stay
     * in memory). A successful save accepts every change.
     */
    method SaveChanges(now: Ticks) returns (ok: bool)
      requires Valid()
      modifies this
      ensures Valid() && nextId == old(nextId) && |rows| == |old(rows)|
      ensures ok <==> NoDeleted(old(states))
      ensures ok ==> Clean() && forall i :: 0 <= i < |rows| ==> rows[i] == Stamp(old(rows)[i], old(states)[i], now)
      ensures old(Clean()) ==> ok && rows == old(rows) && states == old(states)
      ensures !ok ==> states == old(states)
      ensures !ok ==> forall i :: 0 <= i < |rows| ==>
        rows[i] == if i < FirstDeleted(old(states)) then Stamp(old(rows)[i], old(states)[i], now) else old(rows)[i]
    {
      var i := 0;
      while i < |rows|
        invariant 0 <= i <= |rows| == |old(rows)|
        invariant states == old(states) && nextId == old(nextId)
        invariant forall k :: 0 <= k < i ==> states[k] != Deleted
        invariant forall k :: 0 <= k < i ==> rows[k] == Stamp(old(rows)[k], old(states)[k], now)
        invariant forall k :: i <= k < |rows| ==> rows[k] == old(rows)[k]
      {
        if states[i] == Deleted {
          assert FirstDeleted(states) == i;
          return false;
        }
        rows := rows[i := Stamp(rows[i], states[i], now)];
        i := i + 1;
      }
      assert forall k :: 0 <= k < |rows| ==> rows[k].id == old(rows)[k].id;
      states := seq(|rows|, _ => Unchanged);
      ok := true;
    }
  }

}
