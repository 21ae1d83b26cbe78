// DebtRepository: the user's debts that are still open, by name.

module DebtRepository {
  import opened Persistence
  import opened BaseRepository
  import opened Ordering
  import opened Entities

  /** `OrderBy(d => d.Name)`. */
  predicate DebtsByName(a: Row<Debt>, b: Row<Debt>)
  {
    StrLe(a.entity.name, b.entity.name)
  }

  /** The filter `d => d.UserId == userId && !d.IsPaidOff`. */
  predicate OpenDebtOf(d: Row<Debt>, userId: int)
  {
    d.entity.userId == userId && !d.entity.isPaidOff
  }

  /**
   * `GetActiveDebtsByUserIdAsync(userId)`: exactly the user's live debts
   * that are not paid off, ordered by name.
   */
  function GetActiveDebtsByUserId(rows: seq<Row<Debt>>, userId: int): (r: seq<Row<Debt>>)
    ensures forall x {:trigger x in r} :: x in r <==> x in rows && Visible(x) && OpenDebtOf(x, userId)
    ensures Sorted(r, DebtsByName)
  {
    var p := (d: Row<Debt>) => OpenDebtOf(d, userId);
    KeyedStrLePreorder(DebtsByName, (d: Row<Debt>) => d.entity.name);
    GetOrderedSpec(rows, p, DebtsByName);
    GetOrdered(rows, p, DebtsByName)
  }
}
