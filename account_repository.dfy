// AccountRepository: a user's accounts by name, and one account looked up
// by id and owner together.

module AccountRepository {
  import opened Wrappers
  import opened Persistence
  import opened BaseRepository
  import opened Ordering
  import opened Entities

  /** `OrderBy(a => a.Name)`. */
  predicate AccountsByName(a: Row<Account>, b: Row<Account>)
  {
    StrLe(a.entity.name, b.entity.name)
  }

  /** `GetAccountsByUserIdAsync(userId)`: exactly the user's live accounts, by name. */
  function GetAccountsByUserId(rows: seq<Row<Account>>, userId: int): (r: seq<Row<Account>>)
    ensures forall x {:trigger x in r} :: x in r <==> x in rows && Visible(x) && x.entity.userId == userId
    ensures Sorted(r, AccountsByName)
  {
    var p := (a: Row<Account>) => a.entity.userId == userId;
    KeyedStrLePreorder(AccountsByName, (a: Row<Account>) => a.entity.name);
    GetOrderedSpec(rows, p, AccountsByName);
    GetOrdered(rows, p, AccountsByName)
  }

  /**
   * `GetAccountByIdAndUserIdAsync(userId, accountId)`: the live account
   * with that id when it belongs to the user; nothing when there is no such
   * account or it belongs to someone else.
   */
  function GetAccountByIdAndUserId(rows: seq<Row<Account>>, userId: int, accountId: int): (r: Option<nat>)
    ensures r.Some? ==> r.value < |rows| && Visible(rows[r.value]) && rows[r.value].id == accountId
                        && rows[r.value].entity.userId == userId
    ensures r.None? ==> forall k :: 0 <= k < |rows| && Visible(rows[k]) && rows[k].id == accountId
                                    ==> rows[k].entity.userId != userId
  {
    FirstIndex(rows, (a: Row<Account>) => a.id == accountId && a.entity.userId == userId)
  }
}
