// TransactionRepository: the user's transactions filtered, newest first
// and paged, and the transactions of one account or one category. The
// queries `Include` the transaction's account and/or category; both
// navigations are required and their tables carry the soft-delete filter,
// so EF joins them with an INNER JOIN against the live rows only: a
// transaction whose included account or category is soft-deleted drops out
// of the result.

module TransactionRepository {
  import opened Wrappers
  import opened Calendar
  import opened Persistence
  import opened BaseRepository
  import opened Ordering
  import opened Entities

  /** The optional filters of the listing; a missing one does not constrain the result. */
  datatype TransactionFilter = TransactionFilter(accountId: Option<int>, categoryId: Option<int>,
                                                 startDate: Option<Ticks>, endDate: Option<Ticks>)

  /** The conditional `Where` clauses; the date bounds compare calendar days, both inclusive. */
  predicate MatchesFilter(t: Row<Transaction>, userId: int, f: TransactionFilter)
  {
    t.entity.userId == userId
    && (f.accountId.Some? ==> t.entity.accountId == f.accountId.value)
    && (f.categoryId.Some? ==> t.entity.categoryId == f.categoryId.value)
    && (f.startDate.Some? ==> DateOf(t.entity.transactionDate) >= DateOf(f.startDate.value))
    && (f.endDate.Some? ==> DateOf(t.entity.transactionDate) <= DateOf(f.endDate.value))
  }

  /** The live account row `t.Account` loads. */
  predicate AccountJoined(t: Row<Transaction>, accounts: seq<Row<Account>>)
  {
    GetById(accounts, t.entity.accountId).Some?
  }

  /** The live category row `t.Category` loads. */
  predicate CategoryJoined(t: Row<Transaction>, categories: seq<Row<Category>>)
  {
    GetById(categories, t.entity.categoryId).Some?
  }

  /** `OrderByDescending(t => t.TransactionDate).ThenByDescending(t => t.CreatedAt)`. */
  predicate NewestFirst(a: Row<Transaction>, b: Row<Transaction>)
  {
    a.entity.transactionDate > b.entity.transactionDate
    || (a.entity.transactionDate == b.entity.transactionDate && a.createdAt >= b.createdAt)
  }

  /** The whole filtered listing before paging: exactly the user's live matching transactions, newest first. */
  function FilteredTransactions(rows: seq<Row<Transaction>>, accounts: seq<Row<Account>>, categories: seq<Row<Category>>,
                                userId: int, f: TransactionFilter): (r: seq<Row<Transaction>>)
    ensures forall x {:trigger x in r} :: x in r <==> x in rows && Visible(x) && MatchesFilter(x, userId, f)
                                                      && AccountJoined(x, accounts) && CategoryJoined(x, categories)
    ensures Sorted(r, NewestFirst)
  {
    var p := (t: Row<Transaction>) => MatchesFilter(t, userId, f) && AccountJoined(t, accounts) && CategoryJoined(t, categories);
    assert TotalPreorder(NewestFirst);
    GetOrderedSpec(rows, p, NewestFirst);
    GetOrdered(rows, p, NewestFirst)
  }

  /**
   * `GetTransactionsByUserIdFilteredAsync`: page `pageNumber` of the
   * filtered listing. For a page number of at least 1 and a non-negative
   * size it holds at most `pageSize` transactions: the run of the listing
   * that starts after the first `(pageNumber - 1) * pageSize`, as long as
   * `pageSize` or as the rest of the listing.
   */
  function GetTransactionsByUserIdFiltered(rows: seq<Row<Transaction>>, accounts: seq<Row<Account>>,
                                           categories: seq<Row<Category>>, userId: int, f: TransactionFilter,
                                           pageNumber: int, pageSize: int): (r: seq<Row<Transaction>>)
    ensures forall x {:trigger x in r} :: x in r ==> x in FilteredTransactions(rows, accounts, categories, userId, f)
    ensures Sorted(r, NewestFirst)
    ensures pageNumber >= 1 && pageSize >= 0 ==> |r| <= pageSize
    ensures pageNumber >= 1 && pageSize >= 0 ==>
      PageAt(FilteredTransactions(rows, accounts, categories, userId, f), r, (pageNumber - 1) * pageSize, pageSize)
  {
    var all := FilteredTransactions(rows, accounts, categories, userId, f);
    PageOfSorted(all, NewestFirst, pageNumber, pageSize);
    if pageNumber >= 1 && pageSize >= 0 then
      PageIsSlice(all, pageNumber, pageSize);
      Page(all, pageNumber, pageSize)
    else
      Page(all, pageNumber, pageSize)
  }

  /**
   * `GetTransactionsByAccountIdAsync(userId, accountId)`: the user's live
   * transactions on that account whose category is live, newest first.
   */
  function GetTransactionsByAccountId(rows: seq<Row<Transaction>>, categories: seq<Row<Category>>,
                                      userId: int, accountId: int): (r: seq<Row<Transaction>>)
    ensures forall x {:trigger x in r} :: x in r <==> x in rows && Visible(x) && x.entity.userId == userId
                                                      && x.entity.accountId == accountId && CategoryJoined(x, categories)
    ensures Sorted(r, NewestFirst)
  {
    var p := (t: Row<Transaction>) => t.entity.userId == userId && t.entity.accountId == accountId && CategoryJoined(t, categories);
    assert TotalPreorder(NewestFirst);
    GetOrderedSpec(rows, p, NewestFirst);
    GetOrdered(rows, p, NewestFirst)
  }

  /**
   * `GetTransactionsByCategoryIdAsync(userId, categoryId)`: the user's live
   * transactions in that category whose account is live, newest first.
   */
  function GetTransactionsByCategoryId(rows: seq<Row<Transaction>>, accounts: seq<Row<Account>>,
                                       userId: int, categoryId: int): (r: seq<Row<Transaction>>)
    ensures forall x {:trigger x in r} :: x in r <==> x in rows && Visible(x) && x.entity.userId == userId
                                                      && x.entity.categoryId == categoryId && AccountJoined(x, accounts)
    ensures Sorted(r, NewestFirst)
  {
    var p := (t: Row<Transaction>) => t.entity.userId == userId && t.entity.categoryId == categoryId && AccountJoined(t, accounts);
    assert TotalPreorder(NewestFirst);
    GetOrderedSpec(rows, p, NewestFirst);
    GetOrdered(rows, p, NewestFirst)
  }
}
