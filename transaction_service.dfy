// TransactionService: the filtered listing, lookup, creation, update and
// soft deletion of a user's income and expense records. The service writes
// the transactions table and reads the accounts and categories tables.

module TransactionService {
  import opened Wrappers
  import opened Text
  import opened Calendar
  import opened Persistence
  import opened BaseRepository
  import opened Entities
  import opened Aggregates
  import opened UnitOfWork
  import opened TransactionValidators
  import opened TransactionRepository
  import opened AccountRepository

  /** `TransactionFilterDto`: the optional filters, the category type filter and the page. */
  datatype TransactionFilterDto = TransactionFilterDto(accountId: Option<int>, categoryId: Option<int>,
                                                       startDate: Option<Ticks>, endDate: Option<Ticks>,
                                                       categoryType: Option<CategoryType>, pageNumber: int, pageSize: int)

  /** `UpdateTransactionDto`. */
  datatype UpdateTransactionDto = UpdateTransactionDto(accountId: int, categoryId: int, amount: Money,
                                                       transactionDate: Ticks, notes: Option<string>)

  /** `TransactionDto`: the transaction with its account's name and its category's name, icon and type. */
  datatype TransactionDto = TransactionDto(id: int, accountId: int, accountName: string, categoryId: int,
                                           categoryName: string, categoryIcon: Option<string>,
                                           categoryType: CategoryType, amount: Money, transactionDate: Ticks,
                                           notes: Option<string>)

  const CreateServerError := "İşlem oluşturulurken bir sunucu hatası oluştu."

  function TransactionNotFound(id: int): string { "İşlem bulunamadı (ID: " + IntToString(id) + ")." }
  function AccountForTransactionNotFound(id: int): string { "İşlem için belirtilen hesap bulunamadı (ID: " + IntToString(id) + ")." }
  function CategoryForTransactionNotFound(id: int): string { "İşlem için belirtilen kategori bulunamadı (ID: " + IntToString(id) + ")." }
  function TransactionToUpdateNotFound(id: int): string { "Güncellenecek işlem bulunamadı (ID: " + IntToString(id) + ")." }
  function NewAccountNotFound(id: int): string { "İşlem için belirtilen yeni hesap bulunamadı (ID: " + IntToString(id) + ")." }
  function NewCategoryNotFound(id: int): string { "İşlem için belirtilen yeni kategori bulunamadı (ID: " + IntToString(id) + ")." }
  function TransactionToDeleteNotFound(id: int): string { "Silinecek işlem bulunamadı (ID: " + IntToString(id) + ")." }

  /**
   * The sign rule of creation and update: a positive amount in an expense
   * category and a negative one in an income category are negated, every
   * other amount is kept. Expenses are stored at or below zero and income
   * at or above, with the magnitude the client sent.
   */
  function SignedAmount(amount: Money, t: CategoryType): (r: Money)
    ensures Abs(r) == Abs(amount)
    ensures t == Expense ==> r <= 0
    ensures t == Income ==> r >= 0
  {
    if t == Expense && amount > 0 then -amount
    else if t == Income && amount < 0 then -amount
    else amount
  }

  /** Normalising an amount that is already normalised leaves it unchanged. */
  lemma SignedAmountIdempotent(amount: Money, t: CategoryType)
    ensures SignedAmount(SignedAmount(amount, t), t) == SignedAmount(amount, t)
  {
  }

  /** The normalised amount depends only on the magnitude: the client's sign is irrelevant. */
  lemma SignedAmountIgnoresSign(amount: Money, t: CategoryType)
    ensures SignedAmount(-amount, t) == SignedAmount(amount, t)
  {
  }

  /** The transaction's DTO built from the account and category rows its query joined. */
  function ToTransactionDto(t: Row<Transaction>, a: Row<Account>, c: Row<Category>): TransactionDto
  {
    TransactionDto(t.id, t.entity.accountId, a.entity.name, t.entity.categoryId, c.entity.name, c.entity.iconName,
                   c.entity.categoryType, t.entity.amount, t.entity.transactionDate, t.entity.notes)
  }

  /** The DTO of a transaction whose account and category were joined. */
  function JoinedDto(t: Row<Transaction>, accounts: seq<Row<Account>>, categories: seq<Row<Category>>): TransactionDto
    requires AccountJoined(t, accounts) && CategoryJoined(t, categories)
  {
    ToTransactionDto(t, GetById(accounts, t.entity.accountId).value, GetById(categories, t.entity.categoryId).value)
  }

  /** `_mapper.Map<IReadOnlyList<TransactionDto>>(transactions)`. */
  function JoinedDtos(page: seq<Row<Transaction>>, accounts: seq<Row<Account>>, categories: seq<Row<Category>>): (r: seq<TransactionDto>)
    requires forall k :: 0 <= k < |page| ==> AccountJoined(page[k], accounts) && CategoryJoined(page[k], categories)
    ensures |r| == |page|
    ensures forall k :: 0 <= k < |r| ==> r[k] == JoinedDto(page[k], accounts, categories)
  {
    seq(|page|, k requires 0 <= k < |page| => JoinedDto(page[k], accounts, categories))
  }

  /**
   * The type filter applied to the DTOs of the page: without a type the
   * page is kept as it is; with one, exactly the DTOs of that category
   * type, in page order.
   */
  function TypeFilter(dtos: seq<TransactionDto>, t: Option<CategoryType>): (r: seq<TransactionDto>)
    ensures t.None? ==> r == dtos
    ensures |r| <= |dtos|
    ensures forall dto {:trigger dto in r} :: dto in r <==> dto in dtos && (t.Some? ==> dto.categoryType == t.value)
  {
    if t.None? then dtos else Filter(dtos, (dto: TransactionDto) => dto.categoryType == t.value)
  }

  /** The repository filter a `TransactionFilterDto` describes. */
  function RepositoryFilter(f: TransactionFilterDto): TransactionFilter
  {
    TransactionFilter(f.accountId, f.categoryId, f.startDate, f.endDate)
  }

  /** Every transaction of a page has its account and category joined. */
  predicate PageIsJoinedFact(page: seq<Row<Transaction>>, accounts: seq<Row<Account>>, categories: seq<Row<Category>>)
  {
    forall k :: 0 <= k < |page| ==> AccountJoined(page[k], accounts) && CategoryJoined(page[k], categories)
  }

  /** The filtered listing's repository page: it only holds joined transactions. */
  lemma PageIsJoined(rows: seq<Row<Transaction>>, accounts: seq<Row<Account>>, categories: seq<Row<Category>>,
                     userId: int, f: TransactionFilterDto)
    ensures var page := GetTransactionsByUserIdFiltered(rows, accounts, categories, userId, RepositoryFilter(f), f.pageNumber, f.pageSize);
            PageIsJoinedFact(page, accounts, categories)
  {
    var page := GetTransactionsByUserIdFiltered(rows, accounts, categories, userId, RepositoryFilter(f), f.pageNumber, f.pageSize);
    forall k | 0 <= k < |page| ensures AccountJoined(page[k], accounts) && CategoryJoined(page[k], categories) {
      assert page[k] in page;
    }
  }

  /** The lookup `GetAsync(t => t.Id == id && t.UserId == userId)` followed by `First()`. */
  function OwnedTransaction(rows: seq<Row<Transaction>>, userId: int, id: int): (r: Option<nat>)
    ensures r.Some? ==> r.value < |rows| && Visible(rows[r.value]) && rows[r.value].id == id
                        && rows[r.value].entity.userId == userId
    ensures r.None? ==> forall k :: 0 <= k < |rows| && Visible(rows[k]) && rows[k].id == id
                                    ==> rows[k].entity.userId != userId
  {
    FirstIndex(rows, (t: Row<Transaction>) => t.id == id && t.entity.userId == userId)
  }

  /** The same lookup with `Include(t => t.Account)` and `Include(t => t.Category)`: both must be live. */
  function OwnedJoinedTransaction(rows: seq<Row<Transaction>>, accounts: seq<Row<Account>>, categories: seq<Row<Category>>,
                                  userId: int, id: int): (r: Option<nat>)
    ensures r.Some? ==> r.value < |rows| && Visible(rows[r.value]) && rows[r.value].id == id
                        && rows[r.value].entity.userId == userId
                        && AccountJoined(rows[r.value], accounts) && CategoryJoined(rows[r.value], categories)
    ensures r.None? ==> forall k :: 0 <= k < |rows| && Visible(rows[k]) && rows[k].id == id && rows[k].entity.userId == userId
                                    ==> !(AccountJoined(rows[k], accounts) && CategoryJoined(rows[k], categories))
  {
    FirstIndex(rows, (t: Row<Transaction>) => t.id == id && t.entity.userId == userId
                                              && AccountJoined(t, accounts) && CategoryJoined(t, categories))
  }

  /** The transaction `CreateTransactionAsync` adds: the user's, with the amount signed by the category type. */
  function NewTransaction(userId: int, d: CreateTransactionDto, t: CategoryType): (r: Transaction)
    ensures r.userId == userId && r.accountId == d.accountId && r.categoryId == d.categoryId
    ensures Abs(r.amount) == Abs(d.amount) && (t == Expense ==> r.amount <= 0) && (t == Income ==> r.amount >= 0)
  {
    Transaction(userId, d.accountId, d.categoryId, SignedAmount(d.amount, t), d.transactionDate, d.notes)
  }

  /** The transaction after `_mapper.Map(updateTransactionDto, existing)` and the sign rule for the new category. */
  function UpdatedTransaction(e: Transaction, d: UpdateTransactionDto, t: CategoryType): (r: Transaction)
    ensures r.userId == e.userId && r.accountId == d.accountId && r.categoryId == d.categoryId
    ensures Abs(r.amount) == Abs(d.amount) && (t == Expense ==> r.amount <= 0) && (t == Income ==> r.amount >= 0)
  {
    e.(accountId := d.accountId, categoryId := d.categoryId, amount := SignedAmount(d.amount, t),
       transactionDate := d.transactionDate, notes := d.notes)
  }

  class TransactionService {
    const transactions: DbSet<Transaction>
    const accounts: DbSet<Account>
    const categories: DbSet<Category>

    ghost predicate Valid()
      reads transactions
    {
      SetValid(transactions)
    }

    ghost predicate Ready()
      reads transactions
    {
      Valid() && transactions.Clean()
    }

    constructor (transactions: DbSet<Transaction>, accounts: DbSet<Account>, categories: DbSet<Category>)
      ensures this.transactions == transactions && this.accounts == accounts && this.categories == categories
    {
      this.transactions := transactions;
      this.accounts := accounts;
      this.categories := categories;
    }

    /** `CompleteAsync()` after writes made with the save's clock reading: nothing moves. */
    method Complete(now: Ticks)
      requires Valid() && Stamped(transactions.rows, transactions.states, now)
      modifies transactions
      ensures Ready() && transactions.rows == old(transactions.rows) && transactions.nextId == old(transactions.nextId)
    {
      Save(transactions, now);
    }

    /**
     * `GetUserTransactionsFilteredAsync`: the repository's page mapped to
     * DTOs, then narrowed to the requested category type. The type filter
     * runs after paging, so a page may hold fewer than `pageSize` items
     * even when later pages hold matching ones.
     */
    method GetUserTransactionsFiltered(userId: int, f: TransactionFilterDto) returns (r: Result<seq<TransactionDto>>)
      ensures r.isSuccess && r.value.Some?
      ensures var page := GetTransactionsByUserIdFiltered(transactions.rows, accounts.rows, categories.rows, userId,
                                                         RepositoryFilter(f), f.pageNumber, f.pageSize);
              PageIsJoinedFact(page, accounts.rows, categories.rows)
              && r.value.value == TypeFilter(JoinedDtos(page, accounts.rows, categories.rows), f.categoryType)
    {
      var page := GetTransactionsByUserIdFiltered(transactions.rows, accounts.rows, categories.rows, userId,
                                                  RepositoryFilter(f), f.pageNumber, f.pageSize);
      PageIsJoined(transactions.rows, accounts.rows, categories.rows, userId, f);
      var dtos := JoinedDtos(page, accounts.rows, categories.rows);
      return Success(TypeFilter(dtos, f.categoryType));
    }

    /** `GetTransactionByIdAsync`: the user's live transaction with its live account and category, or the not-found message. */
    method GetTransactionById(userId: int, id: int) returns (r: Result<TransactionDto>)
      ensures OwnedJoinedTransaction(transactions.rows, accounts.rows, categories.rows, userId, id).None? ==>
        r == FailureOf(TransactionNotFound(id))
      ensures OwnedJoinedTransaction(transactions.rows, accounts.rows, categories.rows, userId, id).Some? ==>
        var t := transactions.rows[OwnedJoinedTransaction(transactions.rows, accounts.rows, categories.rows, userId, id).value];
        r == Success(JoinedDto(t, accounts.rows, categories.rows))
    {
      var found := OwnedJoinedTransaction(transactions.rows, accounts.rows, categories.rows, userId, id);
      if found.None? {
        return FailureOf(TransactionNotFound(id));
      }
      return Success(JoinedDto(transactions.rows[found.value], accounts.rows, categories.rows));
    }

    /**
     * `CreateTransactionAsync`: an accepted request on the user's own live
     * account and a live category that is predefined or the user's own
     * adds the user's transaction with its amount signed by the category
     * type. Every refusal adds nothing.
     */
    method CreateTransaction(userId: int, d: CreateTransactionDto, now: Ticks) returns (r: Result<TransactionDto>)
      requires Ready()
      modifies transactions
      ensures Ready()
      ensures !TransactionAcceptable(d, now) ==> r == Failure(TransactionErrors(d, now))
      ensures TransactionAcceptable(d, now) && GetAccountByIdAndUserId(accounts.rows, userId, d.accountId).None? ==>
        r == FailureOf(AccountForTransactionNotFound(d.accountId))
      ensures TransactionAcceptable(d, now) && GetAccountByIdAndUserId(accounts.rows, userId, d.accountId).Some?
              && !(GetById(categories.rows, d.categoryId).Some? && CategoryUsableBy(GetById(categories.rows, d.categoryId).value, userId)) ==>
        r == FailureOf(CategoryForTransactionNotFound(d.categoryId))
      ensures !r.isSuccess ==> transactions.rows == old(transactions.rows)
      ensures r.isSuccess <==> TransactionAcceptable(d, now) && GetAccountByIdAndUserId(accounts.rows, userId, d.accountId).Some?
                               && GetById(categories.rows, d.categoryId).Some?
                               && CategoryUsableBy(GetById(categories.rows, d.categoryId).value, userId)
      ensures r.isSuccess ==>
        var a := accounts.rows[GetAccountByIdAndUserId(accounts.rows, userId, d.accountId).value];
        var c := GetById(categories.rows, d.categoryId).value;
        var row := Row(old(transactions.nextId), now, None, false, NewTransaction(userId, d, c.entity.categoryType));
        transactions.rows == old(transactions.rows) + [row] && r == Success(ToTransactionDto(row, a, c))
    {
      var errs := TransactionErrors(d, now);
      if errs != [] {
        return Failure(errs);
      }
      var account := GetAccountByIdAndUserId(accounts.rows, userId, d.accountId);
      if account.None? {
        return FailureOf(AccountForTransactionNotFound(d.accountId));
      }
      var category := GetById(categories.rows, d.categoryId);
      if category.None? || !CategoryUsableBy(category.value, userId) {
        return FailureOf(CategoryForTransactionNotFound(d.categoryId));
      }
      var c := category.value;
      var t := NewTransaction(userId, d, c.entity.categoryType);
      CleanIsStamped(transactions.rows, transactions.states, now);
      StampedAdd(transactions.rows, transactions.states, now, Row(transactions.nextId, now, None, false, t));
      var added := transactions.Add(t, now);
      Complete(now);
      return Success(ToTransactionDto(added, accounts.rows[account.value], c));
    }

    /**
     * `UpdateTransactionAsync`: the validator of `UpdateTransactionDto` is
     * not part of this model, so its messages are the `errors` argument. The
     * user's live transaction takes the new account, category, amount
     * (signed by the new category's type), date and notes; owner, identity
     * and creation time stay.
     */
    method UpdateTransaction(userId: int, id: int, d: UpdateTransactionDto, errors: seq<string>, now: Ticks)
      returns (r: UnitResult)
      requires Ready()
      modifies transactions
      ensures Ready()
      ensures errors != [] ==> r == UnitFailure(errors)
      ensures errors == [] && OwnedTransaction(old(transactions.rows), userId, id).None? ==>
        r == UnitFailureOf(TransactionToUpdateNotFound(id))
      ensures errors == [] && OwnedTransaction(old(transactions.rows), userId, id).Some?
              && GetAccountByIdAndUserId(accounts.rows, userId, d.accountId).None? ==>
        r == UnitFailureOf(NewAccountNotFound(d.accountId))
      ensures errors == [] && OwnedTransaction(old(transactions.rows), userId, id).Some?
              && GetAccountByIdAndUserId(accounts.rows, userId, d.accountId).Some?
              && !(GetById(categories.rows, d.categoryId).Some? && CategoryUsableBy(GetById(categories.rows, d.categoryId).value, userId)) ==>
        r == UnitFailureOf(NewCategoryNotFound(d.categoryId))
      ensures !r.isSuccess ==> transactions.rows == old(transactions.rows)
      ensures r.isSuccess <==> errors == [] && OwnedTransaction(old(transactions.rows), userId, id).Some?
                               && GetAccountByIdAndUserId(accounts.rows, userId, d.accountId).Some?
                               && GetById(categories.rows, d.categoryId).Some?
                               && CategoryUsableBy(GetById(categories.rows, d.categoryId).value, userId)
      ensures r.isSuccess ==>
        var i := OwnedTransaction(old(transactions.rows), userId, id).value;
        var c := GetById(categories.rows, d.categoryId).value;
        var old_ := old(transactions.rows)[i];
        transactions.rows == old(transactions.rows)[i := old_.(entity := UpdatedTransaction(old_.entity, d, c.entity.categoryType),
                                                                updatedAt := Some(now))]
        && r == UnitSuccess()
    {
      if errors != [] {
        return UnitFailure(errors);
      }
      var found := OwnedTransaction(transactions.rows, userId, id);
      if found.None? {
        return UnitFailureOf(TransactionToUpdateNotFound(id));
      }
      var account := GetAccountByIdAndUserId(accounts.rows, userId, d.accountId);
      if account.None? {
        return UnitFailureOf(NewAccountNotFound(d.accountId));
      }
      var category := GetById(categories.rows, d.categoryId);
      if category.None? || !CategoryUsableBy(category.value, userId) {
        return UnitFailureOf(NewCategoryNotFound(d.categoryId));
      }
      var i := found.value;
      var e := UpdatedTransaction(transactions.rows[i].entity, d, category.value.entity.categoryType);
      CleanIsStamped(transactions.rows, transactions.states, now);
      StampedModify(transactions.rows, transactions.states, now, i, transactions.rows[i].(entity := e, updatedAt := Some(now)));
      Update(transactions, i, e, now);
      Complete(now);
      return UnitSuccess();
    }

    /** `DeleteTransactionAsync`: soft-deletes the user's live transaction; afterwards no lookup by its id finds it. */
    method DeleteTransaction(userId: int, id: int, now: Ticks) returns (r: UnitResult)
      requires Ready()
      modifies transactions
      ensures Ready()
      ensures r.isSuccess <==> OwnedTransaction(old(transactions.rows), userId, id).Some?
      ensures !r.isSuccess ==> r == UnitFailureOf(TransactionToDeleteNotFound(id)) && transactions.rows == old(transactions.rows)
      ensures r.isSuccess ==>
        var i := OwnedTransaction(old(transactions.rows), userId, id).value;
        transactions.rows == old(transactions.rows)[i := old(transactions.rows)[i].(isDeleted := true, updatedAt := Some(now))]
        && GetById(transactions.rows, id).None? && r == UnitSuccess()
    {
      var found := OwnedTransaction(transactions.rows, userId, id);
      if found.None? {
        return UnitFailureOf(TransactionToDeleteNotFound(id));
      }
      var i := found.value;
      CleanIsStamped(transactions.rows, transactions.states, now);
      StampedModify(transactions.rows, transactions.states, now, i, transactions.rows[i].(isDeleted := true, updatedAt := Some(now)));
      DeletedIsHidden(transactions.rows, i, now, id);
      Delete(transactions, i, now);
      Complete(now);
      return UnitSuccess();
    }
  }

}
