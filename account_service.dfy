// AccountService: a user's accounts with their current balances, and the
// opening, renaming and soft deletion of an account. The service writes the
// accounts table and reads the transactions and categories tables.

module AccountService {
  import opened Wrappers
  import opened Text
  import opened Calendar
  import opened Persistence
  import opened BaseRepository
  import opened Entities
  import opened Aggregates
  import opened UnitOfWork
  import opened AccountValidators
  import opened AccountRepository
  import opened TransactionRepository

  /** `AccountDto`: the account type is shown by its enum name. */
  datatype AccountDto = AccountDto(id: int, name: string, accountType: string, currency: string, currentBalance: Money)

  const AccountHasTransactions := "Hesapla ilişkili işlemler varken hesap silinemez."

  function AccountNotFound(id: int): string { "Hesap bulunamadı (ID: " + IntToString(id) + ")." }
  function AccountToUpdateNotFound(id: int): string { "Güncellenecek hesap bulunamadı (ID: " + IntToString(id) + ")." }
  function AccountToDeleteNotFound(id: int): string { "Silinecek hesap bulunamadı (ID: " + IntToString(id) + ")." }

  /** `AccountType.ToString()`: the member's name, or the number for a value the enum does not define. */
  function AccountTypeName(v: int): (r: string)
    ensures IsAccountType(v) ==> r in {"Cash", "Bank", "CreditCard"}
    ensures !IsAccountType(v) ==> r == IntToString(v)
  {
    if v == AccountCash then "Cash"
    else if v == AccountBank then "Bank"
    else if v == AccountCreditCard then "CreditCard"
    else IntToString(v)
  }

  /** The query of `CalculateAccountBalance`: the live transactions on the account, whoever recorded them. */
  function OnAccount(accountId: int): Row<Transaction> -> bool
  {
    (t: Row<Transaction>) => t.entity.accountId == accountId
  }

  /** `CalculateAccountBalance`: the opening balance plus every live transaction's signed amount on the account. */
  function Balance(transactions: seq<Row<Transaction>>, accountId: int, initialBalance: Money): Money
  {
    initialBalance + Sum(Get(transactions, OnAccount(accountId)), Amount)
  }

  /** Recording a transaction moves its account's balance by the transaction's amount and no other balance. */
  lemma BalanceAfterAdd(transactions: seq<Row<Transaction>>, t: Row<Transaction>, accountId: int, initialBalance: Money)
    requires Visible(t)
    ensures Balance(transactions + [t], accountId, initialBalance)
            == Balance(transactions, accountId, initialBalance) + (if t.entity.accountId == accountId then t.entity.amount else 0)
  {
    GetAppend(transactions, t, OnAccount(accountId));
    SumConcat(Get(transactions, OnAccount(accountId)), if t.entity.accountId == accountId then [t] else [], Amount);
  }

  /** Soft-deleting a live transaction takes its amount back out of its account's balance and changes no other balance. */
  lemma {:induction false} BalanceAfterDelete(transactions: seq<Row<Transaction>>, i: nat, now: Ticks, accountId: int, initialBalance: Money)
    requires i < |transactions| && Visible(transactions[i])
    ensures Balance(transactions[i := transactions[i].(isDeleted := true, updatedAt := Some(now))], accountId, initialBalance)
            == Balance(transactions, accountId, initialBalance)
               - (if transactions[i].entity.accountId == accountId then transactions[i].entity.amount else 0)
  {
    SumWithoutDeleted(transactions, i, now, OnAccount(accountId));
  }

  /** The sum over a query after soft-deleting row `i`: the row's amount leaves the sum when the query counted it. */
  lemma {:induction false} SumWithoutDeleted(rows: seq<Row<Transaction>>, i: nat, now: Ticks, p: Row<Transaction> -> bool)
    requires i < |rows| && Visible(rows[i])
    ensures Sum(Get(rows[i := rows[i].(isDeleted := true, updatedAt := Some(now))], p), Amount)
            == Sum(Get(rows, p), Amount) - (if p(rows[i]) then rows[i].entity.amount else 0)
  {
    var after := rows[i := rows[i].(isDeleted := true, updatedAt := Some(now))];
    SumOfGetHead(rows, p);
    SumOfGetHead(after, p);
    if i == 0 {
      assert after[1..] == rows[1..];
    } else {
      assert after[1..] == rows[1..][i - 1 := rows[i].(isDeleted := true, updatedAt := Some(now))];
      SumWithoutDeleted(rows[1..], i - 1, now, p);
    }
  }

  /** The sum over a query splits into the first row's share and the sum over the rest. */
  lemma SumOfGetHead(rows: seq<Row<Transaction>>, p: Row<Transaction> -> bool)
    requires rows != []
    ensures Sum(Get(rows, p), Amount)
            == (if Visible(rows[0]) && p(rows[0]) then rows[0].entity.amount else 0) + Sum(Get(rows[1..], p), Amount)
  {
    var head := if Visible(rows[0]) && p(rows[0]) then [rows[0]] else [];
    SumConcat(head, Get(rows[1..], p), Amount);
  }

  /** The account's DTO with the given current balance. */
  function ToAccountDto(a: Row<Account>, balance: Money): AccountDto
  {
    AccountDto(a.id, a.entity.name, AccountTypeName(a.entity.accountType), a.entity.currency, balance)
  }

  /** `_mapper.Map<Account>(createAccountDto)` with the user's id. */
  function NewAccount(userId: int, d: CreateAccountDto): (r: Account)
    requires CreateAccountAcceptable(d)
    ensures r.userId == userId && r.initialBalance == d.initialBalance && r.accountType == d.accountType
    ensures 0 < |r.name| <= 100 && |r.currency| == 3
  {
    Account(userId, d.name.value, d.accountType, d.currency.value, d.initialBalance)
  }

  /** The `foreach` of `GetUserAccountsAsync`: each account's DTO with its current balance, in order. */
  method AccountDtos(owned: seq<Row<Account>>, transactions: seq<Row<Transaction>>) returns (dtos: seq<AccountDto>)
    ensures |dtos| == |owned|
    ensures forall k :: 0 <= k < |owned| ==>
              dtos[k] == ToAccountDto(owned[k], Balance(transactions, owned[k].id, owned[k].entity.initialBalance))
  {
    dtos := [];
    var i := 0;
    while i < |owned|
      invariant 0 <= i <= |owned| && |dtos| == i
      invariant forall k :: 0 <= k < i ==>
                  dtos[k] == ToAccountDto(owned[k], Balance(transactions, owned[k].id, owned[k].entity.initialBalance))
    {
      var balance := Balance(transactions, owned[i].id, owned[i].entity.initialBalance);
      dtos := dtos + [ToAccountDto(owned[i], balance)];
      i := i + 1;
    }
  }

  class AccountService {
    const accounts: DbSet<Account>
    const transactions: DbSet<Transaction>
    const categories: DbSet<Category>

    ghost predicate Valid()
      reads accounts
    {
      SetValid(accounts)
    }

    ghost predicate Ready()
      reads accounts
    {
      Valid() && accounts.Clean()
    }

    constructor (accounts: DbSet<Account>, transactions: DbSet<Transaction>, categories: DbSet<Category>)
      ensures this.accounts == accounts && this.transactions == transactions && this.categories == categories
    {
      this.accounts := accounts;
      this.transactions := transactions;
      this.categories := categories;
    }

    /** `CompleteAsync()` after writes made with the save's clock reading: nothing moves. */
    method Complete(now: Ticks)
      requires Valid() && Stamped(accounts.rows, accounts.states, now)
      modifies accounts
      ensures Ready() && accounts.rows == old(accounts.rows) && accounts.nextId == old(accounts.nextId)
    {
      Save(accounts, now);
    }

    /** `GetUserAccountsAsync`: each of the user's live accounts, by name, with its current balance. */
    method GetUserAccounts(userId: int) returns (r: Result<seq<AccountDto>>)
      ensures r.isSuccess && r.value.Some?
      ensures var owned := GetAccountsByUserId(accounts.rows, userId);
              |r.value.value| == |owned|
              && forall k :: 0 <= k < |owned| ==>
                   r.value.value[k] == ToAccountDto(owned[k], Balance(transactions.rows, owned[k].id, owned[k].entity.initialBalance))
    {
      var owned := GetAccountsByUserId(accounts.rows, userId);
      var dtos := AccountDtos(owned, transactions.rows);
      return Success(dtos);
    }

    /** `GetAccountByIdAsync`: the user's live account with its current balance, or the not-found message. */
    method GetAccountById(userId: int, accountId: int) returns (r: Result<AccountDto>)
      ensures GetAccountByIdAndUserId(accounts.rows, userId, accountId).None? ==> r == FailureOf(AccountNotFound(accountId))
      ensures GetAccountByIdAndUserId(accounts.rows, userId, accountId).Some? ==>
        var a := accounts.rows[GetAccountByIdAndUserId(accounts.rows, userId, accountId).value];
        r == Success(ToAccountDto(a, Balance(transactions.rows, accountId, a.entity.initialBalance)))
    {
      var found := GetAccountByIdAndUserId(accounts.rows, userId, accountId);
      if found.None? {
        return FailureOf(AccountNotFound(accountId));
      }
      var a := accounts.rows[found.value];
      return Success(ToAccountDto(a, Balance(transactions.rows, a.id, a.entity.initialBalance)));
    }

    /**
     * `CreateAccountAsync`: an accepted request opens the user's account
     * with the next identity; its reported balance is the opening balance.
     */
    method CreateAccount(userId: int, d: CreateAccountDto, now: Ticks) returns (r: Result<AccountDto>)
      requires Ready()
      modifies accounts
      ensures Ready()
      ensures r.isSuccess <==> CreateAccountAcceptable(d)
      ensures !CreateAccountAcceptable(d) ==> r == Failure(CreateAccountErrors(d)) && accounts.rows == old(accounts.rows)
      ensures CreateAccountAcceptable(d) ==>
        var row := Row(old(accounts.nextId), now, None, false, NewAccount(userId, d));
        accounts.rows == old(accounts.rows) + [row] && r == Success(ToAccountDto(row, d.initialBalance))
    {
      var errs := CreateAccountErrors(d);
      if errs != [] {
        return Failure(errs);
      }
      var a := NewAccount(userId, d);
      CleanIsStamped(accounts.rows, accounts.states, now);
      StampedAdd(accounts.rows, accounts.states, now, Row(accounts.nextId, now, None, false, a));
      var added := accounts.Add(a, now);
      Complete(now);
      return Success(ToAccountDto(added, added.entity.initialBalance));
    }

    /** `UpdateAccountAsync`: renames the user's live account; type, currency and opening balance stay. */
    method UpdateAccount(userId: int, accountId: int, d: UpdateAccountDto, now: Ticks) returns (r: UnitResult)
      requires Ready()
      modifies accounts
      ensures Ready()
      ensures !UpdateAccountAcceptable(d) ==> r == UnitFailure(UpdateAccountErrors(d))
      ensures UpdateAccountAcceptable(d) && GetAccountByIdAndUserId(old(accounts.rows), userId, accountId).None? ==>
        r == UnitFailureOf(AccountToUpdateNotFound(accountId))
      ensures r.isSuccess <==> UpdateAccountAcceptable(d) && GetAccountByIdAndUserId(old(accounts.rows), userId, accountId).Some?
      ensures !r.isSuccess ==> accounts.rows == old(accounts.rows)
      ensures r.isSuccess ==>
        var i := GetAccountByIdAndUserId(old(accounts.rows), userId, accountId).value;
        accounts.rows == old(accounts.rows)[i := old(accounts.rows)[i].(entity := old(accounts.rows)[i].entity.(name := d.name.value),
                                                                        updatedAt := Some(now))]
    {
      var errs := UpdateAccountErrors(d);
      if errs != [] {
        return UnitFailure(errs);
      }
      var found := GetAccountByIdAndUserId(accounts.rows, userId, accountId);
      if found.None? {
        return UnitFailureOf(AccountToUpdateNotFound(accountId));
      }
      var i := found.value;
      var e := accounts.rows[i].entity.(name := d.name.value);
      CleanIsStamped(accounts.rows, accounts.states, now);
      StampedModify(accounts.rows, accounts.states, now, i, accounts.rows[i].(entity := e, updatedAt := Some(now)));
      Update(accounts, i, e, now);
      Complete(now);
      return UnitSuccess();
    }

    /**
     * `DeleteAccountAsync`: the user's live account is soft-deleted only
     * when the user's transaction listing for it is empty; afterwards no
     * lookup by its id finds it.
     */
    method DeleteAccount(userId: int, accountId: int, now: Ticks) returns (r: UnitResult)
      requires Ready()
      modifies accounts
      ensures Ready()
      ensures GetAccountByIdAndUserId(old(accounts.rows), userId, accountId).None? ==>
        r == UnitFailureOf(AccountToDeleteNotFound(accountId))
      ensures GetAccountByIdAndUserId(old(accounts.rows), userId, accountId).Some?
              && GetTransactionsByAccountId(transactions.rows, categories.rows, userId, accountId) != [] ==>
        r == UnitFailureOf(AccountHasTransactions)
      ensures r.isSuccess <==> GetAccountByIdAndUserId(old(accounts.rows), userId, accountId).Some?
                               && GetTransactionsByAccountId(transactions.rows, categories.rows, userId, accountId) == []
      ensures !r.isSuccess ==> accounts.rows == old(accounts.rows)
      ensures r.isSuccess ==>
        var i := GetAccountByIdAndUserId(old(accounts.rows), userId, accountId).value;
        accounts.rows == old(accounts.rows)[i := old(accounts.rows)[i].(isDeleted := true, updatedAt := Some(now))]
        && GetById(accounts.rows, accountId).None?
    {
      var found := GetAccountByIdAndUserId(accounts.rows, userId, accountId);
      if found.None? {
        return UnitFailureOf(AccountToDeleteNotFound(accountId));
      }
      var linked := GetTransactionsByAccountId(transactions.rows, categories.rows, userId, accountId);
      if linked != [] {
        return UnitFailureOf(AccountHasTransactions);
      }
      var i := found.value;
      CleanIsStamped(accounts.rows, accounts.states, now);
      StampedModify(accounts.rows, accounts.states, now, i, accounts.rows[i].(isDeleted := true, updatedAt := Some(now)));
      DeletedIsHidden(accounts.rows, i, now, accountId);
      IndexOfUnique(accounts.rows, i);
      DeleteById(accounts, accountId, now);
      Complete(now);
      return UnitSuccess();
    }
  }
}
