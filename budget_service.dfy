// BudgetService: a user's monthly budgets with the amount spent against
// each, and the creation, amount change and soft deletion of a budget. The
// service writes the budgets table and reads the transactions and
// categories tables.

module BudgetService {
  import opened Wrappers
  import opened Text
  import opened Calendar
  import opened Persistence
  import opened BaseRepository
  import opened Entities
  import opened Aggregates
  import opened UnitOfWork
  import opened BudgetValidators
  import opened BudgetRepository

  /** `BudgetDto`: the budget with its category's name and icon and what was spent against it. */
  datatype BudgetDto = BudgetDto(id: int, categoryId: int, categoryName: string, categoryIcon: Option<string>,
                                 amount: Money, month: int, year: int, spentAmount: Money, remainingAmount: Money)

  const BudgetsFetchError := "Bütçeler getirilirken bir sunucu hatası oluştu."
  const UnknownCategoryName := "Bilinmeyen Kategori"
  const OnlyExpenseBudgets := "Bütçeler sadece Gider kategorileri için oluşturulabilir."

  function BudgetCategoryNotFound(id: int): string { "Bütçe için belirtilen kategori bulunamadı (ID: " + IntToString(id) + ")." }
  function BudgetToUpdateNotFound(id: int): string { "Güncellenecek bütçe bulunamadı (ID: " + IntToString(id) + ")." }
  function BudgetToDeleteNotFound(id: int): string { "Silinecek bütçe bulunamadı (ID: " + IntToString(id) + ")." }

  function BudgetExists(categoryName: string, month: int, year: int): string
  {
    "'" + categoryName + "' kategorisi için " + IntToString(month) + "/" + IntToString(year) + " dönemine ait bir bütçe zaten mevcut."
  }

  /** The query of `CalculateSpentAmount`: the user's live transactions in the category dated between the two midnights. */
  function SpentQuery(userId: int, categoryId: int, start: Ticks, end: Ticks): Row<Transaction> -> bool
  {
    (t: Row<Transaction>) => t.entity.userId == userId && t.entity.categoryId == categoryId
                             && start <= DateOf(t.entity.transactionDate) <= end
  }

  /**
   * `CalculateSpentAmount(userId, categoryId, month, year)`: the magnitude
   * of the sum of those transactions' amounts over the calendar month,
   * compared by date so the whole last day counts; nothing when the month
   * cannot be built as a date (the constructor throws).
   */
  function SpentAmount(transactions: seq<Row<Transaction>>, userId: int, categoryId: int, month: int, year: int): (r: Option<Money>)
    ensures r.Some? <==> MonthBounds(year, month).Some?
    ensures r.Some? ==> r.value >= 0
  {
    match MonthBounds(year, month)
    case None => None
    case Some((start, end)) => Some(Abs(Sum(Get(transactions, SpentQuery(userId, categoryId, start, end)), Amount)))
  }

  /**
   * When the month's transactions in the category are all expenses (stored
   * at or below zero, as the sign rule of transactions makes them), the
   * spent amount is exactly their total outflow.
   */
  lemma SpentIsOutflow(transactions: seq<Row<Transaction>>, userId: int, categoryId: int, month: int, year: int)
    requires MonthBounds(year, month).Some?
    requires forall k :: 0 <= k < |transactions| && transactions[k].entity.categoryId == categoryId ==> transactions[k].entity.amount <= 0
    ensures var (start, end) := MonthBounds(year, month).value;
            SpentAmount(transactions, userId, categoryId, month, year).value
            == -Sum(Get(transactions, SpentQuery(userId, categoryId, start, end)), Amount)
  {
    var (start, end) := MonthBounds(year, month).value;
    var matching := Get(transactions, SpentQuery(userId, categoryId, start, end));
    forall k | 0 <= k < |matching| ensures Amount(matching[k]) <= 0 {
      assert matching[k] in transactions;
    }
    SumNonPositive(matching, Amount);
  }

  /** A refund in the category (a positive amount) cancels against the expenses it meets: spent is the net, not the outflow. */
  lemma SpentNetsRefunds(transactions: seq<Row<Transaction>>, expense: Row<Transaction>, refund: Row<Transaction>, month: int, year: int)
    requires MonthBounds(year, month).Some?
    requires transactions == [expense, refund]
    requires Visible(expense) && Visible(refund) && expense.entity == refund.entity.(amount := -refund.entity.amount)
    requires SpentQuery(expense.entity.userId, expense.entity.categoryId, MonthBounds(year, month).value.0, MonthBounds(year, month).value.1)(expense)
    ensures SpentAmount(transactions, expense.entity.userId, expense.entity.categoryId, month, year) == Some(0)
  {
    var (start, end) := MonthBounds(year, month).value;
    var q := SpentQuery(expense.entity.userId, expense.entity.categoryId, start, end);
    assert q(refund);
    assert Get(transactions, q) == [expense, refund] by {
      assert transactions[1..] == [refund];
      assert Get([refund], q) == [refund] + Get([refund][1..], q);
    }
    assert Sum([expense, refund], Amount) == expense.entity.amount + Sum([refund], Amount);
  }

  /** The DTO of a listed budget whose month's spending is `spent`. */
  function ToBudgetDto(b: Row<Budget>, categories: seq<Row<Category>>, spent: Money): (r: BudgetDto)
    ensures r.remainingAmount == r.amount - r.spentAmount && r.amount == b.entity.amount && r.spentAmount == spent
    ensures CategoryOf(categories, b).Some? ==> r.categoryName == CategoryOf(categories, b).value.entity.name
  {
    var c := CategoryOf(categories, b);
    BudgetDto(b.id, b.entity.categoryId, if c.Some? then c.value.entity.name else UnknownCategoryName,
              if c.Some? then c.value.entity.iconName else None,
              b.entity.amount, b.entity.month, b.entity.year, spent, b.entity.amount - spent)
  }

  /** The lookup `GetAsync(b => b.Id == budgetId && b.UserId == userId)` followed by `First()`. */
  function OwnedBudget(rows: seq<Row<Budget>>, userId: int, budgetId: int): (r: Option<nat>)
    ensures r.Some? ==> r.value < |rows| && Visible(rows[r.value]) && rows[r.value].id == budgetId
                        && rows[r.value].entity.userId == userId
    ensures r.None? ==> forall k :: 0 <= k < |rows| && Visible(rows[k]) && rows[k].id == budgetId
                                    ==> rows[k].entity.userId != userId
  {
    FirstIndex(rows, (b: Row<Budget>) => b.id == budgetId && b.entity.userId == userId)
  }

  /** Two budgets for the same user, category, month and year. */
  predicate SameKey(a: Budget, b: Budget)
  {
    a.userId == b.userId && a.categoryId == b.categoryId && a.month == b.month && a.year == b.year
  }

  /** The duplicate guard's invariant: no two live budgets share user, category, month and year. */
  predicate NoDuplicateBudgets(rows: seq<Row<Budget>>)
  {
    forall i, j :: 0 <= i < j < |rows| && Visible(rows[i]) && Visible(rows[j]) ==> !SameKey(rows[i].entity, rows[j].entity)
  }

  /** Adding a live budget whose key no live budget has keeps the keys unique. */
  lemma AddKeepsNoDuplicates(rows: seq<Row<Budget>>, r: Row<Budget>)
    requires NoDuplicateBudgets(rows)
    requires forall k :: 0 <= k < |rows| && Visible(rows[k]) ==> !SameKey(rows[k].entity, r.entity)
    ensures NoDuplicateBudgets(rows + [r])
  {
  }

  /** Changing a budget's amount, or soft-deleting it, keeps the keys unique. */
  lemma ReplaceKeepsNoDuplicates(rows: seq<Row<Budget>>, i: nat, r: Row<Budget>)
    requires NoDuplicateBudgets(rows) && i < |rows|
    requires !r.isDeleted ==> SameKey(r.entity, rows[i].entity) && Visible(rows[i])
    ensures NoDuplicateBudgets(rows[i := r])
  {
    var after := rows[i := r];
    forall a, b | 0 <= a < b < |after| && Visible(after[a]) && Visible(after[b])
      ensures !SameKey(after[a].entity, after[b].entity)
    {
      assert !SameKey(rows[a].entity, rows[b].entity);
    }
  }

  /** With unique keys, the duplicate lookup finds the one budget a (user, category, month) has. */
  lemma DuplicateLookupIsExact(rows: seq<Row<Budget>>, i: nat)
    requires NoDuplicateBudgets(rows) && i < |rows| && Visible(rows[i])
    ensures var b := rows[i].entity;
            GetBudgetByUserIdCategoryAndPeriod(rows, b.userId, b.categoryId, b.month, b.year) == Some(i)
  {
    var b := rows[i].entity;
    var found := GetBudgetByUserIdCategoryAndPeriod(rows, b.userId, b.categoryId, b.month, b.year);
    assert found.Some?;
    var j := found.value;
    assert SameKey(rows[j].entity, rows[i].entity);
  }

  /**
   * The `foreach` of `GetUserBudgetsByPeriodAsync`: each budget's DTO with
   * its month's spending, in order; None once a budget needs the spending
   * of a month that cannot be built as a date.
   */
  method BudgetDtos(listed: seq<Row<Budget>>, transactions: seq<Row<Transaction>>, categories: seq<Row<Category>>,
                    userId: int, month: int, year: int)
    returns (r: Option<seq<BudgetDto>>)
    ensures r.None? <==> listed != [] && MonthBounds(year, month).None?
    ensures r.Some? ==> |r.value| == |listed|
                        && forall k :: 0 <= k < |listed| ==>
                             var spent := SpentAmount(transactions, userId, listed[k].entity.categoryId, month, year);
                             spent.Some? && r.value[k] == ToBudgetDto(listed[k], categories, spent.value)
  {
    var dtos: seq<BudgetDto> := [];
    var i := 0;
    while i < |listed|
      invariant 0 <= i <= |listed| && |dtos| == i
      invariant i > 0 ==> MonthBounds(year, month).Some?
      invariant forall k :: 0 <= k < i ==>
                  var spent := SpentAmount(transactions, userId, listed[k].entity.categoryId, month, year);
                  spent.Some? && dtos[k] == ToBudgetDto(listed[k], categories, spent.value)
    {
      var spent := SpentAmount(transactions, userId, listed[i].entity.categoryId, month, year);
      if spent.None? {
        return None;
      }
      dtos := dtos + [ToBudgetDto(listed[i], categories, spent.value)];
      i := i + 1;
    }
    return Some(dtos);
  }

  class BudgetService {
    const budgets: DbSet<Budget>
    const transactions: DbSet<Transaction>
    const categories: DbSet<Category>

    ghost predicate Valid()
      reads budgets
    {
      SetValid(budgets) && NoDuplicateBudgets(budgets.rows)
    }

    ghost predicate Ready()
      reads budgets
    {
      Valid() && budgets.Clean()
    }

    constructor (budgets: DbSet<Budget>, transactions: DbSet<Transaction>, categories: DbSet<Category>)
      ensures this.budgets == budgets && this.transactions == transactions && this.categories == categories
    {
      this.budgets := budgets;
      this.transactions := transactions;
      this.categories := categories;
    }

    /** `CompleteAsync()` after writes made with the save's clock reading: nothing moves. */
    method Complete(now: Ticks)
      requires Valid() && Stamped(budgets.rows, budgets.states, now)
      modifies budgets
      ensures Ready() && budgets.rows == old(budgets.rows) && budgets.nextId == old(budgets.nextId)
    {
      Save(budgets, now);
    }

    /**
     * `GetUserBudgetsByPeriodAsync`: each of the user's budgets for the
     * month, by category name, with the month's spending and what remains.
     * A month that cannot be built as a date fails the request once a
     * budget needs its spending.
     */
    method GetUserBudgetsByPeriod(userId: int, month: int, year: int) returns (r: Result<seq<BudgetDto>>)
      ensures var listed := GetBudgetsByUserIdAndPeriod(budgets.rows, categories.rows, userId, month, year);
              if listed != [] && MonthBounds(year, month).None? then r == FailureOf(BudgetsFetchError)
              else r.isSuccess && r.value.Some? && |r.value.value| == |listed|
                   && forall k :: 0 <= k < |listed| ==>
                        var spent := SpentAmount(transactions.rows, userId, listed[k].entity.categoryId, month, year);
                        spent.Some? && r.value.value[k] == ToBudgetDto(listed[k], categories.rows, spent.value)
    {
      var listed := GetBudgetsByUserIdAndPeriod(budgets.rows, categories.rows, userId, month, year);
      var dtos := BudgetDtos(listed, transactions.rows, categories.rows, userId, month, year);
      if dtos.None? {
        return FailureOf(BudgetsFetchError);
      }
      return Success(dtos.value);
    }

    /**
     * `CreateBudgetAsync`: an accepted request for a live expense category
     * that is predefined or the user's own, in a month the user has no live
     * budget for in that category, records the budget; it reports nothing
     * spent and the whole amount remaining. Every refusal adds nothing.
     */
    method CreateBudget(userId: int, d: CreateBudgetDto, now: Ticks) returns (r: Result<BudgetDto>)
      requires Ready()
      modifies budgets
      ensures Ready()
      ensures !CreateBudgetAcceptable(d, now) ==> r == Failure(CreateBudgetErrors(d, now))
      ensures CreateBudgetAcceptable(d, now)
              && !(GetById(categories.rows, d.categoryId).Some? && CategoryUsableBy(GetById(categories.rows, d.categoryId).value, userId)) ==>
        r == FailureOf(BudgetCategoryNotFound(d.categoryId))
      ensures CreateBudgetAcceptable(d, now)
              && GetById(categories.rows, d.categoryId).Some? && CategoryUsableBy(GetById(categories.rows, d.categoryId).value, userId)
              && GetById(categories.rows, d.categoryId).value.entity.categoryType != Expense ==>
        r == FailureOf(OnlyExpenseBudgets)
      ensures CreateBudgetAcceptable(d, now)
              && GetById(categories.rows, d.categoryId).Some? && CategoryUsableBy(GetById(categories.rows, d.categoryId).value, userId)
              && GetById(categories.rows, d.categoryId).value.entity.categoryType == Expense
              && GetBudgetByUserIdCategoryAndPeriod(old(budgets.rows), userId, d.categoryId, d.month, d.year).Some? ==>
        r == FailureOf(BudgetExists(GetById(categories.rows, d.categoryId).value.entity.name, d.month, d.year))
      ensures r.isSuccess <==> CreateBudgetAcceptable(d, now)
                               && GetById(categories.rows, d.categoryId).Some?
                               && CategoryUsableBy(GetById(categories.rows, d.categoryId).value, userId)
                               && GetById(categories.rows, d.categoryId).value.entity.categoryType == Expense
                               && GetBudgetByUserIdCategoryAndPeriod(old(budgets.rows), userId, d.categoryId, d.month, d.year).None?
      ensures !r.isSuccess ==> budgets.rows == old(budgets.rows)
      ensures r.isSuccess ==>
        var c := GetById(categories.rows, d.categoryId).value;
        var row := Row(old(budgets.nextId), now, None, false, Budget(userId, d.categoryId, d.amount, d.month, d.year));
        budgets.rows == old(budgets.rows) + [row]
        && r == Success(BudgetDto(row.id, d.categoryId, c.entity.name, c.entity.iconName, d.amount, d.month, d.year, 0, d.amount))
    {
      var errs := CreateBudgetErrors(d, now);
      if errs != [] {
        return Failure(errs);
      }
      var category := GetById(categories.rows, d.categoryId);
      if category.None? || !CategoryUsableBy(category.value, userId) {
        return FailureOf(BudgetCategoryNotFound(d.categoryId));
      }
      var c := category.value;
      if c.entity.categoryType != Expense {
        return FailureOf(OnlyExpenseBudgets);
      }
      var existing := GetBudgetByUserIdCategoryAndPeriod(budgets.rows, userId, d.categoryId, d.month, d.year);
      if existing.Some? {
        return FailureOf(BudgetExists(c.entity.name, d.month, d.year));
      }
      var b := Budget(userId, d.categoryId, d.amount, d.month, d.year);
      CleanIsStamped(budgets.rows, budgets.states, now);
      StampedAdd(budgets.rows, budgets.states, now, Row(budgets.nextId, now, None, false, b));
      AddKeepsNoDuplicates(budgets.rows, Row(budgets.nextId, now, None, false, b));
      var added := budgets.Add(b, now);
      Complete(now);
      return Success(BudgetDto(added.id, d.categoryId, c.entity.name, c.entity.iconName, d.amount, d.month, d.year, 0, d.amount));
    }

    /** `UpdateBudgetAsync`: sets the amount of the user's live budget; its category and month stay. */
    method UpdateBudget(userId: int, budgetId: int, d: UpdateBudgetDto, now: Ticks) returns (r: UnitResult)
      requires Ready()
      modifies budgets
      ensures Ready()
      ensures !UpdateBudgetAcceptable(d) ==> r == UnitFailure(UpdateBudgetErrors(d))
      ensures UpdateBudgetAcceptable(d) && OwnedBudget(old(budgets.rows), userId, budgetId).None? ==>
        r == UnitFailureOf(BudgetToUpdateNotFound(budgetId))
      ensures r.isSuccess <==> UpdateBudgetAcceptable(d) && OwnedBudget(old(budgets.rows), userId, budgetId).Some?
      ensures !r.isSuccess ==> budgets.rows == old(budgets.rows)
      ensures r.isSuccess ==>
        var i := OwnedBudget(old(budgets.rows), userId, budgetId).value;
        budgets.rows == old(budgets.rows)[i := old(budgets.rows)[i].(entity := old(budgets.rows)[i].entity.(amount := d.amount),
                                                                      updatedAt := Some(now))]
    {
      var errs := UpdateBudgetErrors(d);
      if errs != [] {
        return UnitFailure(errs);
      }
      var found := OwnedBudget(budgets.rows, userId, budgetId);
      if found.None? {
        return UnitFailureOf(BudgetToUpdateNotFound(budgetId));
      }
      var i := found.value;
      var e := budgets.rows[i].entity.(amount := d.amount);
      CleanIsStamped(budgets.rows, budgets.states, now);
      StampedModify(budgets.rows, budgets.states, now, i, budgets.rows[i].(entity := e, updatedAt := Some(now)));
      ReplaceKeepsNoDuplicates(budgets.rows, i, budgets.rows[i].(entity := e, updatedAt := Some(now)));
      Update(budgets, i, e, now);
      Complete(now);
      return UnitSuccess();
    }

    /**
     * `DeleteBudgetAsync`: soft-deletes the user's live budget; afterwards
     * no lookup finds it and a budget for the same category and month may
     * be created again.
     */
    method DeleteBudget(userId: int, budgetId: int, now: Ticks) returns (r: UnitResult)
      requires Ready()
      modifies budgets
      ensures Ready()
      ensures r.isSuccess <==> OwnedBudget(old(budgets.rows), userId, budgetId).Some?
      ensures !r.isSuccess ==> r == UnitFailureOf(BudgetToDeleteNotFound(budgetId)) && budgets.rows == old(budgets.rows)
      ensures r.isSuccess ==>
        var i := OwnedBudget(old(budgets.rows), userId, budgetId).value;
        var b := old(budgets.rows)[i].entity;
        budgets.rows == old(budgets.rows)[i := old(budgets.rows)[i].(isDeleted := true, updatedAt := Some(now))]
        && GetById(budgets.rows, budgetId).None?
        && GetBudgetByUserIdCategoryAndPeriod(budgets.rows, b.userId, b.categoryId, b.month, b.year).None?
    {
      var found := OwnedBudget(budgets.rows, userId, budgetId);
      if found.None? {
        return UnitFailureOf(BudgetToDeleteNotFound(budgetId));
      }
      var i := found.value;
      ghost var before := budgets.rows;
      CleanIsStamped(budgets.rows, budgets.states, now);
      StampedModify(budgets.rows, budgets.states, now, i, budgets.rows[i].(isDeleted := true, updatedAt := Some(now)));
      ReplaceKeepsNoDuplicates(budgets.rows, i, budgets.rows[i].(isDeleted := true, updatedAt := Some(now)));
      DeletedIsHidden(budgets.rows, i, now, budgetId);
      Delete(budgets, i, now);
      DeletedFreesKey(before, i, now);
      Complete(now);
      return UnitSuccess();
    }
  }

  /** Soft-deleting the one live budget of a key leaves that key free for a new budget. */
  lemma DeletedFreesKey(rows: seq<Row<Budget>>, i: nat, now: Ticks)
    requires NoDuplicateBudgets(rows) && i < |rows| && Visible(rows[i])
    ensures var b := rows[i].entity;
            GetBudgetByUserIdCategoryAndPeriod(rows[i := rows[i].(isDeleted := true, updatedAt := Some(now))],
                                               b.userId, b.categoryId, b.month, b.year).None?
  {
    var b := rows[i].entity;
    var after := rows[i := rows[i].(isDeleted := true, updatedAt := Some(now))];
    forall k | 0 <= k < |after| && Visible(after[k]) ensures !BudgetFor(after[k], b.userId, b.categoryId, b.month, b.year) {
      if k < i {
        assert !SameKey(rows[k].entity, rows[i].entity);
      } else {
        assert !SameKey(rows[i].entity, rows[k].entity);
      }
    }
  }
}
