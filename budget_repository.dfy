// BudgetRepository: a user's budgets for one month ordered by the name of
// their category, and the lookup of the user's budget for one category and
// month.

module BudgetRepository {
  import opened Wrappers
  import opened Persistence
  import opened BaseRepository
  import opened Ordering
  import opened Entities

  /**
   * The category a budget's required `Category` navigation loads: the live
   * category with that id. Soft-deleted categories are hidden by the query
   * filter, so `Include(b => b.Category)` joins only budgets whose category
   * is live.
   */
  function CategoryOf(categories: seq<Row<Category>>, b: Row<Budget>): Option<Row<Category>>
  {
    GetById(categories, b.entity.categoryId)
  }

  /** `b.Category.Name`, for a budget whose category was joined. */
  function CategoryNameOf(categories: seq<Row<Category>>, b: Row<Budget>): string
  {
    match CategoryOf(categories, b)
    case Some(c) => c.entity.name
    case None => ""
  }

  /** `OrderBy(b => b.Category.Name)`. */
  predicate ByCategoryName(categories: seq<Row<Category>>, a: Row<Budget>, b: Row<Budget>)
  {
    StrLe(CategoryNameOf(categories, a), CategoryNameOf(categories, b))
  }

  /** The filter `b.UserId == userId && b.Month == month && b.Year == year`, plus the join on a live category. */
  predicate InPeriodOf(categories: seq<Row<Category>>, b: Row<Budget>, userId: int, month: int, year: int)
  {
    b.entity.userId == userId && b.entity.month == month && b.entity.year == year
    && CategoryOf(categories, b).Some?
  }

  /**
   * `GetBudgetsByUserIdAndPeriodAsync(userId, month, year)`: exactly the
   * user's live budgets for that month whose category is live, ordered by
   * the category's name.
   */
  function GetBudgetsByUserIdAndPeriod(budgets: seq<Row<Budget>>, categories: seq<Row<Category>>,
                                       userId: int, month: int, year: int): (r: seq<Row<Budget>>)
    ensures forall x {:trigger x in r} :: x in r <==> x in budgets && Visible(x) && InPeriodOf(categories, x, userId, month, year)
    ensures forall x {:trigger x in r} :: x in r ==> CategoryOf(categories, x).Some?
    ensures Sorted(r, (a, b) => ByCategoryName(categories, a, b))
  {
    var p := (b: Row<Budget>) => InPeriodOf(categories, b, userId, month, year);
    var le := (a, b) => ByCategoryName(categories, a, b);
    KeyedStrLePreorder(le, (b: Row<Budget>) => CategoryNameOf(categories, b));
    GetOrderedSpec(budgets, p, le);
    GetOrdered(budgets, p, le)
  }

  /** The filter of `GetBudgetByUserIdCategoryAndPeriodAsync`. */
  predicate BudgetFor(b: Row<Budget>, userId: int, categoryId: int, month: int, year: int)
  {
    b.entity.userId == userId && b.entity.categoryId == categoryId && b.entity.month == month && b.entity.year == year
  }

  /**
   * `GetBudgetByUserIdCategoryAndPeriodAsync`: the first live budget of the
   * user for that category and month, and nothing exactly when there is none.
   */
  function GetBudgetByUserIdCategoryAndPeriod(budgets: seq<Row<Budget>>, userId: int, categoryId: int,
                                              month: int, year: int): (r: Option<nat>)
    ensures r.Some? ==> r.value < |budgets| && Visible(budgets[r.value])
                        && BudgetFor(budgets[r.value], userId, categoryId, month, year)
    ensures r.None? <==> forall k :: 0 <= k < |budgets| && Visible(budgets[k])
                                     ==> !BudgetFor(budgets[k], userId, categoryId, month, year)
  {
    FirstIndex(budgets, (b: Row<Budget>) => BudgetFor(b, userId, categoryId, month, year))
  }
}
