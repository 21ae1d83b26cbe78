// ReportRepository: the reads the reports are built from. A user's saved
// reports newest first and paged; the transactions, budgets, accounts and
// categories in a date range; and the three aggregations: per-category
// totals with their budgets, per-account income and expense, and the
// spending against each budget in its month.
//
// Date ranges compare raw instants (`startDate <= t.TransactionDate <=
// endDate`), not calendar days. An `Include` of a required navigation joins
// only live principal rows, as in TransactionRepository.

module ReportRepository {
  import opened Wrappers
  import opened Calendar
  import opened Persistence
  import opened BaseRepository
  import opened Ordering
  import opened Aggregates
  import opened Entities
  import opened TransactionRepository
  import opened BudgetRepository
  import opened AccountRepository
  import opened CategoryRepository

  // ---------------------------------------------------------------- reports

  /** `OrderByDescending(r => r.GeneratedAt)`. */
  predicate NewestGeneratedFirst(a: Row<Report>, b: Row<Report>)
  {
    a.entity.generatedAt >= b.entity.generatedAt
  }

  /** The user's live reports, newest first, before paging. */
  function UserReports(rows: seq<Row<Report>>, userId: int): (r: seq<Row<Report>>)
    ensures forall x {:trigger x in r} :: x in r <==> x in rows && Visible(x) && x.entity.userId == userId
    ensures Sorted(r, NewestGeneratedFirst)
  {
    var p := (x: Row<Report>) => x.entity.userId == userId;
    assert TotalPreorder(NewestGeneratedFirst);
    GetOrderedSpec(rows, p, NewestGeneratedFirst);
    GetOrdered(rows, p, NewestGeneratedFirst)
  }

  /** `GetUserReportCountAsync(userId)`: how many live reports the user has. */
  function GetUserReportCount(rows: seq<Row<Report>>, userId: int): (n: nat)
    ensures n == |UserReports(rows, userId)|
    ensures n <= |rows|
  {
    var live := Get(rows, (x: Row<Report>) => x.entity.userId == userId);
    assert |multiset(live)| == |live|;
    |live|
  }

  /**
   * `GetUserReportsAsync(userId, page, pageSize)`: a page of the user's
   * reports. For a page of at least 1 and a non-negative size it holds at
   * most `pageSize` reports: the run of the listing after the first
   * `(page - 1) * pageSize`, as long as `pageSize` or as the rest of the
   * listing; no page holds more than the user's count.
   */
  function GetUserReports(rows: seq<Row<Report>>, userId: int, page: int, pageSize: int): (r: seq<Row<Report>>)
    ensures forall x {:trigger x in r} :: x in r ==> x in UserReports(rows, userId)
    ensures Sorted(r, NewestGeneratedFirst)
    ensures |r| <= GetUserReportCount(rows, userId)
    ensures page >= 1 && pageSize >= 0 ==> |r| <= pageSize
    ensures page >= 1 && pageSize >= 0 ==> PageAt(UserReports(rows, userId), r, (page - 1) * pageSize, pageSize)
  {
    var all := UserReports(rows, userId);
    PageOfSorted(all, NewestGeneratedFirst, page, pageSize);
    if page >= 1 && pageSize >= 0 then
      PageIsSlice(all, page, pageSize);
      Page(all, page, pageSize)
    else
      Page(all, page, pageSize)
  }

  /**
   * `GetUserReportByIdAsync(userId, reportId)`: the live report with that
   * id when the user owns it; nothing when there is none or it is another
   * user's.
   */
  function GetUserReportById(rows: seq<Row<Report>>, userId: int, reportId: int): (r: Option<nat>)
    ensures r.Some? ==> r.value < |rows| && Visible(rows[r.value]) && rows[r.value].id == reportId
                        && rows[r.value].entity.userId == userId
    ensures r.None? ==> forall k :: 0 <= k < |rows| && Visible(rows[k]) && rows[k].id == reportId
                                    ==> rows[k].entity.userId != userId
  {
    FirstIndex(rows, (x: Row<Report>) => x.id == reportId && x.entity.userId == userId)
  }

  // ------------------------------------------------------- range queries

  /**
   * An optional id list as the reports filter by it: a missing or empty
   * list (`ids != null && ids.Any()` fails) admits every id.
   */
  predicate ListAdmits(ids: Option<seq<int>>, id: int)
  {
    ids.None? || ids.value == [] || id in ids.value
  }

  /** `t.UserId == userId && t.TransactionDate >= startDate && t.TransactionDate <= endDate`. */
  predicate InDateRange(t: Row<Transaction>, userId: int, start: Ticks, end: Ticks)
  {
    t.entity.userId == userId && start <= t.entity.transactionDate <= end
  }

  /** The filter of `GetTransactionsByDateRangeAsync`, with the joins of its two `Include`s. */
  predicate RangeMatch(t: Row<Transaction>, accounts: seq<Row<Account>>, categories: seq<Row<Category>>, userId: int,
                       start: Ticks, end: Ticks, categoryIds: Option<seq<int>>, accountIds: Option<seq<int>>)
  {
    InDateRange(t, userId, start, end)
    && ListAdmits(categoryIds, t.entity.categoryId) && ListAdmits(accountIds, t.entity.accountId)
    && CategoryJoined(t, categories) && AccountJoined(t, accounts)
  }

  /** `OrderBy(t => t.TransactionDate)`. */
  predicate EarliestFirst(a: Row<Transaction>, b: Row<Transaction>)
  {
    a.entity.transactionDate <= b.entity.transactionDate
  }

  /**
   * `GetTransactionsByDateRangeAsync`: exactly the user's live
   * transactions dated in the closed range, in the listed categories and
   * accounts when lists are given, whose category and account are live;
   * earliest first.
   */
  function GetTransactionsByDateRange(rows: seq<Row<Transaction>>, accounts: seq<Row<Account>>, categories: seq<Row<Category>>,
                                      userId: int, start: Ticks, end: Ticks,
                                      categoryIds: Option<seq<int>>, accountIds: Option<seq<int>>): (r: seq<Row<Transaction>>)
    ensures forall x {:trigger x in r} :: x in r <==> x in rows && Visible(x)
                                                      && RangeMatch(x, accounts, categories, userId, start, end, categoryIds, accountIds)
    ensures Sorted(r, EarliestFirst)
  {
    var p := (t: Row<Transaction>) => RangeMatch(t, accounts, categories, userId, start, end, categoryIds, accountIds);
    assert TotalPreorder(EarliestFirst);
    GetOrderedSpec(rows, p, EarliestFirst);
    GetOrdered(rows, p, EarliestFirst)
  }

  /**
   * The month filter of `GetBudgetsByDateRangeAsync`: (year, month) lies
   * between (startYear, startMonth) and (endYear, endMonth), both inclusive.
   */
  predicate MonthInRange(year: int, month: int, startYear: int, startMonth: int, endYear: int, endMonth: int)
  {
    (year > startYear || (year == startYear && month >= startMonth))
    && (year < endYear || (year == endYear && month <= endMonth))
  }

  /** Months counted from the start of year 0. */
  function MonthIndex(year: int, month: int): int
  {
    year * 12 + month - 1
  }

  /** For real months the filter is the lexicographic order: a closed interval of consecutive months. */
  lemma MonthInRangeIsInterval(year: int, month: int, startYear: int, startMonth: int, endYear: int, endMonth: int)
    requires 1 <= month <= 12 && 1 <= startMonth <= 12 && 1 <= endMonth <= 12
    ensures MonthInRange(year, month, startYear, startMonth, endYear, endMonth)
            <==> MonthIndex(startYear, startMonth) <= MonthIndex(year, month) <= MonthIndex(endYear, endMonth)
  {
  }

  /** The filter of `GetBudgetsByDateRangeAsync`, with the join of its `Include(b => b.Category)`. */
  predicate BudgetInRange(b: Row<Budget>, categories: seq<Row<Category>>, userId: int, start: Ticks, end: Ticks,
                          categoryIds: Option<seq<int>>)
  {
    b.entity.userId == userId
    && MonthInRange(b.entity.year, b.entity.month, YearOf(start), MonthOf(start), YearOf(end), MonthOf(end))
    && ListAdmits(categoryIds, b.entity.categoryId)
    && CategoryOf(categories, b).Some?
  }

  /**
   * `GetBudgetsByDateRangeAsync`: exactly the user's live budgets whose
   * month falls between the months of the two dates, in the listed
   * categories when a list is given, whose category is live; in table order.
   */
  function GetBudgetsByDateRange(budgets: seq<Row<Budget>>, categories: seq<Row<Category>>, userId: int,
                                 start: Ticks, end: Ticks, categoryIds: Option<seq<int>>): (r: seq<Row<Budget>>)
    ensures forall x {:trigger x in r} :: x in r <==> x in budgets && Visible(x)
                                                      && BudgetInRange(x, categories, userId, start, end, categoryIds)
  {
    var p := (b: Row<Budget>) => BudgetInRange(b, categories, userId, start, end, categoryIds);
    assert forall x {:trigger x in Get(budgets, p)} :: x in Get(budgets, p) <==> x in budgets && Visible(x) && p(x) by {
      forall x ensures x in Get(budgets, p) <==> x in budgets && Visible(x) && p(x) {
        GetMembers(budgets, p, x);
      }
    }
    Get(budgets, p)
  }

  /**
   * `GetUserAccountsAsync(userId, accountIds)`: exactly the user's live
   * accounts, restricted to the listed ids when a list is given, by name.
   */
  function GetUserAccounts(accounts: seq<Row<Account>>, userId: int, accountIds: Option<seq<int>>): (r: seq<Row<Account>>)
    ensures forall x {:trigger x in r} :: x in r <==> x in accounts && Visible(x) && x.entity.userId == userId
                                                      && ListAdmits(accountIds, x.id)
    ensures Sorted(r, AccountsByName)
  {
    var p := (a: Row<Account>) => a.entity.userId == userId && ListAdmits(accountIds, a.id);
    KeyedStrLePreorder(AccountsByName, (a: Row<Account>) => a.entity.name);
    GetOrderedSpec(accounts, p, AccountsByName);
    GetOrdered(accounts, p, AccountsByName)
  }

  /** The filter of `GetUserCategoriesAsync`. */
  predicate CategorySelected(c: Row<Category>, userId: int, t: Option<CategoryType>, categoryIds: Option<seq<int>>)
  {
    (c.entity.userId == Some(userId) || c.entity.isPredefined)
    && (t.Some? ==> c.entity.categoryType == t.value)
    && ListAdmits(categoryIds, c.id)
  }

  /**
   * `GetUserCategoriesAsync(userId, type, categoryIds)`: exactly the live
   * categories the user owns or that are predefined, of the given type and
   * among the listed ids when those are given, by name.
   */
  function GetUserCategories(categories: seq<Row<Category>>, userId: int, t: Option<CategoryType>,
                             categoryIds: Option<seq<int>>): (r: seq<Row<Category>>)
    ensures forall x {:trigger x in r} :: x in r <==> x in categories && Visible(x) && CategorySelected(x, userId, t, categoryIds)
    ensures Sorted(r, CategoriesByName)
  {
    var p := (c: Row<Category>) => CategorySelected(c, userId, t, categoryIds);
    KeyedStrLePreorder(CategoriesByName, (c: Row<Category>) => c.entity.name);
    GetOrderedSpec(categories, p, CategoriesByName);
    GetOrdered(categories, p, CategoriesByName)
  }

  // ---------------------------------------------------- category analysis

  /** One row of `GetCategoryAnalysisAsync`. */
  datatype CategorySummary = CategorySummary(categoryId: int, categoryName: string, categoryType: CategoryType,
                                             totalAmount: Money, transactionCount: nat, budgetAmount: Option<Money>)

  /** The filter of the analysis query, with the join of its `Include(t => t.Category)`. */
  predicate Analysed(t: Row<Transaction>, categories: seq<Row<Category>>, userId: int, start: Ticks, end: Ticks,
                     categoryIds: Option<seq<int>>)
  {
    InDateRange(t, userId, start, end) && ListAdmits(categoryIds, t.entity.categoryId) && CategoryJoined(t, categories)
  }

  /** The transactions the analysis groups, in table order. */
  function AnalysedTransactions(rows: seq<Row<Transaction>>, categories: seq<Row<Category>>, userId: int,
                                start: Ticks, end: Ticks, categoryIds: Option<seq<int>>): (r: seq<Row<Transaction>>)
    ensures forall k :: 0 <= k < |r| ==> r[k] in rows && Visible(r[k]) && Analysed(r[k], categories, userId, start, end, categoryIds)
    ensures forall k :: 0 <= k < |rows| && Visible(rows[k]) && Analysed(rows[k], categories, userId, start, end, categoryIds)
                        ==> rows[k] in r
  {
    var p := (t: Row<Transaction>) => Analysed(t, categories, userId, start, end, categoryIds);
    var g := Get(rows, p);
    assert forall k :: 0 <= k < |g| ==> p(g[k]);
    assert forall k :: 0 <= k < |rows| && Visible(rows[k]) && Analysed(rows[k], categories, userId, start, end, categoryIds)
                       ==> p(rows[k]);
    g
  }

  /** The group key `t.CategoryId` (the category's name and type come with it through the join). */
  function CategoryIdOf(t: Row<Transaction>): int
  {
    t.entity.categoryId
  }

  function TotalOf(c: CategorySummary): int { c.totalAmount }
  function CountOf(c: CategorySummary): int { c.transactionCount }

  /** The summary row of one group, before budgets are attached. */
  function GroupSummary(ts: seq<Row<Transaction>>, categories: seq<Row<Category>>, id: int): (c: CategorySummary)
    ensures c.categoryId == id && c.budgetAmount == None
    ensures c.totalAmount == GroupSum(ts, CategoryIdOf, Amount)(id)
    ensures c.transactionCount == GroupSum(ts, CategoryIdOf, CountOne())(id)
    ensures GetById(categories, id).Some? ==> c.categoryName == GetById(categories, id).value.entity.name
                                              && c.categoryType == GetById(categories, id).value.entity.categoryType
  {
    var group := Filter(ts, HasKey(CategoryIdOf, id));
    SumCountOne(group);
    match GetById(categories, id)
    case Some(cat) => CategorySummary(id, cat.entity.name, cat.entity.categoryType, Sum(group, Amount), |group|, None)
    case None => CategorySummary(id, "", Expense, Sum(group, Amount), |group|, None)
  }

  /**
   * `GroupBy(t => new { t.CategoryId, t.Category.Name, t.Category.Type })`
   * and its `Select`: one summary per category among `ts`, in order of
   * first appearance.
   */
  function CategoryGroups(ts: seq<Row<Transaction>>, categories: seq<Row<Category>>): (r: seq<CategorySummary>)
    ensures |r| == |GroupKeys(ts, CategoryIdOf)|
    ensures forall i :: 0 <= i < |r| ==> r[i] == GroupSummary(ts, categories, GroupKeys(ts, CategoryIdOf)[i])
  {
    var keys := GroupKeys(ts, CategoryIdOf);
    seq(|keys|, i requires 0 <= i < |keys| => GroupSummary(ts, categories, keys[i]))
  }

  /**
   * One row per category: the rows' category ids are distinct and every
   * grouped transaction's category has a row; the rows' totals add up to
   * the total amount and their counts to the number of transactions.
   */
  lemma CategoryGroupsPartition(ts: seq<Row<Transaction>>, categories: seq<Row<Category>>)
    ensures var r := CategoryGroups(ts, categories);
            (forall i, j :: 0 <= i < j < |r| ==> r[i].categoryId != r[j].categoryId)
            && (forall x {:trigger x in ts} :: x in ts ==> exists i :: 0 <= i < |r| && r[i].categoryId == x.entity.categoryId)
            && Sum(r, TotalOf) == Sum(ts, Amount)
            && Sum(r, CountOf) == |ts|
  {
    CategoryGroupsCover(ts, categories);
    CategoryTotalsAddUp(ts, categories);
  }

  lemma CategoryGroupsCover(ts: seq<Row<Transaction>>, categories: seq<Row<Category>>)
    ensures var r := CategoryGroups(ts, categories);
            forall x {:trigger x in ts} :: x in ts ==> exists i :: 0 <= i < |r| && r[i].categoryId == x.entity.categoryId
  {
    var r := CategoryGroups(ts, categories);
    var keys := GroupKeys(ts, CategoryIdOf);
    forall x | x in ts ensures exists i :: 0 <= i < |r| && r[i].categoryId == x.entity.categoryId {
      assert CategoryIdOf(x) in keys;
      var i :| 0 <= i < |keys| && keys[i] == CategoryIdOf(x);
      assert r[i].categoryId == keys[i];
    }
  }

  lemma CategoryTotalsAddUp(ts: seq<Row<Transaction>>, categories: seq<Row<Category>>)
    ensures Sum(CategoryGroups(ts, categories), TotalOf) == Sum(ts, Amount)
    ensures Sum(CategoryGroups(ts, categories), CountOf) == |ts|
  {
    var r := CategoryGroups(ts, categories);
    var keys := GroupKeys(ts, CategoryIdOf);
    SumPointwise(r, TotalOf, keys, GroupSum(ts, CategoryIdOf, Amount));
    GroupSumsAddUp(ts, CategoryIdOf, Amount);
    SumPointwise(r, CountOf, keys, GroupSum(ts, CategoryIdOf, CountOne()));
    GroupSumsAddUp(ts, CategoryIdOf, CountOne());
    SumCountOne(ts);
  }

  function BudgetAmount(b: Row<Budget>): int { b.entity.amount }

  function BudgetCategoryIdOf(b: Row<Budget>): int { b.entity.categoryId }

  /**
   * `m` is the dictionary `budgets.GroupBy(b => b.CategoryId).ToDictionary(g
   * => g.Key, g => g.Sum(b => b.Amount))` builds from `bs`: a key for every
   * category with a budget, mapped to the sum of that category's amounts.
   */
  ghost predicate IsBudgetTotals(bs: seq<Row<Budget>>, m: map<int, Money>)
  {
    (forall id {:trigger id in m} :: id in m <==> exists x :: x in bs && x.entity.categoryId == id)
    && (forall id {:trigger id in m} :: id in m ==> m[id] == Sum(Filter(bs, HasKey(BudgetCategoryIdOf, id)), BudgetAmount))
  }

  /** Adding the first budget's amount to the totals of the others. */
  function AddToTotals(m: map<int, Money>, b: Row<Budget>): map<int, Money>
  {
    var id := b.entity.categoryId;
    m[id := b.entity.amount + (if id in m then m[id] else 0)]
  }

  lemma AddToTotalsSpec(bs: seq<Row<Budget>>, rest: map<int, Money>)
    requires bs != [] && IsBudgetTotals(bs[1..], rest)
    ensures IsBudgetTotals(bs, AddToTotals(rest, bs[0]))
  {
    var id := bs[0].entity.categoryId;
    var m := AddToTotals(rest, bs[0]);
    assert forall x :: x in bs <==> x == bs[0] || x in bs[1..];
    var own := Filter(bs[1..], HasKey(BudgetCategoryIdOf, id));
    if own != [] {
      assert own[0] in own;
      assert HasKey(BudgetCategoryIdOf, id)(own[0]) && own[0] in bs[1..];
      assert BudgetCategoryIdOf(own[0]) == id;
      assert own[0] in bs[1..] && own[0].entity.categoryId == id;
      assert id in rest;
    }
    forall k | k in m ensures m[k] == Sum(Filter(bs, HasKey(BudgetCategoryIdOf, k)), BudgetAmount) {
      var f := Filter(bs[1..], HasKey(BudgetCategoryIdOf, k));
      HasKeyHead(bs, BudgetCategoryIdOf, k);
      if k == id {
        assert Filter(bs, HasKey(BudgetCategoryIdOf, k)) == [bs[0]] + f;
        assert ([bs[0]] + f)[1..] == f;
      } else {
        assert Filter(bs, HasKey(BudgetCategoryIdOf, k)) == f;
      }
    }
  }

  /** The budget dictionary of `GetCategoryAnalysisAsync`, built one budget at a time. */
  function BudgetTotals(bs: seq<Row<Budget>>): (m: map<int, Money>)
    ensures IsBudgetTotals(bs, m)
  {
    if bs == [] then map[]
    else
      var rest := BudgetTotals(bs[1..]);
      AddToTotalsSpec(bs, rest);
      AddToTotals(rest, bs[0])
  }

  /** The `TryGetValue` step of the loop: a row whose category has budgets gets their total. */
  function WithBudget(c: CategorySummary, totals: map<int, Money>): (r: CategorySummary)
    ensures r.(budgetAmount := c.budgetAmount) == c
    ensures c.categoryId in totals ==> r.budgetAmount == Some(totals[c.categoryId])
    ensures c.categoryId !in totals ==> r == c
  {
    if c.categoryId in totals then c.(budgetAmount := Some(totals[c.categoryId])) else c
  }

  /** The loop of `GetCategoryAnalysisAsync` that attaches the budget totals to the rows, one at a time. */
  method AttachBudgets(rows: seq<CategorySummary>, totals: map<int, Money>) returns (r: seq<CategorySummary>)
    ensures |r| == |rows|
    ensures forall i :: 0 <= i < |r| ==> r[i] == WithBudget(rows[i], totals)
  {
    r := rows;
    var i := 0;
    while i < |r|
      invariant 0 <= i <= |r| == |rows|
      invariant forall k :: 0 <= k < i ==> r[k] == WithBudget(rows[k], totals)
      invariant forall k :: i <= k < |r| ==> r[k] == rows[k]
    {
      if r[i].categoryId in totals {
        r := r[i := r[i].(budgetAmount := Some(totals[r[i].categoryId]))];
      }
      i := i + 1;
    }
  }

  /** The rows of the category analysis as a value: each group with its budget total attached. */
  function CategoryAnalysisOf(transactions: seq<Row<Transaction>>, categories: seq<Row<Category>>, budgets: seq<Row<Budget>>,
                              userId: int, start: Ticks, end: Ticks, categoryIds: Option<seq<int>>): (r: seq<CategorySummary>)
    ensures var groups := CategoryGroups(AnalysedTransactions(transactions, categories, userId, start, end, categoryIds), categories);
            |r| == |groups|
            && forall i :: 0 <= i < |r| ==>
                 r[i] == WithBudget(groups[i], BudgetTotals(GetBudgetsByDateRange(budgets, categories, userId, start, end, categoryIds)))
  {
    var groups := CategoryGroups(AnalysedTransactions(transactions, categories, userId, start, end, categoryIds), categories);
    var totals := BudgetTotals(GetBudgetsByDateRange(budgets, categories, userId, start, end, categoryIds));
    seq(|groups|, i requires 0 <= i < |groups| => WithBudget(groups[i], totals))
  }

  /**
   * `GetCategoryAnalysisAsync`: one row per category of the user's
   * transactions in the range (restricted to the listed categories when a
   * list is given), carrying their total and count, and the total of that
   * category's budgets in the range when it has any (null otherwise).
   */
  method GetCategoryAnalysis(transactions: seq<Row<Transaction>>, categories: seq<Row<Category>>, budgets: seq<Row<Budget>>,
                             userId: int, start: Ticks, end: Ticks, categoryIds: Option<seq<int>>)
    returns (r: seq<CategorySummary>)
    ensures var groups := CategoryGroups(AnalysedTransactions(transactions, categories, userId, start, end, categoryIds), categories);
            var inRange := GetBudgetsByDateRange(budgets, categories, userId, start, end, categoryIds);
            |r| == |groups|
            && forall i :: 0 <= i < |r| ==>
                 r[i].(budgetAmount := None) == groups[i]
                 && (r[i].budgetAmount.Some? <==> exists b :: b in inRange && b.entity.categoryId == r[i].categoryId)
                 && (r[i].budgetAmount.Some? ==>
                       r[i].budgetAmount.value == Sum(Filter(inRange, HasKey(BudgetCategoryIdOf, r[i].categoryId)), BudgetAmount))
    ensures r == CategoryAnalysisOf(transactions, categories, budgets, userId, start, end, categoryIds)
  {
    var ts := AnalysedTransactions(transactions, categories, userId, start, end, categoryIds);
    var groups := CategoryGroups(ts, categories);
    var inRange := GetBudgetsByDateRange(budgets, categories, userId, start, end, categoryIds);
    r := AttachBudgets(groups, BudgetTotals(inRange));
  }

  // ------------------------------------------------------ account summary

  /** One row of `GetAccountSummaryAsync`; `accountType` is the raw AccountType value. */
  datatype AccountSummary = AccountSummary(accountId: int, accountName: string, accountType: int, initialBalance: Money,
                                           totalIncome: Money, totalExpense: Money, transactionCount: nat)

  /**
   * The per-account query: live transactions on the account dated in the
   * range whose category is live. It does not filter by user.
   */
  predicate OnAccountInRange(t: Row<Transaction>, categories: seq<Row<Category>>, accountId: int, start: Ticks, end: Ticks)
  {
    t.entity.accountId == accountId && start <= t.entity.transactionDate <= end && CategoryJoined(t, categories)
  }

  function AccountTransactionsInRange(transactions: seq<Row<Transaction>>, categories: seq<Row<Category>>,
                                      accountId: int, start: Ticks, end: Ticks): (r: seq<Row<Transaction>>)
    ensures forall k :: 0 <= k < |r| ==> r[k] in transactions && Visible(r[k]) && OnAccountInRange(r[k], categories, accountId, start, end)
    ensures forall k :: 0 <= k < |transactions| && Visible(transactions[k]) && OnAccountInRange(transactions[k], categories, accountId, start, end)
                        ==> transactions[k] in r
  {
    var p := (t: Row<Transaction>) => OnAccountInRange(t, categories, accountId, start, end);
    var g := Get(transactions, p);
    assert forall k :: 0 <= k < |g| ==> p(g[k]);
    assert forall k :: 0 <= k < |transactions| && Visible(transactions[k]) && OnAccountInRange(transactions[k], categories, accountId, start, end)
                       ==> p(transactions[k]);
    g
  }

  /** `t => t.Category.Type == type`, through the category the join loads. */
  function OfType(categories: seq<Row<Category>>, ct: CategoryType): Row<Transaction> -> bool
  {
    (t: Row<Transaction>) => GetById(categories, t.entity.categoryId).Some? && GetById(categories, t.entity.categoryId).value.entity.categoryType == ct
  }

  /** The sum of the amounts of the transactions whose category has type `ct`. */
  function TypeTotal(ts: seq<Row<Transaction>>, categories: seq<Row<Category>>, ct: CategoryType): Money
  {
    Sum(Filter(ts, OfType(categories, ct)), Amount)
  }

  /** The summary of one account: its income total, its expense total and its transaction count in the range. */
  function AccountSummaryOf(a: Row<Account>, transactions: seq<Row<Transaction>>, categories: seq<Row<Category>>,
                            start: Ticks, end: Ticks): (s: AccountSummary)
    ensures s.accountId == a.id && s.accountName == a.entity.name && s.accountType == a.entity.accountType
    ensures s.initialBalance == a.entity.initialBalance
  {
    var ts := AccountTransactionsInRange(transactions, categories, a.id, start, end);
    AccountSummary(a.id, a.entity.name, a.entity.accountType, a.entity.initialBalance,
                   TypeTotal(ts, categories, Income), TypeTotal(ts, categories, Expense), |ts|)
  }

  /**
   * An account's income and expense totals together make up the sum of all
   * its transactions in the range, and its count is their number.
   */
  lemma AccountSummaryCoversRange(a: Row<Account>, transactions: seq<Row<Transaction>>, categories: seq<Row<Category>>,
                                  start: Ticks, end: Ticks)
    ensures var s := AccountSummaryOf(a, transactions, categories, start, end);
            var ts := AccountTransactionsInRange(transactions, categories, a.id, start, end);
            s.totalIncome + s.totalExpense == Sum(ts, Amount) && s.transactionCount == |ts|
  {
    JoinedSplitsByType(AccountTransactionsInRange(transactions, categories, a.id, start, end), categories);
  }

  /** Every transaction whose category was joined is either income or expense, so the two totals make up the whole. */
  lemma JoinedSplitsByType(ts: seq<Row<Transaction>>, categories: seq<Row<Category>>)
    requires forall k :: 0 <= k < |ts| ==> CategoryJoined(ts[k], categories)
    ensures TypeTotal(ts, categories, Income) + TypeTotal(ts, categories, Expense) == Sum(ts, Amount)
  {
    SumPartition(ts, OfType(categories, Income), Amount);
    FilterAgree(ts, Not(OfType(categories, Income)), OfType(categories, Expense));
  }

  /**
   * `GetAccountSummaryAsync`: one summary per account of the user (the
   * listed ones when a list is given), in name order.
   */
  method GetAccountSummary(accounts: seq<Row<Account>>, transactions: seq<Row<Transaction>>, categories: seq<Row<Category>>,
                           userId: int, start: Ticks, end: Ticks, accountIds: Option<seq<int>>)
    returns (r: seq<AccountSummary>)
    ensures var listed := GetUserAccounts(accounts, userId, accountIds);
            |r| == |listed|
            && forall k :: 0 <= k < |r| ==> r[k] == AccountSummaryOf(listed[k], transactions, categories, start, end)
  {
    var listed := GetUserAccounts(accounts, userId, accountIds);
    r := AccountSummaries(listed, transactions, categories, start, end);
  }

  /** The `foreach` of `GetAccountSummaryAsync`: a summary appended per account. */
  method AccountSummaries(listed: seq<Row<Account>>, transactions: seq<Row<Transaction>>, categories: seq<Row<Category>>,
                          start: Ticks, end: Ticks)
    returns (r: seq<AccountSummary>)
    ensures |r| == |listed|
    ensures forall k :: 0 <= k < |r| ==> r[k] == AccountSummaryOf(listed[k], transactions, categories, start, end)
  {
    r := [];
    var i := 0;
    while i < |listed|
      invariant 0 <= i <= |listed| && |r| == i
      invariant forall k :: 0 <= k < i ==> r[k] == AccountSummaryOf(listed[k], transactions, categories, start, end)
    {
      var account := listed[i];
      var ts := AccountTransactionsInRange(transactions, categories, account.id, start, end);
      var income := TypeTotal(ts, categories, Income);
      var expense := TypeTotal(ts, categories, Expense);
      r := r + [AccountSummary(account.id, account.entity.name, account.entity.accountType,
                               account.entity.initialBalance, income, expense, |ts|)];
      i := i + 1;
    }
  }

  // -------------------------------------------------- budget performance

  /** One row of `GetBudgetPerformanceAsync`. */
  datatype BudgetPerformance = BudgetPerformance(categoryId: int, categoryName: string, budgetAmount: Money,
                                                 spentAmount: Money, month: int, year: int)

  /**
   * The spending query exactly as written: the user's transactions in the
   * category with `monthStart <= t.TransactionDate <= monthEnd`, where
   * `monthEnd` is midnight at the START of the month's last day.
   */
  predicate SpentInMonthAsWritten(t: Row<Transaction>, userId: int, categoryId: int, monthStart: Ticks, monthEnd: Ticks)
  {
    t.entity.userId == userId && t.entity.categoryId == categoryId
    && monthStart <= t.entity.transactionDate <= monthEnd
  }

  /** The spending query comparing calendar days, as BudgetService does, so the whole last day counts. */
  predicate SpentInMonth(t: Row<Transaction>, userId: int, categoryId: int, monthStart: Ticks, monthEnd: Ticks)
  {
    t.entity.userId == userId && t.entity.categoryId == categoryId
    && monthStart <= DateOf(t.entity.transactionDate) <= monthEnd
  }

  /** `t => SpentInMonthAsWritten(t, ...)`, the predicate the query as written sums over. */
  function AsWrittenQuery(userId: int, categoryId: int, monthStart: Ticks, monthEnd: Ticks): Row<Transaction> -> bool
  {
    t => SpentInMonthAsWritten(t, userId, categoryId, monthStart, monthEnd)
  }

  /** `t => SpentInMonth(t, ...)`, the predicate the corrected query sums over. */
  function MonthQuery(userId: int, categoryId: int, monthStart: Ticks, monthEnd: Ticks): Row<Transaction> -> bool
  {
    t => SpentInMonth(t, userId, categoryId, monthStart, monthEnd)
  }

  /** `SumAsync(t => t.Amount)` over the query as written. */
  function SpentBetweenAsWritten(transactions: seq<Row<Transaction>>, userId: int, categoryId: int,
                                 monthStart: Ticks, monthEnd: Ticks): Money
  {
    Sum(Get(transactions, AsWrittenQuery(userId, categoryId, monthStart, monthEnd)), Amount)
  }

  /** The sum over the corrected query. */
  function SpentBetween(transactions: seq<Row<Transaction>>, userId: int, categoryId: int,
                        monthStart: Ticks, monthEnd: Ticks): Money
  {
    Sum(Get(transactions, MonthQuery(userId, categoryId, monthStart, monthEnd)), Amount)
  }

  /** The spending of one budget's month as written; nothing when `new DateTime(Year, Month, 1)` or `AddMonths` throws. */
  function MonthSpentAsWritten(transactions: seq<Row<Transaction>>, userId: int, b: Row<Budget>): (r: Option<Money>)
    ensures r.Some? <==> MonthBounds(b.entity.year, b.entity.month).Some?
  {
    match MonthBounds(b.entity.year, b.entity.month)
    case None => None
    case Some((monthStart, monthEnd)) => Some(SpentBetweenAsWritten(transactions, userId, b.entity.categoryId, monthStart, monthEnd))
  }

  /** The corrected spending of one budget's month: the sum over every transaction of that calendar month. */
  function MonthSpent(transactions: seq<Row<Transaction>>, userId: int, b: Row<Budget>): (r: Option<Money>)
    ensures r.Some? <==> MonthBounds(b.entity.year, b.entity.month).Some?
  {
    match MonthBounds(b.entity.year, b.entity.month)
    case None => None
    case Some((monthStart, monthEnd)) => Some(SpentBetween(transactions, userId, b.entity.categoryId, monthStart, monthEnd))
  }

  /** For a midnight `a`: the day of `t` begins at or after `a` exactly when `t` does, and begins at or before `a` exactly when `t` is before the next midnight. */
  lemma DayBoundary(t: Ticks, a: Ticks)
    requires a % TicksPerDay == 0
    ensures a <= DateOf(t) <==> a <= t
    ensures DateOf(t) <= a <==> t < a + TicksPerDay
  {
    var d := DateOf(t);
    var qa := a / TicksPerDay;
    var qd := d / TicksPerDay;
    assert a == qa * TicksPerDay;
    assert d == qd * TicksPerDay;
  }

  /**
   * The corrected query takes exactly the transactions of the calendar
   * month: from midnight of its first day up to, not including, midnight
   * of the next month's first day.
   */
  lemma SpentInMonthIsCalendarMonth(t: Row<Transaction>, userId: int, categoryId: int, year: int, month: int)
    requires MonthBounds(year, month).Some?
    ensures var (monthStart, monthEnd) := MonthBounds(year, month).value;
            var next := NextMonth(year, month);
            SpentInMonth(t, userId, categoryId, monthStart, monthEnd)
            <==> t.entity.userId == userId && t.entity.categoryId == categoryId
                 && MakeDate(year, month, 1) <= t.entity.transactionDate < MakeDate(next.0, next.1, 1)
  {
    var (monthStart, monthEnd) := MonthBounds(year, month).value;
    MonthBoundsAreMidnights(year, month);
    DayBoundary(t.entity.transactionDate, monthStart);
    DayBoundary(t.entity.transactionDate, monthEnd);
  }

  /**
   * The query as written misses the last day after midnight: for any month
   * (two midnights, the first not after the last), an expense at noon on
   * the last day is not counted against its budget, while the corrected
   * query counts it.
   */
  lemma MonthEndCutoff(userId: int, categoryId: int, monthStart: Ticks, monthEnd: Ticks, t: Row<Transaction>)
    requires monthStart % TicksPerDay == 0 && monthEnd % TicksPerDay == 0 && monthStart <= monthEnd
    requires Visible(t) && t.entity.userId == userId && t.entity.categoryId == categoryId
    requires t.entity.transactionDate == monthEnd + TicksPerDay / 2
    ensures SpentBetweenAsWritten([t], userId, categoryId, monthStart, monthEnd) == 0
    ensures SpentBetween([t], userId, categoryId, monthStart, monthEnd) == t.entity.amount
  {
    MiddayDate(monthEnd);
    assert [t][1..] == [];
    var asWritten := AsWrittenQuery(userId, categoryId, monthStart, monthEnd);
    var corrected := MonthQuery(userId, categoryId, monthStart, monthEnd);
    assert !asWritten(t) && corrected(t);
    assert Get([t], asWritten) == [];
    assert Get([t], corrected) == [t];
  }

  /** January 2025 is such a month: noon on the 31st is missed by the query as written. */
  lemma January2025Cutoff(userId: int, b: Row<Budget>, t: Row<Transaction>)
    requires b.entity.year == 2025 && b.entity.month == 1
    requires Visible(t) && t.entity.userId == userId && t.entity.categoryId == b.entity.categoryId
    requires t.entity.transactionDate == MakeDate(2025, 1, 31) + TicksPerDay / 2
    ensures MonthSpentAsWritten([t], userId, b) == Some(0)
    ensures MonthSpent([t], userId, b) == Some(t.entity.amount)
  {
    January2025();
    MonthEndCutoff(userId, b.entity.categoryId, MakeDate(2025, 1, 1), MakeDate(2025, 1, 31), t);
  }

  /** Noon of a day falls on that day. */
  lemma MiddayDate(a: Ticks)
    requires a % TicksPerDay == 0
    ensures DateOf(a + TicksPerDay / 2) == a
  {
  }

  /** The bounds of January 2025: midnight of the 1st and midnight of the 31st. */
  lemma January2025()
    ensures MonthBounds(2025, 1) == Some((MakeDate(2025, 1, 1), MakeDate(2025, 1, 31)))
    ensures MakeDate(2025, 1, 1) < MakeDate(2025, 1, 31)
  {
    FirstOfJanuary2025();
    LastOfJanuary2025();
    FirstOfFebruary2025();
  }

  lemma FirstOfJanuary2025()
    ensures DaysFromCivil(2025, 1, 1) == 20089
  {
    assert (153 * 10 + 2) / 5 == 306;
  }

  lemma LastOfJanuary2025()
    ensures DaysFromCivil(2025, 1, 31) == 20119
  {
    assert (153 * 10 + 2) / 5 == 306;
  }

  lemma FirstOfFebruary2025()
    ensures DaysFromCivil(2025, 2, 1) == 20120
  {
    assert (153 * 11 + 2) / 5 == 337;
  }

  /** The row of one budget, given its month's spending. */
  function PerformanceOf(b: Row<Budget>, categories: seq<Row<Category>>, spent: Money): (p: BudgetPerformance)
    ensures p.categoryId == b.entity.categoryId && p.budgetAmount == b.entity.amount && p.spentAmount == spent
    ensures p.month == b.entity.month && p.year == b.entity.year
    ensures p.categoryName == CategoryNameOf(categories, b)
  {
    BudgetPerformance(b.entity.categoryId, CategoryNameOf(categories, b), b.entity.amount, spent, b.entity.month, b.entity.year)
  }

  /**
   * `GetBudgetPerformanceAsync`: one row per budget in the range, carrying
   * the spending of that budget's calendar month; nothing (the call throws)
   * when some budget's month cannot be built as a date.
   */
  method GetBudgetPerformance(budgets: seq<Row<Budget>>, transactions: seq<Row<Transaction>>, categories: seq<Row<Category>>,
                              userId: int, start: Ticks, end: Ticks, categoryIds: Option<seq<int>>)
    returns (r: Option<seq<BudgetPerformance>>)
    ensures var listed := GetBudgetsByDateRange(budgets, categories, userId, start, end, categoryIds);
            (r.Some? <==> forall k :: 0 <= k < |listed| ==> MonthSpent(transactions, userId, listed[k]).Some?)
            && (r.Some? ==> |r.value| == |listed|
                            && forall k :: 0 <= k < |listed| ==>
                                 r.value[k] == PerformanceOf(listed[k], categories, MonthSpent(transactions, userId, listed[k]).value))
  {
    var listed := GetBudgetsByDateRange(budgets, categories, userId, start, end, categoryIds);
    r := PerformanceRows(listed, transactions, categories, userId);
  }

  /** The `foreach` of `GetBudgetPerformanceAsync`: a row per listed budget, stopping at the first month that cannot be built. */
  method PerformanceRows(listed: seq<Row<Budget>>, transactions: seq<Row<Transaction>>, categories: seq<Row<Category>>, userId: int)
    returns (r: Option<seq<BudgetPerformance>>)
    ensures r.Some? <==> forall k :: 0 <= k < |listed| ==> MonthSpent(transactions, userId, listed[k]).Some?
    ensures r.Some? ==> |r.value| == |listed|
                        && forall k :: 0 <= k < |listed| ==>
                             r.value[k] == PerformanceOf(listed[k], categories, MonthSpent(transactions, userId, listed[k]).value)
  {
    var rows: seq<BudgetPerformance> := [];
    var i := 0;
    while i < |listed|
      invariant 0 <= i <= |listed| && |rows| == i
      invariant forall k :: 0 <= k < i ==> MonthSpent(transactions, userId, listed[k]).Some?
      invariant forall k :: 0 <= k < i ==> rows[k] == PerformanceOf(listed[k], categories, MonthSpent(transactions, userId, listed[k]).value)
    {
      var spent := MonthSpent(transactions, userId, listed[i]);
      if spent.None? {
        assert !MonthSpent(transactions, userId, listed[i]).Some?;
        return None;
      }
      var row := PerformanceOf(listed[i], categories, spent.value);
      rows := rows + [row];
      i := i + 1;
    }
    return Some(rows);
  }
}
