// ReportService: builds a report's data from the report queries (a
// financial summary, then the parts its type calls for: category rows,
// budget performance, account summaries or the daily cash flow, each with
// its charts), saves a report record when the request asks for it, and
// lists, regenerates and deletes saved reports. The service writes the
// reports table and reads the transactions, accounts, categories and
// budgets tables.

module ReportService {
  import opened Wrappers
  import opened Text
  import opened Calendar
  import opened Persistence
  import opened BaseRepository
  import opened Entities
  import opened Aggregates
  import opened Ordering
  import opened UnitOfWork
  import opened TransactionRepository
  import opened ReportRepository
  import AccountService

  // ------------------------------------------------------------- enums

  const IncomeExpenseAnalysis := 1
  const BudgetPerformanceReport := 2
  const CategoryAnalysisReport := 3
  const AccountSummaryReport := 4
  const CashFlowAnalysis := 5
  const MonthlyFinancialSummary := 6
  const YearlyFinancialSummary := 7
  const CustomReport := 8

  const Daily := 1
  const Weekly := 2
  const Monthly := 3
  const Quarterly := 4
  const Yearly := 5
  const CustomPeriod := 6

  /** `ReportFormat.JSON`, the request's default format. */
  const JsonFormat := 3

  const UnknownReportName := "Bilinmeyen Rapor"
  const UnknownPeriodName := "Bilinmeyen Dönem"

  /** `GetReportTypeName`: the Turkish name of each report type; an undefined value gets the unknown name. */
  function GetReportTypeName(reportType: int): (r: string)
    ensures r == UnknownReportName <==> !(IncomeExpenseAnalysis <= reportType <= CustomReport)
  {
    if reportType == IncomeExpenseAnalysis then "Gelir-Gider Analizi"
    else if reportType == BudgetPerformanceReport then "Bütçe Performansı"
    else if reportType == CategoryAnalysisReport then "Kategori Analizi"
    else if reportType == AccountSummaryReport then "Hesap Özeti"
    else if reportType == CashFlowAnalysis then "Nakit Akış Analizi"
    else if reportType == MonthlyFinancialSummary then "Aylık Finansal Özet"
    else if reportType == YearlyFinancialSummary then "Yıllık Finansal Özet"
    else if reportType == CustomReport then "Özel Rapor"
    else UnknownReportName
  }

  /** `GetReportPeriodName`: the Turkish name of each period; an undefined value gets the unknown name. */
  function GetReportPeriodName(period: int): (r: string)
    ensures r == UnknownPeriodName <==> !(Daily <= period <= CustomPeriod)
  {
    if period == Daily then "Günlük"
    else if period == Weekly then "Haftalık"
    else if period == Monthly then "Aylık"
    else if period == Quarterly then "Üç Aylık"
    else if period == Yearly then "Yıllık"
    else if period == CustomPeriod then "Özel Dönem"
    else UnknownPeriodName
  }

  /** Distinct report types and distinct periods get distinct names. */
  lemma NamesAreDistinct(a: int, b: int)
    requires a != b
    ensures GetReportTypeName(a) == GetReportTypeName(b) ==> a !in {1, 2, 3, 4, 5, 6, 7, 8} && b !in {1, 2, 3, 4, 5, 6, 7, 8}
    ensures GetReportPeriodName(a) == GetReportPeriodName(b) ==> a !in {1, 2, 3, 4, 5, 6} && b !in {1, 2, 3, 4, 5, 6}
  {
  }

  /** `CategoryType.ToString()`. */
  function CategoryTypeName(t: CategoryType): (r: string)
    ensures r == "Expense" <==> t == Expense
  {
    match t
    case Income => "Income"
    case Expense => "Expense"
  }

  // -------------------------------------------------------------- DTOs

  /** `ReportFilterDto`; the amount bounds and the income/expense switches are carried but no query reads them. */
  datatype ReportFilter = ReportFilter(categoryIds: Option<seq<int>>, accountIds: Option<seq<int>>,
                                       minAmount: Option<Money>, maxAmount: Option<Money>,
                                       includeIncome: bool, includeExpense: bool)

  /** `CreateReportRequestDto`; `reportType`, `period` and `format` are the raw enum values. */
  datatype CreateReportRequest = CreateReportRequest(title: string, reportType: int, period: int, startDate: Ticks,
                                                     endDate: Ticks, description: Option<string>, format: int,
                                                     filters: Option<ReportFilter>, saveReport: bool)

  /** `ReportDto`: the two names are null until the service fills them in. */
  datatype ReportDto = ReportDto(id: int, title: string, reportType: int, typeName: Option<string>, period: int,
                                 periodName: Option<string>, startDate: Ticks, endDate: Ticks,
                                 description: Option<string>, generatedAt: Ticks, filePath: Option<string>,
                                 isScheduled: bool)

  /** `FinancialSummaryDto`; the utilisation is a real percentage. */
  datatype FinancialSummary = FinancialSummary(totalIncome: Money, totalExpense: Money, netAmount: Money,
                                               totalBudget: Money, budgetUtilization: real, transactionCount: nat)

  datatype ChartPoint = ChartPoint(caption: string, value: real, color: Option<string>, date: Option<Ticks>)

  datatype ChartData = ChartData(chartType: string, title: string, data: seq<ChartPoint>)

  datatype CategoryAnalysisDto = CategoryAnalysisDto(categoryId: int, categoryName: string, categoryType: string,
                                                     amount: Money, percentage: real, transactionCount: nat,
                                                     budgetAmount: Option<Money>, budgetUtilization: Option<real>)

  datatype AccountSummaryDto = AccountSummaryDto(accountId: int, accountName: string, accountType: string,
                                                 initialBalance: Money, currentBalance: Money, totalIncome: Money,
                                                 totalExpense: Money, transactionCount: nat)

  datatype BudgetCategoryDto = BudgetCategoryDto(categoryId: int, categoryName: string, budgetAmount: Money,
                                                 spentAmount: Money, remainingAmount: Money,
                                                 utilizationPercentage: real, isOverBudget: bool)

  datatype BudgetPerformanceDto = BudgetPerformanceDto(totalBudget: Money, totalSpent: Money, remaining: Money,
                                                       utilizationPercentage: real, categories: seq<BudgetCategoryDto>)

  const GenerateFailed := "Rapor oluşturulurken bir hata oluştu"
  const ReportNotFound := "Rapor bulunamadı"
  const FetchFailed := "Rapor getirilirken bir hata oluştu"

  /** `request.Filters?.CategoryIds`. */
  function CategoryIdsOf(request: CreateReportRequest): Option<seq<int>>
  {
    if request.filters.Some? then request.filters.value.categoryIds else None
  }

  /** `request.Filters?.AccountIds`. */
  function AccountIdsOf(request: CreateReportRequest): Option<seq<int>>
  {
    if request.filters.Some? then request.filters.value.accountIds else None
  }

  /** The header `GenerateReportDataAsync` starts from: the request's fields, both names and the generation time. */
  function GeneratedHeader(request: CreateReportRequest, now: Ticks): (r: ReportDto)
  {
    ReportDto(0, request.title, request.reportType, Some(GetReportTypeName(request.reportType)), request.period,
              Some(GetReportPeriodName(request.period)), request.startDate, request.endDate, request.description,
              now, None, false)
  }

  /** `_mapper.Map<ReportDto>(report)`: the mapping ignores the two names, which stay null. */
  function MappedReport(row: Row<Report>): (r: ReportDto)
    ensures r.id == row.id && r.typeName.None? && r.periodName.None?
  {
    var e := row.entity;
    ReportDto(row.id, e.title, e.reportType, None, e.period, None, e.startDate, e.endDate, e.description,
              e.generatedAt, e.filePath, e.isScheduled)
  }

  /** The two names the service fills in after mapping. */
  function Named(dto: ReportDto): (r: ReportDto)
    ensures r.(typeName := dto.typeName, periodName := dto.periodName) == dto
    ensures r.typeName == Some(GetReportTypeName(dto.reportType)) && r.periodName == Some(GetReportPeriodName(dto.period))
  {
    dto.(typeName := Some(GetReportTypeName(dto.reportType)), periodName := Some(GetReportPeriodName(dto.period)))
  }

  /** The record `GenerateReportAsync` saves; the filters are stored through the serialiser when present. */
  function SavedReport(userId: int, request: CreateReportRequest, serialize: ReportFilter -> string, now: Ticks): (r: Report)
    ensures r.userId == userId && r.title == request.title && r.reportType == request.reportType
    ensures r.filterCriteria.Some? <==> request.filters.Some?
    ensures r.generatedAt == now && r.filePath.None? && !r.isScheduled
  {
    Report(userId, request.title, request.reportType, request.period, request.startDate, request.endDate,
           request.description,
           if request.filters.Some? then Some(serialize(request.filters.value)) else None,
           now, None, false)
  }

  /**
   * The request `GetReportByIdAsync` rebuilds from a saved record. A
   * missing or empty filter text means no filters; otherwise the text is
   * deserialised, which fails (the call throws) when the text is not a
   * filter.
   */
  function RequestFromReport(row: Row<Report>, deserialize: string -> Option<ReportFilter>): (r: Option<CreateReportRequest>)
    ensures r.None? <==> row.entity.filterCriteria.Some? && row.entity.filterCriteria.value != ""
                         && deserialize(row.entity.filterCriteria.value).None?
    ensures r.Some? ==> r.value.title == row.entity.title && r.value.reportType == row.entity.reportType
                        && r.value.startDate == row.entity.startDate && r.value.endDate == row.entity.endDate
                        && r.value.saveReport
  {
    var e := row.entity;
    var filters :=
      if e.filterCriteria.None? || e.filterCriteria.value == "" then Some(None)
      else match deserialize(e.filterCriteria.value)
        case None => None
        case Some(f) => Some(Some(f));
    match filters
    case None => None
    case Some(f) => Some(CreateReportRequest(e.title, e.reportType, e.period, e.startDate, e.endDate, e.description,
                                             JsonFormat, f, true))
  }

  /** The request of `GetQuickReportAsync`: titled "type name - period name", never saved. */
  function QuickRequest(reportType: int, period: int, start: Ticks, end: Ticks): (r: CreateReportRequest)
    ensures r.title == GetReportTypeName(reportType) + " - " + GetReportPeriodName(period)
    ensures !r.saveReport && r.filters.None?
  {
    CreateReportRequest(GetReportTypeName(reportType) + " - " + GetReportPeriodName(period), reportType, period,
                        start, end, None, JsonFormat, None, false)
  }

  // ------------------------------------------------------------- summary

  /** `(part / whole) * 100` for a positive `whole`. */
  function Percentage(part: int, whole: int): (r: real)
    requires whole > 0
    ensures r * whole as real == part as real * 100.0
    ensures r > 100.0 <==> part > whole
    ensures r <= 0.0 <==> part <= 0
  {
    (part as real / whole as real) * 100.0
  }

  /** `whole > 0 ? (part / whole) * 100 : 0`. */
  function Utilisation(part: int, whole: int): (r: real)
    ensures whole > 0 ==> r * whole as real == part as real * 100.0
    ensures whole <= 0 ==> r == 0.0
  {
    if whole > 0 then Percentage(part, whole) else 0.0
  }

  /**
   * `GenerateFinancialSummaryAsync` over the fetched transactions and
   * budgets: the income and expense totals by category type, the net
   * amount as written (income minus expense), the budget total and the
   * share of it the expense total makes up.
   */
  function FinancialSummaryOf(ts: seq<Row<Transaction>>, categories: seq<Row<Category>>, bs: seq<Row<Budget>>): (s: FinancialSummary)
  {
    var income := TypeTotal(ts, categories, Income);
    var expense := TypeTotal(ts, categories, Expense);
    var budget := Sum(bs, BudgetAmount);
    FinancialSummary(income, expense, income - expense, budget, Utilisation(expense, budget), |ts|)
  }

  /**
   * The summary counts the fetched transactions and totals the budgets;
   * its utilisation is the expense total's share of the budget total,
   * above 100 exactly when the expenses exceed the budget, and 0 when the
   * budget total is not positive.
   */
  lemma SummaryUtilisation(ts: seq<Row<Transaction>>, categories: seq<Row<Category>>, bs: seq<Row<Budget>>)
    ensures var s := FinancialSummaryOf(ts, categories, bs);
            s.transactionCount == |ts| && s.totalBudget == Sum(bs, BudgetAmount)
            && (s.totalBudget > 0 ==> s.budgetUtilization * s.totalBudget as real == s.totalExpense as real * 100.0
                                      && (s.budgetUtilization > 100.0 <==> s.totalExpense > s.totalBudget))
            && (s.totalBudget <= 0 ==> s.budgetUtilization == 0.0)
  {
  }

  /**
   * Every fetched transaction is either income or expense, so the two
   * totals make up the whole sum, and the net amount as written is that
   * sum less twice the expense total.
   */
  lemma NetAmountAsWritten(ts: seq<Row<Transaction>>, categories: seq<Row<Category>>, bs: seq<Row<Budget>>)
    requires forall k :: 0 <= k < |ts| ==> CategoryJoined(ts[k], categories)
    ensures var s := FinancialSummaryOf(ts, categories, bs);
            s.totalIncome + s.totalExpense == Sum(ts, Amount) && s.netAmount == Sum(ts, Amount) - 2 * s.totalExpense
  {
    JoinedSplitsByType(ts, categories);
  }

  /**
   * The sign rule the transaction service keeps: amounts in expense
   * categories are stored at or below zero, amounts in income categories
   * at or above.
   */
  predicate SignRule(ts: seq<Row<Transaction>>, categories: seq<Row<Category>>)
  {
    forall t {:trigger t in ts} :: t in ts ==>
      (OfType(categories, Expense)(t) ==> t.entity.amount <= 0) && (OfType(categories, Income)(t) ==> t.entity.amount >= 0)
  }

  /** Under the sign rule the expense total is at most zero and the income total at least zero. */
  lemma TotalsUnderSignRule(ts: seq<Row<Transaction>>, categories: seq<Row<Category>>)
    requires SignRule(ts, categories)
    ensures TypeTotal(ts, categories, Expense) <= 0 <= TypeTotal(ts, categories, Income)
  {
    var expenses := Filter(ts, OfType(categories, Expense));
    var incomes := Filter(ts, OfType(categories, Income));
    forall k | 0 <= k < |expenses| ensures Amount(expenses[k]) <= 0 {
      assert expenses[k] in expenses;
    }
    forall k | 0 <= k < |incomes| ensures Amount(incomes[k]) >= 0 {
      assert incomes[k] in incomes;
    }
    SumNonPositive(expenses, Amount);
    SumNonNegative(incomes, Amount);
  }

  /**
   * With expenses stored negative, the net amount as written adds the
   * expenses' magnitude to the income instead of subtracting it, and the
   * budget utilisation is never positive.
   */
  lemma SummaryUnderSignRule(ts: seq<Row<Transaction>>, categories: seq<Row<Category>>, bs: seq<Row<Budget>>)
    requires SignRule(ts, categories)
    ensures var s := FinancialSummaryOf(ts, categories, bs);
            s.totalExpense <= 0 <= s.totalIncome
            && s.netAmount == s.totalIncome + Abs(s.totalExpense) && s.netAmount >= s.totalIncome
            && s.budgetUtilization <= 0.0
  {
    TotalsUnderSignRule(ts, categories);
    var s := FinancialSummaryOf(ts, categories, bs);
    if s.totalBudget > 0 {
      assert s.budgetUtilization == Percentage(s.totalExpense, s.totalBudget);
    }
  }

  // ---------------------------------------------------- category analysis

  /**
   * One `CategoryAnalysisDto`: the share of an expense row is taken of the
   * expense total and that of an income row of the income total, and it is
   * 0 when that total is not positive.
   */
  function AnalysisRow(ca: CategorySummary, s: FinancialSummary): (r: CategoryAnalysisDto)
  {
    var share :=
      if s.totalExpense > 0 && ca.categoryType == Expense then Percentage(ca.totalAmount, s.totalExpense)
      else if s.totalIncome > 0 && ca.categoryType == Income then Percentage(ca.totalAmount, s.totalIncome)
      else 0.0;
    CategoryAnalysisDto(ca.categoryId, ca.categoryName, CategoryTypeName(ca.categoryType), ca.totalAmount, share,
                        ca.transactionCount, ca.budgetAmount, None)
  }

  /**
   * A row keeps its category's figures; the share of an expense row is
   * taken of the expense total and that of an income row of the income
   * total, and it is 0 when that total is not positive.
   */
  lemma AnalysisShare(ca: CategorySummary, s: FinancialSummary)
    ensures var r := AnalysisRow(ca, s);
            r.categoryId == ca.categoryId && r.amount == ca.totalAmount && r.transactionCount == ca.transactionCount
            && r.budgetAmount == ca.budgetAmount && r.budgetUtilization.None?
            && (r.categoryType == "Expense" <==> ca.categoryType == Expense)
            && (ca.categoryType == Expense && s.totalExpense > 0 ==> r.percentage * s.totalExpense as real == ca.totalAmount as real * 100.0)
            && (ca.categoryType == Income && s.totalIncome > 0 ==> r.percentage * s.totalIncome as real == ca.totalAmount as real * 100.0)
            && (ca.categoryType == Expense && s.totalExpense <= 0 ==> r.percentage == 0.0)
            && (ca.categoryType == Income && s.totalIncome <= 0 ==> r.percentage == 0.0)
  {
  }

  function AnalysisRows(cs: seq<CategorySummary>, s: FinancialSummary): (r: seq<CategoryAnalysisDto>)
  {
    seq(|cs|, i requires 0 <= i < |cs| => AnalysisRow(cs[i], s))
  }

  /** With expenses stored negative the expense total is never positive, so every expense row's share is 0. */
  lemma ExpenseSharesUnderSignRule(ts: seq<Row<Transaction>>, categories: seq<Row<Category>>, bs: seq<Row<Budget>>,
                                   cs: seq<CategorySummary>)
    requires SignRule(ts, categories)
    ensures forall i :: 0 <= i < |cs| && cs[i].categoryType == Expense ==>
              AnalysisRows(cs, FinancialSummaryOf(ts, categories, bs))[i].percentage == 0.0
  {
    TotalsUnderSignRule(ts, categories);
  }

  predicate IsExpenseRow(r: CategoryAnalysisDto) { r.categoryType == "Expense" }
  predicate IsIncomeRow(r: CategoryAnalysisDto) { r.categoryType == "Income" }

  /** One point per row: its category name and amount. */
  function CategoryPoints(rows: seq<CategoryAnalysisDto>): (r: seq<ChartPoint>)
  {
    seq(|rows|, i requires 0 <= i < |rows| => ChartPoint(rows[i].categoryName, rows[i].amount as real, None, None))
  }

  /** The charts of `GenerateIncomeExpenseDataAsync`: the expense pie and the income-versus-expense bars. */
  function IncomeExpenseCharts(rows: seq<CategoryAnalysisDto>, s: FinancialSummary): (r: seq<ChartData>)
  {
    var expenses := Filter(rows, IsExpenseRow);
    var points := CategoryPoints(expenses);
    [ChartData("pie", "Gider Dağılımı", points),
     ChartData("bar", "Gelir vs Gider", [ChartPoint("Gelir", s.totalIncome as real, None, None),
                                        ChartPoint("Gider", s.totalExpense as real, None, None)])]
  }

  /**
   * The expense pie shows only expense rows, one point per expense row,
   * and the bars compare the income total with the expense total.
   */
  lemma ExpensePieShowsExpenses(rows: seq<CategoryAnalysisDto>, s: FinancialSummary)
    ensures var r := IncomeExpenseCharts(rows, s);
            |r[0].data| == |Filter(rows, IsExpenseRow)|
            && (forall x {:trigger x in r[0].data} :: x in r[0].data ==>
                  exists i :: 0 <= i < |rows| && IsExpenseRow(rows[i]) && x.caption == rows[i].categoryName)
            && r[1].data == [ChartPoint("Gelir", s.totalIncome as real, None, None), ChartPoint("Gider", s.totalExpense as real, None, None)]
  {
    var expenses := Filter(rows, IsExpenseRow);
    var points := CategoryPoints(expenses);
    forall x | x in points ensures exists i :: 0 <= i < |rows| && IsExpenseRow(rows[i]) && x.caption == rows[i].categoryName {
      var j :| 0 <= j < |points| && points[j] == x;
      assert expenses[j] in expenses;
      var i :| 0 <= i < |rows| && rows[i] == expenses[j];
    }
  }

  /** The extra chart of `GenerateCategoryAnalysisDataAsync`: the income pie. */
  function IncomePie(rows: seq<CategoryAnalysisDto>): (r: ChartData)
  {
    ChartData("pie", "Gelir Kaynakları", CategoryPoints(Filter(rows, IsIncomeRow)))
  }

  // --------------------------------------------------- budget performance

  /**
   * One `BudgetCategoryDto`: what is left of the budget, over budget
   * exactly when nothing is left, and the spent share of the budget, which
   * exceeds 100 exactly when the row is over budget (0 for a budget that
   * is not positive).
   */
  function BudgetCategoryOf(bp: BudgetPerformance): (r: BudgetCategoryDto)
  {
    BudgetCategoryDto(bp.categoryId, bp.categoryName, bp.budgetAmount, bp.spentAmount,
                      bp.budgetAmount - bp.spentAmount, Utilisation(bp.spentAmount, bp.budgetAmount),
                      bp.spentAmount > bp.budgetAmount)
  }

  /**
   * What is left of a budget is the budget less the spending; a row is
   * over budget exactly when nothing is left, and its utilisation exceeds
   * 100 exactly then (it is 0 for a budget that is not positive).
   */
  lemma BudgetRowRules(bp: BudgetPerformance)
    ensures var r := BudgetCategoryOf(bp);
            r.budgetAmount == bp.budgetAmount && r.spentAmount == bp.spentAmount
            && r.remainingAmount + r.spentAmount == r.budgetAmount
            && (r.isOverBudget <==> r.remainingAmount < 0)
            && (r.budgetAmount > 0 ==> (r.isOverBudget <==> r.utilizationPercentage > 100.0))
            && (r.budgetAmount <= 0 ==> r.utilizationPercentage == 0.0)
  {
  }

  function BudgetCategories(bps: seq<BudgetPerformance>): (r: seq<BudgetCategoryDto>)
  {
    seq(|bps|, i requires 0 <= i < |bps| => BudgetCategoryOf(bps[i]))
  }

  function BudgetOf(c: BudgetCategoryDto): int { c.budgetAmount }
  function SpentOf(c: BudgetCategoryDto): int { c.spentAmount }
  function RemainingOf(c: BudgetCategoryDto): int { c.remainingAmount }

  /** Rows whose remainder is budget minus spent have totals that balance the same way. */
  lemma {:induction false} RemainingAddsUp(rows: seq<BudgetCategoryDto>)
    requires forall i :: 0 <= i < |rows| ==> rows[i].remainingAmount == rows[i].budgetAmount - rows[i].spentAmount
    ensures Sum(rows, RemainingOf) == Sum(rows, BudgetOf) - Sum(rows, SpentOf)
  {
    if rows != [] {
      assert forall i :: 0 <= i < |rows| - 1 ==> rows[1..][i] == rows[i + 1];
      RemainingAddsUp(rows[1..]);
    }
  }

  /**
   * `BudgetPerformanceDto`: the totals are the sums over the rows, so the
   * total remainder is the total budget less the total spent; the
   * utilisation is the summary's.
   */
  function BudgetPerformanceOf(bps: seq<BudgetPerformance>, utilisation: real): (p: BudgetPerformanceDto)
    ensures p.remaining == p.totalBudget - p.totalSpent
  {
    var rows := BudgetCategories(bps);
    RemainingAddsUp(rows);
    BudgetPerformanceDto(Sum(rows, BudgetOf), Sum(rows, SpentOf), Sum(rows, RemainingOf), utilisation, rows)
  }

  /** The chart of `GenerateBudgetPerformanceDataAsync`: each row's utilisation. */
  function BudgetChart(rows: seq<BudgetCategoryDto>): (r: ChartData)
  {
    ChartData("bar", "Bütçe vs Harcama",
              seq(|rows|, i requires 0 <= i < |rows| => ChartPoint(rows[i].categoryName, rows[i].utilizationPercentage, None, None)))
  }

  /**
   * The spending a budget reports is at most zero when its category is a
   * live expense category and amounts are stored by the sign rule: a
   * budget with a non-negative amount is then never over budget and its
   * utilisation is never positive.
   */
  lemma BudgetNeverOverUnderSignRule(transactions: seq<Row<Transaction>>, categories: seq<Row<Category>>, userId: int,
                                     b: Row<Budget>)
    requires SignRule(transactions, categories)
    requires GetById(categories, b.entity.categoryId).Some? && GetById(categories, b.entity.categoryId).value.entity.categoryType == Expense
    requires MonthSpent(transactions, userId, b).Some?
    ensures MonthSpent(transactions, userId, b).value <= 0
    ensures b.entity.amount >= 0 ==>
              var row := BudgetCategoryOf(PerformanceOf(b, categories, MonthSpent(transactions, userId, b).value));
              !row.isOverBudget && row.utilizationPercentage <= 0.0
  {
    var (monthStart, monthEnd) := MonthBounds(b.entity.year, b.entity.month).value;
    var spent := Get(transactions, MonthQuery(userId, b.entity.categoryId, monthStart, monthEnd));
    forall k | 0 <= k < |spent| ensures Amount(spent[k]) <= 0 {
      assert spent[k] in transactions && MonthQuery(userId, b.entity.categoryId, monthStart, monthEnd)(spent[k]);
      assert OfType(categories, Expense)(spent[k]);
    }
    SumNonPositive(spent, Amount);
    BudgetRowRules(PerformanceOf(b, categories, MonthSpent(transactions, userId, b).value));
  }

  // ----------------------------------------------------- account summary

  /** `AccountSummaryDto`: the current balance moves from the initial one by income minus expense. */
  function AccountSummaryDtoOf(acs: AccountSummary): (r: AccountSummaryDto)
  {
    AccountSummaryDto(acs.accountId, acs.accountName, AccountService.AccountTypeName(acs.accountType), acs.initialBalance,
                      acs.initialBalance + acs.totalIncome - acs.totalExpense, acs.totalIncome, acs.totalExpense,
                      acs.transactionCount)
  }

  /**
   * The current balance as written is the initial balance plus the sum of
   * the account's transactions in the range, less twice the expense
   * total; under the sign rule it is never below the initial balance plus
   * that sum.
   */
  lemma CurrentBalanceAsWritten(a: Row<Account>, transactions: seq<Row<Transaction>>, categories: seq<Row<Category>>,
                                start: Ticks, end: Ticks)
    ensures var ts := AccountTransactionsInRange(transactions, categories, a.id, start, end);
            var dto := AccountSummaryDtoOf(AccountSummaryOf(a, transactions, categories, start, end));
            dto.currentBalance == a.entity.initialBalance + Sum(ts, Amount) - 2 * dto.totalExpense
            && (SignRule(transactions, categories) ==> dto.currentBalance >= a.entity.initialBalance + Sum(ts, Amount))
  {
    var ts := AccountTransactionsInRange(transactions, categories, a.id, start, end);
    AccountSummaryCoversRange(a, transactions, categories, start, end);
    if SignRule(transactions, categories) {
      forall t | t in ts
        ensures (OfType(categories, Expense)(t) ==> t.entity.amount <= 0) && (OfType(categories, Income)(t) ==> t.entity.amount >= 0)
      {
        var k :| 0 <= k < |ts| && ts[k] == t;
        assert ts[k] in transactions;
      }
      TotalsUnderSignRule(ts, categories);
    }
  }

  function AccountRows(summaries: seq<AccountSummary>): (r: seq<AccountSummaryDto>)
  {
    seq(|summaries|, i requires 0 <= i < |summaries| => AccountSummaryDtoOf(summaries[i]))
  }

  /** The chart of `GenerateAccountSummaryDataAsync`: each account's current balance. */
  function AccountChart(rows: seq<AccountSummaryDto>): (r: ChartData)
  {
    ChartData("bar", "Hesap Bakiyeleri",
              seq(|rows|, i requires 0 <= i < |rows| => ChartPoint(rows[i].accountName, rows[i].currentBalance as real, None, None)))
  }

  // ----------------------------------------------------------- cash flow

  /** The group key `t.TransactionDate.Date`. */
  function DayOf(t: Row<Transaction>): int
  {
    DateOf(t.entity.transactionDate)
  }

  /** The transactions of one day. */
  function DayGroup(ts: seq<Row<Transaction>>, day: int): seq<Row<Transaction>>
  {
    Filter(ts, HasKey(DayOf, day))
  }

  /** A day's value: its income total less its expense total. */
  function DailyNet(ts: seq<Row<Transaction>>, categories: seq<Row<Category>>): int -> int
  {
    day => TypeTotal(DayGroup(ts, day), categories, Income) - TypeTotal(DayGroup(ts, day), categories, Expense)
  }

  /** Two digits, zero-padded, as `dd` and `MM` write a day and a month. */
  function TwoDigits(n: int): string
  {
    if 0 <= n < 10 then "0" + IntToString(n) else IntToString(n)
  }

  /** `g.Key.ToString("dd/MM")`. */
  function DayMonthLabel(day: Ticks): string
  {
    var (_, m, d) := CivilFromDays(day / TicksPerDay - DaysTo1970);
    TwoDigits(d) + "/" + TwoDigits(m)
  }

  /** The points of `GenerateCashFlowDataAsync`: one per day of the transactions, in order of first appearance. */
  function CashFlowPoints(ts: seq<Row<Transaction>>, categories: seq<Row<Category>>): (r: seq<ChartPoint>)
  {
    var days := GroupKeys(ts, DayOf);
    seq(|days|, i requires 0 <= i < |days| =>
      ChartPoint(DayMonthLabel(days[i]), DailyNet(ts, categories)(days[i]) as real, None, Some(days[i])))
  }

  /** Every transaction's day has a point, and no two points share a date. */
  lemma CashFlowEveryDay(ts: seq<Row<Transaction>>, categories: seq<Row<Category>>)
    ensures var r := CashFlowPoints(ts, categories);
            (forall i, j :: 0 <= i < j < |r| ==> r[i].date != r[j].date)
            && forall t {:trigger t in ts} :: t in ts ==> exists i :: 0 <= i < |r| && r[i].date == Some(DayOf(t))
  {
    var days := GroupKeys(ts, DayOf);
    var r := CashFlowPoints(ts, categories);
    forall t | t in ts ensures exists i :: 0 <= i < |r| && r[i].date == Some(DayOf(t)) {
      assert DayOf(t) in days;
      var i :| 0 <= i < |days| && days[i] == DayOf(t);
      assert r[i].date == Some(DayOf(t));
    }
  }

  /** Every point's day is the day of some transaction. */
  lemma CashFlowNoEmptyDay(ts: seq<Row<Transaction>>, categories: seq<Row<Category>>)
    ensures var r := CashFlowPoints(ts, categories);
            forall i :: 0 <= i < |r| ==> exists t :: t in ts && r[i].date == Some(DayOf(t))
  {
    var days := GroupKeys(ts, DayOf);
    var r := CashFlowPoints(ts, categories);
    forall i | 0 <= i < |r| ensures exists t :: t in ts && r[i].date == Some(DayOf(t)) {
      assert days[i] in days;
      var t :| t in ts && DayOf(t) == days[i];
    }
  }

  /** A day's value split per transaction: the income amount, less the expense amount. */
  function NetTerm(categories: seq<Row<Category>>): Row<Transaction> -> int
  {
    t => (if OfType(categories, Income)(t) then t.entity.amount else 0) - (if OfType(categories, Expense)(t) then t.entity.amount else 0)
  }

  lemma {:induction false} NetTermSum(ts: seq<Row<Transaction>>, categories: seq<Row<Category>>)
    ensures Sum(ts, NetTerm(categories)) == TypeTotal(ts, categories, Income) - TypeTotal(ts, categories, Expense)
  {
    if ts != [] {
      NetTermSum(ts[1..], categories);
      var inc := OfType(categories, Income);
      var exp := OfType(categories, Expense);
      SumConcat(if inc(ts[0]) then [ts[0]] else [], Filter(ts[1..], inc), Amount);
      SumConcat(if exp(ts[0]) then [ts[0]] else [], Filter(ts[1..], exp), Amount);
    }
  }

  /**
   * Nothing is lost or counted twice: the daily values add up to the
   * income total less the expense total of all the transactions, the net
   * amount of a summary over the same transactions.
   */
  lemma CashFlowAddsUp(ts: seq<Row<Transaction>>, categories: seq<Row<Category>>, bs: seq<Row<Budget>>)
    ensures Sum(GroupKeys(ts, DayOf), DailyNet(ts, categories)) == FinancialSummaryOf(ts, categories, bs).netAmount
  {
    var days := GroupKeys(ts, DayOf);
    forall i | 0 <= i < |days| ensures DailyNet(ts, categories)(days[i]) == GroupSum(ts, DayOf, NetTerm(categories))(days[i]) {
      NetTermSum(DayGroup(ts, days[i]), categories);
    }
    SumPointwise(days, DailyNet(ts, categories), days, GroupSum(ts, DayOf, NetTerm(categories)));
    GroupSumsAddUp(ts, DayOf, NetTerm(categories));
    NetTermSum(ts, categories);
  }

  /**
   * The transactions arrive earliest first, so their days first appear in
   * ascending order: the points are already in the order `OrderBy(cf =>
   * cf.Date)` puts them, strictly ascending by date.
   */
  lemma CashFlowAscending(ts: seq<Row<Transaction>>, categories: seq<Row<Category>>)
    requires Sorted(ts, EarliestFirst)
    ensures var r := CashFlowPoints(ts, categories);
            forall i, j :: 0 <= i < j < |r| ==> r[i].date.value < r[j].date.value
  {
    assert KeysAscending(ts, DayOf) by {
      forall i, j | 0 <= i < j < |ts| ensures DayOf(ts[i]) <= DayOf(ts[j]) {
        DayBoundary(ts[j].entity.transactionDate, DateOf(ts[i].entity.transactionDate));
      }
    }
    GroupKeysAscending(ts, DayOf);
  }

  /** The chart of `GenerateCashFlowDataAsync`. */
  function CashFlowChart(ts: seq<Row<Transaction>>, categories: seq<Row<Category>>): (r: ChartData)
  {
    ChartData("line", "Günlük Nakit Akışı", CashFlowPoints(ts, categories))
  }

  // ------------------------------------------------------ expected data

  /** The tables the report queries read. */
  datatype Tables = Tables(transactions: seq<Row<Transaction>>, accounts: seq<Row<Account>>,
                           categories: seq<Row<Category>>, budgets: seq<Row<Budget>>)

  /** The contents of a `ReportDataDto`. */
  datatype DataContents = DataContents(report: ReportDto, summary: FinancialSummary, charts: seq<ChartData>,
                                       categoryAnalysis: seq<CategoryAnalysisDto>,
                                       accountSummaries: seq<AccountSummaryDto>,
                                       budgetPerformance: Option<BudgetPerformanceDto>)

  /** The transactions the summary fetches: the date range with both id filters. */
  function SummaryTransactions(db: Tables, userId: int, request: CreateReportRequest): seq<Row<Transaction>>
  {
    GetTransactionsByDateRange(db.transactions, db.accounts, db.categories, userId, request.startDate, request.endDate,
                               CategoryIdsOf(request), AccountIdsOf(request))
  }

  /** The budgets of the request's months. */
  function RangeBudgets(db: Tables, userId: int, request: CreateReportRequest): seq<Row<Budget>>
  {
    GetBudgetsByDateRange(db.budgets, db.categories, userId, request.startDate, request.endDate, CategoryIdsOf(request))
  }

  /** `GenerateFinancialSummaryAsync` for the request. */
  function SummaryOf(db: Tables, userId: int, request: CreateReportRequest): FinancialSummary
  {
    FinancialSummaryOf(SummaryTransactions(db, userId, request), db.categories, RangeBudgets(db, userId, request))
  }

  /** Budget performance throws when one of the budgets' months cannot be built as a date. */
  predicate MonthsBuildable(db: Tables, userId: int, request: CreateReportRequest)
  {
    var listed := RangeBudgets(db, userId, request);
    forall k :: 0 <= k < |listed| ==> MonthSpent(db.transactions, userId, listed[k]).Some?
  }

  /** `GenerateReportDataAsync` throws only for budget performance over a month it cannot build. */
  predicate DataFails(db: Tables, userId: int, request: CreateReportRequest)
  {
    request.reportType == BudgetPerformanceReport && !MonthsBuildable(db, userId, request)
  }

  /** The category analysis rows of the request. */
  function AnalysisOf(db: Tables, userId: int, request: CreateReportRequest): seq<CategorySummary>
  {
    CategoryAnalysisOf(db.transactions, db.categories, db.budgets, userId, request.startDate, request.endDate,
                       CategoryIdsOf(request))
  }

  /** The budget performance rows of the request, one per budget in the range. */
  function PerformanceRowsOf(db: Tables, userId: int, request: CreateReportRequest): seq<BudgetPerformance>
    requires MonthsBuildable(db, userId, request)
  {
    var listed := RangeBudgets(db, userId, request);
    seq(|listed|, k requires 0 <= k < |listed| =>
      PerformanceOf(listed[k], db.categories, MonthSpent(db.transactions, userId, listed[k]).value))
  }

  /** The account summaries of the request, one per listed account of the user. */
  function AccountSummariesOf(db: Tables, userId: int, request: CreateReportRequest): seq<AccountSummary>
  {
    var listed := GetUserAccounts(db.accounts, userId, AccountIdsOf(request));
    seq(|listed|, k requires 0 <= k < |listed| =>
      AccountSummaryOf(listed[k], db.transactions, db.categories, request.startDate, request.endDate))
  }

  /** The transactions of the cash flow: the range without the request's filters. */
  function CashFlowTransactions(db: Tables, userId: int, request: CreateReportRequest): seq<Row<Transaction>>
  {
    GetTransactionsByDateRange(db.transactions, db.accounts, db.categories, userId, request.startDate, request.endDate,
                               None, None)
  }

  /** What `GenerateIncomeExpenseDataAsync` adds: the analysis rows, the expense pie and the bars. */
  function WithIncomeExpense(db: Tables, userId: int, request: CreateReportRequest, c: DataContents): DataContents
  {
    var rows := AnalysisRows(AnalysisOf(db, userId, request), c.summary);
    c.(categoryAnalysis := rows, charts := c.charts + IncomeExpenseCharts(rows, c.summary))
  }

  /** What `GenerateCategoryAnalysisDataAsync` adds: the income-expense part and the income pie. */
  function WithCategoryAnalysis(db: Tables, userId: int, request: CreateReportRequest, c: DataContents): DataContents
  {
    var e := WithIncomeExpense(db, userId, request, c);
    e.(charts := e.charts + [IncomePie(e.categoryAnalysis)])
  }

  /** What `GenerateBudgetPerformanceDataAsync` adds: the performance and its chart. */
  function WithBudgetPerformance(db: Tables, userId: int, request: CreateReportRequest, c: DataContents): DataContents
    requires MonthsBuildable(db, userId, request)
  {
    var p := BudgetPerformanceOf(PerformanceRowsOf(db, userId, request), c.summary.budgetUtilization);
    c.(budgetPerformance := Some(p), charts := c.charts + [BudgetChart(p.categories)])
  }

  /** What `GenerateAccountSummaryDataAsync` adds: the account rows and the balance chart. */
  function WithAccountSummary(db: Tables, userId: int, request: CreateReportRequest, c: DataContents): DataContents
  {
    var rows := AccountRows(AccountSummariesOf(db, userId, request));
    c.(accountSummaries := rows, charts := c.charts + [AccountChart(rows)])
  }

  /** What `GenerateCashFlowDataAsync` adds: the daily chart. */
  function WithCashFlow(db: Tables, userId: int, request: CreateReportRequest, c: DataContents): DataContents
  {
    c.(charts := c.charts + [CashFlowChart(CashFlowTransactions(db, userId, request), db.categories)])
  }

  /** Types 1, 6 and 7 share the income-expense part. */
  predicate IsIncomeExpenseType(t: int)
  {
    t == IncomeExpenseAnalysis || t == MonthlyFinancialSummary || t == YearlyFinancialSummary
  }

  /**
   * The data `GenerateReportDataAsync` builds: the header and the summary,
   * then the part the report type calls for; a custom or unknown type
   * gets nothing more. None where the call throws.
   */
  function ReportContents(db: Tables, userId: int, request: CreateReportRequest, now: Ticks): (r: Option<DataContents>)
    ensures r.None? <==> DataFails(db, userId, request)
    ensures r.Some? ==> r.value.report == GeneratedHeader(request, now) && r.value.summary == SummaryOf(db, userId, request)
  {
    var c := DataContents(GeneratedHeader(request, now), SummaryOf(db, userId, request), [], [], [], None);
    var t := request.reportType;
    if IsIncomeExpenseType(t) then Some(WithIncomeExpense(db, userId, request, c))
    else if t == BudgetPerformanceReport then
      (if MonthsBuildable(db, userId, request) then Some(WithBudgetPerformance(db, userId, request, c)) else None)
    else if t == CategoryAnalysisReport then Some(WithCategoryAnalysis(db, userId, request, c))
    else if t == AccountSummaryReport then Some(WithAccountSummary(db, userId, request, c))
    else if t == CashFlowAnalysis then Some(WithCashFlow(db, userId, request, c))
    else Some(c)
  }

  /**
   * The income-expense types and category analysis get one analysis row
   * per category group, the expense pie and the income-versus-expense bars,
   * and only category analysis the income pie as a third chart; neither
   * gets account or budget parts.
   */
  lemma AnalysisReportParts(db: Tables, userId: int, request: CreateReportRequest, now: Ticks)
    requires IsIncomeExpenseType(request.reportType) || request.reportType == CategoryAnalysisReport
    ensures var c := ReportContents(db, userId, request, now).value;
            |c.categoryAnalysis| == |AnalysisOf(db, userId, request)|
            && |c.charts| >= 2 && c.charts[0].title == "Gider Dağılımı" && c.charts[1].title == "Gelir vs Gider"
            && (|c.charts| == 3 <==> request.reportType == CategoryAnalysisReport)
            && c.accountSummaries == [] && c.budgetPerformance.None?
  {
  }

  /** The account part's current balances move from the initial ones by income minus expense. */
  lemma AccountPartBalances(db: Tables, userId: int, request: CreateReportRequest, c: DataContents)
    ensures var e := WithAccountSummary(db, userId, request, c);
            |e.accountSummaries| == |GetUserAccounts(db.accounts, userId, AccountIdsOf(request))|
            && (forall k :: 0 <= k < |e.accountSummaries| ==>
                  e.accountSummaries[k].currentBalance - e.accountSummaries[k].initialBalance
                  == e.accountSummaries[k].totalIncome - e.accountSummaries[k].totalExpense)
            && e.charts == c.charts + [AccountChart(e.accountSummaries)]
  {
  }

  /** A custom report, like an unknown type, carries the summary and nothing else. */
  lemma CustomReportIsSummaryOnly(db: Tables, userId: int, request: CreateReportRequest, now: Ticks)
    requires !(IncomeExpenseAnalysis <= request.reportType <= YearlyFinancialSummary)
    ensures var c := ReportContents(db, userId, request, now);
            c.Some? && c.value.charts == [] && c.value.categoryAnalysis == [] && c.value.accountSummaries == []
            && c.value.budgetPerformance.None?
  {
    var t := request.reportType;
    assert !IsIncomeExpenseType(t) && t != BudgetPerformanceReport && t != CategoryAnalysisReport
           && t != AccountSummaryReport && t != CashFlowAnalysis;
  }

  /** A budget-performance report's totals balance and its rows follow the budgets of the range. */
  lemma BudgetReportBalances(db: Tables, userId: int, request: CreateReportRequest, now: Ticks)
    requires request.reportType == BudgetPerformanceReport && MonthsBuildable(db, userId, request)
    ensures var c := ReportContents(db, userId, request, now).value;
            var listed := RangeBudgets(db, userId, request);
            c.budgetPerformance.Some?
            && var p := c.budgetPerformance.value;
               p.remaining == p.totalBudget - p.totalSpent
               && p.utilizationPercentage == c.summary.budgetUtilization
               && |p.categories| == |listed|
               && forall k :: 0 <= k < |listed| ==>
                    p.categories[k].budgetAmount == listed[k].entity.amount
                    && p.categories[k].remainingAmount == listed[k].entity.amount - MonthSpent(db.transactions, userId, listed[k]).value
  {
  }

  // -------------------------------------------------------------- state

  /** `ReportDataDto`: the generation helpers fill its lists and charts step by step. */
  class ReportData {
    var report: ReportDto
    var summary: FinancialSummary
    var charts: seq<ChartData>
    var categoryAnalysis: seq<CategoryAnalysisDto>
    var accountSummaries: seq<AccountSummaryDto>
    var budgetPerformance: Option<BudgetPerformanceDto>

    function Contents(): DataContents
      reads this
    {
      DataContents(report, summary, charts, categoryAnalysis, accountSummaries, budgetPerformance)
    }

    constructor (report: ReportDto, summary: FinancialSummary)
      ensures Contents() == DataContents(report, summary, [], [], [], None)
    {
      this.report := report;
      this.summary := summary;
      charts := [];
      categoryAnalysis := [];
      accountSummaries := [];
      budgetPerformance := None;
    }
  }

  // The generation helpers work on a snapshot of the tables they query.

  /** `GenerateIncomeExpenseDataAsync`. */
  method GenerateIncomeExpenseData(db: Tables, userId: int, request: CreateReportRequest, d: ReportData)
    modifies d
    ensures d.Contents() == WithIncomeExpense(db, userId, request, old(d.Contents()))
  {
    var analysis := GetCategoryAnalysis(db.transactions, db.categories, db.budgets, userId, request.startDate,
                                        request.endDate, CategoryIdsOf(request));
    var rows := AnalysisRows(analysis, d.summary);
    d.categoryAnalysis := rows;
    d.charts := d.charts + IncomeExpenseCharts(rows, d.summary);
  }

  /** `GenerateBudgetPerformanceDataAsync`; `ok` is false where the call throws, and then `d` is untouched. */
  method GenerateBudgetPerformanceData(db: Tables, userId: int, request: CreateReportRequest, d: ReportData)
    returns (ok: bool)
    modifies d
    ensures ok <==> MonthsBuildable(db, userId, request)
    ensures ok ==> d.Contents() == WithBudgetPerformance(db, userId, request, old(d.Contents()))
    ensures !ok ==> d.Contents() == old(d.Contents())
  {
    var perf := GetBudgetPerformance(db.budgets, db.transactions, db.categories, userId, request.startDate,
                                     request.endDate, CategoryIdsOf(request));
    if perf.None? {
      return false;
    }
    assert perf.value == PerformanceRowsOf(db, userId, request);
    var p := BudgetPerformanceOf(perf.value, d.summary.budgetUtilization);
    d.budgetPerformance := Some(p);
    d.charts := d.charts + [BudgetChart(p.categories)];
    return true;
  }

  /** `GenerateCategoryAnalysisDataAsync`: the income-expense part, then the income pie. */
  method GenerateCategoryAnalysisData(db: Tables, userId: int, request: CreateReportRequest, d: ReportData)
    modifies d
    ensures d.Contents() == WithCategoryAnalysis(db, userId, request, old(d.Contents()))
  {
    GenerateIncomeExpenseData(db, userId, request, d);
    d.charts := d.charts + [IncomePie(d.categoryAnalysis)];
  }

  /** `GenerateAccountSummaryDataAsync`. */
  method GenerateAccountSummaryData(db: Tables, userId: int, request: CreateReportRequest, d: ReportData)
    modifies d
    ensures d.Contents() == WithAccountSummary(db, userId, request, old(d.Contents()))
  {
    var summaries := GetAccountSummary(db.accounts, db.transactions, db.categories, userId, request.startDate,
                                       request.endDate, AccountIdsOf(request));
    assert summaries == AccountSummariesOf(db, userId, request);
    var rows := AccountRows(summaries);
    d.accountSummaries := rows;
    d.charts := d.charts + [AccountChart(rows)];
  }

  /** `GenerateCashFlowDataAsync`: the range is fetched without the request's filters. */
  method GenerateCashFlowData(db: Tables, userId: int, request: CreateReportRequest, d: ReportData)
    modifies d
    ensures d.Contents() == WithCashFlow(db, userId, request, old(d.Contents()))
  {
    var ts := GetTransactionsByDateRange(db.transactions, db.accounts, db.categories, userId, request.startDate,
                                         request.endDate, None, None);
    d.charts := d.charts + [CashFlowChart(ts, db.categories)];
  }

  /** `GenerateReportDataAsync`: the header, the summary and the type's part; nothing where the call throws. */
  method GenerateReportData(db: Tables, userId: int, request: CreateReportRequest, now: Ticks) returns (r: Option<ReportData>)
    ensures r.None? <==> ReportContents(db, userId, request, now).None?
    ensures r.Some? ==> fresh(r.value) && r.value.Contents() == ReportContents(db, userId, request, now).value
  {
    var d := new ReportData(GeneratedHeader(request, now), SummaryOf(db, userId, request));
    var t := request.reportType;
    if IsIncomeExpenseType(t) {
      GenerateIncomeExpenseData(db, userId, request, d);
    } else if t == BudgetPerformanceReport {
      var ok := GenerateBudgetPerformanceData(db, userId, request, d);
      if !ok {
        return None;
      }
    } else if t == CategoryAnalysisReport {
      GenerateCategoryAnalysisData(db, userId, request, d);
    } else if t == AccountSummaryReport {
      GenerateAccountSummaryData(db, userId, request, d);
    } else if t == CashFlowAnalysis {
      GenerateCashFlowData(db, userId, request, d);
    }
    return Some(d);
  }

  /**
   * The data `GetReportByIdAsync` returns for a saved record: the data of
   * its stored request with the record, both names filled in, as the
   * header; None where the stored filters cannot be read or generation
   * throws.
   */
  function RegeneratedContents(db: Tables, row: Row<Report>, userId: int, deserialize: string -> Option<ReportFilter>,
                               now: Ticks): Option<DataContents>
  {
    match RequestFromReport(row, deserialize)
    case None => None
    case Some(request) =>
      match ReportContents(db, userId, request, now)
      case None => None
      case Some(c) => Some(c.(report := Named(MappedReport(row))))
  }

  /** The regeneration of `GetReportByIdAsync` once the record is found; the fetch failure where it throws. */
  method RegenerateReport(db: Tables, row: Row<Report>, userId: int, deserialize: string -> Option<ReportFilter>,
                          now: Ticks)
    returns (r: Result<ReportData>)
    ensures RegeneratedContents(db, row, userId, deserialize, now).None? ==> r == FailureOf(FetchFailed)
    ensures RegeneratedContents(db, row, userId, deserialize, now).Some? ==>
              r.isSuccess && r.value.Some? && fresh(r.value.value)
              && r.value.value.Contents() == RegeneratedContents(db, row, userId, deserialize, now).value
  {
    var request := RequestFromReport(row, deserialize);
    if request.None? {
      return FailureOf(FetchFailed);
    }
    var data := GenerateReportData(db, userId, request.value, now);
    if data.None? {
      return FailureOf(FetchFailed);
    }
    var d := data.value;
    ghost var c := d.Contents();
    d.report := Named(MappedReport(row));
    assert d.Contents() == c.(report := Named(MappedReport(row)));
    return Success(d);
  }

  class ReportService {
    const reports: DbSet<Report>
    const transactions: DbSet<Transaction>
    const accounts: DbSet<Account>
    const categories: DbSet<Category>
    const budgets: DbSet<Budget>

    ghost predicate Valid()
      reads reports
    {
      SetValid(reports)
    }

    ghost predicate Ready()
      reads reports
    {
      Valid() && reports.Clean()
    }

    constructor (reports: DbSet<Report>, transactions: DbSet<Transaction>, accounts: DbSet<Account>,
                 categories: DbSet<Category>, budgets: DbSet<Budget>)
      ensures this.reports == reports && this.transactions == transactions && this.accounts == accounts
      ensures this.categories == categories && this.budgets == budgets
    {
      this.reports := reports;
      this.transactions := transactions;
      this.accounts := accounts;
      this.categories := categories;
      this.budgets := budgets;
    }

    /** The tables the reports read, as they stand. */
    function Db(): Tables
      reads transactions, accounts, categories, budgets
    {
      Tables(transactions.rows, accounts.rows, categories.rows, budgets.rows)
    }

    /** `CompleteAsync()` after writes made with the save's clock reading: nothing moves. */
    method Complete(now: Ticks)
      requires Valid() && Stamped(reports.rows, reports.states, now)
      modifies reports
      ensures Ready() && reports.rows == old(reports.rows) && reports.nextId == old(reports.nextId)
    {
      Save(reports, now);
    }

    /**
     * `GenerateReportAsync`: the report's data, and a saved record only
     * when the request asks for it; then the data's header is the mapped
     * record, whose two names the mapping leaves null. Where generation
     * throws, nothing is saved.
     */
    method GenerateReport(userId: int, request: CreateReportRequest, serialize: ReportFilter -> string, now: Ticks)
      returns (r: Result<ReportData>)
      requires Ready()
      modifies reports
      ensures Ready()
      ensures ReportContents(Db(), userId, request, now).None? ==>
                r == FailureOf(GenerateFailed) && reports.rows == old(reports.rows)
      ensures ReportContents(Db(), userId, request, now).Some? ==>
                var c := ReportContents(Db(), userId, request, now).value;
                var row := Row(old(reports.nextId), now, None, false, SavedReport(userId, request, serialize, now));
                r.isSuccess && r.value.Some? && fresh(r.value.value)
                && (request.saveReport ==>
                      reports.rows == old(reports.rows) + [row] && r.value.value.Contents() == c.(report := MappedReport(row)))
                && (!request.saveReport ==> reports.rows == old(reports.rows) && r.value.value.Contents() == c)
    {
      var db := Db();
      var data := GenerateReportData(db, userId, request, now);
      if data.None? {
        return FailureOf(GenerateFailed);
      }
      var d := data.value;
      ghost var c := d.Contents();
      if request.saveReport {
        var added := SaveReport(SavedReport(userId, request, serialize, now), now);
        d.report := MappedReport(added);
        assert d.Contents() == c.(report := MappedReport(added));
      }
      return Success(d);
    }

    /** `AddAsync(report)` and `CompleteAsync()`: the record is appended with the next id. */
    method SaveReport(report: Report, now: Ticks) returns (added: Row<Report>)
      requires Ready()
      modifies reports
      ensures Ready()
      ensures added == Row(old(reports.nextId), now, None, false, report) && reports.rows == old(reports.rows) + [added]
    {
      CleanIsStamped(reports.rows, reports.states, now);
      StampedAdd(reports.rows, reports.states, now, Row(reports.nextId, now, None, false, report));
      added := reports.Add(report, now);
      Complete(now);
    }

    /**
     * `GetUserReportsAsync`: the requested page of the user's reports,
     * newest first, each with both names filled in.
     */
    method GetUserReports(userId: int, page: int, pageSize: int) returns (r: Result<seq<ReportDto>>)
      ensures r.isSuccess && r.value.Some?
      ensures var rows := ReportRepository.GetUserReports(reports.rows, userId, page, pageSize);
              |r.value.value| == |rows|
              && forall k :: 0 <= k < |rows| ==> r.value.value[k] == Named(MappedReport(rows[k]))
    {
      var rows := ReportRepository.GetUserReports(reports.rows, userId, page, pageSize);
      var dtos := seq(|rows|, k requires 0 <= k < |rows| => MappedReport(rows[k]));
      var i := 0;
      while i < |dtos|
        invariant 0 <= i <= |dtos| == |rows|
        invariant forall k :: 0 <= k < i ==> dtos[k] == Named(MappedReport(rows[k]))
        invariant forall k :: i <= k < |dtos| ==> dtos[k] == MappedReport(rows[k])
      {
        dtos := dtos[i := dtos[i].(typeName := Some(GetReportTypeName(dtos[i].reportType)),
                                   periodName := Some(GetReportPeriodName(dtos[i].period)))];
        i := i + 1;
      }
      return Success(dtos);
    }

    /**
     * `GetReportByIdAsync`: the user's saved report regenerated from its
     * stored request, with the record as the header and both names filled
     * in; the not-found message when the user has no such live report; the
     * fetch failure when the stored filters cannot be read or generation
     * throws. Nothing is written.
     */
    method GetReportById(userId: int, reportId: int, deserialize: string -> Option<ReportFilter>, now: Ticks)
      returns (r: Result<ReportData>)
      ensures GetUserReportById(reports.rows, userId, reportId).None? ==> r == FailureOf(ReportNotFound)
      ensures GetUserReportById(reports.rows, userId, reportId).Some? ==>
                var c := RegeneratedContents(Db(), reports.rows[GetUserReportById(reports.rows, userId, reportId).value],
                                             userId, deserialize, now);
                (c.None? ==> r == FailureOf(FetchFailed))
                && (c.Some? ==> r.isSuccess && r.value.Some? && fresh(r.value.value) && r.value.value.Contents() == c.value)
    {
      var found := GetUserReportById(reports.rows, userId, reportId);
      if found.None? {
        return FailureOf(ReportNotFound);
      }
      r := RegenerateReport(Db(), reports.rows[found.value], userId, deserialize, now);
    }

    /**
     * `DeleteReportAsync`: soft-deletes the user's live report, after which
     * no lookup of it by the user finds it; the not-found message when
     * there is none.
     */
    method DeleteReport(userId: int, reportId: int, now: Ticks) returns (r: Result<bool>)
      requires Ready()
      modifies reports
      ensures Ready()
      ensures GetUserReportById(old(reports.rows), userId, reportId).None? ==>
                r == FailureOf(ReportNotFound) && reports.rows == old(reports.rows)
      ensures GetUserReportById(old(reports.rows), userId, reportId).Some? ==>
                var i := GetUserReportById(old(reports.rows), userId, reportId).value;
                r == Success(true)
                && reports.rows == old(reports.rows)[i := old(reports.rows)[i].(isDeleted := true, updatedAt := Some(now))]
                && GetUserReportById(reports.rows, userId, reportId).None?
    {
      var found := GetUserReportById(reports.rows, userId, reportId);
      if found.None? {
        return FailureOf(ReportNotFound);
      }
      var i := found.value;
      CleanIsStamped(reports.rows, reports.states, now);
      StampedModify(reports.rows, reports.states, now, i, reports.rows[i].(isDeleted := true, updatedAt := Some(now)));
      Delete(reports, i, now);
      Complete(now);
      return Success(true);
    }

    /**
     * `GetQuickReportAsync`: a report of the type over the period's range
     * (the range is given: it comes from the clock), titled by the two
     * names and never saved.
     */
    method GetQuickReport(userId: int, reportType: int, period: int, start: Ticks, end: Ticks,
                          serialize: ReportFilter -> string, now: Ticks)
      returns (r: Result<ReportData>)
      requires Ready()
      modifies reports
      ensures Ready() && reports.rows == old(reports.rows)
      ensures var c := ReportContents(Db(), userId, QuickRequest(reportType, period, start, end), now);
              (c.None? ==> r == FailureOf(GenerateFailed))
              && (c.Some? ==> r.isSuccess && r.value.Some? && r.value.value.Contents() == c.value
                              && r.value.value.report.title == GetReportTypeName(reportType) + " - " + GetReportPeriodName(period))
    {
      r := GenerateReport(userId, QuickRequest(reportType, period, start, end), serialize, now);
    }
  }
}
