// The domain entities (Core/Entities) as values: the BaseEntity columns
// (Id, CreatedAt, UpdatedAt, IsDeleted) live in Persistence.Row, so each
// datatype here holds only the entity's own fields. Enums that the code
// compares with named members are datatypes; enums whose raw value is
// range-checked or mapped to a name (AccountType, ReportType,
// ReportPeriod) stay integers.

module Entities {
  import opened Wrappers
  import opened Calendar
  import opened Persistence

  /** A decimal(18, 2) amount, counted in hundredths. */
  type Money = int

  /** `CategoryType` (its declaring file is not part of this model): income or expense. */
  datatype CategoryType = Income | Expense

  /** `AccountType`: Cash = 1, Bank = 2, CreditCard = 3. */
  const AccountCash: int := 1
  const AccountBank: int := 2
  const AccountCreditCard: int := 3

  /** `Enum.IsDefined` for AccountType, what FluentValidation's IsInEnum checks. */
  predicate IsAccountType(v: int)
  {
    AccountCash <= v <= AccountCreditCard
  }

  /** A registered user. Not a BaseEntity: no soft delete and no save-time stamping. */
  datatype User = User(id: int, email: string, passwordHash: string, fullName: Option<string>,
                       defaultCurrency: Option<string>, registeredAt: Ticks)

  datatype Account = Account(userId: int, name: string, accountType: int, currency: string, initialBalance: Money)

  /** A category: predefined ones (seeded, `userId == None`) are shared by every user. */
  datatype Category = Category(name: string, categoryType: CategoryType, iconName: Option<string>,
                               isPredefined: bool, userId: Option<int>)

  datatype Transaction = Transaction(userId: int, accountId: int, categoryId: int, amount: Money,
                                     transactionDate: Ticks, notes: Option<string>)

  /** `t => t.Amount`, the selector the services and reports sum. */
  function Amount(t: Row<Transaction>): Money { t.entity.amount }

  /**
   * The services' category check `category != null && (category.IsPredefined
   * || category.UserId == userId)`: a predefined category, or one the user owns.
   */
  predicate CategoryUsableBy(c: Row<Category>, userId: int)
  {
    c.entity.isPredefined || c.entity.userId == Some(userId)
  }

  datatype Budget = Budget(userId: int, categoryId: int, amount: Money, month: int, year: int)

  datatype Debt = Debt(userId: int, name: string, lenderName: Option<string>, totalAmount: Money,
                       remainingAmount: Money, currency: string, isPaidOff: bool)

  datatype DebtPayment = DebtPayment(debtId: int, amount: Money, paymentDate: Ticks, notes: Option<string>)

  /** A saved report: `reportType` and `period` are the raw ReportType / ReportPeriod values. */
  datatype Report = Report(userId: int, title: string, reportType: int, period: int, startDate: Ticks,
                           endDate: Ticks, description: Option<string>, filterCriteria: Option<string>,
                           generatedAt: Ticks, filePath: Option<string>, isScheduled: bool)

  /** A seeded predefined category: id, name, type and icon. */
  function SeedRow(id: int, name: string, t: CategoryType, icon: string): Row<Category>
  {
    Row(id, 0, None, false, Category(name, t, Some(icon), true, None))
  }

  /** The predefined categories the context seeds: ten expense categories (-1 .. -10) and three income ones (-11 .. -13). */
  function SeedCategories(): (rows: seq<Row<Category>>)
    ensures |rows| == 13
    ensures forall i :: 0 <= i < |rows| ==> rows[i].id == -(i + 1)
    ensures forall i :: 0 <= i < |rows| ==> rows[i].entity.isPredefined && rows[i].entity.userId == None && !rows[i].isDeleted
    ensures forall i :: 0 <= i < |rows| ==> (rows[i].entity.categoryType == Expense <==> i < 10)
  {
    [ SeedRow(-1, "Market", Expense, "fas fa-shopping-cart"),
      SeedRow(-2, "Faturalar", Expense, "fas fa-file-invoice-dollar"),
      SeedRow(-3, "Ulaşım", Expense, "fas fa-bus"),
      SeedRow(-4, "Yeme-İçme", Expense, "fas fa-utensils"),
      SeedRow(-5, "Kira", Expense, "fas fa-home"),
      SeedRow(-6, "Sağlık", Expense, "fas fa-heartbeat"),
      SeedRow(-7, "Eğitim", Expense, "fas fa-graduation-cap"),
      SeedRow(-8, "Giyim", Expense, "fas fa-tshirt"),
      SeedRow(-9, "Eğlence", Expense, "fas fa-film"),
      SeedRow(-10, "Diğer Giderler", Expense, "fas fa-ellipsis-h"),
      SeedRow(-11, "Maaş", Income, "fas fa-briefcase"),
      SeedRow(-12, "Ek Gelir", Income, "fas fa-hand-holding-usd"),
      SeedRow(-13, "Diğer Gelirler", Income, "fas fa-ellipsis-h") ]
  }

  /** The seeded ids are distinct and all below the first identity the database hands out. */
  lemma SeedIdsUnique()
    ensures UniqueIds(SeedCategories())
    ensures forall i :: 0 <= i < |SeedCategories()| ==> SeedCategories()[i].id < 1
  {
  }
}
