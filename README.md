# SmartFA backend core in Dafny

This project models the core of the SmartFA personal-finance backend: its Backend/src tree, written in C# on ASP.NET Core and Entity Framework Core. It covers the following parts:

- **Authentication.** Registration, login, refresh-token rotation with reuse detection, and revocation.
- **Finance services.** Accounts, categories, transactions, monthly budgets, and debts with their payments.
- **Reports.** The report queries and the report service that builds financial summaries, category analyses, budget performance, account summaries and daily cash flow.
- **Persistence.** The persistence layer under all of the above.
- **Validation and results.** The FluentValidation rule sets, the `Result` wrapper, and the controller base class's mapping of results to HTTP status codes.

How the C# constructs map to the model:

- **Rows.** A table row is `Persistence.Row<T>`. It holds the `BaseEntity` columns (identity, creation and update stamps, soft-delete flag) around the entity's own fields.
- **Entity sets.** An entity set is the class `Persistence.DbSet<T>`. It has:
  - a `seq` of rows;
  - the change tracker's entry states;
  - the next identity.
  
  The repositories' `AddAsync`, `UpdateAsync` and `DeleteAsync` are methods on it. `SaveChangesAsync` stamps `CreatedAt` / `UpdatedAt` with one clock reading. It refuses a pending hard delete.
- **Reads.** Every read applies the global `!IsDeleted` filter. The query repositories are functions over row sequences. Each is specified by exactly which rows it returns and in which order. Paging is stated against the ordered listing.
- **Services.** Each service is a class holding the sets it was injected with. Its `Ready()` invariant says no entry is pending between requests. Each operation states:
  - its result for every branch of the source: validation messages, not-found and ownership messages, guards;
  - the whole new state of the tables it writes.
  
  Beside the operations, lemmas prove what the writes preserve:
  - debts stay consistent and payments stay on live debts;
  - category names stay distinct per user and type, up to letter case;
  - a token rotated out is treated as reuse whenever it is presented again (`RefreshProtocol.RotatedTokenIsReused`), and a token once revoked can never be revoked again (`RefreshProtocol.RevokeIsFinal`).
- **Report generation.** The report service fills a `ReportData` object step by step, as the source fills its `ReportDataDto`. What it must contain is given by the function `ReportService.ReportContents` over a snapshot of the tables.
- **Values.** Money is an `int` count of hundredths (the columns are `decimal(18,2)`). Percentages are `real`. A chart point's value is a `real`: on the money charts (category pies, income-expense bars, account balances, cash flow) it is the amount in hundredths, 100 times the decimal value the source writes; on the budget chart it is a percentage. An instant is a count of 100 ns ticks (`DateTime.Ticks`), and the calendar arithmetic the code uses (`.Date`, `new DateTime(y, m, 1)`, `AddMonths`, `AddDays`) is written out on that count.
- **External inputs.** These are parameters of the operations that use them:
  - the clock reading `now`;
  - BCrypt hashing and checking;
  - the JWT access token;
  - the random refresh-token string;
  - the JSON (de)serialiser of report filters.

Where a comment and the code disagree, the model follows the code. The comment at `CategoryRepository.cs:23` says predefined categories come first, but the ordering on line 22 (`OrderBy(c => c.IsPredefined)`) puts the user's own categories first. `CategoryRepository.GetCategoriesByUserIdAndType` states the code's order.

Expense amounts are stored at or below zero (`TransactionService.SignedAmount`). The report arithmetic is modelled as written, except that budget-performance spending uses the corrected calendar-month query (first row of ## Findings). Lemmas state what that arithmetic means for stored data:

- the net amount adds the magnitude of the expenses to the income (`ReportService.SummaryUnderSignRule`);
- the budget utilisation and every expense share come out at most zero (`ReportService.ExpenseSharesUnderSignRule`);
- a budget is never reported over budget (`ReportService.BudgetNeverOverUnderSignRule`).

## Model

| member | source | states |
|---|---|---|
| Wrappers.Success | Backend/src/Application/Wrappers/Result.cs:16 | a success carries the value and no error |
| Wrappers.Failure | Backend/src/Application/Wrappers/Result.cs:17 | a failure carries exactly the given error list and no value |
| Wrappers.FailureOf | Backend/src/Application/Wrappers/Result.cs:18 | a one-message failure carries a one-element error list and no value |
| Wrappers.UnitSuccess | Backend/src/Application/Wrappers/Result.cs:33 | the value-less success has no errors |
| Wrappers.UnitFailure | Backend/src/Application/Wrappers/Result.cs:34 | the value-less failure keeps the given error list |
| Wrappers.UnitFailureOf | Backend/src/Application/Wrappers/Result.cs:35 | the value-less one-message failure has a one-element error list |
| Wrappers.FactoriesWellFormed | Backend/src/Application/Wrappers/Result.cs:16-18 | every factory result is well formed (success has a value and no error, failure has no value) and a success never equals a failure |
| ApiResults.HandleResult | Backend/src/API/Controllers/BaseApiController.cs:38-57 | 200 exactly for a success with a value (and it is that value), 404 without body exactly for a success without value, 404 with the errors exactly for a failure mentioning "bulunamadı" in any case, 400 otherwise |
| ApiResults.HandleUnitResult | Backend/src/API/Controllers/BaseApiController.cs:62-72 | 204 exactly on success; a failure is 404 when a message mentions "bulunamadı" in any case and 400 otherwise, both carrying the error list |
| ApiResults.HandleCreatedResult | Backend/src/API/Controllers/BaseApiController.cs:77-85 | 201 with the action and value exactly for a success with a value, otherwise 400 with the errors |
| ApiResults.SuccessIsOk | Backend/src/API/Controllers/BaseApiController.cs:40-41 | a value built by `Success` is answered 200 (201 by the created-handler) |
| ApiResults.MarkerMeansNotFound | Backend/src/API/Controllers/BaseApiController.cs:52-53 | a message holding the marker inside any text makes both handlers answer 404; the created-handler still answers 400 |
| ApiResults.CapitalMarkerMeansNotFound | Backend/src/API/Controllers/BaseApiController.cs:52 | the marker in capitals, keeping its dotless ı, is still recognised, since the upper-casing leaves ı unchanged |
| ApiResults.AsciiMarkerIsBadRequest | Backend/src/API/Controllers/BaseApiController.cs:52 | the marker spelt with an ASCII i or I ("BULUNAMADI", "bulunamadi") is not recognised, so the failure is answered 400 |
| ApiResults.DebtNotFoundIs404 | Backend/src/API/Controllers/BaseApiController.cs:52-53 | the debt service's "Borç bulunamadı." failure is answered with 404 |
| Persistence.Stamp | Backend/src/Infrastructure/Persistence/Contexts/ApplicationDbContext.cs:127-143 | stamping keeps the id and the entity's own fields |
| Persistence.StampAdded | Backend/src/Infrastructure/Persistence/Contexts/ApplicationDbContext.cs:131-135 | an added entry becomes live, created now, never updated |
| Persistence.StampModified | Backend/src/Infrastructure/Persistence/Contexts/ApplicationDbContext.cs:137-143 | a modified entry keeps CreatedAt and IsDeleted and gets UpdatedAt = now |
| Persistence.FirstDeleted | Backend/src/Infrastructure/Persistence/Contexts/ApplicationDbContext.cs:145-149 | the first entry in state Deleted, where the save throws: none before it is Deleted |
| Persistence.DbSet.constructor | Backend/src/Infrastructure/Persistence/Contexts/ApplicationDbContext.cs:19-27 | a set opened on seeded rows is consistent with nothing pending |
| Persistence.DbSet.Add | Backend/src/Infrastructure/Persistence/Repositories/BaseRepository.cs:96-102 | the entity is appended as Added with the next identity and nothing else changes |
| Persistence.DbSet.SetModified | Backend/src/Infrastructure/Persistence/Repositories/BaseRepository.cs:109 | only the given entry changes, to the new row in state Modified |
| Persistence.DbSet.SaveChanges | Backend/src/Infrastructure/Persistence/Contexts/ApplicationDbContext.cs:123-154 | succeeds exactly when no entry is Deleted; then every row takes its stamp and nothing is pending; a failed save keeps the entry states and the stamps made before the first Deleted entry |
| Entities.SeedCategories | Backend/src/Infrastructure/Persistence/Contexts/ApplicationDbContext.cs:179-251 | thirteen predefined, user-less, live categories with ids -1..-13, the first ten expense and the last three income |
| Entities.SeedIdsUnique | Backend/src/Infrastructure/Persistence/Contexts/ApplicationDbContext.cs:186-251 | the seeded ids are distinct and all below the first identity handed out |
| UnitOfWork.Save | Backend/src/Infrastructure/Persistence/UnitOfWork.cs:46-65 | with no entry Deleted a save always succeeds, leaves nothing pending, and leaves rows already carrying their stamps unchanged |
| UnitOfWork.CleanIsStamped | Backend/src/Infrastructure/Persistence/UnitOfWork.cs:46-65 | a set with nothing pending already has the shape a save gives it |
| UnitOfWork.StampedAdd | Backend/src/Infrastructure/Persistence/Repositories/BaseRepository.cs:96-102 | a row added live, created at the save's clock reading, stays in saved shape |
| UnitOfWork.StampedModify | Backend/src/Infrastructure/Persistence/Repositories/BaseRepository.cs:104-112 | a row marked Modified after UpdatedAt = now stays in saved shape |
| UnitOfWork.OpenCategories | Backend/src/Infrastructure/Persistence/Contexts/ApplicationDbContext.cs:186-251 | a new database's category table holds exactly the seeded categories |
| UnitOfWork.OpenEmpty | Backend/src/Infrastructure/Persistence/Contexts/ApplicationDbContext.cs:19-27 | every other table of a new database is empty and clean |
| BaseRepository.Get | Backend/src/Infrastructure/Persistence/Repositories/BaseRepository.cs:42-48 | the result holds exactly the live rows satisfying the predicate, taken from the table |
| BaseRepository.GetNone | Backend/src/Infrastructure/Persistence/Repositories/BaseRepository.cs:42-48 | a predicate no live row satisfies gives an empty list |
| BaseRepository.GetAll | Backend/src/Infrastructure/Persistence/Repositories/BaseRepository.cs:35-40 | exactly the live rows |
| BaseRepository.GetOrdered | Backend/src/Infrastructure/Persistence/Repositories/BaseRepository.cs:50-70 | the ordered query is a permutation of the unordered one |
| BaseRepository.GetMembers | Backend/src/Infrastructure/Persistence/Repositories/BaseRepository.cs:42-48 | a row is in the result if and only if it is a live table row satisfying the predicate |
| BaseRepository.GetOrderedSpec | Backend/src/Infrastructure/Persistence/Repositories/BaseRepository.cs:50-70 | the ordered query is sorted by the comparison and holds exactly the live rows satisfying the predicate |
| BaseRepository.FirstIndex | Backend/src/Infrastructure/Persistence/Repositories/BaseRepository.cs:31-32 | the first live row satisfying the predicate; none before it does, and None means none at all does |
| BaseRepository.FirstIndexIsHead | Backend/src/Infrastructure/Persistence/Repositories/BaseRepository.cs:31-32 | `FirstOrDefault` is the head of the query, missing exactly when the query is empty |
| BaseRepository.GetById | Backend/src/Infrastructure/Persistence/Repositories/BaseRepository.cs:27-33 | a live row with that id, or None when no live row has it |
| BaseRepository.IndexOfId | Backend/src/Infrastructure/Persistence/Repositories/BaseRepository.cs:118 | `FindAsync` by id: a row with that id, or None when no row has it; `DeleteById` then skips a deleted row, so its outcome is the one EF's soft-delete-filtered `FindAsync` gives |
| BaseRepository.Update | Backend/src/Infrastructure/Persistence/Repositories/BaseRepository.cs:104-112 | only the given row changes: new entity, UpdatedAt = now, state Modified |
| BaseRepository.Delete | Backend/src/Infrastructure/Persistence/Repositories/BaseRepository.cs:138-147 | only the given row changes: IsDeleted set, UpdatedAt = now, state Modified |
| BaseRepository.DeleteById | Backend/src/Infrastructure/Persistence/Repositories/BaseRepository.cs:114-135 | a live row with that id is soft-deleted; an already deleted or missing id changes nothing |
| BaseRepository.DeletedIsHidden | Backend/src/Infrastructure/Persistence/Repositories/BaseRepository.cs:138-147 | after a soft delete the row is invisible to reads by id and other ids read as before |
| BaseRepository.FirstIndexUnaffected | Backend/src/Infrastructure/Persistence/Repositories/BaseRepository.cs:31-32 | changing a row the predicate rejects before and after leaves the first match in place |
| BaseRepository.GetAppend | Backend/src/Infrastructure/Persistence/Repositories/BaseRepository.cs:96-102 | an added row appears at the end of exactly the queries it satisfies |
| BaseRepository.IndexOfUnique | Backend/src/Core/Entities/Core/BaseEntity.cs:11-13 | with unique identities the row at a position is the one its id finds |
| AccountRepository.GetAccountsByUserId | Backend/src/Infrastructure/Persistence/Repositories/AccountRepository.cs:17-24 | exactly the user's live accounts, sorted by name |
| AccountRepository.GetAccountByIdAndUserId | Backend/src/Infrastructure/Persistence/Repositories/AccountRepository.cs:26-32 | the live account with that id and owner, None exactly when there is none |
| BudgetRepository.GetBudgetsByUserIdAndPeriod | Backend/src/Infrastructure/Persistence/Repositories/BudgetRepository.cs:18-25 | exactly the user's live budgets of that month and year whose category is live, sorted by category name |
| BudgetRepository.GetBudgetByUserIdCategoryAndPeriod | Backend/src/Infrastructure/Persistence/Repositories/BudgetRepository.cs:27-36 | the first live budget for user, category and period; None exactly when there is none |
| CategoryRepository.OwnBeforePredefinedPreorder | Backend/src/Infrastructure/Persistence/Repositories/CategoryRepository.cs:22 | `OrderBy(IsPredefined).ThenBy(Name)` is a valid total preorder |
| CategoryRepository.GetCategoriesByUserIdAndType | Backend/src/Infrastructure/Persistence/Repositories/CategoryRepository.cs:17-24 | exactly the live categories of that type that are predefined or the user's own, own ones first, each group by name |
| CategoryRepository.OwnCategoriesFirst | Backend/src/Infrastructure/Persistence/Repositories/CategoryRepository.cs:22-23 | no predefined category is listed before one of the user's own |
| CategoryRepository.GetPredefinedCategoriesByType | Backend/src/Infrastructure/Persistence/Repositories/CategoryRepository.cs:26-33 | exactly the live predefined categories of that type, by name |
| DebtPaymentRepository.GetPaymentsByDebtId | Backend/src/Infrastructure/Persistence/Repositories/DebtPaymentRepository.cs:16-24 | exactly the live payments of that debt, latest payment date first |
| DebtRepository.GetActiveDebtsByUserId | Backend/src/Infrastructure/Persistence/Repositories/DebtRepository.cs:16-23 | exactly the user's live debts not paid off, by name |
| TransactionRepository.FilteredTransactions | Backend/src/Infrastructure/Persistence/Repositories/TransactionRepository.cs:24-39 | exactly the user's live transactions passing every given filter (calendar-day bounds, inclusive), newest first |
| TransactionRepository.GetTransactionsByUserIdFiltered | Backend/src/Infrastructure/Persistence/Repositories/TransactionRepository.cs:18-46 | a page of the filtered listing: sorted, at most `pageSize` items, exactly the run after `(pageNumber - 1) * pageSize`, `pageSize` long or as long as what remains |
| TransactionRepository.GetTransactionsByAccountId | Backend/src/Infrastructure/Persistence/Repositories/TransactionRepository.cs:48-53 | exactly the user's live transactions on that account whose category is live, newest first |
| TransactionRepository.GetTransactionsByCategoryId | Backend/src/Infrastructure/Persistence/Repositories/TransactionRepository.cs:55-60 | exactly the user's live transactions in that category whose account is live, newest first |
| UserRepository.UserStore.constructor | Backend/src/Infrastructure/Persistence/Contexts/ApplicationDbContext.cs:19 | the Users table starts empty |
| UserRepository.UserStore.Add | Backend/src/Infrastructure/Persistence/Repositories/UserRepository.cs:29-34 | the user is stored with the next identity and returned carrying it |
| UserRepository.UserStore.Update | Backend/src/Infrastructure/Persistence/Repositories/UserRepository.cs:36-41 | only the stored user with that identity changes |
| UserRepository.GetById | Backend/src/Infrastructure/Persistence/Repositories/UserRepository.cs:17-20 | a stored user with that id, None exactly when there is none |
| UserRepository.GetByEmail | Backend/src/Infrastructure/Persistence/Repositories/UserRepository.cs:22-27 | the first user whose address equals the given one ignoring case, None exactly when none does |
| UserRepository.GetByEmailIgnoresCase | Backend/src/Infrastructure/Persistence/Repositories/UserRepository.cs:24-26 | addresses differing only in letter case find the same user |
| UserRepository.StoredLowerIsFound | Backend/src/Infrastructure/Persistence/Repositories/UserRepository.cs:24-26 | a user stored under the lower-cased address is found by that address in any case |
| TokenRepository.TokenIndex | Backend/src/Infrastructure/Persistence/Repositories/UserRefreshTokenRepository.cs:23-29 | the first live row holding that token string; None exactly when no live row holds it |
| TokenRepository.GetByToken | Backend/src/Infrastructure/Persistence/Repositories/UserRefreshTokenRepository.cs:23-29 | the row at that first index, present exactly when the index is |
| TokenRepository.GetActiveTokensByUserId | Backend/src/Infrastructure/Persistence/Repositories/UserRefreshTokenRepository.cs:47-55 | exactly the user's live tokens that are neither revoked nor expired |
| TokenRepository.TokenIndexAppend | Backend/src/Infrastructure/Persistence/Repositories/UserRefreshTokenRepository.cs:31-36 | adding a token row leaves every existing token's lookup unchanged |
| TokenRepository.TokenIndexFresh | Backend/src/Infrastructure/Persistence/Repositories/UserRefreshTokenRepository.cs:31-36 | a fresh token added live is found, at the end |
| TokenRepository.TokenIndexUpdate | Backend/src/Infrastructure/Persistence/Repositories/UserRefreshTokenRepository.cs:38-45 | updating a row without changing its token or liveness keeps the lookup |
| RefreshTokens.ActiveIffColumns | Backend/src/Core/Entities/UserRefreshToken.cs:24-26 | `IsActive` holds exactly when RevokedAt is null and ExpiresAt is after now, the condition written at UserRefreshTokenRepository.cs:53 |
| RefreshTokens.ExpiryIsMonotone | Backend/src/Core/Entities/UserRefreshToken.cs:24 | an expired token stays expired and inactive as the clock advances |
| RefreshTokens.RevokedIsNeverActive | Backend/src/Core/Entities/UserRefreshToken.cs:25-26 | recording a revocation makes the token inactive at every instant |
| AccountValidators.CreateAccountRulesComplete | Backend/src/Application/Validators/CreateAccountDtoValidator.cs:13-25 | every account rule is one of the five the create validator declares, in declaration order |
| AccountValidators.CreateAccountFailures | Backend/src/Application/Validators/CreateAccountDtoValidator.cs:13-25 | a rule is reported exactly when the request breaks it (name required or over 100, type undefined, currency required or not 3 letters) |
| AccountValidators.CreateAccountAccepts | Backend/src/Application/Validators/CreateAccountDtoValidator.cs:13-25 | no failure exactly when the request is named, of a defined type and has a three-letter currency |
| AccountValidators.CreateAccountErrors | Backend/src/Application/Validators/CreateAccountDtoValidator.cs:13-25 | no message exactly when the request is acceptable; one message per broken rule |
| AccountValidators.InitialBalanceUnchecked | Backend/src/Application/Validators/CreateAccountDtoValidator.cs:24-26 | the opening balance, negative included, never changes the verdict |
| AccountValidators.UpdateAccountFailures | Backend/src/Application/Validators/UpdateAccountDtoValidator.cs:13-15 | a rule is reported exactly when the new name is missing or over 100 characters |
| AccountValidators.UpdateAccountAccepts | Backend/src/Application/Validators/UpdateAccountDtoValidator.cs:13-15 | no failure exactly when the new name is acceptable |
| AccountValidators.UpdateAccountErrors | Backend/src/Application/Validators/UpdateAccountDtoValidator.cs:13-15 | no message exactly when the rename is acceptable; one message per broken rule |
| AccountValidators.CreatedNamePassesUpdate | Backend/src/Application/Validators/UpdateAccountDtoValidator.cs:13-15 | a name accepted at creation is accepted by the rename validator |
| AuthValidators.RegisterRulesComplete | Backend/src/Application/Validators/RegisterDtoValidator.cs:13-27 | every rule is one of the six the register validator declares, in order |
| AuthValidators.RegisterFailures | Backend/src/Application/Validators/RegisterDtoValidator.cs:13-27 | a rule is reported exactly when the request breaks it |
| AuthValidators.RegisterAccepts | Backend/src/Application/Validators/RegisterDtoValidator.cs:13-27 | no failure exactly when the address has the e-mail shape, the password has at least 6 characters and the confirmation equals it |
| AuthValidators.RegisterErrors | Backend/src/Application/Validators/RegisterDtoValidator.cs:13-27 | no message exactly when the request is acceptable; one message per broken rule |
| AuthValidators.LoginFailures | Backend/src/Application/Validators/LoginDtoValidator.cs:13-18 | a rule is reported exactly when broken, and the length rule never is |
| AuthValidators.LoginAccepts | Backend/src/Application/Validators/LoginDtoValidator.cs:13-18 | no failure exactly when the address has the e-mail shape and the password is not blank |
| AuthValidators.LoginErrors | Backend/src/Application/Validators/LoginDtoValidator.cs:13-18 | no message exactly when the login request is acceptable |
| AuthValidators.RegisteredCredentialsPassLogin | Backend/src/Application/Validators/LoginDtoValidator.cs:13-18 | credentials accepted at registration pass the login validator |
| AuthValidators.MissingVersusEmptyEmail | Backend/src/Application/Validators/LoginDtoValidator.cs:13-15 | a null address breaks only the required rule; an empty one breaks both e-mail rules |
| AuthValidators.ShortPasswordPassesLogin | Backend/src/Application/Validators/LoginDtoValidator.cs:17-18 | a one-character password passes login but breaks the registration minimum |
| BudgetValidators.CreateBudgetFailures | Backend/src/Application/Validators/CreateBudgetDtoValidator.cs:13-26 | a rule is reported exactly when broken; the year bounds are five years back and one ahead of the clock's year |
| BudgetValidators.CreateBudgetAccepts | Backend/src/Application/Validators/CreateBudgetDtoValidator.cs:13-26 | no failure exactly when the category id and amount are positive, the month is 1..12 and the year is within bounds |
| BudgetValidators.CreateBudgetErrors | Backend/src/Application/Validators/CreateBudgetDtoValidator.cs:13-26 | no message exactly when the request is acceptable; one message per broken rule |
| BudgetValidators.YearMessageNamesBound | Backend/src/Application/Validators/CreateBudgetDtoValidator.cs:23-24 | the early-year message embeds the earliest year in digits that read back as that year |
| BudgetValidators.AcceptedBudgetHasBounds | Backend/src/Application/Validators/CreateBudgetDtoValidator.cs:19-20 | an accepted month always yields a date range |
| BudgetValidators.UpdateBudgetFailures | Backend/src/Application/Validators/UpdateBudgetDtoValidator.cs:13-14 | the only possible failure is a non-positive amount, reported exactly then |
| BudgetValidators.UpdateBudgetErrors | Backend/src/Application/Validators/UpdateBudgetDtoValidator.cs:13-14 | no message exactly when the amount is positive |
| BudgetValidators.UpdateAmountRuleIsCreateRule | Backend/src/Application/Validators/UpdateBudgetDtoValidator.cs:13-14 | the update's amount rule is the creation's amount rule |
| CategoryValidators.UpdateCategoryRulesComplete | Backend/src/Application/Validators/UpdateCategoryDtoValidator.cs:13-19 | every rule is one of the four declared, in order |
| CategoryValidators.UpdateCategoryFailures | Backend/src/Application/Validators/UpdateCategoryDtoValidator.cs:13-19 | a rule is reported exactly when broken (name required or over 100, icon required or over 50) |
| CategoryValidators.UpdateCategoryAccepts | Backend/src/Application/Validators/UpdateCategoryDtoValidator.cs:13-19 | no failure exactly when name and icon are present and short enough |
| CategoryValidators.UpdateCategoryErrors | Backend/src/Application/Validators/UpdateCategoryDtoValidator.cs:13-19 | no message exactly when the request is acceptable |
| DebtValidators.CreateDebtRulesComplete | Backend/src/Application/Validators/CreateDebtDtoValidator.cs:13-34 | every rule is one of the eight declared, in order |
| DebtValidators.CreateDebtFailures | Backend/src/Application/Validators/CreateDebtDtoValidator.cs:13-34 | a rule is reported exactly when broken; the remainder-versus-total rule only when the total is positive |
| DebtValidators.CreateDebtAccepts | Backend/src/Application/Validators/CreateDebtDtoValidator.cs:13-34 | no failure exactly when named, lender short enough, total positive, remainder between zero and the total, three-letter currency |
| DebtValidators.CreateDebtErrors | Backend/src/Application/Validators/CreateDebtDtoValidator.cs:13-34 | no message exactly when the request is acceptable |
| DebtValidators.RemainingCheckedOnlyForPositiveTotal | Backend/src/Application/Validators/CreateDebtDtoValidator.cs:28-30 | with a non-positive total the comparison rule is never reported, only the total rule |
| DebtValidators.UpdateDebtFailures | Backend/src/Application/Validators/UpdateDebtDtoValidator.cs:13-18 | a rule is reported exactly when broken |
| DebtValidators.UpdateDebtAccepts | Backend/src/Application/Validators/UpdateDebtDtoValidator.cs:13-18 | no failure exactly when named within 150 characters and the lender within 100 |
| DebtValidators.UpdateDebtErrors | Backend/src/Application/Validators/UpdateDebtDtoValidator.cs:13-18 | no message exactly when the update is acceptable |
| DebtValidators.UpdateSharesCreateNameRules | Backend/src/Application/Validators/UpdateDebtDtoValidator.cs:13-18 | an update breaks exactly the name and lender rules a creation with the same name and lender breaks |
| DebtValidators.PaymentRulesComplete | Backend/src/Application/Validators/CreateDebtPaymentDtoValidator.cs:13-24 | every rule is one of the five declared, in order |
| DebtValidators.PaymentFailures | Backend/src/Application/Validators/CreateDebtPaymentDtoValidator.cs:13-24 | a rule is reported exactly when broken |
| DebtValidators.PaymentAccepts | Backend/src/Application/Validators/CreateDebtPaymentDtoValidator.cs:13-24 | no failure exactly when debt id and amount are positive, the date is set and at most a day ahead, notes within 200 |
| DebtValidators.PaymentErrors | Backend/src/Application/Validators/CreateDebtPaymentDtoValidator.cs:13-24 | no message exactly when the payment is acceptable |
| DebtValidators.PaymentDateAllowance | Backend/src/Application/Validators/CreateDebtPaymentDtoValidator.cs:19-21 | a payment dated exactly one day ahead passes; one tick later it breaks the date rule alone |
| TransactionValidators.TransactionRulesComplete | Backend/src/Application/Validators/CreateTransactionDtoValidator.cs:13-28 | every rule is one of the six declared, in order |
| TransactionValidators.TransactionFailures | Backend/src/Application/Validators/CreateTransactionDtoValidator.cs:13-28 | a rule is reported exactly when broken |
| TransactionValidators.TransactionAccepts | Backend/src/Application/Validators/CreateTransactionDtoValidator.cs:13-28 | no failure exactly when both ids are positive, the amount is non-zero, the date is set and at most a day ahead, notes within 500 |
| TransactionValidators.TransactionErrors | Backend/src/Application/Validators/CreateTransactionDtoValidator.cs:13-28 | no message exactly when the transaction is acceptable |
| TransactionValidators.TransactionSignIsFree | Backend/src/Application/Validators/CreateTransactionDtoValidator.cs:19-20 | a request and its negated amount break the same rules |
| Fluent.Failed | Backend/src/Application/Validators/RegisterDtoValidator.cs:13-27 | the broken rules in declaration order: exactly those rules that break, never more than declared |
| Fluent.Messages | Backend/src/Application/Validators/RegisterDtoValidator.cs:13-27 | one message per broken rule, in the same order |
| Fluent.EmailShape | Backend/src/Application/Validators/RegisterDtoValidator.cs:15 | an address passes the e-mail rule exactly when its only '@' has text on both sides |
| AuthService.RefreshTokenTtlDays | Backend/src/Application/Services/AuthService.cs:54 | an unset lifetime setting means 7 days; a set one is its integer value, None when it is not an integer |
| AuthService.TtlSettingRoundTrip | Backend/src/Application/Services/AuthService.cs:54 | any lifetime written as an integer in the configuration is the lifetime the service uses |
| AuthService.AuthService.constructor | Backend/src/Application/Services/AuthService.cs:38-56 | the service reads its token lifetime from the configuration |
| AuthService.AuthService.IssueTokens | Backend/src/Application/Services/AuthService.cs:229-246 | exactly one new refresh token row for the user is added (pending), expiring after the lifetime; the response carries the user id as text, the e-mail and the new token |
| AuthService.AuthService.Complete | Backend/src/Infrastructure/Persistence/UnitOfWork.cs:46-65 | the pending token changes are saved and nothing remains pending |
| AuthService.AuthService.Register | Backend/src/Application/Services/AuthService.cs:58-99 | an invalid request fails with every validation message; a taken address (any case) fails with its message; failures change nothing; success exactly for a valid request with an unused address, storing the user under the lower-cased address and one new token |
| AuthService.AuthService.Login | Backend/src/Application/Services/AuthService.cs:101-135 | an invalid request fails with its validation messages; unknown address and wrong password give the same message; success exactly for a known address whose hash verifies, adding one token for that user |
| AuthService.AuthService.RevokeAllUserTokens | Backend/src/Application/Services/AuthService.cs:293-303 | every token of the user active now is revoked and marked Modified; every other row and entry state is unchanged (corrected — see ## Findings) |
| AuthService.AuthService.RefreshToken | Backend/src/Application/Services/AuthService.cs:137-185 | by branch: blank, unknown or expired token fail with their own message and change nothing; a revoked token fails as revoked after every active token of its owner is revoked; an active token is revoked and replaced by a new one in one save (corrected — see ## Findings) |
| AuthService.AuthService.RotateToken | Backend/src/Application/Services/AuthService.cs:168-178 | the presented token is revoked, the new token appended, and the response names the token's owner |
| AuthService.AuthService.RevokeToken | Backend/src/Application/Services/AuthService.cs:187-220 | a blank token fails as required; success exactly for a found, active token, which alone is revoked; a failure changes nothing |
| AuthService.AuthService.GetUserIdFromRefreshToken | Backend/src/Application/Services/AuthService.cs:306-315 | the owner of the presented token whether or not it is still active; None for a blank or unknown token |
| AuthService.ReuseBranchAsWritten | Backend/src/Application/Services/AuthService.cs:158 | as written the reuse branch answers with the generic refresh error and leaves every token as it was |
| AuthService.ReplayAsWrittenKeepsSuccessor | Backend/src/Application/Services/AuthService.cs:154-160 | as written, after a rotated-out token is replayed the successor token still rotates; with the intended revocation it counts as reuse |
| AuthService.OwnersKept | Backend/src/Core/Entities/UserRefreshToken.cs:12-13 | changing token rows without changing their owners keeps every token tied to a stored user |
| AuthService.UsersGrow | Backend/src/Core/Entities/UserRefreshToken.cs:12-13 | registering a user keeps every token's owner stored |
| AuthService.StampsKeepContent | Backend/src/Infrastructure/Persistence/Contexts/ApplicationDbContext.cs:127-143 | the save-time stamps change no id, entity or deleted flag |
| RefreshProtocol.RefreshCaseOf | Backend/src/Application/Services/AuthService.cs:139-166 | the branch a presented token takes: blank exactly for null or white space, unknown exactly when no live row holds it, otherwise revoked, then expired, then active, in that order of tests |
| RefreshProtocol.RevokeAll | Backend/src/Application/Services/AuthService.cs:293-303 | the table after revoking all of a user's active tokens keeps its length |
| RefreshProtocol.Rotated | Backend/src/Application/Services/AuthService.cs:168-176 | the table after a rotation has exactly one more row |
| RefreshProtocol.TokenIndexSameContent | Backend/src/Application/Services/AuthService.cs:147 | save-time stamps never change which row a token finds |
| RefreshProtocol.RefreshCaseSameContent | Backend/src/Application/Services/AuthService.cs:139-166 | save-time stamps never change the branch a token takes |
| RefreshProtocol.RevokeAllLeavesNoActive | Backend/src/Application/Services/AuthService.cs:293-303 | after reuse detection the user has no active token, and no other user's token changed |
| RefreshProtocol.RevokeAllKeepsLookup | Backend/src/Application/Services/AuthService.cs:293-303 | revocation never moves a token in the lookup |
| RefreshProtocol.RotatedTokenIsReused | Backend/src/Application/Services/AuthService.cs:154-176 | a token presented once is, at any later instant, treated as reuse |
| RefreshProtocol.FreshTokenRotates | Backend/src/Application/Services/AuthService.cs:173-176 | the token handed out by a rotation rotates in turn until it expires |
| RefreshProtocol.ReplayRevokesSuccessor | Backend/src/Application/Services/AuthService.cs:154-160 | replaying a rotated-out token revokes its successor, whose next use is itself reuse |
| RefreshProtocol.UserIdOf | Backend/src/Application/Services/AuthService.cs:306-315 | present exactly for a non-blank token a live row holds, and then that row's owner |
| RefreshProtocol.UserIdSurvivesRevocation | Backend/src/Application/Services/AuthService.cs:313-314 | a revoked token still names its owner |
| RefreshProtocol.RevokeIsFinal | Backend/src/Application/Services/AuthService.cs:203-211 | once revoked, revoking the same token again fails at every later instant |
| Text.ToLower | Backend/src/Infrastructure/Persistence/Repositories/UserRepository.cs:26 | character-wise lower-casing of the whole string |
| Text.LowerIdempotent | Backend/src/Application/Services/AuthService.cs:78 | an address stored lower-cased equals its own lower-casing |
| Text.IndexOf | Backend/src/API/Controllers/BaseApiController.cs:52 | the first occurrence at or after the start, None exactly when there is none |
| Text.ContainsIffFound | Backend/src/API/Controllers/BaseApiController.cs:52 | containment holds exactly when the first-occurrence search finds something |
| Text.ContainsIgnoreCaseConcat | Backend/src/API/Controllers/BaseApiController.cs:52 | a text always contains itself inside any surrounding text, ignoring case |
| Text.DigitsRoundTrip | Backend/src/Application/Services/AuthService.cs:245 | the digits of a natural number read back as that number |
| Text.IntRoundTrip | Backend/src/Application/Services/AuthService.cs:245 | the user id written with `ToString()` reads back with `int.TryParse` as the same id |
| Text.NegativeRoundTrip | Backend/src/Application/Services/AuthService.cs:245 | a minus sign and digits read back as the negative number |
| Ordering.SortBy | Backend/src/Infrastructure/Persistence/Repositories/AccountRepository.cs:22 | `OrderBy` returns a permutation of its input |
| Ordering.SortBySorted | Backend/src/Infrastructure/Persistence/Repositories/AccountRepository.cs:22 | `OrderBy` with a valid comparison returns a sorted permutation |
| Ordering.Skip | Backend/src/Infrastructure/Persistence/Repositories/TransactionRepository.cs:42 | `Skip(n)`: nothing skipped for n at most 0, everything for n at least the length, the suffix otherwise |
| Ordering.Take | Backend/src/Infrastructure/Persistence/Repositories/TransactionRepository.cs:43 | `Take(n)`: nothing for n at most 0, everything for n at least the length, the prefix otherwise |
| Ordering.PageIsSlice | Backend/src/Infrastructure/Persistence/Repositories/TransactionRepository.cs:42-43 | a page holds at most `size` items: exactly the run after the skipped pages, `size` long or as long as what remains |
| Ordering.PageOfSorted | Backend/src/Infrastructure/Persistence/Repositories/TransactionRepository.cs:38-43 | a page of a sorted listing is sorted and holds only listing items |
| Ordering.StrLeTotalPreorder | Backend/src/Infrastructure/Persistence/Repositories/AccountRepository.cs:22 | ordinal string order is a total preorder |
| Calendar.DateOf | Backend/src/Infrastructure/Persistence/Repositories/TransactionRepository.cs:33-34 | `.Date` is the midnight starting the instant's day |
| Calendar.DateOfIdempotent | Backend/src/Infrastructure/Persistence/Repositories/TransactionRepository.cs:33-34 | taking `.Date` twice is taking it once |
| Calendar.AddDays | Backend/src/Application/Validators/CreateTransactionDtoValidator.cs:24 | `AddDays(n)` moves by exactly n days |
| Calendar.MonthBounds | Backend/src/Application/Services/BudgetService.cs:41-42 | present exactly when the constructor and `AddMonths` accept the month; then the first's midnight and the last day's midnight, one day before the next month |
| Calendar.MonthBoundsAreMidnights | Backend/src/Application/Services/BudgetService.cs:41-42 | both month bounds are midnights |
| AccountService.AccountTypeName | Backend/src/Application/Mappings/GeneralProfile.cs:24-25 | a defined account type is shown as one of its three enum names, any other value as its number |
| AccountService.BalanceAfterAdd | Backend/src/Application/Services/AccountService.cs:39-45 | recording a live transaction moves its own account's balance by its amount and no other account's balance |
| AccountService.BalanceAfterDelete | Backend/src/Application/Services/AccountService.cs:39-45 | soft-deleting a live transaction takes its amount back out of its account's balance and changes no other balance |
| AccountService.SumWithoutDeleted | Backend/src/Application/Services/AccountService.cs:42-43 | soft-deleting a row removes its amount from every query sum that counted it |
| AccountService.NewAccount | Backend/src/Application/Services/AccountService.cs:103-104 | the mapped account belongs to the user and keeps the type and opening balance; its name and currency satisfy the validator |
| AccountService.AccountDtos | Backend/src/Application/Services/AccountService.cs:53-60 | one DTO per account, in order, each carrying the balance of that account |
| AccountService.AccountService.constructor | Backend/src/Application/Services/AccountService.cs:24-36 | the service works on the given tables |
| AccountService.AccountService.Complete | Backend/src/Infrastructure/Persistence/UnitOfWork.cs:46-65 | a save after writes stamped with its clock reading leaves the rows as they are and nothing pending |
| AccountService.AccountService.GetUserAccounts | Backend/src/Application/Services/AccountService.cs:47-69 | always succeeds with one DTO per live account of the user, by name, each with opening balance plus its live transactions |
| AccountService.AccountService.GetAccountById | Backend/src/Application/Services/AccountService.cs:71-91 | the not-found message for an account that is not the user's live account; otherwise its DTO with the current balance |
| AccountService.AccountService.CreateAccount | Backend/src/Application/Services/AccountService.cs:93-121 | success exactly for an accepted request; a rejected one reports every validation message and changes nothing; an accepted one appends the user's account with the next identity and reports the opening balance as the current balance |
| AccountService.AccountService.UpdateAccount | Backend/src/Application/Services/AccountService.cs:123-170 | an invalid name reports its messages; a missing account its not-found message; success exactly for a valid name on the user's live account, which alone changes (name only) |
| AccountService.AccountService.DeleteAccount | Backend/src/Application/Services/AccountService.cs:172-203 | a missing account reports not found, an account with transactions in the listing cannot be deleted; success exactly for the user's live account with no listed transaction, which is then soft-deleted and hidden from every read |
| BudgetService.SpentAmount | Backend/src/Application/Services/BudgetService.cs:39-51 | present exactly when the month can be built as a date; then never negative (the magnitude of the sum) |
| BudgetService.SpentIsOutflow | Backend/src/Application/Services/BudgetService.cs:39-51 | when the month's transactions in the category are all expenses, the spent amount is exactly their total outflow |
| BudgetService.SpentNetsRefunds | Backend/src/Application/Services/BudgetService.cs:50 | an expense and an equal refund in the month net to nothing spent |
| BudgetService.ToBudgetDto | Backend/src/Application/Services/BudgetService.cs:63-71 | remaining is the amount minus spent; the category name is the joined category's |
| BudgetService.OwnedBudget | Backend/src/Application/Services/BudgetService.cs:151-162 | the user's live budget with that id, None exactly when there is none |
| BudgetService.AddKeepsNoDuplicates | Backend/src/Application/Services/BudgetService.cs:107-121 | adding a budget whose key no live budget has keeps (user, category, month, year) unique among live budgets |
| BudgetService.ReplaceKeepsNoDuplicates | Backend/src/Application/Services/BudgetService.cs:164-167 | changing a budget's amount or soft-deleting it keeps the keys unique |
| BudgetService.DuplicateLookupIsExact | Backend/src/Application/Services/BudgetService.cs:107-109 | with unique keys the duplicate lookup finds the one live budget of that key |
| BudgetService.BudgetDtos | Backend/src/Application/Services/BudgetService.cs:61-73 | None exactly when some budget is listed and the month cannot be built; otherwise one DTO per budget, in order, with that month's spending |
| BudgetService.BudgetService.constructor | Backend/src/Application/Services/BudgetService.cs:24-36 | the service works on the given tables |
| BudgetService.BudgetService.Complete | Backend/src/Infrastructure/Persistence/UnitOfWork.cs:46-65 | a save after writes stamped with its clock reading leaves the rows as they are |
| BudgetService.BudgetService.GetUserBudgetsByPeriod | Backend/src/Application/Services/BudgetService.cs:53-82 | the user's budgets of the month, by category name, each with the month's spending and what remains; a server error when the month cannot be built and a budget is listed |
| BudgetService.BudgetService.CreateBudget | Backend/src/Application/Services/BudgetService.cs:84-138 | validation messages for a rejected request; category not found when it is missing or another user's; expense-only refusal; duplicate refusal naming the category and period; success exactly otherwise, appending the budget and reporting nothing spent and all remaining; every refusal adds nothing |
| BudgetService.BudgetService.UpdateBudget | Backend/src/Application/Services/BudgetService.cs:140-177 | validation messages, then not found; success exactly for a positive amount on the user's live budget, whose amount alone changes |
| BudgetService.BudgetService.DeleteBudget | Backend/src/Application/Services/BudgetService.cs:179-206 | success exactly for the user's live budget, which is soft-deleted; otherwise the not-found message and no change |
| BudgetService.DeletedFreesKey | Backend/src/Application/Services/BudgetService.cs:196 | soft-deleting the one live budget of a key leaves that key free for a new budget |
| CategoryService.ReplaceKeepsNoClash | Backend/src/Application/Services/CategoryService.cs:118-131 | replacing a category by a deleted row, or by one no other live row clashes with, keeps names distinct per user and type up to case |
| CategoryService.CaseOnlyRenameClashesWithNothing | Backend/src/Application/Services/CategoryService.cs:118 | a rename that only changes letter case clashes with nothing, which is why the check may be skipped |
| CategoryService.FreeNameClashesWithNothing | Backend/src/Application/Services/CategoryService.cs:120-123 | a name the rename query found free clashes with no other live category |
| CategoryService.RenameKeepsNoClash | Backend/src/Application/Services/CategoryService.cs:115-132 | every rename the checks let through keeps names distinct |
| CategoryService.AddKeepsNoClash | Backend/src/Application/Services/CategoryService.cs:65-80 | adding a category the duplicate query found free keeps names distinct |
| CategoryService.OwnedCategory | Backend/src/Application/Services/CategoryService.cs:104-115 | the user's own live non-predefined category with that id, None exactly when there is none |
| CategoryService.NewCategory | Backend/src/Application/Services/CategoryService.cs:74-76 | the new category is the user's own, never predefined, with the requested name and type |
| CategoryService.CategoryService.constructor | Backend/src/Application/Services/CategoryService.cs:24-36 | the service works on the given tables |
| CategoryService.CategoryService.Complete | Backend/src/Infrastructure/Persistence/UnitOfWork.cs:46-65 | a save after writes stamped with its clock reading leaves the rows as they are |
| CategoryService.CategoryService.GetUserAndPredefinedCategories | Backend/src/Application/Services/CategoryService.cs:38-52 | always succeeds with the repository listing as DTOs, in its order |
| CategoryService.CategoryService.CreateCategory | Backend/src/Application/Services/CategoryService.cs:54-91 | validation messages first; a live same-type category of the user with the name up to case is a duplicate; success exactly otherwise, appending the user's own category; a refusal adds nothing |
| CategoryService.CategoryService.UpdateCategory | Backend/src/Application/Services/CategoryService.cs:93-142 | validation messages; not found for a category that is not the user's own live one; a clash for a name taken beyond letter case; otherwise only name and icon change |
| CategoryService.CategoryService.DeleteCategory | Backend/src/Application/Services/CategoryService.cs:144-186 | not found for a category that is not the user's own; refused while a live transaction or budget of the user refers to it; success exactly otherwise, soft-deleting it |
| DebtService.OwnedDebt | Backend/src/Application/Services/DebtService.cs:61-76 | the position of the user's live debt with that id, and nothing exactly when no live row with that id exists for the user |
| DebtService.NewDebt | Backend/src/Application/Services/DebtService.cs:98-100 | an accepted request maps to a consistent debt of that user with the requested amounts, paid off exactly when nothing remains |
| DebtService.PaymentKeepsDebtConsistent | Backend/src/Application/Services/DebtService.cs:218-239 | a payment the service lets through lowers the remainder by exactly its amount, keeps the debt consistent, and pays it off exactly when it covers the remainder |
| DebtService.LiveDebtsKept | Backend/src/Application/Services/DebtService.cs:116-154 | a change that keeps identities and deleted flags keeps every live payment on a live debt |
| DebtService.DeleteKeepsPaymentsOnLiveDebts | Backend/src/Application/Services/DebtService.cs:175-183 | deleting a debt no live payment refers to keeps every live payment on a live debt |
| DebtService.QueryIncluding | Backend/src/Infrastructure/Persistence/Repositories/BaseRepository.cs:60 | an include path succeeds exactly when it names a navigation of the entity, and then yields the plain query result |
| DebtService.DebtService.constructor | Backend/src/Application/Services/DebtService.cs:25-39 | the service works on the unit of work's debt and payment tables |
| DebtService.DebtService.Complete | Backend/src/Application/Services/DebtService.cs:104 | the save after the service's stamped writes leaves every row and identity counter in place and nothing pending |
| DebtService.DebtService.GetUserActiveDebts | Backend/src/Application/Services/DebtService.cs:41-55 | always succeeds with the repository's listing mapped position by position to DTOs: exactly the user's live debts that are not paid off, ordered by name |
| DebtService.DebtService.GetDebtByIdAsWritten | Backend/src/Application/Services/DebtService.cs:57-81 | with the include path "DebtPayments" every call answers with the server error |
| DebtService.DebtService.GetDebtById | Backend/src/Application/Services/DebtService.cs:57-81 | with the existing include path: the user's debt, or the not-found message naming the id (corrected — see ## Findings) |
| DebtService.DebtService.GetDebtByIdIncluding | Backend/src/Application/Services/DebtService.cs:57-81 | a path that is no navigation gives the server error; otherwise the debt or the not-found message |
| DebtService.DebtService.CreateDebt | Backend/src/Application/Services/DebtService.cs:83-114 | succeeds exactly for an accepted request; then one new debt of that user with the requested amounts is appended; refusals carry the validator's messages and change nothing |
| DebtService.DebtService.UpdateDebt | Backend/src/Application/Services/DebtService.cs:116-154 | succeeds exactly for an accepted request on the user's debt; then only name and lender change; a refusal changes nothing |
| DebtService.DebtService.DeleteDebt | Backend/src/Application/Services/DebtService.cs:156-192 | refused with a payment on the debt or when it is not the user's; otherwise only that debt is soft-deleted and no lookup finds it afterwards |
| DebtService.DebtService.AddDebtPayment | Backend/src/Application/Services/DebtService.cs:194-256 | each refusal (invalid request, unknown debt, already paid off, amount above the remainder) has its message and changes nothing; success appends the payment and lowers the remainder by the amount |
| DebtService.DebtService.RecordPayment | Backend/src/Application/Services/DebtService.cs:229-245 | the payment is appended and the debt's remainder drops by its amount, marking it paid off when nothing remains, in one save |
| DebtService.DebtService.GetDebtPayments | Backend/src/Application/Services/DebtService.cs:258-279 | the not-found message when the debt is not the user's live debt, else exactly that debt's live payments, latest first |
| DebtService.LiveDebtsExtended | Backend/src/Application/Services/DebtService.cs:98-104 | adding a debt keeps every live payment on a live debt |
| DebtService.PaymentOnLiveDebtAdded | Backend/src/Application/Services/DebtService.cs:229-245 | a payment added on a live debt keeps every live payment on a live debt |
| TransactionService.SignedAmount | Backend/src/Application/Services/TransactionService.cs:114-115 | the stored amount keeps the client's magnitude and is at or below zero for an expense category, at or above zero for an income category |
| TransactionService.SignedAmountIdempotent | Backend/src/Application/Services/TransactionService.cs:179-180 | applying the sign rule to an already signed amount changes nothing, so re-saving an unchanged transaction keeps its amount |
| TransactionService.SignedAmountIgnoresSign | Backend/src/Application/Services/TransactionService.cs:114-115 | the signed amount depends only on the magnitude the client sent, not on its sign |
| TransactionService.JoinedDtos | Backend/src/Application/Services/TransactionService.cs:48 | one DTO per transaction of the page, in page order, each built from its joined account and category |
| TransactionService.TypeFilter | Backend/src/Application/Services/TransactionService.cs:50-53 | without a type the DTOs are kept as they are; with one, exactly the DTOs of that category type, never more than the page |
| TransactionService.PageIsJoined | Backend/src/Application/Services/TransactionService.cs:44-48 | every transaction of the repository's page has a live account and category to map from |
| TransactionService.OwnedTransaction | Backend/src/Application/Services/TransactionService.cs:154-165 | the position of the user's live transaction with that id, and nothing exactly when there is none |
| TransactionService.OwnedJoinedTransaction | Backend/src/Application/Services/TransactionService.cs:69-80 | the same lookup with account and category included; nothing exactly when no such row of the user exists |
| TransactionService.NewTransaction | Backend/src/Application/Services/TransactionService.cs:112-115 | the created transaction is the user's, on the requested account and category, with the amount signed by the category type |
| TransactionService.UpdatedTransaction | Backend/src/Application/Services/TransactionService.cs:178-180 | the updated transaction keeps its owner, takes the requested account and category, and has the amount signed by the new category type |
| TransactionService.TransactionService.constructor | Backend/src/Application/Services/TransactionService.cs:25-37 | the service works on the unit of work's transaction, account and category tables |
| TransactionService.TransactionService.Complete | Backend/src/Application/Services/TransactionService.cs:121 | the save after the service's stamped writes leaves every row and the identity counter in place and nothing pending |
| TransactionService.TransactionService.GetUserTransactionsFiltered | Backend/src/Application/Services/TransactionService.cs:39-62 | always succeeds with the repository's page mapped to DTOs and narrowed to the requested type after paging |
| TransactionService.TransactionService.GetTransactionById | Backend/src/Application/Services/TransactionService.cs:64-88 | the user's transaction with its account and category, or the not-found message naming the id |
| TransactionService.TransactionService.CreateTransaction | Backend/src/Application/Services/TransactionService.cs:90-141 | the validator's messages, then the account and category not-found messages, each refusal adding nothing; success exactly otherwise, appending one signed transaction of the user and returning its DTO |
| TransactionService.TransactionService.UpdateTransaction | Backend/src/Application/Services/TransactionService.cs:143-196 | refusals in source order change nothing; success exactly for a valid request on the user's transaction with a usable account and category, rewriting only that row |
| TransactionService.TransactionService.DeleteTransaction | Backend/src/Application/Services/TransactionService.cs:198-227 | succeeds exactly when the user owns a live transaction with that id, which alone is soft-deleted; otherwise the not-found message and no change |
| ReportRepository.UserReports | Backend/src/Infrastructure/Persistence/Repositories/ReportRepository.cs:23-25 | exactly the user's live reports, newest first |
| ReportRepository.GetUserReportCount | Backend/src/Infrastructure/Persistence/Repositories/ReportRepository.cs:34-38 | the number of the user's live reports, never more than the table holds |
| ReportRepository.GetUserReports | Backend/src/Infrastructure/Persistence/Repositories/ReportRepository.cs:21-29 | only the user's live reports, newest first; for a page from 1 and a non-negative size, at most that many: exactly the run of the listing after the skipped pages, `pageSize` long or as long as what remains |
| ReportRepository.GetUserReportById | Backend/src/Infrastructure/Persistence/Repositories/ReportRepository.cs:43-47 | the user's live report with that id, and nothing exactly when the user owns no live report with that id |
| ReportRepository.GetTransactionsByDateRange | Backend/src/Infrastructure/Persistence/Repositories/ReportRepository.cs:52-75 | exactly the user's live transactions in the closed range, in the listed categories and accounts when lists are given, earliest first |
| ReportRepository.MonthInRangeIsInterval | Backend/src/Infrastructure/Persistence/Repositories/ReportRepository.cs:93-95 | for real months the budget month filter is a closed interval of consecutive months |
| ReportRepository.GetBudgetsByDateRange | Backend/src/Infrastructure/Persistence/Repositories/ReportRepository.cs:80-103 | exactly the user's live budgets whose month lies between the months of the two dates, in the listed categories when a list is given |
| ReportRepository.GetUserAccounts | Backend/src/Infrastructure/Persistence/Repositories/ReportRepository.cs:108-119 | exactly the user's live accounts, restricted to the listed ids when a list is given, ordered by name |
| ReportRepository.GetUserCategories | Backend/src/Infrastructure/Persistence/Repositories/ReportRepository.cs:124-141 | exactly the live categories the user owns or that are predefined, of the given type and listed ids when given, ordered by name |
| ReportRepository.AnalysedTransactions | Backend/src/Infrastructure/Persistence/Repositories/ReportRepository.cs:149-159 | exactly the user's live transactions dated in the range, in a listed category and with a live category, in table order: every one taken matches, and every live matching row is taken |
| ReportRepository.GroupSummary | Backend/src/Infrastructure/Persistence/Repositories/ReportRepository.cs:163-170 | a group's row carries its category, the sum of its amounts and its count, with no budget yet |
| ReportRepository.CategoryGroups | Backend/src/Infrastructure/Persistence/Repositories/ReportRepository.cs:161-171 | one row per distinct category among the transactions, in order of first appearance, each its group's summary |
| ReportRepository.CategoryGroupsPartition | Backend/src/Infrastructure/Persistence/Repositories/ReportRepository.cs:161-171 | the rows' categories are distinct, every transaction's category has a row, and totals and counts add up to the whole |
| ReportRepository.CategoryGroupsCover | Backend/src/Infrastructure/Persistence/Repositories/ReportRepository.cs:162 | every grouped transaction's category has a row |
| ReportRepository.CategoryTotalsAddUp | Backend/src/Infrastructure/Persistence/Repositories/ReportRepository.cs:168-169 | the rows' totals add up to the sum of all amounts and their counts to the number of transactions |
| ReportRepository.AddToTotalsSpec | Backend/src/Infrastructure/Persistence/Repositories/ReportRepository.cs:175-177 | adding one budget to the per-category totals of the others gives the totals of all of them |
| ReportRepository.BudgetTotals | Backend/src/Infrastructure/Persistence/Repositories/ReportRepository.cs:175-177 | the dictionary maps exactly the categories with a budget to the sum of their budget amounts |
| ReportRepository.WithBudget | Backend/src/Infrastructure/Persistence/Repositories/ReportRepository.cs:181-184 | a row whose category has budgets gets their total and nothing else changes; any other row is unchanged |
| ReportRepository.AttachBudgets | Backend/src/Infrastructure/Persistence/Repositories/ReportRepository.cs:179-185 | the loop gives each row in turn its budget total, keeping the number and order of rows |
| ReportRepository.CategoryAnalysisOf | Backend/src/Infrastructure/Persistence/Repositories/ReportRepository.cs:146-188 | the analysis as a value: one row per category group, each with its budget total attached |
| ReportRepository.GetCategoryAnalysis | Backend/src/Infrastructure/Persistence/Repositories/ReportRepository.cs:146-188 | one row per category group with its total and count; a budget amount exactly when the category has a budget in range, and then the sum of those budgets |
| ReportRepository.AccountTransactionsInRange | Backend/src/Infrastructure/Persistence/Repositories/ReportRepository.cs:201-207 | exactly the live transactions on that account dated in the range with a live category: every one taken matches, and every live matching row is taken |
| ReportRepository.AccountSummaryOf | Backend/src/Infrastructure/Persistence/Repositories/ReportRepository.cs:212-221 | one account's row carries its identity, name, type and initial balance |
| ReportRepository.AccountSummaryCoversRange | Backend/src/Infrastructure/Persistence/Repositories/ReportRepository.cs:209-220 | an account's income and expense totals make up the sum of its transactions in range, and its count is their number |
| ReportRepository.JoinedSplitsByType | Backend/src/Infrastructure/Persistence/Repositories/ReportRepository.cs:209-210 | every joined transaction is income or expense, so the two totals make up the whole |
| ReportRepository.GetAccountSummary | Backend/src/Infrastructure/Persistence/Repositories/ReportRepository.cs:193-225 | one summary per listed account of the user, in name order |
| ReportRepository.AccountSummaries | Backend/src/Infrastructure/Persistence/Repositories/ReportRepository.cs:199-222 | the loop appends one summary per account, in the listed order |
| ReportRepository.MonthSpentAsWritten | Backend/src/Infrastructure/Persistence/Repositories/ReportRepository.cs:239-248 | the spending of the budget's month as written, defined exactly when the month can be built as a date |
| ReportRepository.MonthSpent | Backend/src/Infrastructure/Persistence/Repositories/ReportRepository.cs:239-248 | the corrected spending of the budget's month, defined exactly when the month can be built as a date |
| ReportRepository.DayBoundary | Backend/src/Infrastructure/Persistence/Repositories/ReportRepository.cs:246-247 | a transaction's day starts at or after a midnight exactly when it does, and at or before it exactly when it is before the next midnight |
| ReportRepository.SpentInMonthIsCalendarMonth | Backend/src/Infrastructure/Persistence/Repositories/ReportRepository.cs:239-247 | the corrected query takes exactly the user's transactions in the category from the month's first midnight up to the next month's |
| ReportRepository.MonthEndCutoff | Backend/src/Infrastructure/Persistence/Repositories/ReportRepository.cs:240-247 | the query as written misses a transaction at noon on the month's last day, which the corrected query counts |
| ReportRepository.January2025Cutoff | Backend/src/Infrastructure/Persistence/Repositories/ReportRepository.cs:239-248 | for a January 2025 budget, a transaction at noon on the 31st is missed as written and counted when corrected |
| ReportRepository.PerformanceOf | Backend/src/Infrastructure/Persistence/Repositories/ReportRepository.cs:250-258 | a budget's row carries its category, amount, month, year and the month's spending |
| ReportRepository.GetBudgetPerformance | Backend/src/Infrastructure/Persistence/Repositories/ReportRepository.cs:230-262 | one row per budget in range with its calendar month's spending; none when some budget's month cannot be built (corrected — see ## Findings) |
| ReportRepository.PerformanceRows | Backend/src/Infrastructure/Persistence/Repositories/ReportRepository.cs:236-259 | the loop appends a row per budget, stopping at the first month that cannot be built (corrected — see ## Findings) |
| ReportService.GetReportTypeName | Backend/src/Application/Services/ReportService.cs:517-528 | the unknown-report name exactly for a value outside the eight report types |
| ReportService.GetReportPeriodName | Backend/src/Application/Services/ReportService.cs:533-542 | the unknown-period name exactly for a value outside the six periods |
| ReportService.NamesAreDistinct | Backend/src/Application/Services/ReportService.cs:517-542 | distinct report types, and distinct periods, never share a name |
| ReportService.CategoryTypeName | Backend/src/Application/Services/ReportService.cs:335 | a category type is written "Expense" exactly when it is the expense type |
| ReportService.MappedReport | Backend/src/Application/Services/ReportService.cs:68 | the mapped record keeps its id and leaves both names null |
| ReportService.Named | Backend/src/Application/Services/ReportService.cs:94-95 | filling in the names sets them from the report's type and period and changes nothing else |
| ReportService.SavedReport | Backend/src/Application/Services/ReportService.cs:53-64 | the saved record is the user's, with the request's title and type, filters stored exactly when present, generated now, with no file and not scheduled |
| ReportService.RequestFromReport | Backend/src/Application/Services/ReportService.cs:121-134 | rebuilding the request fails exactly for a non-empty filter text that does not deserialise; otherwise it carries the record's title, type and dates |
| ReportService.QuickRequest | Backend/src/Application/Services/ReportService.cs:220-228 | the quick request is titled "type name - period name", has no filters and is never saved |
| ReportService.Percentage | Backend/src/Application/Services/ReportService.cs:338 | the share of a positive whole times the whole is 100 times the part; above 100 exactly when the part exceeds the whole, non-positive exactly when the part is |
| ReportService.Utilisation | Backend/src/Application/Services/ReportService.cs:318 | the share of a positive whole, and 0 when the whole is not positive |
| ReportService.SummaryUtilisation | Backend/src/Application/Services/ReportService.cs:295-321 | the summary counts the fetched transactions, totals the budgets, and its utilisation is the expense total's share of a positive budget total, above 100 exactly when expenses exceed it, else 0 |
| ReportService.NetAmountAsWritten | Backend/src/Application/Services/ReportService.cs:301-316 | income and expense totals make up the whole sum, and the net amount as written is that sum less twice the expense total |
| ReportService.TotalsUnderSignRule | Backend/src/Application/Services/ReportService.cs:301-305 | with amounts stored by the transaction service's sign rule, the expense total is at most zero and the income total at least zero |
| ReportService.SummaryUnderSignRule | Backend/src/Application/Services/ReportService.cs:312-319 | under the sign rule the net amount adds the expenses' magnitude to the income and the budget utilisation is never positive |
| ReportService.AnalysisShare | Backend/src/Application/Services/ReportService.cs:331-344 | a row keeps its category's figures; its share is of the expense total for an expense row and of the income total for an income row, 0 when that total is not positive |
| ReportService.ExpenseSharesUnderSignRule | Backend/src/Application/Services/ReportService.cs:337-341 | under the sign rule every expense row's share is 0 |
| ReportService.ExpensePieShowsExpenses | Backend/src/Application/Services/ReportService.cs:347-369 | the expense pie has one point per expense row and only expense rows; the bars show the income and expense totals |
| ReportService.BudgetRowRules | Backend/src/Application/Services/ReportService.cs:380-389 | the remainder is budget less spending; a row is over budget exactly when the remainder is negative, and for a positive budget exactly when its utilisation exceeds 100; 0 for a non-positive budget |
| ReportService.RemainingAddsUp | Backend/src/Application/Services/ReportService.cs:393-395 | the total remainder is the total budget less the total spent |
| ReportService.BudgetPerformanceOf | Backend/src/Application/Services/ReportService.cs:391-398 | the performance's remainder is its total budget less its total spent |
| ReportService.BudgetNeverOverUnderSignRule | Backend/src/Application/Services/ReportService.cs:380-389 | under the sign rule an expense category's month spending is at most zero, so a non-negative budget is never over budget and its utilisation is never positive (corrected — see ## Findings) |
| ReportService.CurrentBalanceAsWritten | Backend/src/Application/Services/ReportService.cs:449 | the current balance is the initial balance plus the account's transactions in range less twice its expense total; under the sign rule never below initial plus that sum |
| ReportService.CashFlowEveryDay | Backend/src/Application/Services/ReportService.cs:477-487 | no two points share a day and every transaction's day has a point |
| ReportService.CashFlowNoEmptyDay | Backend/src/Application/Services/ReportService.cs:477-485 | every point's day is some transaction's day |
| ReportService.NetTermSum | Backend/src/Application/Services/ReportService.cs:482-483 | summing each transaction's signed contribution gives the income total less the expense total |
| ReportService.CashFlowAddsUp | Backend/src/Application/Services/ReportService.cs:477-487 | the daily values add up to the summary's net amount over the same transactions |
| ReportService.CashFlowAscending | Backend/src/Application/Services/ReportService.cs:486 | for transactions earliest first the points are already strictly ascending by date, so the ordering changes nothing |
| ReportService.ReportContents | Backend/src/Application/Services/ReportService.cs:242-290 | generation fails exactly where budget performance cannot build a month; otherwise the header comes from the request and the summary from its fetch (corrected — see ## Findings) |
| ReportService.AnalysisReportParts | Backend/src/Application/Services/ReportService.cs:264-278 | income-expense types and category analysis get one row per category group and the expense pie and bars; only category analysis adds the income pie; no account or budget part |
| ReportService.AccountPartBalances | Backend/src/Application/Services/ReportService.cs:438-466 | one row per listed account of the user, each balance moved from the initial one by income minus expense, and a balance chart appended |
| ReportService.CustomReportIsSummaryOnly | Backend/src/Application/Services/ReportService.cs:264-287 | a custom or unknown report type carries the summary and nothing else |
| ReportService.BudgetReportBalances | Backend/src/Application/Services/ReportService.cs:375-411 | a budget report has one row per budget in range with remainder budget less month spending, and the summary's utilisation (corrected — see ## Findings) |
| ReportService.ReportData.constructor | Backend/src/Application/Services/ReportService.cs:244-258 | new report data holds the header and summary with empty lists and no budget part |
| ReportService.GenerateIncomeExpenseData | Backend/src/Application/Services/ReportService.cs:326-370 | the data gains the analysis rows, the expense pie and the bars |
| ReportService.GenerateBudgetPerformanceData | Backend/src/Application/Services/ReportService.cs:375-411 | succeeds exactly when every budget's month can be built, then adds the performance and its chart; on failure nothing changes (corrected — see ## Findings) |
| ReportService.GenerateCategoryAnalysisData | Backend/src/Application/Services/ReportService.cs:416-433 | the income-expense part, then the income pie |
| ReportService.GenerateAccountSummaryData | Backend/src/Application/Services/ReportService.cs:438-466 | the data gains the account rows and the balance chart |
| ReportService.GenerateCashFlowData | Backend/src/Application/Services/ReportService.cs:471-495 | the data gains the daily cash-flow line over the range without the request's filters |
| ReportService.GenerateReportData | Backend/src/Application/Services/ReportService.cs:242-290 | new report data holding exactly the contents the request calls for, and nothing where generation throws (corrected — see ## Findings) |
| ReportService.RegenerateReport | Backend/src/Application/Services/ReportService.cs:120-141 | the stored request's data with the named record as header, or the fetch failure |
| ReportService.ReportService.constructor | Backend/src/Application/Services/ReportService.cs:24-36 | the service works on the unit of work's report, transaction, account, category and budget tables |
| ReportService.ReportService.Complete | Backend/src/Application/Services/ReportService.cs:67 | the save after stamped writes leaves every record and the identity counter in place and nothing pending |
| ReportService.ReportService.GenerateReport | Backend/src/Application/Services/ReportService.cs:41-79 | a failure and no write where generation throws; otherwise the data, and exactly when saving is asked one record appended and mapped as the header (corrected — see ## Findings) |
| ReportService.ReportService.SaveReport | Backend/src/Application/Services/ReportService.cs:66-67 | the record is appended with the next id and saved |
| ReportService.ReportService.GetUserReports | Backend/src/Application/Services/ReportService.cs:84-105 | always succeeds with the repository's page, each report mapped with both names filled in |
| ReportService.ReportService.GetReportById | Backend/src/Application/Services/ReportService.cs:110-148 | the not-found message when the user has no such live report; else the regenerated data or the fetch failure (corrected — see ## Findings) |
| ReportService.ReportService.DeleteReport | Backend/src/Application/Services/ReportService.cs:153-172 | the not-found message and no change, or only that report soft-deleted so the user's lookup no longer finds it |
| ReportService.ReportService.GetQuickReport | Backend/src/Application/Services/ReportService.cs:214-237 | nothing is saved; the data of the quick request, titled by the two names (corrected — see ## Findings) |
| Aggregates.GroupKeys | Backend/src/Infrastructure/Persistence/Repositories/ReportRepository.cs:162 | the group keys are distinct, every element's key is among them, and every key is some element's |
| Aggregates.GroupSumsAddUp | Backend/src/Infrastructure/Persistence/Repositories/ReportRepository.cs:161-170 | the per-group sums add up to the sum over all elements |
| Aggregates.GroupKeysAscending | Backend/src/Application/Services/ReportService.cs:477-486 | elements ordered by a key give strictly ascending group keys |
| Aggregates.Filter | Backend/src/Infrastructure/Persistence/Repositories/ReportRepository.cs:209-210 | the filtered sequence is never longer and holds exactly the elements satisfying the predicate |
| Aggregates.SumPartition | Backend/src/Infrastructure/Persistence/Repositories/ReportRepository.cs:209-219 | the sums over the elements that satisfy a predicate and over those that do not make up the whole sum |

## Left out

- `ReportService.GetDateRangeForPeriod` (ReportService.cs:500-512): it reads the local clock, so the quick report receives its start and end instants as parameters.
- `ExportReportAsync` and the PDF, Excel and CSV renderers (ReportService.cs:177-209) are not modelled. The renderers produce mock output shaped by culture-dependent .NET formatting.
- The JSON serialisation of report filters is a parameter.
  - Serialising is a function passed in.
  - Deserialising is a partial function passed in; its failure stands for the exception the source catches.
- BCrypt password hashing and checking, the signed JWT access token, and the random refresh-token string are computed outside the model and passed in.
- Logging is not modelled. Neither are the catch-all server-error branches for exceptions the model does not raise, such as database failures.
  - The model raises exceptions that follow from the code itself: an unknown include path, an untranslatable query predicate, a month that cannot be built as a date, and filter text that does not deserialise.
- Concurrent requests are not modelled, including the concurrency-exception branch of `UpdateAccountAsync`. Operations run one at a time.
- Transactions and rollback are not modelled. `CompleteAsync` has no transaction; each save is one step on the sets the service holds, and a request that saves twice (registration) saves twice.
- `decimal` precision and rounding are not modelled: money is exact hundredths, percentages are exact reals.
- AutoMapper configuration is not modelled. Each mapping is written out as the fields it copies, and the `Ignore` lists decide which fields an update may change.
- EF Core translation to SQL is modelled as LINQ to Objects would evaluate the query.
  - The order of ties and the order of `GroupBy` groups (ReportRepository.cs:162) are fixed to input order and order of first appearance.
  - The database may return them in another order.
- The validators of `CreateCategoryDto` and `UpdateTransactionDto` are not part of this model. `CategoryService.CategoryService.CreateCategory` and `TransactionService.TransactionService.UpdateTransaction` receive the validator's messages as a parameter.
- Text.LowerChar, Text.UpperChar, Text.ToLower, Text.ToUpper and Text.ContainsIgnoreCase: the case mapping covers ASCII, Latin-1 and Ğ/Ş only, not the full Unicode invariant mapping nor the database's `LOWER`; ı and İ map to themselves, as in .NET's ordinal casing, and so do the letters outside those ranges.
- Ordering.StrLe: names are ordered ordinally, character by character; the database collation that `OrderBy` uses on the server is not modelled.
- ReportService.DayMonthLabel: the separator is a fixed '/', whereas `ToString("dd/MM")` writes the current culture's date separator.
- Fluent.MaxLength, Fluent.MinLength and Fluent.ExactLength: lengths count Unicode characters; .NET counts UTF-16 code units, so a character outside the Basic Multilingual Plane counts once here and twice in the source.
- HTTP plumbing other than the result-to-status mapping of `BaseApiController` is not modelled: the other controllers, middleware, startup, and migrations.

## Findings

| source | as written | input that shows it | evidently intended | confidence | as-written member | corrected member |
|---|---|---|---|---|---|---|
| Backend/src/Infrastructure/Persistence/Repositories/ReportRepository.cs:239-247 | budget performance sums the transactions up to `monthEnd`, which is midnight at the start of the month's last day | a January 2025 budget and an expense in its category dated 2025-01-31 12:00: its amount is not counted | the whole calendar month counts, as in `BudgetService.CalculateSpentAmount`, which compares calendar dates | not executed | ReportRepository.MonthSpentAsWritten, with ReportRepository.MonthEndCutoff and ReportRepository.January2025Cutoff | ReportRepository.MonthSpent, with ReportRepository.SpentInMonthIsCalendarMonth |
| Backend/src/Application/Services/AuthService.cs:296 | reuse detection queries the refresh tokens with the computed `IsActive` property, which has no database column (the repository's comment at UserRefreshTokenRepository.cs:50 says so), so the query cannot be translated and throws | refresh with a token that was already rotated out: the answer is "Token yenileme sırasında bir sunucu hatası oluştu.", and the token that replaced it stays usable | every active token of the user is revoked and the answer is "Refresh token iptal edilmiş." | not executed | AuthService.ReuseBranchAsWritten, with AuthService.ReplayAsWrittenKeepsSuccessor | AuthService.AuthService.RevokeAllUserTokens, with RefreshProtocol.ReplayRevokesSuccessor |
| Backend/src/Application/Services/DebtService.cs:65 | `GetDebtByIdAsync` includes the path "DebtPayments", but the debt's navigation is `Payments` (Debt.cs:32), so the query throws | any call, including one for the user's own existing debt: the answer is "Borç getirilirken bir sunucu hatası oluştu." | the debt is returned with its payments, or the not-found message | not executed | DebtService.DebtService.GetDebtByIdAsWritten | DebtService.DebtService.GetDebtById |
