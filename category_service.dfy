// CategoryService: the categories a user may pick, and the creation, update
// and soft deletion of the user's own categories. Predefined categories are
// shared and read-only. The service writes the categories table and reads
// the transactions and budgets tables.

module CategoryService {
  import opened Wrappers
  import opened Text
  import opened Calendar
  import opened Persistence
  import opened BaseRepository
  import opened Entities
  import opened UnitOfWork
  import opened CategoryValidators
  import opened CategoryRepository

  /** `CreateCategoryDto`. Its validator is not part of this model: the service is handed its messages. */
  datatype CreateCategoryDto = CreateCategoryDto(name: string, categoryType: CategoryType, iconName: string)

  /** `CategoryDto`. */
  datatype CategoryDto = CategoryDto(id: int, name: string, categoryType: CategoryType, iconName: Option<string>, isPredefined: bool)

  const CategoryHasTransactions := "Bu kategoriyle ilişkili işlemler bulunduğu için silinemez."
  const CategoryHasBudgets := "Bu kategoriyle ilişkili bütçeler bulunduğu için silinemez."

  /** `CategoryType.ToString()`. */
  function CategoryTypeName(t: CategoryType): string
  {
    match t
    case Income => "Income"
    case Expense => "Expense"
  }

  function CategoryExists(name: string, t: CategoryType): string
  {
    "'" + name + "' adında bir " + CategoryTypeName(t) + " kategorisi zaten mevcut."
  }

  function OtherCategoryExists(name: string, t: CategoryType): string
  {
    "'" + name + "' adında başka bir " + CategoryTypeName(t) + " kategorisi zaten mevcut."
  }

  function CategoryToUpdateNotFound(id: int): string
  {
    "Güncellenecek kategori bulunamadı veya bu kategori size ait değil (ID: " + IntToString(id) + ")."
  }

  function CategoryToDeleteNotFound(id: int): string
  {
    "Silinecek kategori bulunamadı veya bu kategori size ait değil (ID: " + IntToString(id) + ")."
  }

  function ToCategoryDto(c: Row<Category>): CategoryDto
  {
    CategoryDto(c.id, c.entity.name, c.entity.categoryType, c.entity.iconName, c.entity.isPredefined)
  }

  /** Two categories of the same user and type whose names are equal once lower-cased. */
  predicate NameClash(a: Category, b: Category)
  {
    a.userId.Some? && a.userId == b.userId && a.categoryType == b.categoryType && ToLower(a.name) == ToLower(b.name)
  }

  /** What the duplicate checks keep true: no two live categories of one user and type share a name up to case. */
  predicate NoNameClash(rows: seq<Row<Category>>)
  {
    forall i, j :: 0 <= i < j < |rows| && Visible(rows[i]) && Visible(rows[j]) ==> !NameClash(rows[i].entity, rows[j].entity)
  }

  /** Replacing row `i` by a deleted row, or by one no other live row clashes with, keeps the names distinct. */
  lemma ReplaceKeepsNoClash(rows: seq<Row<Category>>, i: nat, r: Row<Category>)
    requires NoNameClash(rows) && i < |rows|
    requires !r.isDeleted ==> forall k :: 0 <= k < |rows| && k != i && Visible(rows[k]) ==> !NameClash(rows[k].entity, r.entity)
    ensures NoNameClash(rows[i := r])
  {
    var after := rows[i := r];
    forall a, b | 0 <= a < b < |after| && Visible(after[a]) && Visible(after[b])
      ensures !NameClash(after[a].entity, after[b].entity)
    {
      if a == i {
        assert !NameClash(rows[b].entity, r.entity);
      }
    }
  }

  /** A rename that only changes letter case clashes with nothing the old name did not clash with. */
  lemma CaseOnlyRenameClashesWithNothing(rows: seq<Row<Category>>, i: nat, e: Category)
    requires NoNameClash(rows) && i < |rows| && Visible(rows[i])
    requires NameClash(e, rows[i].entity)
    ensures forall k :: 0 <= k < |rows| && k != i && Visible(rows[k]) ==> !NameClash(rows[k].entity, e)
  {
    forall k | 0 <= k < |rows| && k != i && Visible(rows[k]) ensures !NameClash(rows[k].entity, e) {
      if k < i {
        assert !NameClash(rows[k].entity, rows[i].entity);
      } else {
        assert !NameClash(rows[i].entity, rows[k].entity);
      }
    }
  }

  /** The creation duplicate query: the user's live categories of the type whose name matches up to case. */
  function SameNameQuery(userId: int, name: string, t: CategoryType): Row<Category> -> bool
  {
    (c: Row<Category>) => c.entity.userId == Some(userId) && ToLower(c.entity.name) == ToLower(name) && c.entity.categoryType == t
  }

  /** The rename duplicate query: the same, leaving out the category being renamed. */
  function OtherSameNameQuery(userId: int, categoryId: int, name: string, t: CategoryType): Row<Category> -> bool
  {
    (c: Row<Category>) => SameNameQuery(userId, name, t)(c) && c.id != categoryId
  }

  /**
   * The rename check: the new name differs from the old one beyond letter
   * case and another of the user's live categories of the type has it.
   */
  predicate RenameClash(rows: seq<Row<Category>>, userId: int, categoryId: int, e: Category, name: string)
  {
    ToLower(e.name) != ToLower(name) && Get(rows, OtherSameNameQuery(userId, categoryId, name, e.categoryType)) != []
  }

  /** A name the rename query found free clashes with no other live category. */
  lemma FreeNameClashesWithNothing(rows: seq<Row<Category>>, i: nat, userId: int, e: Category)
    requires UniqueIds(rows) && i < |rows| && e.userId == Some(userId)
    requires Get(rows, OtherSameNameQuery(userId, rows[i].id, e.name, e.categoryType)) == []
    ensures forall k :: 0 <= k < |rows| && k != i && Visible(rows[k]) ==> !NameClash(rows[k].entity, e)
  {
    forall k | 0 <= k < |rows| && k != i && Visible(rows[k]) ensures !NameClash(rows[k].entity, e) {
      assert rows[k].id != rows[i].id;
      assert !OtherSameNameQuery(userId, rows[i].id, e.name, e.categoryType)(rows[k]);
      assert !SameNameQuery(userId, e.name, e.categoryType)(rows[k]);
    }
  }

  /** A rename the checks let through keeps the names distinct. */
  lemma RenameKeepsNoClash(rows: seq<Row<Category>>, i: nat, userId: int, renamed: Category, now: Ticks)
    requires NoNameClash(rows) && UniqueIds(rows) && i < |rows| && Visible(rows[i])
    requires rows[i].entity.userId == Some(userId)
    requires renamed == rows[i].entity.(name := renamed.name, iconName := renamed.iconName)
    requires !RenameClash(rows, userId, rows[i].id, rows[i].entity, renamed.name)
    ensures NoNameClash(rows[i := rows[i].(entity := renamed, updatedAt := Some(now))])
  {
    if ToLower(rows[i].entity.name) != ToLower(renamed.name) {
      FreeNameClashesWithNothing(rows, i, userId, renamed);
    } else {
      CaseOnlyRenameClashesWithNothing(rows, i, renamed);
    }
    ReplaceKeepsNoClash(rows, i, rows[i].(entity := renamed, updatedAt := Some(now)));
  }

  /** The lookup `GetAsync(c => c.Id == categoryId && c.UserId == userId && !c.IsPredefined)` followed by `First()`. */
  function OwnedCategory(rows: seq<Row<Category>>, userId: int, categoryId: int): (r: Option<nat>)
    ensures r.Some? ==> r.value < |rows| && Visible(rows[r.value]) && rows[r.value].id == categoryId
                        && rows[r.value].entity.userId == Some(userId) && !rows[r.value].entity.isPredefined
    ensures r.None? ==> forall k :: 0 <= k < |rows| && Visible(rows[k]) && rows[k].id == categoryId
                                    ==> rows[k].entity.userId != Some(userId) || rows[k].entity.isPredefined
  {
    FirstIndex(rows, (c: Row<Category>) => c.id == categoryId && c.entity.userId == Some(userId) && !c.entity.isPredefined)
  }

  /** The category `CreateCategoryAsync` adds: the user's own, never predefined. */
  function NewCategory(userId: int, d: CreateCategoryDto): (r: Category)
    ensures r.userId == Some(userId) && !r.isPredefined && r.name == d.name && r.categoryType == d.categoryType
  {
    Category(d.name, d.categoryType, Some(d.iconName), false, Some(userId))
  }

  class CategoryService {
    const categories: DbSet<Category>
    const transactions: DbSet<Transaction>
    const budgets: DbSet<Budget>

    ghost predicate Valid()
      reads categories
    {
      SetValid(categories) && NoNameClash(categories.rows)
    }

    ghost predicate Ready()
      reads categories
    {
      Valid() && categories.Clean()
    }

    constructor (categories: DbSet<Category>, transactions: DbSet<Transaction>, budgets: DbSet<Budget>)
      ensures this.categories == categories && this.transactions == transactions && this.budgets == budgets
    {
      this.categories := categories;
      this.transactions := transactions;
      this.budgets := budgets;
    }

    /** `CompleteAsync()` after writes made with the save's clock reading: nothing moves. */
    method Complete(now: Ticks)
      requires Valid() && Stamped(categories.rows, categories.states, now)
      modifies categories
      ensures Ready() && categories.rows == old(categories.rows) && categories.nextId == old(categories.nextId)
    {
      Save(categories, now);
    }

    /** `GetUserAndPredefinedCategoriesAsync`: the repository listing as DTOs, in its order. */
    method GetUserAndPredefinedCategories(userId: int, t: CategoryType) returns (r: Result<seq<CategoryDto>>)
      ensures r.isSuccess && r.value.Some?
      ensures var listed := GetCategoriesByUserIdAndType(categories.rows, Some(userId), t);
              |r.value.value| == |listed| && forall k :: 0 <= k < |listed| ==> r.value.value[k] == ToCategoryDto(listed[k])
    {
      var listed := GetCategoriesByUserIdAndType(categories.rows, Some(userId), t);
      return Success(seq(|listed|, k requires 0 <= k < |listed| => ToCategoryDto(listed[k])));
    }

    /**
     * `CreateCategoryAsync`: adds the user's own category unless the user
     * already has a live category of that type whose name matches up to
     * letter case. `errors` are the messages of the creation validator.
     */
    method CreateCategory(userId: int, d: CreateCategoryDto, errors: seq<string>, now: Ticks) returns (r: Result<CategoryDto>)
      requires Ready()
      modifies categories
      ensures Ready()
      ensures errors != [] ==> r == Failure(errors)
      ensures errors == [] && Get(old(categories.rows), SameNameQuery(userId, d.name, d.categoryType)) != [] ==>
        r == FailureOf(CategoryExists(d.name, d.categoryType))
      ensures r.isSuccess <==> errors == [] && Get(old(categories.rows), SameNameQuery(userId, d.name, d.categoryType)) == []
      ensures !r.isSuccess ==> categories.rows == old(categories.rows)
      ensures r.isSuccess ==>
        var row := Row(old(categories.nextId), now, None, false, NewCategory(userId, d));
        categories.rows == old(categories.rows) + [row] && r == Success(ToCategoryDto(row))
    {
      if errors != [] {
        return Failure(errors);
      }
      var existing := Get(categories.rows, SameNameQuery(userId, d.name, d.categoryType));
      if existing != [] {
        return FailureOf(CategoryExists(d.name, d.categoryType));
      }
      var c := NewCategory(userId, d);
      var row := Row(categories.nextId, now, None, false, c);
      CleanIsStamped(categories.rows, categories.states, now);
      StampedAdd(categories.rows, categories.states, now, row);
      assert forall k :: 0 <= k < |categories.rows| && Visible(categories.rows[k])
                         ==> !SameNameQuery(userId, d.name, d.categoryType)(categories.rows[k]);
      AddKeepsNoClash(categories.rows, row);
      var added := categories.Add(c, now);
      Complete(now);
      return Success(ToCategoryDto(added));
    }

    /**
     * `UpdateCategoryAsync`: renames the user's own live category and sets
     * its icon; its type, owner and predefined flag stay. A new name that
     * differs from the old one beyond letter case must not match another of
     * the user's live categories of the type; a case-only rename skips the
     * check.
     */
    method UpdateCategory(userId: int, categoryId: int, d: UpdateCategoryDto, now: Ticks) returns (r: UnitResult)
      requires Ready()
      modifies categories
      ensures Ready()
      ensures !UpdateCategoryAcceptable(d) ==> r == UnitFailure(UpdateCategoryErrors(d))
      ensures UpdateCategoryAcceptable(d) && OwnedCategory(old(categories.rows), userId, categoryId).None? ==>
        r == UnitFailureOf(CategoryToUpdateNotFound(categoryId))
      ensures UpdateCategoryAcceptable(d) && OwnedCategory(old(categories.rows), userId, categoryId).Some? ==>
        var e := old(categories.rows)[OwnedCategory(old(categories.rows), userId, categoryId).value].entity;
        (RenameClash(old(categories.rows), userId, categoryId, e, d.name.value) ==>
           r == UnitFailureOf(OtherCategoryExists(d.name.value, e.categoryType)))
        && (!RenameClash(old(categories.rows), userId, categoryId, e, d.name.value) ==> r.isSuccess)
      ensures !r.isSuccess ==> categories.rows == old(categories.rows)
      ensures r.isSuccess ==>
        UpdateCategoryAcceptable(d) && OwnedCategory(old(categories.rows), userId, categoryId).Some?
        && var i := OwnedCategory(old(categories.rows), userId, categoryId).value;
           var e := old(categories.rows)[i].entity;
           categories.rows == old(categories.rows)[i := old(categories.rows)[i].(entity := e.(name := d.name.value, iconName := d.iconName),
                                                                                updatedAt := Some(now))]
    {
      var errs := UpdateCategoryErrors(d);
      if errs != [] {
        return UnitFailure(errs);
      }
      var found := OwnedCategory(categories.rows, userId, categoryId);
      if found.None? {
        return UnitFailureOf(CategoryToUpdateNotFound(categoryId));
      }
      var i := found.value;
      var e := categories.rows[i].entity;
      var renamed := e.(name := d.name.value, iconName := d.iconName);
      if ToLower(e.name) != ToLower(d.name.value) {
        var duplicate := Get(categories.rows, OtherSameNameQuery(userId, categoryId, d.name.value, e.categoryType));
        if duplicate != [] {
          return UnitFailureOf(OtherCategoryExists(d.name.value, e.categoryType));
        }
      }
      CleanIsStamped(categories.rows, categories.states, now);
      StampedModify(categories.rows, categories.states, now, i, categories.rows[i].(entity := renamed, updatedAt := Some(now)));
      RenameKeepsNoClash(categories.rows, i, userId, renamed, now);
      Update(categories, i, renamed, now);
      Complete(now);
      return UnitSuccess();
    }

    /**
     * `DeleteCategoryAsync`: soft-deletes the user's own live category when
     * none of the user's live transactions and none of the user's live
     * budgets refer to it. Predefined and other users' categories are
     * never found.
     */
    method DeleteCategory(userId: int, categoryId: int, now: Ticks) returns (r: UnitResult)
      requires Ready()
      modifies categories
      ensures Ready()
      ensures OwnedCategory(old(categories.rows), userId, categoryId).None? ==>
        r == UnitFailureOf(CategoryToDeleteNotFound(categoryId))
      ensures OwnedCategory(old(categories.rows), userId, categoryId).Some?
              && Get(transactions.rows, (t: Row<Transaction>) => t.entity.userId == userId && t.entity.categoryId == categoryId) != [] ==>
        r == UnitFailureOf(CategoryHasTransactions)
      ensures OwnedCategory(old(categories.rows), userId, categoryId).Some?
              && Get(transactions.rows, (t: Row<Transaction>) => t.entity.userId == userId && t.entity.categoryId == categoryId) == []
              && Get(budgets.rows, (b: Row<Budget>) => b.entity.userId == userId && b.entity.categoryId == categoryId) != [] ==>
        r == UnitFailureOf(CategoryHasBudgets)
      ensures r.isSuccess <==>
        OwnedCategory(old(categories.rows), userId, categoryId).Some?
        && Get(transactions.rows, (t: Row<Transaction>) => t.entity.userId == userId && t.entity.categoryId == categoryId) == []
        && Get(budgets.rows, (b: Row<Budget>) => b.entity.userId == userId && b.entity.categoryId == categoryId) == []
      ensures !r.isSuccess ==> categories.rows == old(categories.rows)
      ensures r.isSuccess ==>
        var i := OwnedCategory(old(categories.rows), userId, categoryId).value;
        categories.rows == old(categories.rows)[i := old(categories.rows)[i].(isDeleted := true, updatedAt := Some(now))]
        && GetById(categories.rows, categoryId).None?
    {
      var found := OwnedCategory(categories.rows, userId, categoryId);
      if found.None? {
        return UnitFailureOf(CategoryToDeleteNotFound(categoryId));
      }
      var linked := Get(transactions.rows, (t: Row<Transaction>) => t.entity.userId == userId && t.entity.categoryId == categoryId);
      if linked != [] {
        return UnitFailureOf(CategoryHasTransactions);
      }
      var planned := Get(budgets.rows, (b: Row<Budget>) => b.entity.userId == userId && b.entity.categoryId == categoryId);
      if planned != [] {
        return UnitFailureOf(CategoryHasBudgets);
      }
      var i := found.value;
      var deleted := categories.rows[i].(isDeleted := true, updatedAt := Some(now));
      CleanIsStamped(categories.rows, categories.states, now);
      StampedModify(categories.rows, categories.states, now, i, deleted);
      ReplaceKeepsNoClash(categories.rows, i, deleted);
      DeletedIsHidden(categories.rows, i, now, categoryId);
      Delete(categories, i, now);
      Complete(now);
      return UnitSuccess();
    }
  }

  /** Adding a live category no live category clashes with keeps the names distinct. */
  lemma AddKeepsNoClash(rows: seq<Row<Category>>, r: Row<Category>)
    requires NoNameClash(rows)
    requires r.entity.userId.Some?
    requires forall k :: 0 <= k < |rows| && Visible(rows[k])
                         ==> !SameNameQuery(r.entity.userId.value, r.entity.name, r.entity.categoryType)(rows[k])
    ensures NoNameClash(rows + [r])
  {
    var after := rows + [r];
    forall a, b | 0 <= a < b < |after| && Visible(after[a]) && Visible(after[b])
      ensures !NameClash(after[a].entity, after[b].entity)
    {
      if b == |rows| {
        assert !SameNameQuery(r.entity.userId.value, r.entity.name, r.entity.categoryType)(rows[a]);
      }
    }
  }
}
