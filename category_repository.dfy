// CategoryRepository: the categories a user may pick for one type (their
// own and the predefined ones) and the predefined categories of one type.

module CategoryRepository {
  import opened Wrappers
  import opened Persistence
  import opened BaseRepository
  import opened Ordering
  import opened Entities

  /**
   * `OrderBy(c => c.IsPredefined).ThenBy(c => c.Name)`: `false` sorts
   * before `true`, so the user's own categories come first and the
   * predefined ones after them, each group by name.
   */
  predicate OwnBeforePredefined(a: Row<Category>, b: Row<Category>)
  {
    (!a.entity.isPredefined && b.entity.isPredefined)
    || (a.entity.isPredefined == b.entity.isPredefined && StrLe(a.entity.name, b.entity.name))
  }

  /** `OrderBy(c => c.Name)`. */
  predicate CategoriesByName(a: Row<Category>, b: Row<Category>)
  {
    StrLe(a.entity.name, b.entity.name)
  }

  lemma OwnBeforePredefinedPreorder()
    ensures TotalPreorder(OwnBeforePredefined)
  {
    forall a, b ensures OwnBeforePredefined(a, b) || OwnBeforePredefined(b, a) {
      StrLeTotal(a.entity.name, b.entity.name);
    }
    forall a, b, c | OwnBeforePredefined(a, b) && OwnBeforePredefined(b, c)
      ensures OwnBeforePredefined(a, c)
    {
      if a.entity.isPredefined == b.entity.isPredefined == c.entity.isPredefined {
        StrLeTransitive(a.entity.name, b.entity.name, c.entity.name);
      }
    }
  }

  /**
   * The filter `((c.UserId == userId && !c.IsPredefined) || c.IsPredefined) && c.Type == type`;
   * `userId` is nullable and a null one matches the rows whose UserId is null.
   */
  predicate SelectableFor(c: Row<Category>, userId: Option<int>, t: CategoryType)
  {
    ((c.entity.userId == userId && !c.entity.isPredefined) || c.entity.isPredefined) && c.entity.categoryType == t
  }

  /**
   * `GetCategoriesByUserIdAndTypeAsync(userId, type)`: exactly the live
   * categories of that type that are predefined or the user's own, the
   * user's own first and each group by name.
   */
  function GetCategoriesByUserIdAndType(rows: seq<Row<Category>>, userId: Option<int>, t: CategoryType): (r: seq<Row<Category>>)
    ensures forall x {:trigger x in r} :: x in r <==> x in rows && Visible(x) && SelectableFor(x, userId, t)
    ensures Sorted(r, OwnBeforePredefined)
  {
    var p := (c: Row<Category>) => SelectableFor(c, userId, t);
    OwnBeforePredefinedPreorder();
    GetOrderedSpec(rows, p, OwnBeforePredefined);
    GetOrdered(rows, p, OwnBeforePredefined)
  }

  /** In that listing no predefined category comes before one of the user's own. */
  lemma {:induction false} OwnCategoriesFirst(rows: seq<Row<Category>>, userId: Option<int>, t: CategoryType, i: int, j: int)
    requires 0 <= i < j < |GetCategoriesByUserIdAndType(rows, userId, t)|
    ensures var r := GetCategoriesByUserIdAndType(rows, userId, t);
            r[i].entity.isPredefined ==> r[j].entity.isPredefined
  {
    var r := GetCategoriesByUserIdAndType(rows, userId, t);
    assert OwnBeforePredefined(r[i], r[j]);
  }

  /** `GetPredefinedCategoriesByTypeAsync(type)`: exactly the live predefined categories of that type, by name. */
  function GetPredefinedCategoriesByType(rows: seq<Row<Category>>, t: CategoryType): (r: seq<Row<Category>>)
    ensures forall x {:trigger x in r} :: x in r <==> x in rows && Visible(x) && x.entity.isPredefined && x.entity.categoryType == t
    ensures Sorted(r, CategoriesByName)
  {
    var p := (c: Row<Category>) => c.entity.isPredefined && c.entity.categoryType == t;
    KeyedStrLePreorder(CategoriesByName, (c: Row<Category>) => c.entity.name);
    GetOrderedSpec(rows, p, CategoriesByName);
    GetOrdered(rows, p, CategoriesByName)
  }
}
