// UpdateCategoryDtoValidator. The validator of CreateCategoryDto is not part
// of this model; the service receives its messages as a parameter.

module CategoryValidators {
  import opened Wrappers
  import opened Fluent

  datatype UpdateCategoryDto = UpdateCategoryDto(name: Option<string>, iconName: Option<string>)

  datatype CategoryRule = NameRequired | NameTooLong | IconRequired | IconTooLong

  function CategoryMessage(r: CategoryRule): string
  {
    match r
    case NameRequired => "Kategori adı boş olamaz."
    case NameTooLong => "Kategori adı en fazla 100 karakter olabilir."
    case IconRequired => "İkon adı boş olamaz."
    case IconTooLong => "İkon adı en fazla 50 karakter olabilir."
  }

  const UpdateCategoryRules := [NameRequired, NameTooLong, IconRequired, IconTooLong]

  lemma UpdateCategoryRulesComplete()
    ensures forall r: CategoryRule :: r in UpdateCategoryRules
  {
    forall r: CategoryRule ensures r in UpdateCategoryRules {
      var k := match r case NameRequired => 0 case NameTooLong => 1 case IconRequired => 2 case IconTooLong => 3;
      assert UpdateCategoryRules[k] == r;
    }
  }

  /** A category the service may rename: a name of at most 100 characters and an icon of at most 50. */
  predicate UpdateCategoryAcceptable(d: UpdateCategoryDto)
  {
    NotEmptyText(d.name) && |d.name.value| <= 100 && NotEmptyText(d.iconName) && |d.iconName.value| <= 50
  }

  predicate UpdateCategoryBreaks(d: UpdateCategoryDto, r: CategoryRule)
  {
    match r
    case NameRequired => !NotEmptyText(d.name)
    case NameTooLong => !MaxLength(d.name, 100)
    case IconRequired => !NotEmptyText(d.iconName)
    case IconTooLong => !MaxLength(d.iconName, 50)
  }

  function UpdateCategoryFailures(d: UpdateCategoryDto): (f: seq<CategoryRule>)
    ensures forall r {:trigger r in f} :: r in f <==> UpdateCategoryBreaks(d, r)
    ensures |f| <= 4
  {
    UpdateCategoryRulesComplete();
    Failed(UpdateCategoryRules, r => UpdateCategoryBreaks(d, r))
  }

  lemma UpdateCategoryAccepts(d: UpdateCategoryDto)
    ensures UpdateCategoryFailures(d) == [] <==> UpdateCategoryAcceptable(d)
  {
    var f := UpdateCategoryFailures(d);
    if f != [] {
      assert f[0] in f;
    } else {
      assert NameRequired !in f && NameTooLong !in f;
      assert IconRequired !in f && IconTooLong !in f;
    }
  }

  function UpdateCategoryErrors(d: UpdateCategoryDto): (errs: seq<string>)
    ensures errs == [] <==> UpdateCategoryAcceptable(d)
    ensures |errs| == |UpdateCategoryFailures(d)|
  {
    UpdateCategoryAccepts(d);
    Messages(UpdateCategoryFailures(d), CategoryMessage)
  }
}
