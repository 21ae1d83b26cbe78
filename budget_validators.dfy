// CreateBudgetDtoValidator and UpdateBudgetDtoValidator. The year bounds
// are read from the clock when the validator is built (one per request):
// `now`. Their messages interpolate the bound.

module BudgetValidators {
  import opened Wrappers
  import opened Text
  import opened Calendar
  import opened Entities
  import opened Fluent

  datatype CreateBudgetDto = CreateBudgetDto(categoryId: int, amount: Money, month: int, year: int)
  datatype UpdateBudgetDto = UpdateBudgetDto(amount: Money)

  /** The rules of the budget validators; the year rules carry the bound they enforce. */
  datatype BudgetRule = CategoryIdInvalid | AmountNotPositive | MonthOutOfRange | YearTooEarly(bound: int) | YearTooLate(bound: int)

  function BudgetMessage(r: BudgetRule): string
  {
    match r
    case CategoryIdInvalid => "Geçerli bir kategori ID'si belirtilmelidir."
    case AmountNotPositive => "Bütçe tutarı sıfırdan büyük olmalıdır."
    case MonthOutOfRange => "Ay 1 ile 12 arasında olmalıdır."
    case YearTooEarly(b) => "Yıl en az " + IntToString(b) + " olabilir."
    case YearTooLate(b) => "Yıl en fazla " + IntToString(b) + " olabilir."
  }

  /** The earliest and the latest budget year: five years back and one ahead of the clock's year. */
  function MinBudgetYear(now: Ticks): int { YearOf(now) - 5 }
  function MaxBudgetYear(now: Ticks): int { YearOf(now) + 1 }

  function CreateBudgetRules(now: Ticks): seq<BudgetRule>
  {
    [CategoryIdInvalid, AmountNotPositive, MonthOutOfRange, YearTooEarly(MinBudgetYear(now)), YearTooLate(MaxBudgetYear(now))]
  }

  /** A budget the service may record: a category, a positive amount, a month, a year within the bounds. */
  predicate CreateBudgetAcceptable(d: CreateBudgetDto, now: Ticks)
  {
    d.categoryId > 0 && d.amount > 0 && 1 <= d.month <= 12 && MinBudgetYear(now) <= d.year <= MaxBudgetYear(now)
  }

  /** A year rule is broken only in its own bound's instance, the one the validator built from `now`. */
  predicate CreateBudgetBreaks(d: CreateBudgetDto, now: Ticks, r: BudgetRule)
  {
    match r
    case CategoryIdInvalid => d.categoryId <= 0
    case AmountNotPositive => d.amount <= 0
    case MonthOutOfRange => !(1 <= d.month <= 12)
    case YearTooEarly(b) => b == MinBudgetYear(now) && d.year < b
    case YearTooLate(b) => b == MaxBudgetYear(now) && d.year > b
  }

  function CreateBudgetFailures(d: CreateBudgetDto, now: Ticks): (f: seq<BudgetRule>)
    ensures forall r {:trigger r in f} :: r in f <==> CreateBudgetBreaks(d, now, r)
    ensures |f| <= 5
  {
    var rules := CreateBudgetRules(now);
    assert rules[0] == CategoryIdInvalid && rules[1] == AmountNotPositive && rules[2] == MonthOutOfRange;
    assert rules[3] == YearTooEarly(MinBudgetYear(now)) && rules[4] == YearTooLate(MaxBudgetYear(now));
    Failed(rules, r => CreateBudgetBreaks(d, now, r))
  }

  lemma CreateBudgetAccepts(d: CreateBudgetDto, now: Ticks)
    ensures CreateBudgetFailures(d, now) == [] <==> CreateBudgetAcceptable(d, now)
  {
    var f := CreateBudgetFailures(d, now);
    if f != [] {
      assert f[0] in f;
    } else {
      assert CategoryIdInvalid !in f && AmountNotPositive !in f && MonthOutOfRange !in f;
      assert YearTooEarly(MinBudgetYear(now)) !in f && YearTooLate(MaxBudgetYear(now)) !in f;
    }
  }

  function CreateBudgetErrors(d: CreateBudgetDto, now: Ticks): (errs: seq<string>)
    ensures errs == [] <==> CreateBudgetAcceptable(d, now)
    ensures |errs| == |CreateBudgetFailures(d, now)|
  {
    CreateBudgetAccepts(d, now);
    Messages(CreateBudgetFailures(d, now), BudgetMessage)
  }

  /** The year message names its bound: the number in it reads back as the earliest year allowed. */
  lemma YearMessageNamesBound(now: Ticks)
    ensures var n := IntToString(MinBudgetYear(now));
      BudgetMessage(YearTooEarly(MinBudgetYear(now))) == "Yıl en az " + n + " olabilir." && ParseInt(n) == Some(MinBudgetYear(now))
  {
    IntRoundTrip(MinBudgetYear(now));
  }

  /** An accepted budget names a month that `MonthBounds` turns into a date range (short of December 9999). */
  lemma AcceptedBudgetHasBounds(d: CreateBudgetDto, now: Ticks)
    requires CreateBudgetAcceptable(d, now) && 1 <= d.year < 9999
    ensures MonthBounds(d.year, d.month).Some?
  {
    assert DaysInMonth(d.year, d.month) >= 1;
  }

  predicate UpdateBudgetAcceptable(d: UpdateBudgetDto)
  {
    d.amount > 0
  }

  /** `UpdateBudgetDtoValidator`: only the amount rule of creation. */
  function UpdateBudgetFailures(d: UpdateBudgetDto): (f: seq<BudgetRule>)
    ensures f == [] <==> UpdateBudgetAcceptable(d)
    ensures !UpdateBudgetAcceptable(d) ==> f == [AmountNotPositive]
  {
    Failed([AmountNotPositive], r => d.amount <= 0)
  }

  function UpdateBudgetErrors(d: UpdateBudgetDto): (errs: seq<string>)
    ensures errs == [] <==> UpdateBudgetAcceptable(d)
    ensures |errs| == |UpdateBudgetFailures(d)|
  {
    Messages(UpdateBudgetFailures(d), BudgetMessage)
  }

  /** The amount rule of an update is the amount rule of creation. */
  lemma UpdateAmountRuleIsCreateRule(d: CreateBudgetDto, now: Ticks)
    ensures AmountNotPositive in CreateBudgetFailures(d, now) <==> !UpdateBudgetAcceptable(UpdateBudgetDto(d.amount))
  {
  }
}
