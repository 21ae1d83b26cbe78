// CreateTransactionDtoValidator. The amount may have either sign; the
// `UtcNow` the validator reads when it is built (one validator per
// request) is `now`, and an omitted date is tick 0.

module TransactionValidators {
  import opened Wrappers
  import opened Calendar
  import opened Entities
  import opened Fluent

  datatype CreateTransactionDto = CreateTransactionDto(accountId: int, categoryId: int, amount: Money,
                                                       transactionDate: Ticks, notes: Option<string>)

  datatype TransactionRule = AccountIdInvalid | CategoryIdInvalid | AmountZero | DateRequired | DateTooLate | NotesTooLong

  function TransactionMessage(r: TransactionRule): string
  {
    match r
    case AccountIdInvalid => "Geçerli bir hesap ID'si belirtilmelidir."
    case CategoryIdInvalid => "Geçerli bir kategori ID'si belirtilmelidir."
    case AmountZero => "İşlem tutarı sıfır olamaz."
    case DateRequired => "İşlem tarihi boş olamaz."
    case DateTooLate => "İşlem tarihi gelecekten çok ileride olamaz."
    case NotesTooLong => "Notlar en fazla 500 karakter olabilir."
  }

  const TransactionRules := [AccountIdInvalid, CategoryIdInvalid, AmountZero, DateRequired, DateTooLate, NotesTooLong]

  lemma TransactionRulesComplete()
    ensures forall r: TransactionRule :: r in TransactionRules
  {
    forall r: TransactionRule ensures r in TransactionRules {
      var k := match r
        case AccountIdInvalid => 0 case CategoryIdInvalid => 1 case AmountZero => 2
        case DateRequired => 3 case DateTooLate => 4 case NotesTooLong => 5;
      assert TransactionRules[k] == r;
    }
  }

  /** A transaction the service may record: both ids, a non-zero amount, a set date at most a day ahead. */
  predicate TransactionAcceptable(d: CreateTransactionDto, now: Ticks)
  {
    d.accountId > 0 && d.categoryId > 0 && d.amount != 0
    && d.transactionDate != 0 && d.transactionDate <= AddDays(now, 1) && MaxLength(d.notes, 500)
  }

  predicate TransactionBreaks(d: CreateTransactionDto, now: Ticks, r: TransactionRule)
  {
    match r
    case AccountIdInvalid => d.accountId <= 0
    case CategoryIdInvalid => d.categoryId <= 0
    case AmountZero => d.amount == 0
    case DateRequired => d.transactionDate == 0
    case DateTooLate => d.transactionDate > AddDays(now, 1)
    case NotesTooLong => !MaxLength(d.notes, 500)
  }

  function TransactionFailures(d: CreateTransactionDto, now: Ticks): (f: seq<TransactionRule>)
    ensures forall r {:trigger r in f} :: r in f <==> TransactionBreaks(d, now, r)
    ensures |f| <= 6
  {
    TransactionRulesComplete();
    Failed(TransactionRules, r => TransactionBreaks(d, now, r))
  }

  lemma TransactionAccepts(d: CreateTransactionDto, now: Ticks)
    ensures TransactionFailures(d, now) == [] <==> TransactionAcceptable(d, now)
  {
    var f := TransactionFailures(d, now);
    if f != [] {
      assert f[0] in f;
    } else {
      assert AccountIdInvalid !in f && CategoryIdInvalid !in f;
      assert AmountZero !in f && DateRequired !in f;
      assert DateTooLate !in f && NotesTooLong !in f;
    }
  }

  function TransactionErrors(d: CreateTransactionDto, now: Ticks): (errs: seq<string>)
    ensures errs == [] <==> TransactionAcceptable(d, now)
    ensures |errs| == |TransactionFailures(d, now)|
  {
    TransactionAccepts(d, now);
    Messages(TransactionFailures(d, now), TransactionMessage)
  }

  /** The sign of the amount is free: a request breaks exactly the rules its negation breaks. */
  lemma TransactionSignIsFree(d: CreateTransactionDto, now: Ticks, r: TransactionRule)
    ensures r in TransactionFailures(d, now) <==> r in TransactionFailures(d.(amount := -d.amount), now)
  {
  }
}
