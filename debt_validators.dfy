// CreateDebtDtoValidator, UpdateDebtDtoValidator and
// CreateDebtPaymentDtoValidator. Amounts are Money; a `[Required] decimal`
// always has a value, so the `NotNull()` rule on the remaining amount never
// fires. A DateTime the client omits is `default(DateTime)`, tick 0, which
// `NotEmpty()` rejects; the `UtcNow` a validator reads when it is built (one
// validator per request) is `now`.

module DebtValidators {
  import opened Wrappers
  import opened Calendar
  import opened Entities
  import opened Fluent

  datatype CreateDebtDto = CreateDebtDto(name: Option<string>, lenderName: Option<string>, totalAmount: Money,
                                         remainingAmount: Money, currency: Option<string>)
  datatype UpdateDebtDto = UpdateDebtDto(name: Option<string>, lenderName: Option<string>)
  datatype CreateDebtPaymentDto = CreateDebtPaymentDto(debtId: int, amount: Money, paymentDate: Ticks, notes: Option<string>)

  /** The rules of the debt validators; an update uses the first three. */
  datatype DebtRule = NameRequired | NameTooLong | LenderNameTooLong | TotalNotPositive | RemainingNegative
    | RemainingAboveTotal | CurrencyRequired | CurrencyLength

  function DebtMessage(r: DebtRule): string
  {
    match r
    case NameRequired => "Borç adı boş olamaz."
    case NameTooLong => "Borç adı en fazla 150 karakter olabilir."
    case LenderNameTooLong => "Alacaklı adı en fazla 100 karakter olabilir."
    case TotalNotPositive => "Toplam borç tutarı sıfırdan büyük olmalıdır."
    case RemainingNegative => "Kalan bakiye negatif olamaz."
    case RemainingAboveTotal => "Kalan bakiye, toplam borç tutarından büyük olamaz."
    case CurrencyRequired => "Para birimi boş olamaz."
    case CurrencyLength => "Para birimi kodu 3 karakter olmalıdır."
  }

  const CreateDebtRules := [NameRequired, NameTooLong, LenderNameTooLong, TotalNotPositive, RemainingNegative,
                            RemainingAboveTotal, CurrencyRequired, CurrencyLength]
  const UpdateDebtRules := [NameRequired, NameTooLong, LenderNameTooLong]

  lemma CreateDebtRulesComplete()
    ensures forall r: DebtRule :: r in CreateDebtRules
  {
    forall r: DebtRule ensures r in CreateDebtRules {
      var k := match r
        case NameRequired => 0 case NameTooLong => 1 case LenderNameTooLong => 2 case TotalNotPositive => 3
        case RemainingNegative => 4 case RemainingAboveTotal => 5 case CurrencyRequired => 6 case CurrencyLength => 7;
      assert CreateDebtRules[k] == r;
    }
  }

  /** A debt the service may record: named, a positive total, and a remainder between zero and the total. */
  predicate CreateDebtAcceptable(d: CreateDebtDto)
  {
    NotEmptyText(d.name) && |d.name.value| <= 150 && MaxLength(d.lenderName, 100)
    && 0 <= d.remainingAmount <= d.totalAmount && 0 < d.totalAmount
    && NotEmptyText(d.currency) && |d.currency.value| == 3
  }

  /** The rules of `CreateDebtDtoValidator`; the comparison with the total runs only when the total is positive. */
  predicate CreateDebtBreaks(d: CreateDebtDto, r: DebtRule)
  {
    match r
    case NameRequired => !NotEmptyText(d.name)
    case NameTooLong => !MaxLength(d.name, 150)
    case LenderNameTooLong => !MaxLength(d.lenderName, 100)
    case TotalNotPositive => d.totalAmount <= 0
    case RemainingNegative => d.remainingAmount < 0
    case RemainingAboveTotal => d.totalAmount > 0 && d.remainingAmount > d.totalAmount
    case CurrencyRequired => !NotEmptyText(d.currency)
    case CurrencyLength => !ExactLength(d.currency, 3)
  }

  function CreateDebtFailures(d: CreateDebtDto): (f: seq<DebtRule>)
    ensures forall r {:trigger r in f} :: r in f <==> CreateDebtBreaks(d, r)
    ensures |f| <= 8
  {
    CreateDebtRulesComplete();
    Failed(CreateDebtRules, r => CreateDebtBreaks(d, r))
  }

  lemma CreateDebtAccepts(d: CreateDebtDto)
    ensures CreateDebtFailures(d) == [] <==> CreateDebtAcceptable(d)
  {
    var f := CreateDebtFailures(d);
    if f != [] {
      assert f[0] in f;
    } else {
      assert NameRequired !in f && NameTooLong !in f && TotalNotPositive !in f;
      assert RemainingNegative !in f && RemainingAboveTotal !in f;
      assert CurrencyRequired !in f && CurrencyLength !in f;
    }
  }

  function CreateDebtErrors(d: CreateDebtDto): (errs: seq<string>)
    ensures errs == [] <==> CreateDebtAcceptable(d)
    ensures |errs| == |CreateDebtFailures(d)|
  {
    CreateDebtAccepts(d);
    Messages(CreateDebtFailures(d), DebtMessage)
  }

  /**
   * The remainder-versus-total rule is switched off when the total is not
   * positive: such a request is reported for its total and never for the
   * comparison, however large the remainder.
   */
  lemma RemainingCheckedOnlyForPositiveTotal(d: CreateDebtDto)
    requires d.totalAmount <= 0 && d.remainingAmount > d.totalAmount
    ensures RemainingAboveTotal !in CreateDebtFailures(d) && TotalNotPositive in CreateDebtFailures(d)
  {
  }

  predicate UpdateDebtAcceptable(d: UpdateDebtDto)
  {
    NotEmptyText(d.name) && |d.name.value| <= 150 && MaxLength(d.lenderName, 100)
  }

  /** The rules of `UpdateDebtDtoValidator`: the name and lender rules of creation. */
  predicate UpdateDebtBreaks(d: UpdateDebtDto, r: DebtRule)
  {
    match r
    case NameRequired => !NotEmptyText(d.name)
    case NameTooLong => !MaxLength(d.name, 150)
    case LenderNameTooLong => !MaxLength(d.lenderName, 100)
    case _ => false
  }

  function UpdateDebtFailures(d: UpdateDebtDto): (f: seq<DebtRule>)
    ensures forall r {:trigger r in f} :: r in f <==> UpdateDebtBreaks(d, r)
    ensures |f| <= 3
  {
    assert UpdateDebtRules[0] == NameRequired && UpdateDebtRules[1] == NameTooLong && UpdateDebtRules[2] == LenderNameTooLong;
    Failed(UpdateDebtRules, r => UpdateDebtBreaks(d, r))
  }

  lemma UpdateDebtAccepts(d: UpdateDebtDto)
    ensures UpdateDebtFailures(d) == [] <==> UpdateDebtAcceptable(d)
  {
    var f := UpdateDebtFailures(d);
    if f != [] {
      assert f[0] in f;
    } else {
      assert NameRequired !in f && NameTooLong !in f && LenderNameTooLong !in f;
    }
  }

  function UpdateDebtErrors(d: UpdateDebtDto): (errs: seq<string>)
    ensures errs == [] <==> UpdateDebtAcceptable(d)
    ensures |errs| == |UpdateDebtFailures(d)|
  {
    UpdateDebtAccepts(d);
    Messages(UpdateDebtFailures(d), DebtMessage)
  }

  /** An update breaks exactly the name and lender rules that a creation with the same name and lender breaks. */
  lemma UpdateSharesCreateNameRules(u: UpdateDebtDto, c: CreateDebtDto, r: DebtRule)
    requires c.name == u.name && c.lenderName == u.lenderName
    requires r.NameRequired? || r.NameTooLong? || r.LenderNameTooLong?
    ensures r in UpdateDebtFailures(u) <==> r in CreateDebtFailures(c)
  {
  }

  datatype PaymentRule = DebtIdInvalid | AmountNotPositive | DateRequired | DateTooLate | NotesTooLong

  function PaymentMessage(r: PaymentRule): string
  {
    match r
    case DebtIdInvalid => "Geçerli bir borç ID'si belirtilmelidir."
    case AmountNotPositive => "Ödeme tutarı sıfırdan büyük olmalıdır."
    case DateRequired => "Ödeme tarihi boş olamaz."
    case DateTooLate => "Ödeme tarihi gelecekten çok ileride olamaz."
    case NotesTooLong => "Notlar en fazla 200 karakter olabilir."
  }

  const PaymentRules := [DebtIdInvalid, AmountNotPositive, DateRequired, DateTooLate, NotesTooLong]

  lemma PaymentRulesComplete()
    ensures forall r: PaymentRule :: r in PaymentRules
  {
    forall r: PaymentRule ensures r in PaymentRules {
      var k := match r
        case DebtIdInvalid => 0 case AmountNotPositive => 1 case DateRequired => 2 case DateTooLate => 3 case NotesTooLong => 4;
      assert PaymentRules[k] == r;
    }
  }

  /** A payment the service may record: a debt id, a positive amount, a set date at most a day ahead. */
  predicate PaymentAcceptable(d: CreateDebtPaymentDto, now: Ticks)
  {
    d.debtId > 0 && d.amount > 0 && d.paymentDate != 0 && d.paymentDate <= AddDays(now, 1) && MaxLength(d.notes, 200)
  }

  predicate PaymentBreaks(d: CreateDebtPaymentDto, now: Ticks, r: PaymentRule)
  {
    match r
    case DebtIdInvalid => d.debtId <= 0
    case AmountNotPositive => d.amount <= 0
    case DateRequired => d.paymentDate == 0
    case DateTooLate => d.paymentDate > AddDays(now, 1)
    case NotesTooLong => !MaxLength(d.notes, 200)
  }

  function PaymentFailures(d: CreateDebtPaymentDto, now: Ticks): (f: seq<PaymentRule>)
    ensures forall r {:trigger r in f} :: r in f <==> PaymentBreaks(d, now, r)
    ensures |f| <= 5
  {
    PaymentRulesComplete();
    Failed(PaymentRules, r => PaymentBreaks(d, now, r))
  }

  lemma PaymentAccepts(d: CreateDebtPaymentDto, now: Ticks)
    ensures PaymentFailures(d, now) == [] <==> PaymentAcceptable(d, now)
  {
    var f := PaymentFailures(d, now);
    if f != [] {
      assert f[0] in f;
    } else {
      assert DebtIdInvalid !in f && AmountNotPositive !in f;
      assert DateRequired !in f && DateTooLate !in f && NotesTooLong !in f;
    }
  }

  function PaymentErrors(d: CreateDebtPaymentDto, now: Ticks): (errs: seq<string>)
    ensures errs == [] <==> PaymentAcceptable(d, now)
    ensures |errs| == |PaymentFailures(d, now)|
  {
    PaymentAccepts(d, now);
    Messages(PaymentFailures(d, now), PaymentMessage)
  }

  /** The one-day allowance: a payment dated exactly a day ahead passes, one tick later it breaks the date rule alone. */
  lemma PaymentDateAllowance(debtId: int, amount: Money, now: Ticks)
    requires debtId > 0 && amount > 0 && now >= 0
    ensures PaymentFailures(CreateDebtPaymentDto(debtId, amount, now + TicksPerDay, None), now) == []
    ensures PaymentFailures(CreateDebtPaymentDto(debtId, amount, now + TicksPerDay + 1, None), now) == [DateTooLate]
  {
    var late := PaymentFailures(CreateDebtPaymentDto(debtId, amount, now + TicksPerDay + 1, None), now);
    PaymentAccepts(CreateDebtPaymentDto(debtId, amount, now + TicksPerDay, None), now);
    assert DateTooLate in late;
    assert forall k :: 0 <= k < |late| ==> late[k] == DateTooLate by {
      forall k | 0 <= k < |late| ensures late[k] == DateTooLate {
        assert late[k] in late;
      }
    }
  }
}
