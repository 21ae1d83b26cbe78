// CreateAccountDtoValidator and UpdateAccountDtoValidator. The opening
// balance rule is `NotNull()` on a decimal that always has a value, so it
// never reports: any balance, negative included, is accepted.

module AccountValidators {
  import opened Wrappers
  import opened Entities
  import opened Fluent

  datatype CreateAccountDto = CreateAccountDto(name: Option<string>, accountType: int, currency: Option<string>, initialBalance: Money)
  datatype UpdateAccountDto = UpdateAccountDto(name: Option<string>)

  /** The rules of the account validators; an update uses the first two. */
  datatype AccountRule = NameRequired | NameTooLong | TypeInvalid | CurrencyRequired | CurrencyLength

  function AccountMessage(r: AccountRule): string
  {
    match r
    case NameRequired => "Hesap adı boş olamaz."
    case NameTooLong => "Hesap adı en fazla 100 karakter olabilir."
    case TypeInvalid => "Geçersiz hesap türü."
    case CurrencyRequired => "Para birimi boş olamaz."
    case CurrencyLength => "Para birimi kodu 3 karakter olmalıdır (örn: TRY)."
  }

  const CreateAccountRules := [NameRequired, NameTooLong, TypeInvalid, CurrencyRequired, CurrencyLength]
  const UpdateAccountRules := [NameRequired, NameTooLong]

  lemma CreateAccountRulesComplete()
    ensures forall r: AccountRule :: r in CreateAccountRules
  {
    forall r: AccountRule ensures r in CreateAccountRules {
      var k := match r
        case NameRequired => 0 case NameTooLong => 1 case TypeInvalid => 2 case CurrencyRequired => 3 case CurrencyLength => 4;
      assert CreateAccountRules[k] == r;
    }
  }

  /** An account the service may open: named, of a defined type, with a three-letter currency. */
  predicate CreateAccountAcceptable(d: CreateAccountDto)
  {
    NotEmptyText(d.name) && |d.name.value| <= 100 && IsAccountType(d.accountType)
    && NotEmptyText(d.currency) && |d.currency.value| == 3
  }

  predicate CreateAccountBreaks(d: CreateAccountDto, r: AccountRule)
  {
    match r
    case NameRequired => !NotEmptyText(d.name)
    case NameTooLong => !MaxLength(d.name, 100)
    case TypeInvalid => !IsAccountType(d.accountType)
    case CurrencyRequired => !NotEmptyText(d.currency)
    case CurrencyLength => !ExactLength(d.currency, 3)
  }

  function CreateAccountFailures(d: CreateAccountDto): (f: seq<AccountRule>)
    ensures forall r {:trigger r in f} :: r in f <==> CreateAccountBreaks(d, r)
    ensures |f| <= 5
  {
    CreateAccountRulesComplete();
    Failed(CreateAccountRules, r => CreateAccountBreaks(d, r))
  }

  lemma CreateAccountAccepts(d: CreateAccountDto)
    ensures CreateAccountFailures(d) == [] <==> CreateAccountAcceptable(d)
  {
    var f := CreateAccountFailures(d);
    if f != [] {
      assert f[0] in f;
    } else {
      assert NameRequired !in f && NameTooLong !in f && TypeInvalid !in f;
      assert CurrencyRequired !in f && CurrencyLength !in f;
    }
  }

  function CreateAccountErrors(d: CreateAccountDto): (errs: seq<string>)
    ensures errs == [] <==> CreateAccountAcceptable(d)
    ensures |errs| == |CreateAccountFailures(d)|
  {
    CreateAccountAccepts(d);
    Messages(CreateAccountFailures(d), AccountMessage)
  }

  /** Any opening balance is accepted, negative ones included (a credit card may start in debt). */
  lemma InitialBalanceUnchecked(d: CreateAccountDto, balance: Money, r: AccountRule)
    ensures r in CreateAccountFailures(d.(initialBalance := balance)) <==> r in CreateAccountFailures(d)
  {
  }

  predicate UpdateAccountAcceptable(d: UpdateAccountDto)
  {
    NotEmptyText(d.name) && |d.name.value| <= 100
  }

  predicate UpdateAccountBreaks(d: UpdateAccountDto, r: AccountRule)
  {
    match r
    case NameRequired => !NotEmptyText(d.name)
    case NameTooLong => !MaxLength(d.name, 100)
    case _ => false
  }

  function UpdateAccountFailures(d: UpdateAccountDto): (f: seq<AccountRule>)
    ensures forall r {:trigger r in f} :: r in f <==> UpdateAccountBreaks(d, r)
    ensures |f| <= 2
  {
    assert UpdateAccountRules[0] == NameRequired && UpdateAccountRules[1] == NameTooLong;
    Failed(UpdateAccountRules, r => UpdateAccountBreaks(d, r))
  }

  lemma UpdateAccountAccepts(d: UpdateAccountDto)
    ensures UpdateAccountFailures(d) == [] <==> UpdateAccountAcceptable(d)
  {
    var f := UpdateAccountFailures(d);
    if f != [] {
      assert f[0] in f;
    } else {
      assert NameRequired !in f && NameTooLong !in f;
    }
  }

  function UpdateAccountErrors(d: UpdateAccountDto): (errs: seq<string>)
    ensures errs == [] <==> UpdateAccountAcceptable(d)
    ensures |errs| == |UpdateAccountFailures(d)|
  {
    UpdateAccountAccepts(d);
    Messages(UpdateAccountFailures(d), AccountMessage)
  }

  /** A name accepted when an account is opened is accepted when it is renamed. */
  lemma CreatedNamePassesUpdate(d: CreateAccountDto)
    requires CreateAccountAcceptable(d)
    ensures UpdateAccountErrors(UpdateAccountDto(d.name)) == []
  {
  }
}
