// RegisterDtoValidator and LoginDtoValidator. A request field that may be
// missing from the JSON body is an Option. Each validator is the list of
// its rules, a predicate saying when a request breaks a rule, and the
// messages of the broken rules in declaration order.

module AuthValidators {
  import opened Wrappers
  import opened Text
  import opened Fluent

  datatype RegisterDto = RegisterDto(email: Option<string>, password: Option<string>, confirmPassword: Option<string>)
  datatype LoginDto = LoginDto(email: Option<string>, password: Option<string>)

  /** The rules of both validators; login uses the first three. */
  datatype AuthRule = EmailRequired | EmailInvalid | PasswordRequired | PasswordTooShort | ConfirmRequired | PasswordsDiffer

  function AuthMessage(r: AuthRule): string
  {
    match r
    case EmailRequired => "E-posta adresi boş olamaz."
    case EmailInvalid => "Geçerli bir e-posta adresi giriniz."
    case PasswordRequired => "Şifre boş olamaz."
    case PasswordTooShort => "Şifre en az 6 karakter uzunluğunda olmalıdır."
    case ConfirmRequired => "Şifre tekrarı boş olamaz."
    case PasswordsDiffer => "Şifreler eşleşmiyor."
  }

  /** The shortest password registration accepts. */
  const MinPasswordLength: nat := 6

  const RegisterRules := [EmailRequired, EmailInvalid, PasswordRequired, PasswordTooShort, ConfirmRequired, PasswordsDiffer]
  const LoginRules := [EmailRequired, EmailInvalid, PasswordRequired]

  lemma RegisterRulesComplete()
    ensures forall r: AuthRule :: r in RegisterRules
  {
    forall r: AuthRule ensures r in RegisterRules {
      var k := match r
        case EmailRequired => 0 case EmailInvalid => 1 case PasswordRequired => 2
        case PasswordTooShort => 3 case ConfirmRequired => 4 case PasswordsDiffer => 5;
      assert RegisterRules[k] == r;
    }
  }

  /** What a registration request must look like to pass, stated without the rule list. */
  predicate RegisterAcceptable(d: RegisterDto)
  {
    d.email.Some? && NotEmptyText(d.email) && IsEmailAddress(d.email)
    && d.password.Some? && NotEmptyText(d.password) && |d.password.value| >= MinPasswordLength
    && d.confirmPassword == d.password
  }

  /** The rules of `RegisterDtoValidator`: e-mail, password, then password confirmation. */
  predicate RegisterBreaks(d: RegisterDto, r: AuthRule)
  {
    match r
    case EmailRequired => !NotEmptyText(d.email)
    case EmailInvalid => !IsEmailAddress(d.email)
    case PasswordRequired => !NotEmptyText(d.password)
    case PasswordTooShort => !MinLength(d.password, MinPasswordLength)
    case ConfirmRequired => !NotEmptyText(d.confirmPassword)
    case PasswordsDiffer => d.confirmPassword != d.password
  }

  /** The rules a registration request breaks, in declaration order. */
  function RegisterFailures(d: RegisterDto): (f: seq<AuthRule>)
    ensures forall r {:trigger r in f} :: r in f <==> RegisterBreaks(d, r)
    ensures |f| <= 6
  {
    RegisterRulesComplete();
    Failed(RegisterRules, r => RegisterBreaks(d, r))
  }

  /** A registration request passes exactly when it is acceptable. */
  lemma RegisterAccepts(d: RegisterDto)
    ensures RegisterFailures(d) == [] <==> RegisterAcceptable(d)
  {
    var f := RegisterFailures(d);
    if f != [] {
      assert f[0] in f;
    } else {
      assert EmailRequired !in f && EmailInvalid !in f && PasswordRequired !in f;
      assert PasswordTooShort !in f && ConfirmRequired !in f && PasswordsDiffer !in f;
    }
  }

  /** The messages `RegisterDtoValidator` reports. */
  function RegisterErrors(d: RegisterDto): (errs: seq<string>)
    ensures errs == [] <==> RegisterAcceptable(d)
    ensures |errs| == |RegisterFailures(d)|
  {
    RegisterAccepts(d);
    Messages(RegisterFailures(d), AuthMessage)
  }

  /** What a login request must look like to pass: any length of password will do. */
  predicate LoginAcceptable(d: LoginDto)
  {
    d.email.Some? && NotEmptyText(d.email) && IsEmailAddress(d.email) && NotEmptyText(d.password)
  }

  /** The rules of `LoginDtoValidator`: the same e-mail rules, and only a non-empty password. */
  predicate LoginBreaks(d: LoginDto, r: AuthRule)
  {
    match r
    case EmailRequired => !NotEmptyText(d.email)
    case EmailInvalid => !IsEmailAddress(d.email)
    case PasswordRequired => !NotEmptyText(d.password)
    case _ => false
  }

  function LoginFailures(d: LoginDto): (f: seq<AuthRule>)
    ensures forall r {:trigger r in f} :: r in f <==> LoginBreaks(d, r)
    ensures PasswordTooShort !in f && |f| <= 3
  {
    assert LoginRules[0] == EmailRequired && LoginRules[1] == EmailInvalid && LoginRules[2] == PasswordRequired;
    Failed(LoginRules, r => LoginBreaks(d, r))
  }

  lemma LoginAccepts(d: LoginDto)
    ensures LoginFailures(d) == [] <==> LoginAcceptable(d)
  {
    var f := LoginFailures(d);
    if f != [] {
      assert f[0] in f;
    } else {
      assert EmailRequired !in f && EmailInvalid !in f && PasswordRequired !in f;
    }
  }

  /** The messages `LoginDtoValidator` reports. */
  function LoginErrors(d: LoginDto): (errs: seq<string>)
    ensures errs == [] <==> LoginAcceptable(d)
    ensures |errs| == |LoginFailures(d)|
  {
    LoginAccepts(d);
    Messages(LoginFailures(d), AuthMessage)
  }

  /** Credentials accepted at registration are accepted by the login validator. */
  lemma RegisteredCredentialsPassLogin(d: RegisterDto)
    requires RegisterErrors(d) == []
    ensures LoginErrors(LoginDto(d.email, d.password)) == []
  {
  }

  /** A missing address breaks only the "required" rule (the e-mail rule lets null through); an empty one breaks both. */
  lemma MissingVersusEmptyEmail(password: Option<string>)
    ensures var f := LoginFailures(LoginDto(None, password)); EmailRequired in f && EmailInvalid !in f
    ensures var f := LoginFailures(LoginDto(Some(""), password)); EmailRequired in f && EmailInvalid in f
  {
  }

  /** The login validator does not enforce the registration minimum: a one-character password passes it. */
  lemma ShortPasswordPassesLogin(email: string, c: char)
    requires !IsWhiteSpace(c) && LoginAcceptable(LoginDto(Some(email), Some("x")))
    ensures LoginErrors(LoginDto(Some(email), Some([c]))) == []
    ensures PasswordTooShort in RegisterFailures(RegisterDto(Some(email), Some([c]), Some([c])))
  {
    NotBlankWitness([c], 0);
  }
}
