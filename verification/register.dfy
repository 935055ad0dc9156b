/**
 * The registration screen: four inputs, each checked by its own rule, the
 * e-mail against the pattern `^[^\s@]+@[^\s@]+\.[^\s@]+$`, and a request
 * to the authentication service only when every rule passes.
 */
module Register {
  import opened Common
  import opened JsStrings
  import opened Auth

  const NameRequiredMsg := "Имя обязательно"
  const EmailRequiredMsg := "Email обязателен"
  const EmailInvalidMsg := "Некорректный email"
  const PasswordRequiredMsg := "Пароль обязателен"
  const PasswordTooShortMsg := "Пароль должен содержать минимум 6 символов"
  const ConfirmRequiredMsg := "Подтверждение пароля обязательно"
  const MismatchMsg := "Пароли не совпадают"
  const RegisteredNotice := "Регистрация прошла успешно!"

  datatype RegisterData = RegisterData(name: string, email: string, password: string, confirmPassword: string)

  /** One message per input; "" means the input passed. */
  datatype RegisterErrors = RegisterErrors(name: string, email: string, password: string, confirmPassword: string)

  datatype RegisterInput = NameInput | EmailInput | PasswordInput | ConfirmInput

  const EmptyRegisterData := RegisterData("", "", "", "")
  const NoRegisterErrors := RegisterErrors("", "", "", "")

  /** The value an input holds. */
  function InputOf(data: RegisterData, input: RegisterInput): string {
    match input
    case NameInput => data.name
    case EmailInput => data.email
    case PasswordInput => data.password
    case ConfirmInput => data.confirmPassword
  }

  /** `handleChange`: the named input takes the typed value, the others stay. */
  function WithInput(data: RegisterData, input: RegisterInput, value: string): (r: RegisterData)
    ensures InputOf(r, input) == value
    ensures forall other :: other != input ==> InputOf(r, other) == InputOf(data, other)
  {
    match input
    case NameInput => data.(name := value)
    case EmailInput => data.(email := value)
    case PasswordInput => data.(password := value)
    case ConfirmInput => data.(confirmPassword := value)
  }

  // ---------------------------------------------------------------- e-mail pattern

  /** The class `[^\s@]+` without the `+`: no whitespace and no `@`. */
  predicate Clean(t: string) {
    forall k :: 0 <= k < |t| ==> !IsWhitespace(t[k]) && t[k] != '@'
  }

  /** `s` reads as `a@b.c` with three non-empty clean parts. */
  ghost predicate SplitsAs(s: string, a: string, b: string, c: string) {
    && s == a + "@" + b + "." + c
    && |a| > 0 && |b| > 0 && |c| > 0
    && Clean(a) && Clean(b) && Clean(c)
  }

  /** The regular expression, read as the language it denotes. */
  ghost predicate EmailPattern(s: string) {
    exists a, b, c :: SplitsAs(s, a, b, c)
  }

  /** A dot strictly inside `t`, with something on both sides. */
  predicate InnerDot(t: string) {
    exists j :: 0 < j < |t| - 1 && t[j] == '.'
  }

  /**
   * `regex.test(email)` as a scan: no whitespace anywhere, a first `@` that
   * is not at the start, no further `@`, and a dot inside what follows it.
   */
  function IsEmail(s: string): (ok: bool)
    ensures ok ==> NoWhitespace(s) && |s| >= 5 && s[0] != '@' && s[|s| - 1] != '@'
  {
    var i := FirstIndex(s, '@');
    && NoWhitespace(s)
    && 0 < i < |s|
    && (forall m :: i < m < |s| ==> s[m] != '@')
    && InnerDot(s[i + 1..])
  }

  /** The scan accepts exactly the strings the pattern matches. */
  lemma IsEmailMatchesPattern(s: string)
    ensures IsEmail(s) <==> EmailPattern(s)
  {
    if IsEmail(s) {
      ScanMatchesPattern(s);
    }
    if EmailPattern(s) {
      PatternPassesScan(s);
    }
  }

  /** What the scan accepts splits as the pattern's three parts. */
  lemma ScanMatchesPattern(s: string)
    requires IsEmail(s)
    ensures EmailPattern(s)
  {
    var i := FirstIndex(s, '@');
    var t := s[i + 1..];
    var j :| 0 < j < |t| - 1 && t[j] == '.';
    var a, b, c := s[..i], t[..j], t[j + 1..];
    assert s == a + "@" + b + "." + c by {
      assert t == b + "." + c;
      assert s == s[..i] + [s[i]] + t;
    }
    assert Clean(b) by {
      forall k | 0 <= k < |b| ensures !IsWhitespace(b[k]) && b[k] != '@' {
        assert b[k] == s[i + 1 + k];
      }
    }
    assert Clean(c) by {
      forall k | 0 <= k < |c| ensures !IsWhitespace(c[k]) && c[k] != '@' {
        assert c[k] == s[i + 1 + j + 1 + k];
      }
    }
    assert SplitsAs(s, a, b, c);
  }

  /** What the pattern matches passes the scan. */
  lemma PatternPassesScan(s: string)
    requires EmailPattern(s)
    ensures IsEmail(s)
  {
    var a, b, c :| SplitsAs(s, a, b, c);
    var i := |a|;
    var j := |a| + 1 + |b|;
    assert s[i] == '@' && s[j] == '.';
    forall m | 0 <= m < |s| ensures !IsWhitespace(s[m]) && (m != i ==> s[m] != '@') {
      if m < i {
        assert s[m] == a[m];
      } else if i < m < j {
        assert s[m] == b[m - i - 1];
      } else if j < m {
        assert s[m] == c[m - j - 1];
      }
    }
    assert FirstIndex(s, '@') == i;
    assert s[i + 1..][j - i - 1] == '.';
  }

  // ---------------------------------------------------------------- validation

  /** `validateForm`'s error object: every message starts out "" and each rule fills its own. */
  function RegisterErrorsOf(data: RegisterData): (e: RegisterErrors)
    ensures e.name == "" <==> data.name != ""
    ensures e.name == NameRequiredMsg <==> data.name == ""
    ensures e.email == "" <==> IsEmail(data.email)
    ensures e.email == EmailRequiredMsg <==> data.email == ""
    ensures e.email == EmailInvalidMsg <==> data.email != "" && !IsEmail(data.email)
    ensures e.password == "" <==> |data.password| >= 6
    ensures e.password == PasswordRequiredMsg <==> data.password == ""
    ensures e.password == PasswordTooShortMsg <==> 0 < |data.password| < 6
    ensures e.confirmPassword == "" <==> data.confirmPassword != "" && data.confirmPassword == data.password
    ensures e.confirmPassword == ConfirmRequiredMsg <==> data.confirmPassword == ""
    ensures e.confirmPassword == MismatchMsg <==> data.confirmPassword != "" && data.confirmPassword != data.password
  {
    RegisterErrors(
      if data.name == "" then NameRequiredMsg else "",
      if data.email == "" then EmailRequiredMsg else if !IsEmail(data.email) then EmailInvalidMsg else "",
      if data.password == "" then PasswordRequiredMsg else if |data.password| < 6 then PasswordTooShortMsg else "",
      if data.confirmPassword == "" then ConfirmRequiredMsg
      else if data.password != data.confirmPassword then MismatchMsg else "")
  }

  /** No input has a message. */
  predicate NoErrors(e: RegisterErrors) {
    e.name == "" && e.email == "" && e.password == "" && e.confirmPassword == ""
  }

  /**
   * A registration passes exactly when the name is non-empty (spaces
   * count), the e-mail matches the pattern, the password has six or more
   * characters and the confirmation repeats it.
   */
  lemma RegisterValidIff(data: RegisterData)
    ensures NoErrors(RegisterErrorsOf(data)) <==>
      data.name != "" && EmailPattern(data.email) && |data.password| >= 6 && data.confirmPassword == data.password
  {
    IsEmailMatchesPattern(data.email);
  }

  /** `validateForm`, rule after rule, with the flag dropping at any failure. */
  method ComputeRegisterErrors(data: RegisterData) returns (newErrors: RegisterErrors, isValid: bool)
    ensures newErrors == RegisterErrorsOf(data)
    ensures isValid <==> NoErrors(newErrors)
  {
    newErrors := NoRegisterErrors;
    isValid := true;
    if data.name == "" {
      newErrors := newErrors.(name := NameRequiredMsg);
      isValid := false;
    }
    if data.email == "" {
      newErrors := newErrors.(email := EmailRequiredMsg);
      isValid := false;
    } else if !IsEmail(data.email) {
      newErrors := newErrors.(email := EmailInvalidMsg);
      isValid := false;
    }
    if data.password == "" {
      newErrors := newErrors.(password := PasswordRequiredMsg);
      isValid := false;
    } else if |data.password| < 6 {
      newErrors := newErrors.(password := PasswordTooShortMsg);
      isValid := false;
    }
    if data.confirmPassword == "" {
      newErrors := newErrors.(confirmPassword := ConfirmRequiredMsg);
      isValid := false;
    } else if data.password != data.confirmPassword {
      newErrors := newErrors.(confirmPassword := MismatchMsg);
      isValid := false;
    }
  }

  /** What `register(email, name, password)` is called with. */
  datatype RegisterRequest = RegisterRequest(email: string, name: string, password: string)

  class RegisterForm {
    var formData: RegisterData
    var errors: RegisterErrors
    var serverError: string

    constructor ()
      ensures formData == EmptyRegisterData && errors == NoRegisterErrors && serverError == ""
    {
      formData := EmptyRegisterData;
      errors := NoRegisterErrors;
      serverError := "";
    }

    /** `handleChange`: only the form changes; messages stay until the next submit. */
    method HandleChange(input: RegisterInput, value: string)
      modifies this`formData
      ensures formData == WithInput(old(formData), input, value)
    {
      formData := WithInput(formData, input, value);
    }

    /** `validateForm`: the error object is replaced as a whole. */
    method ValidateForm() returns (isValid: bool)
      modifies this`errors
      ensures errors == RegisterErrorsOf(formData)
      ensures isValid <==> NoErrors(errors)
    {
      errors, isValid := ComputeRegisterErrors(formData);
    }

    /**
     * `handleSubmit`: the service (whose answer is `outcome`) is called only
     * for a valid form; a success raises the notice, a failure the server
     * error text.
     */
    method HandleSubmit(outcome: AuthOutcome) returns (request: Option<RegisterRequest>, notice: Option<string>)
      modifies this`errors, this`serverError
      ensures errors == RegisterErrorsOf(formData)
      ensures request.Some? <==> NoErrors(errors)
      ensures request.Some? ==> request.value == RegisterRequest(formData.email, formData.name, formData.password)
      ensures request.Some? ==> EmailPattern(request.value.email) && |request.value.password| >= 6
      ensures notice == if request.Some? && outcome.Succeeded? then Some(RegisteredNotice) else None
      ensures serverError == if request.Some? && outcome.Failed? then ServerErrorText(outcome.error) else ""
    {
      serverError := "";
      request, notice := None, None;
      var isValid := ValidateForm();
      if isValid {
        RegisterValidIff(formData);
        request := Some(RegisterRequest(formData.email, formData.name, formData.password));
        match outcome {
          case Succeeded =>
            notice := Some(RegisteredNotice);
          case Failed(error) =>
            serverError := ServerErrorText(error);
        }
      }
    }
  }
}
