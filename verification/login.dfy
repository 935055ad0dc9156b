/**
 * The login screen: two inputs that are only required to be non-empty, and
 * a request to the authentication service when both are filled in.
 */
module Login {
  import opened Common
  import opened Auth

  const EmailRequiredMsg := "Email обязателен"
  const PasswordRequiredMsg := "Пароль обязателен"
  const LoggedInNotice := "Вход успешен!"

  datatype LoginData = LoginData(email: string, password: string)

  /** One message per input; "" means the input passed. */
  datatype LoginErrors = LoginErrors(email: string, password: string)

  datatype LoginInput = EmailInput | PasswordInput

  const EmptyLoginData := LoginData("", "")
  const NoLoginErrors := LoginErrors("", "")

  /** `handleChange`: the named input takes the typed value, the other stays. */
  function WithInput(data: LoginData, input: LoginInput, value: string): (r: LoginData)
    ensures input.EmailInput? ==> r == LoginData(value, data.password)
    ensures input.PasswordInput? ==> r == LoginData(data.email, value)
  {
    match input
    case EmailInput => data.(email := value)
    case PasswordInput => data.(password := value)
  }

  /**
   * `validateForm`'s error object, built from all-empty messages: only
   * emptiness is checked, the e-mail's format is not.
   */
  function LoginErrorsOf(data: LoginData): (e: LoginErrors)
    ensures e.email == "" <==> data.email != ""
    ensures e.email == EmailRequiredMsg <==> data.email == ""
    ensures e.password == "" <==> data.password != ""
    ensures e.password == PasswordRequiredMsg <==> data.password == ""
  {
    LoginErrors(
      if data.email == "" then EmailRequiredMsg else "",
      if data.password == "" then PasswordRequiredMsg else "")
  }

  /** No input has a message. */
  predicate NoErrors(e: LoginErrors) {
    e.email == "" && e.password == ""
  }

  /** `validateForm`, rule after rule, with the flag dropping at any failure. */
  method ComputeLoginErrors(data: LoginData) returns (newErrors: LoginErrors, isValid: bool)
    ensures newErrors == LoginErrorsOf(data)
    ensures isValid <==> data.email != "" && data.password != ""
  {
    newErrors := NoLoginErrors;
    isValid := true;
    if data.email == "" {
      newErrors := newErrors.(email := EmailRequiredMsg);
      isValid := false;
    }
    if data.password == "" {
      newErrors := newErrors.(password := PasswordRequiredMsg);
      isValid := false;
    }
  }

  /** What `login(email, password)` is called with. */
  datatype LoginRequest = LoginRequest(email: string, password: string)

  class LoginForm {
    var formData: LoginData
    var errors: LoginErrors
    var serverError: string

    constructor ()
      ensures formData == EmptyLoginData && errors == NoLoginErrors && serverError == ""
    {
      formData := EmptyLoginData;
      errors := NoLoginErrors;
      serverError := "";
    }

    /** `handleChange`: only the form changes; messages stay until the next submit. */
    method HandleChange(input: LoginInput, value: string)
      modifies this`formData
      ensures formData == WithInput(old(formData), input, value)
    {
      formData := WithInput(formData, input, value);
    }

    /** `validateForm`: the error object is replaced as a whole. */
    method ValidateForm() returns (isValid: bool)
      modifies this`errors
      ensures errors == LoginErrorsOf(formData)
      ensures isValid <==> NoErrors(errors)
    {
      errors, isValid := ComputeLoginErrors(formData);
    }

    /**
     * `handleSubmit`: the service (whose answer is `outcome`) is called only
     * when both inputs are filled in; a success raises the notice, a failure
     * the server error text.
     */
    method HandleSubmit(outcome: AuthOutcome) returns (request: Option<LoginRequest>, notice: Option<string>)
      modifies this`errors, this`serverError
      ensures errors == LoginErrorsOf(formData)
      ensures request.Some? <==> formData.email != "" && formData.password != ""
      ensures request.Some? ==> request.value == LoginRequest(formData.email, formData.password)
      ensures notice == if request.Some? && outcome.Succeeded? then Some(LoggedInNotice) else None
      ensures serverError == if request.Some? && outcome.Failed? then ServerErrorText(outcome.error) else ""
    {
      serverError := "";
      request, notice := None, None;
      var isValid := ValidateForm();
      if isValid {
        request := Some(LoginRequest(formData.email, formData.password));
        match outcome {
          case Succeeded =>
            notice := Some(LoggedInNotice);
          case Failed(error) =>
            serverError := ServerErrorText(error);
        }
      }
    }
  }
}
