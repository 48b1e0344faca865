/** The registration form (frontend/src/Register.jsx): two password checks, then the request. */
module Register {
  import opened Wrappers
  import opened Text
  import opened Remote

  const PasswordsDiffer := "Пароли не совпадают."
  const PasswordTooShort := "Пароль должен быть не менее 6 символов."
  const Registered := "Пользователь успешно зарегистрирован!"
  const FailedPrefix := "Ошибка регистрации: "
  const MinPasswordLength := 6

  /** The JSON body of the request; the confirmation is not sent. */
  datatype RegisterRequest = RegisterRequest(username: string, email: string, password: string)

  /**
   * The form's own checks, in order: the two passwords must be equal, then at least six UTF-16
   * units long. `None` means the request may be sent; user name and e-mail are not checked.
   */
  function PasswordProblem(password: string, confirmPassword: string): (r: Option<string>)
    ensures r.None? <==> password == confirmPassword && Utf16Length(password) >= MinPasswordLength
    ensures password != confirmPassword ==> r == Some(PasswordsDiffer)
    ensures password == confirmPassword && Utf16Length(password) < MinPasswordLength ==> r == Some(PasswordTooShort)
    ensures password == confirmPassword && |password| >= MinPasswordLength ==> r.None?
  {
    if password != confirmPassword then Some(PasswordsDiffer)
    else if Utf16Length(password) < MinPasswordLength then Some(PasswordTooShort)
    else None
  }

  /** The form as rendered: the error line, the success line, each when it has a text, and the button's state. */
  datatype Screen = Form(errorLine: Option<string>, successLine: Option<string>, submitting: bool)

  function Render(error: string, success: string, isLoading: bool): (s: Screen)
    ensures s.errorLine.Some? <==> error != ""
    ensures s.errorLine.Some? ==> s.errorLine.value == error
    ensures s.successLine.Some? <==> success != ""
    ensures s.successLine.Some? ==> s.successLine.value == success
    ensures s.submitting == isLoading
  {
    Form(if error != "" then Some(error) else None, if success != "" then Some(success) else None, isLoading)
  }

  class Component {
    var username: string
    var email: string
    var password: string
    var confirmPassword: string
    var error: string
    var success: string
    var isLoading: bool

    /** While a request is pending neither line is shown. */
    ghost predicate Valid()
      reads this
    {
      isLoading ==> error == "" && success == ""
    }

    constructor ()
      ensures Valid()
      ensures username == "" && email == "" && password == "" && confirmPassword == ""
      ensures error == "" && success == "" && !isLoading
    {
      username, email, password, confirmPassword := "", "", "", "";
      error, success := "", "";
      isLoading := false;
    }

    /**
     * `handleSubmit` up to its `await`: both lines are cleared; a failed check then sets the error
     * and sends nothing, and otherwise the form is marked as loading and the request sent.
     */
    method Submit() returns (request: Option<RegisterRequest>)
      requires Valid()
      modifies this`error, this`success, this`isLoading
      ensures Valid() && success == ""
      ensures request.None? <==> PasswordProblem(password, confirmPassword).Some?
      ensures request.None? ==> error == PasswordProblem(password, confirmPassword).value && !isLoading
      ensures request.Some? ==> request == Some(RegisterRequest(username, email, password)) && error == "" && isLoading
    {
      error := "";
      success := "";
      isLoading := true;
      var problem := PasswordProblem(password, confirmPassword);
      if problem.Some? {
        error := problem.value;
        isLoading := false;
        return None;
      }
      request := Some(RegisterRequest(username, email, password));
    }

    /**
     * `handleSubmit` after its `await`. Success shows the server's message (or the default one) and
     * clears the four inputs; otherwise the error line is set and the inputs kept. Loading ends.
     */
    method Finish(response: PostOutcome)
      requires Valid()
      modifies this`error, this`success, this`isLoading, this`username, this`email, this`password,
               this`confirmPassword
      ensures Valid() && !isLoading
      ensures response.Accepted? ==>
                && success == OrElse(response.message, Registered) && error == old(error)
                && username == "" && email == "" && password == "" && confirmPassword == ""
      ensures !response.Accepted? ==>
                && error == FailureText(response, FailedPrefix, ConnectionFailed) && success == old(success)
                && username == old(username) && email == old(email)
                && password == old(password) && confirmPassword == old(confirmPassword)
    {
      if response.Accepted? {
        success := OrElse(response.message, Registered);
        username, email, password, confirmPassword := "", "", "", "";
      } else {
        error := FailureText(response, FailedPrefix, ConnectionFailed);
      }
      isLoading := false;
    }

    /** What the form renders; while a request is pending neither line is shown. */
    function Shown(): (s: Screen)
      reads this
      requires Valid()
      ensures isLoading ==> s.errorLine == None && s.successLine == None
    {
      Render(error, success, isLoading)
    }
  }
}
