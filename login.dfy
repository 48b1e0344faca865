/**
 * The login form (frontend/src/Login.jsx). On success it only shows an alert: it stores no token
 * and reports nothing to the application.
 */
module Login {
  import opened Wrappers
  import opened Text
  import opened Remote

  const FieldsMissing := "Пожалуйста, заполните все поля."
  const LoggedIn := "Вход выполнен успешно!"
  const FailedPrefix := "Ошибка входа: "
  const LoginConnectionFailed := "Не удалось подключиться к серверу. Проверьте подключение и URL API."

  /** The JSON body of the request: both fields exactly as typed, the user name untrimmed. */
  datatype LoginRequest = LoginRequest(username: string, password: string)

  /**
   * The form's check `!username.trim() || !password` negated: the user name holds some character
   * that is not whitespace, and the password is not empty (a password of spaces is accepted).
   */
  function Complete(username: string, password: string): (ok: bool)
    ensures ok <==> (exists i :: 0 <= i < |username| && !IsWhitespace(username[i])) && password != ""
  {
    BlankIffAllWhitespace(username);
    !Blank(username) && password != ""
  }

  /** The form as rendered: the error line when there is an error, and the button's state. */
  datatype Screen = Form(errorLine: Option<string>, submitting: bool)

  function Render(error: string, isLoading: bool): (s: Screen)
    ensures s.errorLine.Some? <==> error != ""
    ensures s.errorLine.Some? ==> s.errorLine.value == error
    ensures s.submitting == isLoading
  {
    Form(if error != "" then Some(error) else None, isLoading)
  }

  class Component {
    var username: string
    var password: string
    var error: string
    var isLoading: bool

    /** While a request is pending no error is shown. */
    ghost predicate Valid()
      reads this
    {
      isLoading ==> error == ""
    }

    constructor ()
      ensures Valid() && username == "" && password == "" && error == "" && !isLoading
    {
      username, password, error := "", "", "";
      isLoading := false;
    }

    /**
     * `handleSubmit` up to its `await`: the error is cleared; incomplete fields then set the error
     * and send nothing, and otherwise the form is marked as loading and the request sent.
     */
    method Submit() returns (request: Option<LoginRequest>)
      requires Valid()
      modifies this`error, this`isLoading
      ensures Valid()
      ensures request.None? <==> !Complete(username, password)
      ensures request.None? ==> error == FieldsMissing && !isLoading
      ensures request.Some? ==> request == Some(LoginRequest(username, password)) && error == "" && isLoading
    {
      error := "";
      isLoading := true;
      if !Complete(username, password) {
        error := FieldsMissing;
        isLoading := false;
        return None;
      }
      request := Some(LoginRequest(username, password));
    }

    /**
     * `handleSubmit` after its `await`: success returns the alert's text (the server's message or
     * the default one) and leaves the form as it is; otherwise the error line is set. Loading ends.
     */
    method Finish(response: PostOutcome) returns (alert: Option<string>)
      requires Valid()
      modifies this`error, this`isLoading
      ensures Valid() && !isLoading
      ensures alert.Some? <==> response.Accepted?
      ensures response.Accepted? ==> alert == Some(OrElse(response.message, LoggedIn)) && error == old(error)
      ensures !response.Accepted? ==> error == FailureText(response, FailedPrefix, LoginConnectionFailed)
    {
      if response.Accepted? {
        alert := Some(OrElse(response.message, LoggedIn));
      } else {
        error := FailureText(response, FailedPrefix, LoginConnectionFailed);
        alert := None;
      }
      isLoading := false;
    }

    /** What the form renders; while a request is pending no error line is shown. */
    function Shown(): (s: Screen)
      reads this
      requires Valid()
      ensures isLoading ==> s.errorLine == None
    {
      Render(error, isLoading)
    }
  }
}
