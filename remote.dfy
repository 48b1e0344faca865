/**
 * The network as the components see it. Every `fetch` is replaced by the outcome it comes to,
 * which the caller of a model method supplies; HTTP itself and JSON decoding are not modelled.
 */
module Remote {
  import opened Wrappers
  import opened Text

  /** What a list request (`fetch`, then `response.text()` or `response.json()`) comes to. */
  datatype FetchOutcome<T> =
    | Fetched(data: T)                    // response.ok and the body decoded to the list
    | HttpError(status: nat, body: string) // !response.ok; `body` is `await response.text()`
    | FetchThrew(message: string)         // fetch rejected or the body did not decode; the error's message

  /** What a create, send, login or register request (`fetch`, then `response.json()`) comes to. */
  datatype PostOutcome =
    | Accepted(message: string)                              // response.ok; `data.message`, "" when absent
    | Rejected(status: nat, statusText: string, error: string) // !response.ok; `data.error`, "" when absent
    | PostThrew                                              // fetch rejected or the body was not JSON

  const UnknownError := "Unknown error"

  /** The message of the `Error` a list load throws on a non-ok response; it names the status. */
  function LoadFailureMessage(status: nat, body: string): (m: string)
    ensures Contains(m, Decimal(status))
    ensures Contains(m, if body == "" then UnknownError else body)
  {
    var lead := "HTTP error! status: ";
    var head := lead + Decimal(status) + ". Message: ";
    var m := head + OrElse(body, UnknownError);
    assert m[|lead|..] == Decimal(status) + ". Message: " + OrElse(body, UnknownError);
    ContainsAt(m, Decimal(status), |lead|);
    assert m[|head|..] == OrElse(body, UnknownError);
    ContainsAt(m, OrElse(body, UnknownError), |head|);
    m
  }

  /** `${prefix}${response.status} ${response.statusText}`, used when the server sent no `error`. */
  function StatusFallback(prefix: string, status: nat, statusText: string): (m: string)
    ensures |prefix| <= |m| && m[..|prefix|] == prefix
    ensures Contains(m, Decimal(status))
    ensures m != ""
  {
    var m := prefix + Decimal(status) + " " + statusText;
    assert m[|prefix|..] == Decimal(status) + " " + statusText;
    ContainsAt(m, Decimal(status), |prefix|);
    m
  }

  /** The fixed text shown when a create, send or register request throws. */
  const ConnectionFailed := "Не удалось подключиться к серверу. Попробуйте позже."

  /**
   * The text a failed request leaves for the user: the server's `error` when it sent one,
   * otherwise the status fallback; a thrown request gives the `connection` text.
   */
  function FailureText(outcome: PostOutcome, prefix: string, connection: string): (t: string)
    requires !outcome.Accepted?
    ensures outcome.Rejected? ==>
              t == (if outcome.error != "" then outcome.error
                    else StatusFallback(prefix, outcome.status, outcome.statusText))
    ensures outcome.PostThrew? ==> t == connection
    ensures connection != "" ==> t != ""
  {
    match outcome
    case Rejected(status, statusText, error) => OrElse(error, StatusFallback(prefix, status, statusText))
    case PostThrew => connection
  }

  /** The `{ type, text }` message of the create modals and of the post form. */
  datatype Notice = NoNotice | ErrorNotice(text: string) | SuccessNotice(text: string)

  /** A create or reply form as rendered: the message it shows, if any, and whether its button is disabled. */
  datatype FormView = FormView(notice: Notice, submitting: bool)

  /** Every notice the components set is either the cleared one or carries a text. */
  predicate WellFormed(n: Notice) {
    n.NoNotice? || n.text != ""
  }

  /** `message.text && <div>…</div>`: a notice is displayed exactly when its text is non-empty. */
  predicate Displayed(n: Notice) {
    !n.NoNotice? && n.text != ""
  }

  /**
   * A form as rendered: `message.text && <div>…</div>` shows the message only when it has a text,
   * and the submit button is disabled while the request runs.
   */
  function FormOf(message: Notice, busy: bool): (f: FormView)
    ensures Displayed(f.notice) <==> Displayed(message)
    ensures Displayed(f.notice) ==> f.notice == message
    ensures !Displayed(f.notice) ==> f.notice == NoNotice
    ensures WellFormed(message) ==> f.notice == message
    ensures f.submitting == busy
  {
    FormView(if Displayed(message) then message else NoNotice, busy)
  }

  /** `if (error)` on a nullable string: `null` and "" are false. */
  predicate Truthy(error: Option<string>) {
    error.Some? && error.value != ""
  }
}
