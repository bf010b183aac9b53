/** The alert state the login and sign-up screens keep for their
    `CustomAlert` (mobile/app/login.tsx and mobile/app/signup.tsx): whether
    it shows, its title, its message and its kind. The message is a JSON
    value because a server's `detail` is shown as it came. */
module ScreenAlert {
  import opened Common
  import opened Models
  import opened Api

  datatype AlertKind = Success | Error | Warning | Info

  datatype Alert = Alert(visible: bool, title: string, message: Json, kind: AlertKind)

  /** The initial state: hidden, empty, of kind "info". */
  const Hidden: Alert := Alert(false, "", JStr(""), Info)

  const MissingInformation: string := "Missing Information"

  /** `err?.response?.data?.detail || fallback`: the server's detail when it
      is truthy, and otherwise the screen's own text. */
  function FailureMessage(response: Option<ErrorResponse>, fallback: string): (m: Json)
    ensures TruthyDetail(response).Some? ==> m == TruthyDetail(response).value && JsTruthy(m)
    ensures TruthyDetail(response).None? ==> m == JStr(fallback)
  {
    match TruthyDetail(response)
    case Some(d) => d
    case None => JStr(fallback)
  }

  /** The alert a failed submission shows under `title`. */
  function FailureAlert(title: string, fallback: string, response: Option<ErrorResponse>): (a: Alert)
    ensures a.visible && a.title == title && a.kind == Error
    ensures a.message == FailureMessage(response, fallback)
  {
    Alert(true, title, FailureMessage(response, fallback), Error)
  }

  /** What posting the credentials gave: the `access_token` of the
      response, or an error with the server's response, if any. */
  datatype TokenOutcome = Issued(accessToken: string) | Refused(response: Option<ErrorResponse>)
}
