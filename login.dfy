/** The login screen of the mobile client (mobile/app/login.tsx): the two
    text fields, the loading flag, the alert, and `handleLogin`, which
    checks the fields, posts them to "/auth/login", signs in with the token
    it gets and navigates home. The server's answer is a parameter, and so
    are the outcomes of the storage calls and of the profile fetch that
    `signIn` makes. */
module LoginScreen {
  import opened Common
  import opened Models
  import opened SecureStore
  import opened Api
  import opened AuthSession
  import opened ScreenAlert
  import IndexRoute
  import AuthRoutes

  const MissingFields: Alert := Alert(true, MissingInformation, JStr("Please fill in all fields"), Warning)
  const LoginFailed: string := "Login Failed"
  const InvalidCredentials: string := "Invalid credentials. Please try again."

  /** The body posted to "/auth/login": the email goes under `username`. */
  datatype LoginRequest = LoginRequest(username: string, password: string)

  class Login {
    var email: string
    var password: string
    var loading: bool
    var alert: Alert
    /** The route of the last `router.replace`, if any. */
    var route: Option<string>

    constructor()
      ensures email == "" && password == "" && !loading && alert == Hidden && route == None
    {
      email := "";
      password := "";
      loading := false;
      alert := Hidden;
      route := None;
    }

    method TypeEmail(text: string)
      modifies this
      ensures email == text && password == old(password) && loading == old(loading)
      ensures alert == old(alert) && route == old(route)
    {
      email := text;
    }

    method TypePassword(text: string)
      modifies this
      ensures password == text && email == old(email) && loading == old(loading)
      ensures alert == old(alert) && route == old(route)
    {
      password := text;
    }

    /** `handleLogin`. With a field empty it only shows the "Missing
        Information" warning: nothing is sent and loading is untouched.
        Otherwise `{username: email, password}` is sent (`sent`); a token
        leads to `signIn` and, when `signIn` returns, to the home route, even
        if the profile fetch inside it failed and signed out again; a
        refusal, or a `signIn` that throws, shows "Login Failed" and leaves
        the route. Loading is off after every attempt that got past the
        check. */
    method HandleLogin(outcome: TokenOutcome, session: Session, client: Client, store: Store,
                       writeFails: bool, fetched: Option<Json>, deleteFails: bool)
      returns (sent: Option<LoginRequest>)
      requires session.Valid(client, store)
      modifies this, session, client, store
      ensures session.Valid(client, store)
      ensures email == old(email) && password == old(password)
      ensures old(email) == "" || old(password) == "" ==>
        && sent == None && alert == MissingFields && loading == old(loading) && route == old(route)
        && unchanged(session, client, store)
      ensures !(old(email) == "" || old(password) == "") ==>
        sent == Some(LoginRequest(old(email), old(password))) && !loading
      ensures !(old(email) == "" || old(password) == "") && outcome.Refused? ==>
        && alert == FailureAlert(LoginFailed, InvalidCredentials, outcome.response) && route == old(route)
        && unchanged(session, client, store)
      ensures !(old(email) == "" || old(password) == "") && outcome.Issued? && writeFails ==>
        alert == FailureAlert(LoginFailed, InvalidCredentials, None) && route == old(route)
      ensures !(old(email) == "" || old(password) == "") && outcome.Issued? && !writeFails ==>
        alert == old(alert) && route == Some(IndexRoute.HomeRoute)
      ensures !(old(email) == "" || old(password) == "") && outcome.Issued? ==>
        SignedIn(session, client, store, old(session.token), old(session.user), old(client.defaultAuthorization),
                 old(store.items), outcome.accessToken, writeFails, fetched, deleteFails)
    {
      if email == "" || password == "" {
        alert := MissingFields;
        return None;
      }
      loading := true;
      sent := Some(LoginRequest(email, password));
      match outcome {
        case Refused(response) =>
          alert := FailureAlert(LoginFailed, InvalidCredentials, response);
        case Issued(token) =>
          var thrown := session.SignIn(client, store, token, writeFails, fetched, deleteFails);
          if thrown {
            alert := FailureAlert(LoginFailed, InvalidCredentials, None);
          } else {
            route := Some(IndexRoute.HomeRoute);
          }
      }
      loading := false;
    }
  }

  /** The screen's check and the server's agree: a request the screen sends
      is never refused by the login route for a missing field, and the
      requests the screen holds back are exactly those the route would
      refuse for one. */
  lemma ScreenCheckMatchesRoute(users: seq<User>, email: string, password: string,
                                verify: (string, string) -> bool, now: int)
    ensures (email == "" || password == "") <==>
      AuthRoutes.Login(users, Some(email), Some(password), verify, now) == Err(AuthRoutes.CredentialsRequired)
  {
  }
}
