/** The root screen of the mobile client (mobile/app/index.tsx): a spinner
    while the session loads, then a redirect chosen by the token. */
module IndexRoute {
  import opened Common

  datatype RootView = Spinner | RedirectHome | RedirectWelcome

  const HomeRoute: string := "/(authenticated)/home"
  const WelcomeRoute: string := "/welcome"

  /** `Index()`. */
  function Index(isLoading: bool, token: Option<string>): (v: RootView)
    ensures v.Spinner? <==> isLoading
    ensures v.RedirectHome? <==> !isLoading && TruthyStr(token)
    ensures v.RedirectWelcome? <==> !isLoading && !TruthyStr(token)
  {
    if isLoading then Spinner
    else if TruthyStr(token) then RedirectHome
    else RedirectWelcome
  }

  function Href(v: RootView): string
    requires !v.Spinner?
  {
    if v.RedirectHome? then HomeRoute else WelcomeRoute
  }
}
