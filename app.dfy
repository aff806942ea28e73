/**
 * `App.tsx`: the initial session check, the login and logout handlers, and
 * the route gate that picks a screen from the path and the session flag.
 */
module App {
  import ApiService

  /** What the router renders. */
  datatype Screen =
    | LoadingScreen
    | LoginScreen
    | RegisterScreen
    | DashboardScreen
    | Redirect(to: string)

  /**
   * The four routes: `/login` and `/register` show their forms only to a
   * signed-out user, `/` shows the dashboard only to a signed-in one, and
   * every redirect goes to `/` when signed in and `/login` otherwise.
   */
  function Route(path: string, authenticated: bool): (s: Screen)
    ensures s == DashboardScreen <==> path == "/" && authenticated
    ensures s == LoginScreen <==> path == "/login" && !authenticated
    ensures s == RegisterScreen <==> path == "/register" && !authenticated
    ensures s.Redirect? ==> s.to == (if authenticated then "/" else "/login")
    ensures s != LoadingScreen
  {
    if path == "/login" then
      if !authenticated then LoginScreen else Redirect("/")
    else if path == "/register" then
      if !authenticated then RegisterScreen else Redirect("/")
    else if path == "/" then
      if authenticated then DashboardScreen else Redirect("/login")
    else
      Redirect(if authenticated then "/" else "/login")
  }

  /** Following one redirect always lands on a page: the gate has no redirect chains or loops. */
  lemma RedirectSettles(path: string, authenticated: bool)
    requires Route(path, authenticated).Redirect?
    ensures !Route(Route(path, authenticated).to, authenticated).Redirect?
    ensures Route(Route(path, authenticated).to, authenticated)
      == (if authenticated then DashboardScreen else LoginScreen)
  {
  }

  /** The component's state: the session flag and whether the initial check is still pending. */
  class AppState {
    var isAuthenticated: bool
    var isLoading: bool

    constructor ()
      ensures !isAuthenticated && isLoading
    {
      isAuthenticated := false;
      isLoading := true;
    }

    /** What is on screen at `path`. */
    function Render(path: string): (s: Screen)
      reads this
      ensures isLoading ==> s == LoadingScreen
      ensures !isLoading ==> s == Route(path, isAuthenticated)
    {
      if isLoading then LoadingScreen else Route(path, isAuthenticated)
    }

    /** The mount effect: the flag becomes whether a non-empty token is stored, and loading ends. */
    method CheckAuthStatus(api: ApiService.Client)
      modifies this
      ensures isAuthenticated == api.IsAuthenticated() && !isLoading
    {
      var token := api.StoredToken();
      isAuthenticated := token.Some? && token.value != "";
      isLoading := false;
    }

    /** `handleLogin`, the `onLogin` the login form calls after a successful login. */
    method HandleLogin()
      modifies this`isAuthenticated
      ensures isAuthenticated
    {
      isAuthenticated := true;
    }

    /** `handleLogout`: clears the stored session and drops the flag. */
    method HandleLogout(api: ApiService.Client)
      modifies this`isAuthenticated, api
      ensures !isAuthenticated
      ensures api.storage == old(api.storage) - {ApiService.AUTH_TOKEN, ApiService.USER_NAME}
      ensures !api.IsAuthenticated()
    {
      api.Logout();
      isAuthenticated := false;
    }
  }
}
