/** The top-level view selection (`AppContent` in src/App.tsx): the
    dashboard when authenticated, otherwise the log-in or the sign-up form
    as the `showLogin` flag says. The flag lives in `AppContent` and is
    changed only by the two forms' toggle links. */
module App {
  import opened Browser
  import Api
  import Auth

  datatype View = DashboardView | LoginView | SignupView

  /** The screen rendered for a session state and a `showLogin` flag. */
  function SelectView(isAuthenticated: bool, showLogin: bool): (v: View)
    ensures isAuthenticated ==> v == DashboardView
    ensures !isAuthenticated ==> (v == LoginView <==> showLogin)
    ensures !isAuthenticated ==> (v == SignupView <==> !showLogin)
    ensures v == DashboardView <==> isAuthenticated
  {
    if isAuthenticated then DashboardView
    else if showLogin then LoginView
    else SignupView
  }

  class AppContent {
    var showLogin: bool
    /** The session store the component reads through `useAuth()`. */
    const auth: Auth.AuthProvider

    /** `useState(true)`: the first unauthenticated screen is the log-in form. */
    constructor (auth: Auth.AuthProvider)
      ensures this.auth == auth && showLogin
      ensures !auth.IsAuthenticated() ==> CurrentView() == LoginView
    {
      this.auth := auth;
      showLogin := true;
    }

    /** What `AppContent` renders now. */
    function CurrentView(): (v: View)
      reads this, auth
      ensures v == DashboardView <==> auth.IsAuthenticated()
      ensures !auth.IsAuthenticated() ==> (v == LoginView <==> showLogin)
    {
      SelectView(auth.IsAuthenticated(), showLogin)
    }

    /** The log-in form's toggle: `setShowLogin(false)`. */
    method ToggleFromLogin()
      modifies this
      ensures !showLogin
      ensures old(CurrentView()) == LoginView ==> CurrentView() == SignupView
      ensures auth.IsAuthenticated() ==> CurrentView() == DashboardView
    {
      showLogin := false;
    }

    /** The sign-up form's toggle: `setShowLogin(true)`. */
    method ToggleFromSignup()
      modifies this
      ensures showLogin
      ensures old(CurrentView()) == SignupView ==> CurrentView() == LoginView
      ensures auth.IsAuthenticated() ==> CurrentView() == DashboardView
    {
      showLogin := true;
    }
  }

  /** Switching to the sign-up form, signing up and then logging out shows
      the sign-up form again: the session operations never touch `showLogin`. */
  method SignupThenLogout(email: string, password: string, fetch: Api.Request -> Api.Reply<Api.AuthResponse>)
    returns (signedIn: View, signedOut: View)
    requires Api.SignupResult(email, password, fetch).Success?
    requires Api.SignupResult(email, password, fetch).value.access_token != ""
    ensures signedIn == DashboardView
    ensures signedOut == SignupView
  {
    var storage := new LocalStorage(map[]);
    var auth := new Auth.AuthProvider(storage);
    var app := new AppContent(auth);
    app.ToggleFromLogin();
    var o := auth.Signup(email, password, fetch);
    signedIn := app.CurrentView();
    auth.Logout();
    signedOut := app.CurrentView();
  }

  /** After logging in with a token, the next prediction request carries
      that token as a bearer credential, read from storage at call time. */
  method LoginThenPredict(email: string, password: string, file: Api.File,
                          authFetch: Api.Request -> Api.Reply<Api.AuthResponse>)
    returns (header: string)
    requires Api.LoginResult(email, password, authFetch).Success?
    requires Api.LoginResult(email, password, authFetch).value.access_token != ""
    ensures header == "Bearer " + Api.LoginResult(email, password, authFetch).value.access_token
  {
    var storage := new LocalStorage(map[]);
    var auth := new Auth.AuthProvider(storage);
    var o := auth.Login(email, password, authFetch);
    var request := Api.PredictRequest(storage.Get(TokenKey), file);
    header := request.headers["Authorization"];
  }

  /** Logging out sends the next prediction request without credentials. */
  method LogoutThenPredict(auth: Auth.AuthProvider, file: Api.File) returns (header: string)
    modifies auth, auth.storage
    ensures header == ""
  {
    auth.Logout();
    var request := Api.PredictRequest(auth.storage.Get(TokenKey), file);
    header := request.headers["Authorization"];
  }
}
