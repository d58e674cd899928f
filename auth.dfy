/** The session store (`AuthProvider` and `useAuth` in
    src/contexts/AuthContext.tsx): a single token slot in component state,
    mirrored into the browser storage entry `'token'`. Each operation
    writes storage first and then the state token, as the source does. */
module Auth {
  import opened Wrappers
  import opened Browser
  import Api

  const UseAuthError: string := "useAuth must be used within an AuthProvider"

  /** The value the provider publishes to its consumers (the three
      operations, which are closures in the source, are left out). */
  datatype ContextValue = ContextValue(isAuthenticated: bool, token: Option<string>)

  /** `useAuth()`: the provider's value, or the error thrown outside one. */
  function UseAuth(context: Option<ContextValue>): (r: Result<ContextValue, string>)
    ensures r.Failure? <==> context.None?
    ensures r.Success? ==> r.value == context.value
    ensures r.Failure? ==> r.error == UseAuthError
  {
    match context
    case None => Failure(UseAuthError)
    case Some(value) => Success(value)
  }

  class AuthProvider {
    /** The `token` state slot. */
    var token: Option<string>
    /** The `localStorage` the provider persists the token into. */
    const storage: LocalStorage

    /** First render: `useState<string | null>(null)`. */
    constructor (storage: LocalStorage)
      ensures this.storage == storage
      ensures token == None
      ensures !IsAuthenticated()
    {
      this.storage := storage;
      token := None;
    }

    /** `isAuthenticated: !!token`. */
    function IsAuthenticated(): (b: bool)
      reads this
      ensures b <==> token.Some? && token.value != ""
    {
      Truthy(token)
    }

    /** The provider's published value. */
    function Value(): (v: ContextValue)
      reads this
      ensures v.token == token
      ensures v.isAuthenticated <==> Truthy(token)
    {
      ContextValue(IsAuthenticated(), token)
    }

    /** The mount effect: adopt the stored token only when it is truthy. */
    method Mount()
      modifies this
      ensures storage.items == old(storage.items)
      ensures Truthy(storage.Get(TokenKey)) ==> token == storage.Get(TokenKey)
      ensures !Truthy(storage.Get(TokenKey)) ==> token == old(token)
      ensures IsAuthenticated() <==> Truthy(storage.Get(TokenKey)) || old(IsAuthenticated())
    {
      var storedToken := storage.GetItem(TokenKey);
      if Truthy(storedToken) {
        token := storedToken;
      }
    }

    /** `login(email, password)`: a failure of the API call propagates and
        neither storage nor state changes. */
    method Login(email: string, password: string, fetch: Api.Request -> Api.Reply<Api.AuthResponse>)
      returns (o: Outcome<string>)
      modifies this, storage
      ensures var response := Api.LoginResult(email, password, fetch);
        match response
        case Success(auth) =>
          o == Pass && token == Some(auth.access_token)
          && storage.items == old(storage.items)[TokenKey := auth.access_token]
        case Failure(message) =>
          o == Fail(message) && token == old(token) && storage.items == old(storage.items)
    {
      var response := Api.Login(email, password, fetch);
      match response
      case Failure(message) =>
        o := Fail(message);
      case Success(auth) =>
        storage.SetItem(TokenKey, auth.access_token);
        token := Some(auth.access_token);
        o := Pass;
    }

    /** `signup(email, password)`: same contract as `login`, via `/auth/signup`. */
    method Signup(email: string, password: string, fetch: Api.Request -> Api.Reply<Api.AuthResponse>)
      returns (o: Outcome<string>)
      modifies this, storage
      ensures var response := Api.SignupResult(email, password, fetch);
        match response
        case Success(auth) =>
          o == Pass && token == Some(auth.access_token)
          && storage.items == old(storage.items)[TokenKey := auth.access_token]
        case Failure(message) =>
          o == Fail(message) && token == old(token) && storage.items == old(storage.items)
    {
      var response := Api.Signup(email, password, fetch);
      match response
      case Failure(message) =>
        o := Fail(message);
      case Success(auth) =>
        storage.SetItem(TokenKey, auth.access_token);
        token := Some(auth.access_token);
        o := Pass;
    }

    /** `logout()`: from any state, no stored token and no state token. */
    method Logout()
      modifies this, storage
      ensures token == None && !IsAuthenticated()
      ensures storage.items == old(storage.items) - {TokenKey}
      ensures storage.Get(TokenKey) == None
    {
      storage.RemoveItem(TokenKey);
      token := None;
    }
  }

  /** Logging out twice leaves the same state as logging out once. */
  method LogoutTwice(provider: AuthProvider)
    modifies provider, provider.storage
    ensures provider.token == None
    ensures provider.storage.items == old(provider.storage.items) - {TokenKey}
  {
    provider.Logout();
    ghost var once := provider.storage.items;
    provider.Logout();
    assert provider.storage.items == once;
  }

  /** A successful log-in with a non-empty token authenticates, and storage
      then holds that token exactly; a later mount (a reload) restores it. */
  method LoginThenReload(storage: LocalStorage, email: string, password: string,
                         fetch: Api.Request -> Api.Reply<Api.AuthResponse>)
    returns (before: AuthProvider, after: AuthProvider)
    requires Api.LoginResult(email, password, fetch).Success?
    requires Api.LoginResult(email, password, fetch).value.access_token != ""
    modifies storage
    ensures before.IsAuthenticated() && after.IsAuthenticated()
    ensures after.token == before.token == Some(Api.LoginResult(email, password, fetch).value.access_token)
  {
    before := new AuthProvider(storage);
    var o := before.Login(email, password, fetch);
    after := new AuthProvider(storage);
    after.Mount();
  }
}
