/** `AuthService`: one token slot in the browser's `localStorage`, every access
    gated by the platform check, and the logged-in flag derived from it.
    HTTP results are inputs; navigation is recorded as a route. */
module Auth {
  import opened Common

  const TokenKey: string := "auth_token"
  const LoginRoute: string := "/login"

  datatype Credentials = Credentials(email: string, password: string)
  datatype LoginResponse = LoginResponse(token: string)
  datatype RegisterData = RegisterData(name: string, email: string, password: string)
  datatype RegisterResponse = RegisterResponse(message: string, userId: string)

  /** What the HTTP call delivers to its subscriber: a response or an error. */
  datatype HttpOutcome<T> = Response(body: T) | HttpError(message: string)

  /** `getToken()`: what `localStorage.getItem('auth_token')` yields, or null off the browser. */
  function StoredToken(isBrowser: bool, storage: map<string, string>): (token: Option<string>)
    ensures token.Some? <==> isBrowser && TokenKey in storage
    ensures token.Some? ==> token.value == storage[TokenKey]
  {
    if isBrowser && TokenKey in storage then Some(storage[TokenKey]) else None
  }

  class AuthService {
    const isBrowser: bool
    /** The `localStorage` contents as far as this service can see them. */
    var storage: map<string, string>
    /** The current value of the `userIsLoggedIn` subject. */
    var userIsLoggedIn: bool
    /** Every route passed to `router.navigate`, oldest first. */
    var navigations: seq<string>

    constructor (isBrowser: bool, storage: map<string, string>)
      ensures this.isBrowser == isBrowser && this.storage == storage && navigations == []
      ensures userIsLoggedIn <==> isBrowser && TokenKey in storage && storage[TokenKey] != ""
    {
      this.isBrowser := isBrowser;
      this.storage := storage;
      navigations := [];
      userIsLoggedIn := false;
      new;
      if isBrowser {
        userIsLoggedIn := HasToken();
      }
    }

    method IsLoggedIn() returns (loggedIn: bool)
      ensures loggedIn == userIsLoggedIn
    {
      loggedIn := userIsLoggedIn;
    }

    /** The login request's result as the caller receives it; the `tap` runs only on a response. */
    method Login(credentials: Credentials, outcome: HttpOutcome<LoginResponse>) returns (result: HttpOutcome<LoginResponse>)
      modifies this
      ensures result == outcome && navigations == old(navigations)
      ensures outcome.Response? && isBrowser ==>
                storage == old(storage)[TokenKey := outcome.body.token] && userIsLoggedIn
      ensures outcome.HttpError? || !isBrowser ==>
                storage == old(storage) && userIsLoggedIn == old(userIsLoggedIn)
    {
      result := outcome;
      if outcome.Response? {
        if isBrowser {
          storage := storage[TokenKey := outcome.body.token];
          userIsLoggedIn := true;
        }
      }
    }

    method Logout()
      modifies this
      ensures isBrowser ==>
                storage == old(storage) - {TokenKey} && !userIsLoggedIn &&
                navigations == old(navigations) + [LoginRoute]
      ensures !isBrowser ==>
                storage == old(storage) && userIsLoggedIn == old(userIsLoggedIn) &&
                navigations == old(navigations)
    {
      if isBrowser {
        storage := storage - {TokenKey};
        userIsLoggedIn := false;
        navigations := navigations + [LoginRoute];
      }
    }

    method GetToken() returns (token: Option<string>)
      ensures token == StoredToken(isBrowser, storage)
    {
      if isBrowser {
        token := if TokenKey in storage then Some(storage[TokenKey]) else None;
      } else {
        token := None;
      }
    }

    method HasToken() returns (present: bool)
      ensures present <==> isBrowser && TokenKey in storage && storage[TokenKey] != ""
    {
      if isBrowser {
        var token := GetToken();
        present := Truthy(token);
      } else {
        present := false;
      }
    }

    /** Registration is passed through to the caller and touches no local state. */
    method Register(data: RegisterData, outcome: HttpOutcome<RegisterResponse>) returns (result: HttpOutcome<RegisterResponse>)
      ensures result == outcome
    {
      result := outcome;
    }
  }

  /** A successful login in a browser is visible to the next `getToken`. */
  method LoginThenGetToken(auth: AuthService, credentials: Credentials, response: LoginResponse) returns (token: Option<string>)
    requires auth.isBrowser
    modifies auth
    ensures token == Some(response.token) && auth.userIsLoggedIn
  {
    var _ := auth.Login(credentials, Response(response));
    token := auth.GetToken();
  }

  /** After `logout` in a browser there is no token and the user was sent to the login page. */
  method LogoutThenGetToken(auth: AuthService) returns (token: Option<string>)
    requires auth.isBrowser
    modifies auth
    ensures token == None && !auth.userIsLoggedIn
    ensures auth.navigations == old(auth.navigations) + [LoginRoute]
  {
    auth.Logout();
    token := auth.GetToken();
  }
}
