/** `AuthInterceptor`: the request handed on to the next handler carries the
    stored token in `x-auth-token` when there is one, and is the original
    request otherwise. */
module AuthInterceptor {
  import opened Common
  import Auth

  const TokenHeader: string := "x-auth-token"

  /** An outgoing request; `clone({headers})` replaces the headers and keeps the rest. */
  datatype HttpRequest = HttpRequest(verb: string, url: string, headers: map<string, string>, body: Option<string>)

  /** `intercept`, given what `getToken()` returned: the one request passed to `next.handle`. */
  function Intercept(request: HttpRequest, token: Option<string>): (forwarded: HttpRequest)
    ensures Truthy(token) ==>
              TokenHeader in forwarded.headers && forwarded.headers[TokenHeader] == token.value
    ensures Truthy(token) ==>
              forall h :: h in request.headers && h != TokenHeader ==> h in forwarded.headers && forwarded.headers[h] == request.headers[h]
    ensures Truthy(token) ==> forwarded.headers.Keys == request.headers.Keys + {TokenHeader}
    ensures !Truthy(token) ==> forwarded == request
    ensures forwarded.(headers := request.headers) == request
  {
    if Truthy(token) then
      request.(headers := request.headers[TokenHeader := token.value])
    else
      request
  }

  /** Intercepting an already forwarded request changes nothing more. */
  lemma InterceptIdempotent(request: HttpRequest, token: Option<string>)
    ensures Intercept(Intercept(request, token), token) == Intercept(request, token)
  {
  }

  /** `intercept` wired to the service: the header carries the stored token exactly when the
      service is in a browser and the stored token is non-empty; a missing token never blocks. */
  method InterceptWith(auth: Auth.AuthService, request: HttpRequest) returns (forwarded: HttpRequest)
    ensures forwarded == Intercept(request, Auth.StoredToken(auth.isBrowser, auth.storage))
    ensures auth.isBrowser && Auth.TokenKey in auth.storage && auth.storage[Auth.TokenKey] != "" ==>
              TokenHeader in forwarded.headers && forwarded.headers[TokenHeader] == auth.storage[Auth.TokenKey]
    ensures !(auth.isBrowser && Auth.TokenKey in auth.storage && auth.storage[Auth.TokenKey] != "") ==>
              forwarded == request
  {
    var token := auth.GetToken();
    forwarded := Intercept(request, token);
  }
}
