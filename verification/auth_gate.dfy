/**
 * The authentication dependency that the gateway routes other than
 * `/health` declare (`authenticate_request` in
 * backend_python/api_gateway/app/middleware/auth.py).
 * As written it accepts every request: the allow-list test returns early,
 * and so does the unconditional return right after it, which leaves the
 * bearer-token check below unreachable.
 */
module AuthGate {
  import opened Wrappers
  import opened Text

  /** The paths listed as needing no authentication, compared as whole strings. */
  const AllowList: seq<string> := ["/health", "/login", "/docs", "/openapi.json", "/api*"]

  /** Bearer credentials as presented in the `Authorization` header. */
  datatype Credentials = Credentials(scheme: string, token: string)

  /** `request.url.path in [...]`: exact membership; `/api*` is an ordinary string, not a pattern. */
  predicate IsAllowListed(path: string) {
    path in AllowList
  }

  /** The dependency's verdict: always True, never an exception, whatever the path and credentials. */
  function AuthenticateRequest(path: string, credentials: Option<Credentials>): (accepted: bool)
    ensures accepted
  {
    if IsAllowListed(path) then true else true
  }

  /**
   * The only allow-listed path that begins with `/api` is the literal
   * `/api*`, so no real API path such as `/api/equipment` is on the list.
   */
  lemma ApiPathsNotAllowListed(path: string)
    requires StartsWith(path, "/api") && path != "/api*"
    ensures !IsAllowListed(path)
  {
    assert path[1] == path[..4][1] == 'a';
    assert forall k :: 0 <= k < |AllowList| && AllowList[k] != "/api*" ==> AllowList[k][1] != 'a';
  }
}
