/**
 * The gateway application (backend_python/api_gateway/app/main.py): the
 * login route, the liveness route and the mounting of the gateway router
 * under `/api`. Token creation is the parameter `createAccessToken`.
 */
module App {
  import opened Text
  import AuthGate

  /** The claims handed to token creation (the expiry is added there). */
  datatype Claims = Claims(sub: string, role: string)

  /** The login reply, or the HTTP error it raises. */
  datatype LoginReply =
    | TokenIssued(accessToken: string, tokenType: string)
    | LoginRejected(status: int, detail: string)

  /**
   * `POST /login`: only the exact pair admin / password is accepted; it
   * gets a bearer token for the claims {sub: username, role: "admin"}.
   */
  function Login(username: string, password: string, createAccessToken: Claims -> string): (r: LoginReply)
    ensures r.TokenIssued? <==> username == "admin" && password == "password"
    ensures r.TokenIssued? ==>
              r.tokenType == "bearer" && r.accessToken == createAccessToken(Claims(username, "admin"))
    ensures r.LoginRejected? ==> r.status == 401 && r.detail == "Invalid credentials"
  {
    if username == "admin" && password == "password" then
      TokenIssued(createAccessToken(Claims(username, "admin")), "bearer")
    else LoginRejected(401, "Invalid credentials")
  }

  /** The reply of the gateway's own `GET /health`. */
  datatype Liveness = Liveness(status: string, service: string)

  /** `GET /health`: a constant reply, with no call to any downstream service. */
  function HealthCheck(): (r: Liveness)
    ensures r.status == "healthy" && r.service == "api_gateway"
  {
    Liveness("healthy", "api_gateway")
  }

  /** The prefix the gateway router is mounted under. */
  const ApiPrefix := "/api"

  /** The router paths whose handlers declare the authentication dependency. */
  const GuardedRoutes: seq<string> := [
    "/dashboard/metrics", "/dashboard/stats", "/equipment", "/sensors/{equipment_id}/data",
    "/alerts/{equipment_id}", "/predictions/{equipment_id}", "/config"]

  /** The paths the gateway router declares: the guarded ones, then `/health`, which declares no dependency. */
  const GatewayRoutes: seq<string> := GuardedRoutes + ["/health"]

  /** `include_router(prefix="/api")`: a router path is served at the prefix followed by the path. */
  function ServedPath(routePath: string): (r: string)
    ensures StartsWith(r, ApiPrefix) && r[|ApiPrefix|..] == routePath
  {
    ApiPrefix + routePath
  }

  /**
   * Every gateway route is served under `/api` and none of them is on the
   * authentication allow-list. The seven routes that declare the dependency
   * are accepted by it all the same; the last route, `/health`, declares
   * none, so `/api/health` never calls it.
   */
  lemma MountedRoutesOffAllowListYetAccepted(i: nat)
    requires i < |GatewayRoutes|
    ensures StartsWith(ServedPath(GatewayRoutes[i]), "/api")
    ensures !AuthGate.IsAllowListed(ServedPath(GatewayRoutes[i]))
    ensures GatewayRoutes[i] in GuardedRoutes <==> i < |GuardedRoutes|
    ensures i < |GuardedRoutes| ==> forall c :: AuthGate.AuthenticateRequest(ServedPath(GatewayRoutes[i]), c)
  {
    assert GatewayRoutes[i][0] == '/';
    assert ServedPath(GatewayRoutes[i]) != "/api*" by {
      assert ServedPath(GatewayRoutes[i])[4] == '/';
    }
    AuthGate.ApiPathsNotAllowListed(ServedPath(GatewayRoutes[i]));
  }

  /** The router's `/equipment` is served at `/api/equipment`, and its `/health` apart from the app's own. */
  lemma ServedPathExamples()
    ensures ServedPath("/equipment") == "/api/equipment"
    ensures ServedPath("/health") == "/api/health" && ServedPath("/health") != "/health"
  {
  }
}
