# API gateway decision logic, modelled in Dafny

This project models the decision logic of a small FastAPI gateway. The gateway fronts the sensor, AI and notification services of an equipment-monitoring platform. The model covers:

- **Proxy** (`proxy.dfy`): how `proxy_request` builds the outbound request and maps the outcome.
  - It rewrites the path with the first matching prefix rule, in declaration order.
  - It joins the path to the base URL after stripping every trailing `/`.
  - It forwards method and body unchanged, and the query parameters with one (the last) value per repeated key, as the client receives them.
  - It drops `host` and `content-length` headers in any letter case.
  - It returns the body as decoded JSON or as raw text, depending on the `content-type` header.
  - It maps a timeout to 504, any other transport error to 502, and everything else to 500.
- **Health** (`health.dfy`): the aggregated `/api/health` route. It probes each configured service once, in order. It records `healthy`, `unhealthy` or `unreachable` under the service's lower-cased name. The overall status is `healthy` or `degraded`.
- **Handlers** (`handlers.dfy`): the local mock-data routes and their `{success, data, timestamp}` envelope. This includes the `/config` route, which raises HTTP 500 when `int()` fails.
- **AuthGate** (`auth_gate.dfy`): the authentication dependency. As written, it accepts every request.
- **App** (`app.dfy`): the login check, the constant `/health` reply, and the mounting of the router under `/api`.
- **MockData** (`mock_data.dfy`): the mock data generator. It covers find-by-id, the unit and threshold tables, alerts and predictions. The generator's equipment list is set once and only read afterwards, so the generator is an immutable datatype value: no operation can change the list.
- **Text** and **OrderedDict** (`text.dfy`, `ordered_dict.dfy`): the Python string and dict semantics the code depends on.
  - `str.rstrip`, `str.replace(old, new, 1)`, `startswith` and ASCII `lower`.
  - Insertion-ordered dicts in which assigning to an existing key updates its value in place.

Modelling choices:

- **External calls become parameters.** The HTTP client is `send`, the health probe is `probe`, JSON decoding is `parse`, and token creation is `createAccessToken`. `int()` on the environment value is `parseInt`. The random draw of the alerts route is `draw`, and the clock is `now`.
- **Dicts are insertion-ordered lists.** Python dicts whose order matters are modelled as association lists. This covers the path-rewrite rules, the forwarded query parameters, the forwarded headers and the per-service health table.
- **Observed behaviour is kept.**
  - The gateway relays a downstream response whatever its status code. `Proxy.ReplyIgnoresDownstreamStatus` states this.
  - The probe URL is `service_url + "/health"` with no slash stripping.
  - The authentication dependency returns True for every request. The allow-list entry `/api*` is an ordinary string, so no real `/api/...` path is on the list.

## Model

| member | source | states |
|---|---|---|
| Text.RStrip | backend_python/api_gateway/app/routes/gateway.py:36 | `rstrip('/')` gives the longest prefix not ending in `/`, and everything removed is `/` |
| Text.RStripIdempotent | backend_python/api_gateway/app/routes/gateway.py:36 | stripping an already stripped base URL changes nothing |
| Text.IndexOf | backend_python/api_gateway/app/routes/gateway.py:33 | the search behind `replace(..., 1)` finds the first occurrence at or after `from`, or reports that there is none |
| Text.ReplaceFirst | backend_python/api_gateway/app/routes/gateway.py:33 | `replace(old, new, 1)`: the first occurrence found by IndexOf is replaced, and nothing is replaced without one; ReplaceFirstOfPrefix states its result when `old` is a prefix |
| Text.ReplaceFirstOfPrefix | backend_python/api_gateway/app/routes/gateway.py:32-33 | when `old` is a prefix, `replace(old, new, 1)` is `new + path[len(old):]`, one substitution at index 0 |
| Text.Lower | backend_python/api_gateway/app/routes/gateway.py:49 | ASCII `lower()` keeps the length and maps each character |
| Text.LowerChar | backend_python/api_gateway/app/routes/gateway.py:49 | an upper-case ASCII letter becomes the matching lower-case letter; other characters are unchanged |
| OrderedDict.Insert | backend_python/api_gateway/app/routes/gateway.py:254-262 | `d[k] = v`: `k` maps to `v` and other keys keep their values; an existing key keeps its place, a new key goes last; keys stay distinct |
| OrderedDict.FromPairs | backend_python/api_gateway/app/routes/gateway.py:47-50 | a dict built from pairs never holds a key twice |
| OrderedDict.LastValue | backend_python/api_gateway/app/routes/gateway.py:47-50 | the reference lookup is absent exactly when no pair has the key |
| OrderedDict.FromPairsGet | backend_python/api_gateway/app/routes/gateway.py:47-50 | building a dict from pairs gives each key the value of its last pair |
| OrderedDict.FromPairsOfDistinct | backend_python/api_gateway/app/routes/gateway.py:251-262 | without repeated keys, building a dict keeps every pair, in order |
| Proxy.FirstMatch | backend_python/api_gateway/app/routes/gateway.py:31-32 | finds the first rule, in declaration order, whose key is a prefix of the path, or reports that none is |
| Proxy.RewrittenPath | backend_python/api_gateway/app/routes/gateway.py:28-34 | the target path: the first matching rule's replacement, or the path itself; RewriteIdentityWithoutMatch, RewriteAppliesFirstMatch and RewriteIgnoresLaterRules state its meaning |
| Proxy.ResolveTargetPath | backend_python/api_gateway/app/routes/gateway.py:27-34 | the `for`/`break` loop returns exactly the path the first-match rewrite defines |
| Proxy.RewriteIdentityWithoutMatch | backend_python/api_gateway/app/routes/gateway.py:28-34 | with no rules, an empty rule table, or no key that is a prefix, the target path is the original path |
| Proxy.RewriteAppliesFirstMatch | backend_python/api_gateway/app/routes/gateway.py:31-34 | the first matching rule `(old, new)` gives `new + path[len(old):]` |
| Proxy.RewriteIgnoresLaterRules | backend_python/api_gateway/app/routes/gateway.py:31-34 | rules after the first match have no effect on the result |
| Proxy.FullUrl | backend_python/api_gateway/app/routes/gateway.py:36 | the base URL with trailing slashes stripped, then the target path; FullUrlShape states its meaning |
| Proxy.FullUrlShape | backend_python/api_gateway/app/routes/gateway.py:36 | the URL is the base cut back over trailing slashes only, to a part not ending in `/`, followed by the target path |
| Proxy.FilterHeaders | backend_python/api_gateway/app/routes/gateway.py:47-50 | a header item is kept iff it came in and its lower-cased name is neither `host` nor `content-length` |
| Proxy.FilterHeadersAppend | backend_python/api_gateway/app/routes/gateway.py:47-50 | the filter preserves order: filtering a concatenation concatenates the filtered parts |
| Proxy.ForwardedHeaders | backend_python/api_gateway/app/routes/gateway.py:47-50 | the header dict built from the kept items; ForwardedHeadersExact, ForwardedHeadersOfDistinct and OutboundHasNoHopByHop state its values, order and keys |
| Proxy.FilterKeepsDistinct | backend_python/api_gateway/app/routes/gateway.py:47-50 | filtering keeps header names distinct when the inbound names are distinct |
| Proxy.ForwardedHeadersOfDistinct | backend_python/api_gateway/app/routes/gateway.py:47-50 | with distinct inbound names, the forwarded headers are exactly the kept items, in their inbound order |
| Proxy.FilterHeadersLastValue | backend_python/api_gateway/app/routes/gateway.py:47-50 | for a name that is not hop-by-hop, the last kept header with that name is its last inbound header |
| Proxy.ForwardedHeadersExact | backend_python/api_gateway/app/routes/gateway.py:47-50 | a header name is forwarded iff it came in and is not hop-by-hop in any case, with the value of its last kept occurrence, which is its last inbound occurrence |
| Proxy.OutboundHasNoHopByHop | backend_python/api_gateway/app/routes/gateway.py:47-50 | no forwarded header is `host` or `content-length`, whatever its letter case |
| Proxy.ForwardedParamsExact | backend_python/api_gateway/app/routes/gateway.py:45 | each query key is sent once, with the value of its last inbound occurrence, and no other key is sent |
| Proxy.BuildOutbound | backend_python/api_gateway/app/routes/gateway.py:42-50 | method and body go out unchanged; query parameters go out as a dict (last value per key, first-seen order); URL and headers are the joined URL and the filtered headers |
| Proxy.ContentType | backend_python/api_gateway/app/routes/gateway.py:53 | the content type is the value of the first header whose name lower-cases to `content-type`, and `''` when there is none |
| Proxy.ProxyRequest | backend_python/api_gateway/app/routes/gateway.py:23-63 | the reply is the mapping of the single downstream call made with the rewritten path, joined URL, filtered headers, query-parameter dict and unchanged method and body |
| Proxy.DecodeBody | backend_python/api_gateway/app/routes/gateway.py:53 | the decoded JSON or the raw text of a downstream response, by its content type; ReplyBodyDecision states its meaning |
| Proxy.Reply | backend_python/api_gateway/app/routes/gateway.py:53-63 | the reply for one downstream outcome; ReplyBodyDecision, ReplyErrorMapping and ReplyIgnoresDownstreamStatus state its meaning |
| Proxy.ReplyBodyDecision | backend_python/api_gateway/app/routes/gateway.py:53 | raw text is returned iff the content type does not start with `application/json`; otherwise the decoded JSON |
| Proxy.ReplyErrorMapping | backend_python/api_gateway/app/routes/gateway.py:55-63 | 504 "Service timeout" iff timeout, 502 "Service unavailable" iff other transport error, 500 "Internal server error" iff another failure or undecodable JSON |
| Proxy.ReplyIgnoresDownstreamStatus | backend_python/api_gateway/app/routes/gateway.py:53 | the downstream status code does not affect the reply |
| Health.ConfiguredServices | backend_python/api_gateway/app/routes/gateway.py:17-21 | `SERVICES`: sensor, AI and notification service with their base URLs, in that order; ConfiguredServicesDistinct states that their lower-cased names differ |
| Health.ProbeUrl | backend_python/api_gateway/app/routes/gateway.py:253 | the probe URL is the service URL followed by `/health`, unstripped |
| Health.Classify | backend_python/api_gateway/app/routes/gateway.py:252-262 | healthy iff answered 200, unhealthy iff answered another code, unreachable with no response time iff the probe raised; an answer carries its elapsed time |
| Health.StatusTable | backend_python/api_gateway/app/routes/gateway.py:251-262 | `service_status` after the loop, each service's entry assigned in turn; StatusTableExact states its meaning |
| Health.Overall | backend_python/api_gateway/app/routes/gateway.py:264-266 | `healthy` when every recorded status is healthy, `degraded` otherwise; OverallHealthyIff states its meaning |
| Health.GatewayHealth | backend_python/api_gateway/app/routes/gateway.py:243-275 | the sequential loop fills the table built from the entries, and the overall status is its reduction |
| Health.StatusTableExact | backend_python/api_gateway/app/routes/gateway.py:251-262 | with distinct lower-cased names there is exactly one entry per service, holding its probe's status |
| Health.OverallHealthyIff | backend_python/api_gateway/app/routes/gateway.py:264-266 | overall healthy iff every service answered 200 (vacuously for none), degraded otherwise |
| Health.ConfiguredServicesDistinct | backend_python/api_gateway/app/routes/gateway.py:17-21 | the three configured services have distinct lower-cased keys `sensor_service`, `ai_service` and `notification_service` |
| Health.MixedProbesDegraded | backend_python/api_gateway/app/routes/gateway.py:251-266 | answers of 200, 500 and an exception give healthy, unhealthy and unreachable, and degraded overall |
| Handlers.EquipmentRoute | backend_python/api_gateway/app/routes/gateway.py:135-144 | success envelope carrying the generator's equipment list unchanged, with a timestamp |
| Handlers.SensorDataRoute | backend_python/api_gateway/app/routes/gateway.py:153-161 | success envelope with a timestamp whose data is the generator's readings for the id (so all of GenerateSensorData's contract carries over); empty iff the id is unknown or has no sensors |
| Handlers.AlertsRoute | backend_python/api_gateway/app/routes/gateway.py:172-180 | success envelope with a timestamp whose data is the generator's alerts for the id and draw: at most one, present iff the draw exceeds 0.7 |
| Handlers.PredictionsRoute | backend_python/api_gateway/app/routes/gateway.py:190-198 | success envelope with a timestamp whose data is the generator's predictions: exactly one, for the requested id, "normal" |
| Handlers.ConfigRoute | backend_python/api_gateway/app/routes/gateway.py:209-240 | HTTP 500 "Failed to retrieve configuration" iff `int()` fails on the interval (default "1000"); otherwise an envelope without timestamp, with provider defaulting to "openai" |
| AuthGate.IsAllowListed | backend_python/api_gateway/app/middleware/auth.py:12 | exact membership in the five-entry allow-list; ApiPathsNotAllowListed states its meaning |
| AuthGate.AuthenticateRequest | backend_python/api_gateway/app/middleware/auth.py:9-15 | the dependency returns True for every path and credentials and never raises |
| AuthGate.ApiPathsNotAllowListed | backend_python/api_gateway/app/middleware/auth.py:12 | membership is exact, so no path starting with `/api` other than the literal `/api*` is on the allow-list |
| App.Login | backend_python/api_gateway/app/main.py:30-40 | a token is issued iff username is exactly "admin" and password exactly "password", as a bearer token for `{sub: username, role: "admin"}`; otherwise 401 "Invalid credentials" |
| App.HealthCheck | backend_python/api_gateway/app/main.py:42-46 | the gateway's own health reply is always `{status: "healthy", service: "api_gateway"}` |
| App.ServedPath | backend_python/api_gateway/app/main.py:23 | a router path is served under `/api`, followed by the path itself |
| App.MountedRoutesOffAllowListYetAccepted | backend_python/api_gateway/app/main.py:23 | every mounted gateway route is under `/api` and off the allow-list; the seven routes that declare the dependency are accepted by it, and the eighth, `/health`, declares none, so `/api/health` is not guarded |
| App.ServedPathExamples | backend_python/api_gateway/app/main.py:23 | `/equipment` is served at `/api/equipment`, and the router's `/health` at `/api/health`, apart from the app's `/health` |
| MockData.SensorUnit | backend_python/api_gateway/app/services/mockDataGenerator.py:94-100 | `car_position`, `motor_temperature` and `bearing_vibration` get "m", "Â°C" and "mm/s"; every other parameter gets "unit" |
| MockData.Reading | backend_python/api_gateway/app/services/mockDataGenerator.py:27-38 | one reading per sensor, with the id, the sensor's type and parameter, its unit and threshold, status "active" and the equipment's location; GenerateSensorData states its meaning |
| MockData.SensorThreshold | backend_python/api_gateway/app/services/mockDataGenerator.py:102-107 | `motor_temperature` gets warning 55 and critical 70, `bearing_vibration` 4.0 and 6.0; every other parameter (so also `car_position`) gets None |
| MockData.FindEquipment | backend_python/api_gateway/app/services/mockDataGenerator.py:23 | `next(...)` finds the first equipment with that id, or None iff no equipment has it |
| MockData.MockDataGenerator.GetEquipmentList | backend_python/api_gateway/app/services/mockDataGenerator.py:83-84 | the stored equipment list itself; SeedSensorData states it for the seed generator |
| MockData.MockDataGenerator.GenerateSensorData | backend_python/api_gateway/app/services/mockDataGenerator.py:22-40 | `[]` for an unknown id; otherwise one reading per sensor, in order, each with the id, the sensor's type and parameter, its unit and threshold, the equipment's location and status "active" |
| MockData.MockDataGenerator.GenerateAlerts | backend_python/api_gateway/app/services/mockDataGenerator.py:42-57 | at most one alert, present iff the draw exceeds 0.7, for the requested id |
| MockData.MockDataGenerator.GeneratePredictions | backend_python/api_gateway/app/services/mockDataGenerator.py:59-67 | exactly one prediction, for the requested id, with prediction "normal" |
| MockData.NewGenerator | backend_python/api_gateway/app/services/mockDataGenerator.py:5-20 | the generator starts with a one-element equipment list |
| MockData.SeedSensorData | backend_python/api_gateway/app/services/mockDataGenerator.py:5-40 | the seed elevator yields three readings (metres without threshold, then motor temperature with 55/70, then mm/s); an unknown id yields none |

## Left out

- Networking, `async`/`await`, the 30-second and 5-second client timeouts and `response.elapsed`. The downstream call and the health probe are parameters, and the elapsed time is part of a probe outcome.
- The reading of `request.body()` and the construction of the HTTP client. The model assumes neither raises. They could only raise into the 500 branch or the outer `except` of the health route (gateway.py:277-284), which is not modelled.
- Health.GatewayHealth: the probe is a function of the URL, so two services configured with the same URL get the same outcome and elapsed time, where two real requests may differ. The three default URLs (gateway.py:17-19) differ, and no stated property relies on this.
- Logging (`logger.info`/`error`/`warning`) and its side effects; `backend_python/shared/logger.py` is not part of this model.
- JSON decoding itself. `parse` stands for `response.json()`, and a failed decode is a `None` result, which maps to 500.
- Proxy.ContentType: returns the first matching `content-type` header. httpx joins repeated headers with `, `, which gives the same `startswith("application/json")` answer because `,` does not occur in `application/json`.
- Proxy.ForwardedHeadersExact: header names are taken as given. The ASGI server delivers them lower-cased in the request scope, and that step is not modelled.
- Token creation and verification (`backend_python/shared/auth.py`, a wrapper around PyJWT). `createAccessToken` is uninterpreted, and the token's expiry claim is added inside it.
- The unreachable part of the authentication dependency (auth.py:16-32: the missing-credentials 401, token verification and `request.state.user`). It is never executed, so only the always-True result is modelled.
- Settings loading (`backend_python/shared/config.py`) and reading the environment. Environment values are parameters, and Python's `int()` is the parameter `parseInt`.
- CORS middleware and FastAPI dependency injection and routing (main.py:14-20). Route mounting is modelled as the prefix concatenation only.
- The dashboard routes (`/dashboard/metrics`, `/dashboard/stats`) and `generate_dashboard_stats`: they return hard-coded numbers, many of them floats.
- The `except` branches of the local data routes, which return `success: false`. The modelled mock-data functions cannot fail, so these branches cannot be reached.
- MockData.MockDataGenerator.GenerateSensorData: leaves out each reading's `id` and `timestamp`, which come from the clock, and its `value`, which comes from `generate_sensor_value` and random floats.
- MockData.MockDataGenerator.GenerateAlerts: leaves out the alert's clock-derived `id` and `timestamp`. The coin flip is the parameter `draw`.
- MockData.MockDataGenerator.GeneratePredictions: leaves out the `timestamp`.
- Unicode case folding. `lower()` is modelled on ASCII letters only.
