/**
 * The request proxy of the gateway (`proxy_request` in
 * backend_python/api_gateway/app/routes/gateway.py): rewrite the path,
 * join it to the service's base URL, forward method, query parameters,
 * headers and body, then turn the downstream outcome into the gateway's
 * reply. The HTTP client is the parameter `send` and JSON decoding the
 * parameter `parse`; neither is modelled beyond its outcome.
 */
module Proxy {
  import opened Wrappers
  import opened Text
  import OrderedDict

  /** A decoded JSON document. */
  datatype JsonValue =
    | JsonNull
    | JsonBool(b: bool)
    | JsonNumber(n: real)
    | JsonString(s: string)
    | JsonArray(items: seq<JsonValue>)
    | JsonObject(members: seq<(string, JsonValue)>)

  /** The inbound request as the gateway sees it (`verb` is the HTTP method); headers in arrival order. */
  datatype InboundRequest = InboundRequest(
    verb: string,
    path: string,
    queryParams: seq<(string, string)>,
    headers: seq<(string, string)>,
    body: seq<bv8>)

  /** The request handed to the HTTP client. */
  datatype OutboundRequest = OutboundRequest(
    verb: string,
    url: string,
    params: OrderedDict.Dict<string>,
    content: seq<bv8>,
    headers: OrderedDict.Dict<string>)

  /** A response that came back from the downstream service. */
  datatype DownstreamResponse = DownstreamResponse(
    status: int,
    headers: seq<(string, string)>,
    text: string)

  /**
   * What the HTTP client call ends in: a response, or one of the exceptions
   * the handler tells apart. `Timeout` stands for `httpx.TimeoutException`,
   * `TransportError` for every other `httpx.RequestError`, `Other` for
   * anything else.
   */
  datatype Outcome =
    | Ok(response: DownstreamResponse)
    | Timeout
    | TransportError
    | Other

  /** The gateway's reply: the decoded JSON, the raw text, or an HTTP error. */
  datatype ProxyResponse =
    | JsonBody(value: JsonValue)
    | TextBody(text: string)
    | GatewayError(status: int, detail: string)

  type RewriteRules = seq<(string, string)>

  // ---------------------------------------------------------------- path

  /** The index of the first rule, in declaration order, whose key is a prefix of `path`. */
  function FirstMatch(rules: RewriteRules, path: string): (r: Option<nat>)
    ensures r.Some? ==> r.value < |rules| && StartsWith(path, rules[r.value].0)
    ensures r.Some? ==> forall j :: 0 <= j < r.value ==> !StartsWith(path, rules[j].0)
    ensures r.None? ==> forall j :: 0 <= j < |rules| ==> !StartsWith(path, rules[j].0)
  {
    if rules == [] then None
    else if StartsWith(path, rules[0].0) then Some(0)
    else match FirstMatch(rules[1..], path)
      case Some(i) => Some(i + 1)
      case None => None
  }

  /**
   * The path the request is forwarded to: the first matching rule's
   * `replace(old, new, 1)`, or the path itself when there are no rules
   * (`None` or an empty dict) or none matches.
   */
  function RewrittenPath(path: string, pathRewrite: Option<RewriteRules>): string {
    match pathRewrite
    case None => path
    case Some(rules) =>
      match FirstMatch(rules, path)
      case Some(i) => ReplaceFirst(path, rules[i].0, rules[i].1)
      case None => path
  }

  /** The loop that picks the target path: scan the rules in order, apply the first match once, stop. */
  method ResolveTargetPath(originalPath: string, pathRewrite: Option<RewriteRules>) returns (targetPath: string)
    ensures targetPath == RewrittenPath(originalPath, pathRewrite)
  {
    targetPath := originalPath;
    if pathRewrite.Some? && |pathRewrite.value| > 0 {
      var rules := pathRewrite.value;
      var i := 0;
      while i < |rules|
        invariant 0 <= i <= |rules|
        invariant forall j :: 0 <= j < i ==> !StartsWith(originalPath, rules[j].0)
        invariant targetPath == originalPath
      {
        var (oldPrefix, newPrefix) := rules[i];
        if StartsWith(originalPath, oldPrefix) {
          targetPath := ReplaceFirst(originalPath, oldPrefix, newPrefix);
          break;
        }
        i := i + 1;
      }
    }
  }

  /** No rules, or no rule whose key is a prefix: the path is forwarded as it came. */
  lemma RewriteIdentityWithoutMatch(path: string, pathRewrite: Option<RewriteRules>)
    requires pathRewrite.Some? ==> forall j :: 0 <= j < |pathRewrite.value| ==> !StartsWith(path, pathRewrite.value[j].0)
    ensures RewrittenPath(path, pathRewrite) == path
  {
  }

  /**
   * When rule `i` is the first whose key is a prefix, exactly that key is
   * replaced, once, at the front of the path.
   */
  lemma RewriteAppliesFirstMatch(path: string, rules: RewriteRules, i: nat)
    requires i < |rules| && StartsWith(path, rules[i].0)
    requires forall j :: 0 <= j < i ==> !StartsWith(path, rules[j].0)
    ensures RewrittenPath(path, Some(rules)) == rules[i].1 + path[|rules[i].0|..]
  {
    var m := FirstMatch(rules, path);
    assert m.Some? && m.value == i by {
      if m.None? || m.value < i {
        assert false;
      }
    }
    ReplaceFirstOfPrefix(path, rules[i].0, rules[i].1);
  }

  /** Rules after the first match play no part: dropping or replacing them changes nothing. */
  lemma RewriteIgnoresLaterRules(path: string, rules: RewriteRules, i: nat, later: RewriteRules)
    requires i < |rules| && StartsWith(path, rules[i].0)
    requires forall j :: 0 <= j < i ==> !StartsWith(path, rules[j].0)
    ensures RewrittenPath(path, Some(rules[..i + 1] + later)) == RewrittenPath(path, Some(rules))
  {
    var ext := rules[..i + 1] + later;
    assert forall j :: 0 <= j <= i ==> ext[j] == rules[j];
  }

  // ----------------------------------------------------------------- URL

  /** `f"{target_url.rstrip('/')}{target_path}"`. */
  function FullUrl(targetUrl: string, targetPath: string): string {
    RStrip(targetUrl, '/') + targetPath
  }

  /**
   * The URL is a prefix of the base URL that does not end in `/`, where
   * only slashes were cut off, followed by the target path.
   */
  lemma FullUrlShape(targetUrl: string, targetPath: string)
    ensures exists n :: 0 <= n <= |targetUrl| && FullUrl(targetUrl, targetPath) == targetUrl[..n] + targetPath
                        && (n == 0 || targetUrl[n - 1] != '/')
                        && forall i :: n <= i < |targetUrl| ==> targetUrl[i] == '/'
  {
    var base := RStrip(targetUrl, '/');
    assert targetUrl[..|base|] == base;
  }

  // ------------------------------------------------------------- headers

  /** The hop-by-hop headers the gateway never forwards, compared lower-cased. */
  predicate IsDropped(name: string) {
    Lower(name) == "host" || Lower(name) == "content-length"
  }

  /** The inbound header items that are forwarded, in order. */
  function FilterHeaders(items: seq<(string, string)>): (r: seq<(string, string)>)
    ensures forall h :: h in r <==> h in items && !IsDropped(h.0)
    ensures |r| <= |items|
  {
    if items == [] then []
    else if IsDropped(items[0].0) then FilterHeaders(items[1..])
    else [items[0]] + FilterHeaders(items[1..])
  }

  /** Filtering keeps order: it works item by item over a concatenation. */
  lemma {:induction false} FilterHeadersAppend(a: seq<(string, string)>, b: seq<(string, string)>)
    ensures FilterHeaders(a + b) == FilterHeaders(a) + FilterHeaders(b)
  {
    if a != [] {
      assert (a + b)[1..] == a[1..] + b;
      FilterHeadersAppend(a[1..], b);
    } else {
      assert a + b == b;
    }
  }

  /** For a name that is not hop-by-hop, the last kept header with that name is its last inbound header. */
  lemma {:induction false} FilterHeadersLastValue(items: seq<(string, string)>, name: string)
    requires !IsDropped(name)
    ensures OrderedDict.LastValue(FilterHeaders(items), name) == OrderedDict.LastValue(items, name)
  {
    if items != [] {
      var init, last := items[..|items| - 1], items[|items| - 1];
      assert items == init + [last];
      FilterHeadersAppend(init, [last]);
      FilterHeadersLastValue(init, name);
      var front := FilterHeaders(init);
      if IsDropped(last.0) {
        assert FilterHeaders([last]) == [];
        assert FilterHeaders(items) == front;
      } else {
        assert FilterHeaders([last]) == [last];
        var kept := front + [last];
        assert FilterHeaders(items) == kept;
        assert kept[..|kept| - 1] == front;
      }
    }
  }

  /** The dict comprehension over `request.headers.items()` with the hop-by-hop filter. */
  function ForwardedHeaders(items: seq<(string, string)>): OrderedDict.Dict<string> {
    OrderedDict.FromPairs(FilterHeaders(items))
  }

  /** Filtering keeps header names distinct when they came in distinct. */
  lemma {:induction false} FilterKeepsDistinct(items: seq<(string, string)>)
    requires OrderedDict.DistinctKeys(items)
    ensures OrderedDict.DistinctKeys(FilterHeaders(items))
  {
    if items != [] {
      var rest := FilterHeaders(items[1..]);
      FilterKeepsDistinct(items[1..]);
      if !IsDropped(items[0].0) {
        forall j | 0 <= j < |rest| ensures rest[j].0 != items[0].0 {
          assert rest[j] in rest;
          var m :| 0 <= m < |items[1..]| && items[1..][m] == rest[j];
          assert items[m + 1] == rest[j];
        }
      }
    }
  }

  /**
   * With distinct inbound names, the forwarded dict is the kept header
   * items themselves, in their inbound order.
   */
  lemma ForwardedHeadersOfDistinct(items: seq<(string, string)>)
    requires OrderedDict.DistinctKeys(items)
    ensures ForwardedHeaders(items) == FilterHeaders(items)
  {
    FilterKeepsDistinct(items);
    OrderedDict.FromPairsOfDistinct(FilterHeaders(items));
  }

  /**
   * A header name is forwarded iff some inbound header has it and is not
   * `host` or `content-length` in any letter case; it carries the value of
   * the last such header, which is its last inbound header.
   */
  lemma ForwardedHeadersExact(items: seq<(string, string)>, name: string)
    ensures OrderedDict.Get(ForwardedHeaders(items), name) == OrderedDict.LastValue(FilterHeaders(items), name)
    ensures !IsDropped(name) ==> OrderedDict.Get(ForwardedHeaders(items), name) == OrderedDict.LastValue(items, name)
    ensures OrderedDict.Get(ForwardedHeaders(items), name).Some?
            <==> IsDropped(name) == false && exists v :: (name, v) in items
  {
    var kept := FilterHeaders(items);
    OrderedDict.FromPairsGet(kept, name);
    if !IsDropped(name) {
      FilterHeadersLastValue(items, name);
    }
    if OrderedDict.LastValue(kept, name).Some? {
      var i :| 0 <= i < |kept| && kept[i].0 == name;
      assert kept[i] in kept;
    }
  }

  /**
   * The request the client sends: method and body as they came in; the
   * query parameters as a dict (Starlette's `items()` gives one value per
   * key, the last one, in first-seen order).
   */
  function BuildOutbound(request: InboundRequest, targetUrl: string, targetPath: string): (r: OutboundRequest)
    ensures r.verb == request.verb && r.content == request.body
    ensures r.params == OrderedDict.FromPairs(request.queryParams)
    ensures r.url == FullUrl(targetUrl, targetPath)
    ensures r.headers == ForwardedHeaders(request.headers)
  {
    OutboundRequest(request.verb, FullUrl(targetUrl, targetPath), OrderedDict.FromPairs(request.queryParams), request.body,
                    ForwardedHeaders(request.headers))
  }

  /**
   * Each query key goes out once, with the value of its last occurrence in
   * the inbound query string; keys that did not come in do not go out.
   */
  lemma ForwardedParamsExact(request: InboundRequest, targetUrl: string, targetPath: string, key: string)
    ensures OrderedDict.Get(BuildOutbound(request, targetUrl, targetPath).params, key)
            == OrderedDict.LastValue(request.queryParams, key)
    ensures OrderedDict.DistinctKeys(BuildOutbound(request, targetUrl, targetPath).params)
  {
    OrderedDict.FromPairsGet(request.queryParams, key);
  }

  /** No forwarded header is `host` or `content-length`, whatever its letter case. */
  lemma OutboundHasNoHopByHop(request: InboundRequest, targetUrl: string, targetPath: string)
    ensures forall i :: 0 <= i < |BuildOutbound(request, targetUrl, targetPath).headers| ==>
              !IsDropped(BuildOutbound(request, targetUrl, targetPath).headers[i].0)
  {
    var d := BuildOutbound(request, targetUrl, targetPath).headers;
    forall i | 0 <= i < |d| ensures !IsDropped(d[i].0) {
      OrderedDict.GetAt(d, i);
      ForwardedHeadersExact(request.headers, d[i].0);
    }
  }

  // ------------------------------------------------------------ response

  /** `response.headers.get('content-type', '')`, header names compared case-insensitively. */
  function ContentType(headers: seq<(string, string)>): (r: string)
    ensures (forall i :: 0 <= i < |headers| ==> Lower(headers[i].0) != "content-type") ==> r == ""
    ensures forall i :: (0 <= i < |headers| && Lower(headers[i].0) == "content-type" &&
                         forall j :: 0 <= j < i ==> Lower(headers[j].0) != "content-type") ==> r == headers[i].1
  {
    if headers == [] then ""
    else if Lower(headers[0].0) == "content-type" then headers[0].1
    else ContentType(headers[1..])
  }

  /** The reply for a response that came back: JSON when declared so, raw text otherwise. */
  function DecodeBody(response: DownstreamResponse, parse: string -> Option<JsonValue>): ProxyResponse {
    if StartsWith(ContentType(response.headers), "application/json") then
      match parse(response.text)
      case Some(v) => JsonBody(v)
      case None => GatewayError(500, "Internal server error")
    else TextBody(response.text)
  }

  /** `httpx.TimeoutException` is a subclass of `httpx.RequestError`. */
  predicate IsRequestError(outcome: Outcome) {
    outcome.Timeout? || outcome.TransportError?
  }

  /**
   * The reply for each outcome, with the `except` clauses tried in source
   * order: timeout first, then request errors, then everything else (a
   * failed JSON decode included).
   */
  function Reply(outcome: Outcome, parse: string -> Option<JsonValue>): ProxyResponse {
    match outcome
    case Ok(response) => DecodeBody(response, parse)
    case _ =>
      if outcome.Timeout? then GatewayError(504, "Service timeout")
      else if IsRequestError(outcome) then GatewayError(502, "Service unavailable")
      else GatewayError(500, "Internal server error")
  }

  /** The whole of `proxy_request`: resolve the path, send once, map the outcome. */
  method ProxyRequest(request: InboundRequest, targetUrl: string, pathRewrite: Option<RewriteRules>,
                      send: OutboundRequest -> Outcome, parse: string -> Option<JsonValue>)
    returns (reply: ProxyResponse)
    ensures reply == Reply(send(BuildOutbound(request, targetUrl, RewrittenPath(request.path, pathRewrite))), parse)
  {
    var targetPath := ResolveTargetPath(request.path, pathRewrite);
    var outbound := BuildOutbound(request, targetUrl, targetPath);
    var outcome := send(outbound);
    reply := Reply(outcome, parse);
  }

  /**
   * The error statuses: 504 exactly for a timeout (even though it is also a
   * request error), 502 exactly for other transport errors, 500 for
   * anything else and for a JSON body that does not decode.
   */
  lemma ReplyErrorMapping(outcome: Outcome, parse: string -> Option<JsonValue>)
    ensures Reply(outcome, parse) == GatewayError(504, "Service timeout") <==> outcome.Timeout?
    ensures Reply(outcome, parse) == GatewayError(502, "Service unavailable") <==> outcome.TransportError?
    ensures Reply(outcome, parse) == GatewayError(500, "Internal server error") <==>
              outcome.Other? ||
              (outcome.Ok? && StartsWith(ContentType(outcome.response.headers), "application/json")
                           && parse(outcome.response.text).None?)
    ensures Reply(outcome, parse).GatewayError? ==> Reply(outcome, parse).status in {500, 502, 504}
  {
  }

  /**
   * A response that came back is decoded as JSON iff its content type
   * starts with `application/json`, and returned as raw text otherwise.
   */
  lemma ReplyBodyDecision(response: DownstreamResponse, parse: string -> Option<JsonValue>)
    ensures Reply(Ok(response), parse).TextBody? <==> !StartsWith(ContentType(response.headers), "application/json")
    ensures Reply(Ok(response), parse).TextBody? ==> Reply(Ok(response), parse).text == response.text
    ensures Reply(Ok(response), parse).JsonBody? ==> parse(response.text) == Some(Reply(Ok(response), parse).value)
  {
  }

  /** The downstream status code is not looked at: a 404 or a 500 is relayed like a 200. */
  lemma ReplyIgnoresDownstreamStatus(response: DownstreamResponse, status: int, parse: string -> Option<JsonValue>)
    ensures Reply(Ok(response.(status := status)), parse) == Reply(Ok(response), parse)
  {
  }
}
