/**
 * The Bocha API client: request construction for the five operations and the
 * classification of what came back. The HTTP transport is a parameter
 * (`send`), so each operation returns the request it sent, the value handed
 * to the caller (`None` on failure) and the kind of message it printed.
 */
module ApiClient {
  import opened Wrappers
  import opened Json
  import opened Text
  import Config

  datatype Verb = Get | Post

  /** One outgoing HTTP request; `body` is the JSON payload, absent for GET. */
  datatype Request = Request(verb: Verb, url: string, headers: map<string, string>, body: Option<Payload>)

  /** What the transport reports: a failure before any status, or a response with its decoded body. */
  datatype Outcome =
    | NetworkError
    | Response(status: int, text: string, body: Json)

  /** The kind of console message an operation prints; `Silent` when it prints none. */
  datatype Diagnostic =
    | Silent
    | MissingParameter
    | MissingAuthorization
    | InvalidApiKey
    | InsufficientBalance
    | RateLimited
    | ServerError
    | RequestFailed

  /** What an operation returns to its caller, with the message kind it printed. */
  datatype Classified = Classified(result: Option<Json>, diagnostic: Diagnostic)

  const BEARER: string := "Bearer "
  const JSON_CONTENT_TYPE: string := "application/json"
  const MISSING_PARAMETER_TEXT: string := "Missing parameter"
  const MISSING_API_KEY_TEXT: string := "API KEY is missing"

  /** The headers sent with every request: the bearer credential and the JSON content type. */
  function Headers(apiKey: string): (headers: map<string, string>)
    ensures headers.Keys == {"Authorization", "Content-Type"}
    ensures BEARER <= headers["Authorization"]
    ensures headers["Authorization"][|BEARER|..] == apiKey
    ensures headers["Content-Type"] == JSON_CONTENT_TYPE
  {
    map["Authorization" := BEARER + apiKey, "Content-Type" := JSON_CONTENT_TYPE]
  }

  // ---------------------------------------------------------------------------
  // Payloads

  function Min(a: int, b: int): (m: int) { if a <= b then a else b }

  function Max(a: int, b: int): (m: int) { if a >= b then a else b }

  /** `min(max(count, 1), 50)`: the number of results actually requested. */
  function ClampCount(count: int): (c: int)
    ensures 1 <= c <= 50
    ensures 1 <= count <= 50 ==> c == count
    ensures count < 1 ==> c == 1
    ensures count > 50 ==> c == 50
  {
    Min(Max(count, 1), 50)
  }

  /** The keys web search always sends. */
  const WEB_SEARCH_KEYS: set<string> := {"query", "freshness", "summary", "count"}

  /** The body web search sends; defaults are those of the Python signature. */
  function WebSearchPayload(
    query: Json,
    freshness: Json := JString("noLimit"),
    summary: Json := JBool(false),
    count: int := 10,
    includeSites: Json := JNull,
    excludeSites: Json := JNull
  ): (payload: Payload)
    ensures payload.Keys == WEB_SEARCH_KEYS
                            + (if Truthy(includeSites) then {"include"} else {})
                            + (if Truthy(excludeSites) then {"exclude"} else {})
    ensures payload["query"] == query
    ensures payload["freshness"] == freshness
    ensures payload["summary"] == summary
    ensures payload["count"].JInt? && 1 <= payload["count"].i <= 50
    ensures payload["count"] == JInt(ClampCount(count))
    ensures "include" in payload <==> Truthy(includeSites)
    ensures "include" in payload ==> payload["include"] == includeSites
    ensures "exclude" in payload <==> Truthy(excludeSites)
    ensures "exclude" in payload ==> payload["exclude"] == excludeSites
  {
    var always := map[
      "query" := query,
      "freshness" := freshness,
      "summary" := summary,
      "count" := JInt(ClampCount(count))
    ];
    var withInclude := if Truthy(includeSites) then always["include" := includeSites] else always;
    if Truthy(excludeSites) then withInclude["exclude" := excludeSites] else withInclude
  }

  /** With only a query, the body holds the documented defaults and no site filters. */
  lemma WebSearchDefaults(query: Json)
    ensures WebSearchPayload(query) ==
      map["query" := query, "freshness" := JString("noLimit"), "summary" := JBool(false), "count" := JInt(10)]
  {
  }

  /** An empty filter string is left out, exactly as an absent one. */
  lemma EmptyFiltersOmitted(query: Json, freshness: Json, summary: Json, count: int)
    ensures WebSearchPayload(query, freshness, summary, count, JString(""), JString(""))
         == WebSearchPayload(query, freshness, summary, count, JNull, JNull)
  {
  }

  /**
   * A fixed dict literal merged with `**params`. Python rejects a call whose
   * keyword arguments repeat a named parameter, so the key sets are disjoint.
   */
  function MergeKeywords(named: Payload, params: Payload): (payload: Payload)
    requires named.Keys !! params.Keys
    ensures payload.Keys == named.Keys + params.Keys
    ensures forall k :: k in named ==> payload[k] == named[k]
    ensures forall k :: k in params ==> payload[k] == params[k]
  {
    named + params
  }

  /** `{'query': query, **params}`, the body of AI search and agent search. */
  function SearchPayload(query: Json, params: Payload): (payload: Payload)
    requires "query" !in params
    ensures payload.Keys == {"query"} + params.Keys
    ensures payload["query"] == query
    ensures forall k :: k in params ==> payload[k] == params[k]
  {
    MergeKeywords(map["query" := query], params)
  }

  /** `{'query': query, 'documents': documents, **params}`, the body of semantic rerank. */
  function RerankPayload(query: Json, documents: Json, params: Payload): (payload: Payload)
    requires "query" !in params && "documents" !in params
    ensures payload.Keys == {"query", "documents"} + params.Keys
    ensures payload["query"] == query
    ensures payload["documents"] == documents
    ensures forall k :: k in params ==> payload[k] == params[k]
  {
    MergeKeywords(map["query" := query, "documents" := documents], params)
  }

  // ---------------------------------------------------------------------------
  // Outcomes

  /** `raise_for_status()` raises for client errors (4xx) and server errors (5xx). */
  predicate RaisesForStatus(status: int)
    ensures RaisesForStatus(status) <==> status >= 0 && (status / 100 == 4 || status / 100 == 5)
  {
    400 <= status < 600
  }

  /**
   * The shared tail of every operation: `raise_for_status()` then `response.json()`,
   * any request exception printed and turned into `None`.
   */
  function Classify(outcome: Outcome): (c: Classified)
    ensures c.result.Some? <==> outcome.Response? && !(400 <= outcome.status < 600)
    ensures c.result.Some? ==> c.result.value == outcome.body
    ensures c.diagnostic == (if c.result.None? then RequestFailed else Silent)
  {
    match outcome
    case NetworkError => Classified(None, RequestFailed)
    case Response(status, _, body) =>
      if RaisesForStatus(status) then Classified(None, RequestFailed) else Classified(Some(body), Silent)
  }

  /** The status codes web search handles before `raise_for_status()`. */
  const HANDLED_STATUSES: set<int> := {400, 401, 403, 429, 500}

  /** Web search's `if/elif` chain over the status, falling through to Classify. */
  function ClassifyWebSearch(outcome: Outcome): (c: Classified)
    ensures c.result == Classify(outcome).result
    ensures outcome.Response? && outcome.status in HANDLED_STATUSES ==>
              c.result.None? && c.diagnostic != RequestFailed
    ensures !(outcome.Response? && outcome.status in HANDLED_STATUSES) ==> c == Classify(outcome)
  {
    if outcome.NetworkError? then Classify(outcome)
    else if outcome.status == 400 then
      if Contains(outcome.text, MISSING_PARAMETER_TEXT) then Classified(None, MissingParameter)
      else if Contains(outcome.text, MISSING_API_KEY_TEXT) then Classified(None, MissingAuthorization)
      else Classified(None, Silent)
    else if outcome.status == 401 then Classified(None, InvalidApiKey)
    else if outcome.status == 403 then Classified(None, InsufficientBalance)
    else if outcome.status == 429 then Classified(None, RateLimited)
    else if outcome.status == 500 then Classified(None, ServerError)
    else Classify(outcome)
  }

  /**
   * A 400 response yields `None` whatever its text and body; the message is chosen
   * by the first matching substring test, the "Missing parameter" one first.
   */
  lemma WebSearchBadRequest(text: string, body: Json)
    ensures ClassifyWebSearch(Response(400, text, body)).result == None
    ensures ClassifyWebSearch(Response(400, text, body)).diagnostic ==
      if Occurs(text, MISSING_PARAMETER_TEXT) then MissingParameter
      else if Occurs(text, MISSING_API_KEY_TEXT) then MissingAuthorization
      else Silent
  {
    ContainsIff(text, MISSING_PARAMETER_TEXT);
    ContainsIff(text, MISSING_API_KEY_TEXT);
  }

  /** Text carrying both markers is reported as a missing parameter. */
  lemma WebSearchMissingParameterFirst(text: string, body: Json)
    requires Occurs(text, MISSING_PARAMETER_TEXT) && Occurs(text, MISSING_API_KEY_TEXT)
    ensures ClassifyWebSearch(Response(400, text, body)).diagnostic == MissingParameter
  {
    WebSearchBadRequest(text, body);
  }

  /** 401, 403, 429 and 500 each have their own message, independent of text and body. */
  lemma WebSearchStatusTable(status: int, text: string, body: Json)
    ensures status == 401 ==> ClassifyWebSearch(Response(status, text, body)) == Classified(None, InvalidApiKey)
    ensures status == 403 ==> ClassifyWebSearch(Response(status, text, body)) == Classified(None, InsufficientBalance)
    ensures status == 429 ==> ClassifyWebSearch(Response(status, text, body)) == Classified(None, RateLimited)
    ensures status == 500 ==> ClassifyWebSearch(Response(status, text, body)) == Classified(None, ServerError)
  {
  }

  // ---------------------------------------------------------------------------
  // The client

  class BochaApiClient {
    /** Set once by the constructor; no operation changes it. */
    const headers: map<string, string>

    constructor ()
      ensures headers == Headers(Config.API_KEY)
    {
      headers := Headers(Config.API_KEY);
    }

    /** GET the balance endpoint, without a body. */
    method GetBalance(send: Request -> Outcome)
      returns (sent: Request, result: Option<Json>, diagnostic: Diagnostic)
      ensures sent == Request(Get, Config.ENDPOINTS["balance"], headers, None)
      ensures Classified(result, diagnostic) == Classify(send(sent))
    {
      sent := Request(Get, Config.ENDPOINTS["balance"], headers, None);
      var c := Classify(send(sent));
      result, diagnostic := c.result, c.diagnostic;
    }

    /** POST a web search; the payload gets its optional keys one at a time. */
    method WebSearch(
      send: Request -> Outcome,
      query: Json,
      freshness: Json := JString("noLimit"),
      summary: Json := JBool(false),
      count: int := 10,
      includeSites: Json := JNull,
      excludeSites: Json := JNull
    ) returns (sent: Request, result: Option<Json>, diagnostic: Diagnostic)
      ensures sent == Request(Post, Config.ENDPOINTS["web_search"], headers,
                              Some(WebSearchPayload(query, freshness, summary, count, includeSites, excludeSites)))
      ensures Classified(result, diagnostic) == ClassifyWebSearch(send(sent))
    {
      var payload: Payload := map[
        "query" := query,
        "freshness" := freshness,
        "summary" := summary,
        "count" := JInt(Min(Max(count, 1), 50))
      ];
      if Truthy(includeSites) {
        payload := payload["include" := includeSites];
      }
      if Truthy(excludeSites) {
        payload := payload["exclude" := excludeSites];
      }
      sent := Request(Post, Config.ENDPOINTS["web_search"], headers, Some(payload));
      var c := ClassifyWebSearch(send(sent));
      result, diagnostic := c.result, c.diagnostic;
    }

    /** POST an AI search with the caller's extra keyword arguments. */
    method AiSearch(send: Request -> Outcome, query: Json, params: Payload)
      returns (sent: Request, result: Option<Json>, diagnostic: Diagnostic)
      requires "query" !in params && "self" !in params
      ensures sent == Request(Post, Config.ENDPOINTS["ai_search"], headers, Some(SearchPayload(query, params)))
      ensures Classified(result, diagnostic) == Classify(send(sent))
    {
      sent := Request(Post, Config.ENDPOINTS["ai_search"], headers, Some(map["query" := query] + params));
      var c := Classify(send(sent));
      result, diagnostic := c.result, c.diagnostic;
    }

    /** POST an agent search with the caller's extra keyword arguments. */
    method AgentSearch(send: Request -> Outcome, query: Json, params: Payload)
      returns (sent: Request, result: Option<Json>, diagnostic: Diagnostic)
      requires "query" !in params && "self" !in params
      ensures sent == Request(Post, Config.ENDPOINTS["agent_search"], headers, Some(SearchPayload(query, params)))
      ensures Classified(result, diagnostic) == Classify(send(sent))
    {
      sent := Request(Post, Config.ENDPOINTS["agent_search"], headers, Some(map["query" := query] + params));
      var c := Classify(send(sent));
      result, diagnostic := c.result, c.diagnostic;
    }

    /** POST a rerank request; neither the query nor the documents are checked first. */
    method SemanticRerank(send: Request -> Outcome, query: Json, documents: Json, params: Payload)
      returns (sent: Request, result: Option<Json>, diagnostic: Diagnostic)
      requires "query" !in params && "documents" !in params && "self" !in params
      ensures sent == Request(Post, Config.ENDPOINTS["semantic_rerank"], headers,
                              Some(RerankPayload(query, documents, params)))
      ensures Classified(result, diagnostic) == Classify(send(sent))
    {
      var payload := map["query" := query, "documents" := documents] + params;
      sent := Request(Post, Config.ENDPOINTS["semantic_rerank"], headers, Some(payload));
      var c := Classify(send(sent));
      result, diagnostic := c.result, c.diagnostic;
    }
  }
}
