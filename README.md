# Bocha API client, modelled in Dafny

This project models the client library for the Bocha search service family. The library has five
operations: balance lookup, web search, AI search, agent search and semantic rerank. The model
covers what the client does around the network call:

- the endpoint registry built from the base URL and the API version (`config.py`);
- the request headers the client fixes at construction;
- the request body each operation builds;
- how the HTTP outcome becomes the value returned to the caller, together with the kind of
  console message printed on the way.

Modules:

- `Wrappers`: `Option`, which stands for Python's `None` sentinel.
- `Json`: decoded JSON values, the `Payload` dict type and Python truthiness (`if include:`).
- `Text`: Python's `pat in text` on strings. The executable `Contains` is proved equal to the
  existential `Occurs`, which says that some position starts a copy of `pat`.
- `Config`: `API_KEY`, `BASE_URL`, `API_VERSION`, `Url`, its inverse `PathOf`, and `Endpoints`
  with the `ENDPOINTS` registry.
- `ApiClient`: the payload builders, the two outcome classifiers (`Classify` for every operation,
  `ClassifyWebSearch` for web search's per-status chain) and the class `BochaApiClient`. Its
  `const headers` field is set by the constructor. Its five methods take the transport as a
  parameter `send: Request -> Outcome`. Each method returns the request it sent, the result
  (`Some(body)` or `None`) and a `Diagnostic` tag for the message it printed.

On these points the model follows the code as written:

- Failures return `None`. There is no typed error value: the status-specific branches of web
  search change only the printed message. `ClassifyWebSearch` is proved to return the same result
  as the generic `Classify` for every outcome.
- Web search treats a 400 response whose text contains neither marker as `None`, and it prints
  nothing. It is not reported as a generic missing parameter.
- Semantic rerank does not validate anything on the client side. An empty query, an empty
  document list or more than 50 documents are all sent to the server.
- Only web search has the per-status table. The other four operations go straight to
  `raise_for_status()`.
- Rerank's `model`, `top_n` and `return_documents` are not named parameters. They are ordinary
  keyword arguments merged into the body.

## Model

| member | source | states |
|---|---|---|
| `Json.Truthy` | api_client.py:47-50 | decides `if include:` and `if exclude:`; the falsy values are exactly None, False, 0, the empty string, the empty list and the empty dict |
| `Text.Contains` | api_client.py:60-62 | decides Python's `pat in text`; a pattern that starts the text is found (so the empty pattern is found in any text), and a found pattern is no longer than the text |
| `Text.ContainsImpliesOccurs` | api_client.py:60-62 | a positive substring test has a position where the text contains the pattern |
| `Text.OccursAtImpliesContains` | api_client.py:60-62 | any position where the pattern occurs makes the substring test succeed |
| `Text.ContainsIff` | api_client.py:60-62 | the executable `in` test is exactly "the pattern occurs somewhere in the text" |
| `Config.Url` | config.py:16-20 | an endpoint URL is the prefix `{base}/{version}/` followed by the path and nothing else |
| `Config.PathOf` | config.py:16-20 | reading the path back from a URL succeeds exactly on URLs with the prefix, and rebuilding gives the URL |
| `Config.PathOfUrl` | config.py:16-20 | building a URL loses nothing: the path is recovered unchanged |
| `Config.Endpoints` | config.py:15-21 | the registry has exactly the five operation keys, and every URL starts with `{base}/{version}/` |
| `Config.EndpointPaths` | config.py:16-20 | the paths are `fund/remaining`, `web/search`, `ai/search`, `agent/search` and `semantic/rerank` |
| `Config.EndpointsDistinct` | config.py:16-20 | for any base and version, no two operations share a URL |
| `Config.ConfiguredPrefix` | config.py:9-12 | the configured base URL and version give the shared prefix `https://api.bochaai.com/v1/` |
| `Config.ConfiguredEndpoints` | config.py:9-21 | each configured URL is `https://api.bochaai.com/v1/` followed by its operation's path |
| `ApiClient.Headers` | api_client.py:7-10 | exactly two headers: `Authorization` is `Bearer ` followed by the key unchanged, and `Content-Type` is `application/json` |
| `ApiClient.ClampCount` | api_client.py:43 | the count sent lies in [1,50]: the input when in range, 1 below, 50 above |
| `ApiClient.WebSearchPayload` | api_client.py:39-50 | keys are query, freshness, summary and count, plus include or exclude exactly when that argument is truthy; the values are the arguments, with the count clamped |
| `ApiClient.WebSearchDefaults` | api_client.py:22 | with only a query, the body is freshness `noLimit`, summary false, count 10 and no filters |
| `ApiClient.EmptyFiltersOmitted` | api_client.py:47-50 | empty include and exclude strings are left out, exactly like absent ones |
| `ApiClient.MergeKeywords` | api_client.py:118-122 | merging a dict literal with `**params` keeps every key of both, and each keeps its value |
| `ApiClient.SearchPayload` | api_client.py:90 | the AI and agent search body holds `query` and every extra keyword, each with its value, and nothing else |
| `ApiClient.RerankPayload` | api_client.py:118-122 | the rerank body holds `query` and `documents` exactly as passed (any JSON value, a list keeps its order), plus every extra keyword and nothing else |
| `ApiClient.RaisesForStatus` | api_client.py:78 | decides when `raise_for_status()` raises: exactly for a 4xx or 5xx status code (400–599) |
| `ApiClient.Classify` | api_client.py:92-96 | the result is the decoded body exactly when a response arrived with a status outside 400–599; otherwise the result is `None` and a request error is printed |
| `ApiClient.ClassifyWebSearch` | api_client.py:59-82 | the result is always that of `Classify`; statuses 400, 401, 403, 429 and 500 give `None` with their own message; other outcomes are handled exactly as `Classify` handles them |
| `ApiClient.WebSearchBadRequest` | api_client.py:59-64 | a 400 gives `None` whatever the text and body say; the message is missing parameter if "Missing parameter" occurs, else missing authorization if "API KEY is missing" occurs, else none |
| `ApiClient.WebSearchMissingParameterFirst` | api_client.py:60-63 | text containing both markers is reported as a missing parameter |
| `ApiClient.WebSearchStatusTable` | api_client.py:65-76 | 401, 403, 429 and 500 give `None` with the invalid-key, balance, rate-limit and server-error messages, whatever the text and body |
| `ApiClient.BochaApiClient.constructor` | api_client.py:6-10 | the headers are built from the configured API key |
| `ApiClient.BochaApiClient.GetBalance` | api_client.py:12-20 | a bodyless GET to the balance endpoint with the client's headers; the outcome is classified by `Classify` |
| `ApiClient.BochaApiClient.WebSearch` | api_client.py:22-82 | a POST to the web search endpoint; the body, built one key at a time, equals `WebSearchPayload`; the outcome is classified by `ClassifyWebSearch` |
| `ApiClient.BochaApiClient.AiSearch` | api_client.py:84-96 | a POST to the AI search endpoint with `SearchPayload`; the outcome is classified by `Classify` |
| `ApiClient.BochaApiClient.AgentSearch` | api_client.py:98-110 | a POST to the agent search endpoint with `SearchPayload`; the outcome is classified by `Classify` |
| `ApiClient.BochaApiClient.SemanticRerank` | api_client.py:112-128 | a POST to the rerank endpoint with `RerankPayload`, with no check of the query or the documents (any JSON value is sent); the outcome is classified by `Classify` |

## Left out

- The HTTP transport (`requests.get` and `requests.post`, DNS, TLS and timeouts) is the parameter
  `send`. A failure before any status is the outcome `NetworkError`.
- JSON serialisation is not modelled. A `TypeError` from `json.dumps` on a value that cannot be
  serialised is outside the model. So is the difference between `data=json.dumps(...)` and `json=`:
  both send the same JSON body.
- Decoding is not modelled. A response carries its decoded body, and a `response.json()` that
  fails to decode is not represented.
- The printed messages are I/O. Only their kind is returned, as the `Diagnostic` tag.
- Floating-point JSON numbers are not in the `Json` datatype.
- Payload dicts are maps, so the insertion order of their keys is not modelled.
- `WebSearch` and `WebSearchPayload` take `count` as an integer, as the docstring of `web_search`
  says. A non-numeric `count` such as `None` makes `max(count, 1)` raise `TypeError`. The `except`
  catches only request exceptions, so that error reaches the caller; this is not modelled.
- The `requires` clauses on `SearchPayload`, `RerankPayload`, `MergeKeywords`, `AiSearch`,
  `AgentSearch` and `SemanticRerank` are Python's own rule that `**params` cannot repeat a named
  parameter. Such a call raises `TypeError` before the method runs. The payload functions exclude
  `query` and `documents`, which are the keys of their dict literals. The three methods also
  exclude `self`, the methods' first named parameter.
- The demo UI (`streamlit_app.py`) is presentation only. The two manual scripts (`test_api.py` and
  `test_web_search.py`) call the live service and assert nothing.
- Freshness format validation, rerank validation, the 50-document limit, typed error results and
  relevance-score bands are not in the code, so they are not in the model.
