/**
 * The client's configuration: the credential, the base URL, the API version
 * and the registry of the five endpoint URLs derived from them.
 */
module Config {
  import opened Wrappers

  const API_KEY: string := "your-api-key-here"
  const BASE_URL: string := "https://api.bochaai.com"
  const API_VERSION: string := "v1"

  /** The names under which the client looks its endpoints up. */
  const OPERATIONS: set<string> :=
    {"balance", "web_search", "ai_search", "agent_search", "semantic_rerank"}

  /** What every endpoint URL starts with: `{base}/{version}/`. */
  function Prefix(base: string, version: string): (prefix: string)
  {
    base + "/" + version + "/"
  }

  /** The URL `{base}/{version}/{path}`: the prefix followed by the path, nothing else. */
  function Url(base: string, version: string, path: string): (url: string)
    ensures Prefix(base, version) <= url
    ensures |url| == |Prefix(base, version)| + |path|
    ensures url[|Prefix(base, version)|..] == path
  {
    base + "/" + version + "/" + path
  }

  /** Recovers the path from an endpoint URL; the inverse of Url. */
  function PathOf(base: string, version: string, url: string): (path: Option<string>)
    ensures path.Some? <==> Prefix(base, version) <= url
    ensures path.Some? ==> Url(base, version, path.value) == url
  {
    var prefix := Prefix(base, version);
    if prefix <= url then Some(url[|prefix|..]) else None
  }

  /** Url loses nothing: the path can always be read back. */
  lemma PathOfUrl(base: string, version: string, path: string)
    ensures PathOf(base, version, Url(base, version, path)) == Some(path)
  {
  }

  /** The endpoint registry for a base URL and version. */
  function Endpoints(base: string, version: string): (endpoints: map<string, string>)
    ensures endpoints.Keys == OPERATIONS
    ensures forall op :: op in endpoints ==> Prefix(base, version) <= endpoints[op]
  {
    map[
      "balance" := Url(base, version, "fund/remaining"),
      "web_search" := Url(base, version, "web/search"),
      "ai_search" := Url(base, version, "ai/search"),
      "agent_search" := Url(base, version, "agent/search"),
      "semantic_rerank" := Url(base, version, "semantic/rerank")
    ]
  }

  /** The registry the client uses. */
  const ENDPOINTS: map<string, string> := Endpoints(BASE_URL, API_VERSION)

  /** The path each operation's URL carries after the shared prefix. */
  lemma EndpointPaths(base: string, version: string)
    ensures PathOf(base, version, Endpoints(base, version)["balance"]) == Some("fund/remaining")
    ensures PathOf(base, version, Endpoints(base, version)["web_search"]) == Some("web/search")
    ensures PathOf(base, version, Endpoints(base, version)["ai_search"]) == Some("ai/search")
    ensures PathOf(base, version, Endpoints(base, version)["agent_search"]) == Some("agent/search")
    ensures PathOf(base, version, Endpoints(base, version)["semantic_rerank"]) == Some("semantic/rerank")
  {
  }

  /** No two operations share a URL, whatever the base and version. */
  lemma EndpointsDistinct(base: string, version: string)
    ensures forall op1, op2 ::
      op1 in Endpoints(base, version) && op2 in Endpoints(base, version) && op1 != op2 ==>
        Endpoints(base, version)[op1] != Endpoints(base, version)[op2]
  {
  }

  /** The configured base URL and version give the prefix `https://api.bochaai.com/v1/`. */
  lemma ConfiguredPrefix()
    ensures Prefix(BASE_URL, API_VERSION) == "https://api.bochaai.com/v1/"
  {
  }

  /** The configured registry: the prefix above followed by each operation's path. */
  lemma ConfiguredEndpoints()
    ensures ENDPOINTS["balance"] == "https://api.bochaai.com/v1/" + "fund/remaining"
    ensures ENDPOINTS["web_search"] == "https://api.bochaai.com/v1/" + "web/search"
    ensures ENDPOINTS["ai_search"] == "https://api.bochaai.com/v1/" + "ai/search"
    ensures ENDPOINTS["agent_search"] == "https://api.bochaai.com/v1/" + "agent/search"
    ensures ENDPOINTS["semantic_rerank"] == "https://api.bochaai.com/v1/" + "semantic/rerank"
  {
    ConfiguredPrefix();
  }
}
