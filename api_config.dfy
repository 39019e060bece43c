/** Endpoint configuration: hosts, URLs, timeouts, headers and environment flags. */
module ApiConfig {
  import opened Wrappers

  /** The `process.env` variables the configuration reads; `None` is an unset variable. */
  datatype Env = Env(
    nodeEnv: Option<string>,             // NODE_ENV
    searchApiHost: Option<string>,       // REACT_APP_SEARCH_API_HOST
    searchApiPort: Option<string>,       // REACT_APP_SEARCH_API_PORT
    iaApiHost: Option<string>,           // REACT_APP_IA_API_HOST
    iaApiPort: Option<string>,           // REACT_APP_IA_API_PORT
    productsApiUrl: Option<string>,      // REACT_APP_PRODUCTS_API_URL
    searchApiUrl: Option<string>,        // REACT_APP_SEARCH_API_URL
    apiKey: Option<string>,              // REACT_APP_API_KEY
    enableMock: Option<string>,          // REACT_APP_ENABLE_MOCK
    enableApiLogging: Option<string>)    // REACT_APP_ENABLE_API_LOGGING

  /** `process.env.X || fallback`: an unset or empty variable gives the fallback. */
  function EnvOr(v: Option<string>, fallback: string): (r: string)
    ensures v.Some? && v.value != "" ==> r == v.value
    ensures v.None? || v.value == "" ==> r == fallback
  {
    if v.Some? && v.value != "" then v.value else fallback
  }

  datatype HostConfig = HostConfig(host: string, port: string, path: string)

  /** `API_HOSTS.SEARCH` */
  function SearchHost(env: Env): HostConfig {
    HostConfig(EnvOr(env.searchApiHost, "192.168.66.194"), EnvOr(env.searchApiPort, "5040"), "/apish")
  }

  /** `API_HOSTS.IA` */
  function IaHost(env: Env): HostConfig {
    HostConfig(EnvOr(env.iaApiHost, "192.168.66.194"), EnvOr(env.iaApiPort, "5030"), "/api")
  }

  /** `API_HOSTS.PRODUCTS.URL` */
  function ProductsUrl(env: Env): string {
    EnvOr(env.productsApiUrl, "https://api.example.com/products")
  }

  function HttpUrl(h: HostConfig): string {
    "http://" + h.host + ":" + h.port + h.path
  }

  /** `API_ENDPOINTS` */
  function ApiEndpoints(env: Env): map<string, string> {
    map["SEARCH" := HttpUrl(SearchHost(env)), "IA" := HttpUrl(IaHost(env)), "PRODUCTS" := ProductsUrl(env)]
  }

  /** `API_TIMEOUTS`, in milliseconds. */
  const ApiTimeouts: map<string, int> :=
    map["SEARCH" := 10000, "IA" := 8000, "PRODUCTS" := 15000, "DEFAULT" := 10000]

  /** `API_HEADERS.JSON`, the only header set the modelled code uses. */
  const JsonHeaders: map<string, string> := map["Content-Type" := "application/json"]

  /** `API_AUTH.API_KEY` */
  function ApiKey(env: Env): string {
    EnvOr(env.apiKey, "")
  }

  /** What `getEndpointConfig` returns; `url` is `None` for an endpoint name the table lacks. */
  datatype EndpointConfig = EndpointConfig(url: Option<string>, timeout: int, headers: map<string, string>)

  /** The configuration `getEndpointConfig(endpoint)` builds. */
  function EndpointConfigOf(env: Env, endpoint: string): (c: EndpointConfig)
    ensures endpoint in ApiEndpoints(env) ==> c.url == Some(ApiEndpoints(env)[endpoint])
    ensures endpoint !in ApiEndpoints(env) ==> c.url == None
    ensures c.timeout == (if endpoint in ApiTimeouts then ApiTimeouts[endpoint] else ApiTimeouts["DEFAULT"])
    ensures c.timeout in {8000, 10000, 15000}
    ensures "Content-Type" in c.headers && c.headers["Content-Type"] == "application/json"
    ensures "Authorization" in c.headers <==> ApiKey(env) != ""
    ensures "Authorization" in c.headers ==> c.headers["Authorization"] == "Bearer " + ApiKey(env)
    ensures c.headers.Keys <= {"Content-Type", "Authorization"}
  {
    var listed := if endpoint in ApiTimeouts then ApiTimeouts[endpoint] else 0;
    var base := JsonHeaders;
    EndpointConfig(
      if endpoint in ApiEndpoints(env) then Some(ApiEndpoints(env)[endpoint]) else None,
      if listed != 0 then listed else ApiTimeouts["DEFAULT"],
      if ApiKey(env) != "" then base["Authorization" := "Bearer " + ApiKey(env)] else base)
  }

  /** `getEndpointConfig`: builds a fresh configuration, then adds the Authorization header to its copy
      of the JSON headers. Maps are values here, so the shared `JsonHeaders` table cannot change. */
  method GetEndpointConfig(env: Env, endpoint: string) returns (config: EndpointConfig)
    ensures config == EndpointConfigOf(env, endpoint)
  {
    var endpoints := ApiEndpoints(env);
    var timeout := if endpoint in ApiTimeouts then ApiTimeouts[endpoint] else 0;
    if timeout == 0 {
      timeout := ApiTimeouts["DEFAULT"];
    }
    config := EndpointConfig(if endpoint in endpoints then Some(endpoints[endpoint]) else None, timeout, JsonHeaders);
    if ApiKey(env) != "" {
      config := config.(headers := config.headers["Authorization" := "Bearer " + ApiKey(env)]);
    }
  }

  /** The timeout table: SEARCH 10000, IA 8000, PRODUCTS 15000, any other name the default 10000. */
  lemma EndpointTimeouts(env: Env, endpoint: string)
    ensures EndpointConfigOf(env, "SEARCH").timeout == 10000
    ensures EndpointConfigOf(env, "IA").timeout == 8000
    ensures EndpointConfigOf(env, "PRODUCTS").timeout == 15000
    ensures endpoint !in {"SEARCH", "IA", "PRODUCTS"} ==> EndpointConfigOf(env, endpoint).timeout == 10000
  {
  }

  /** The search endpoint URL is `http://HOST:PORT/apish`. */
  lemma SearchEndpointUrl(env: Env)
    ensures EndpointConfigOf(env, "SEARCH").url
         == Some("http://" + SearchHost(env).host + ":" + SearchHost(env).port + "/apish")
  {
  }

  /** `ENVIRONMENT_CONFIG` */
  datatype EnvironmentConfig = EnvironmentConfig(
    isDevelopment: bool, isProduction: bool, enableMockData: bool, enableLogging: bool)

  function EnvironmentConfigOf(env: Env): (c: EnvironmentConfig)
    ensures !(c.isDevelopment && c.isProduction)
    ensures c.isProduction <==> env.nodeEnv == Some("production")
    ensures c.enableLogging <==> env.enableApiLogging != Some("false")
    ensures c.enableMockData <==> env.enableMock == Some("true")
  {
    EnvironmentConfig(
      env.nodeEnv == Some("development"),
      env.nodeEnv == Some("production"),
      env.enableMock == Some("true"),
      env.enableApiLogging != Some("false"))
  }
}
