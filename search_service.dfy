/** The dual-strategy search: a query and optional filters become a list of SKUs. */
module SearchService {
  import opened Wrappers
  import opened Json
  import opened ApiUtils
  import opened ApiConfig

  /** The network as one search sees it: the answer to a POST, given the request and the
      ordinal (from 0) of that call within the search. `Err` carries the transport error message. */
  type Network = (PostRequest, nat) -> Result<Json, string>

  /** What a strategy's `catch` can receive. `Unknown` is the `undefined` a retry loop rethrows
      when it ran no attempt. */
  datatype Failure = Transport(message: string) | Business(message: string) | Unknown

  /** Both strategies retry twice with one second between attempts. */
  const SearchAttempts: int := 2
  const SearchDelayMs: int := 1000

  /** The SKUs returned outside production when both strategies failed. */
  const SampleSkus: seq<string> := ["TE-24155", "TE-27535", "LG-24MS500"]

  /** Strategy A's request: the shared payload builder's JSON text, default options. */
  function LegacyRequest(env: Env, term: string, filtros: Option<map<string, Json>>): PostRequest {
    var h := SearchHost(env);
    BuildPostRequest(h.host, h.port, h.path, Text(GenerateApiPayload(term, Some("Y"), filtros)), NoOptions)
  }

  /** Strategy B's inline request object, built without the shared payload builder. */
  function DirectRequestData(term: string, filtros: Option<map<string, Json>>): Json {
    var defaults := map[
      "linea_de_producto" := Str(""), "marca_de_producto" := Str(""),
      "almacen_codigo" := Str(""), "tipo_producto" := Str("")];
    Obj(map["pregunta" := Str(term), "buscador" := Str("Y"), "filtros" := Obj(defaults + filtros.GetOr(map[]))])
  }

  /** Strategy B's request: the inline object, with the SEARCH endpoint's timeout and headers. */
  function DirectRequest(env: Env, term: string, filtros: Option<map<string, Json>>): PostRequest {
    var h := SearchHost(env);
    var config := EndpointConfigOf(env, "SEARCH");
    BuildPostRequest(h.host, h.port, h.path, Value(DirectRequestData(term, filtros)), Options(Some(config.timeout), config.headers))
  }

  /** `callApiPost` on a built request: the decoded body, or the transport error it rethrows. */
  function Post(net: Network, request: PostRequest, call: nat): Result<Json, Failure> {
    match net(request, call)
    case Ok(body) => Ok(body)
    case Err(message) => Err(Transport(message))
  }

  /** Strategy A's operation: its attempt `i` is call number `i` of the search. */
  function LegacyOp(env: Env, term: string, filtros: Option<map<string, Json>>, net: Network): nat -> Result<Json, Failure> {
    (i: nat) => Post(net, LegacyRequest(env, term, filtros), i)
  }

  /** Strategy B's operation: its calls follow the `offset` calls strategy A made. */
  function DirectOp(env: Env, term: string, filtros: Option<map<string, Json>>, net: Network, offset: nat): nat -> Result<Json, Failure> {
    (i: nat) => Post(net, DirectRequest(env, term, filtros), offset + i)
  }

  /** Which `return` of `searchProducts` produced the result. */
  datatype Path = Legacy | Direct | DirectPartial | EnvironmentFallback

  /** The result of one search with its trace: the SKUs returned, the path taken, the error
      strategy A left in `migratedError`, and each strategy's retry run (`None`: never started). */
  datatype Resolution = Resolution(
    skus: Json, path: Path, migratedError: Option<Failure>,
    legacy: Run<Json, Failure>, direct: Option<Run<Json, Failure>>)

  /** The value a `catch` receives from an exhausted retry loop. */
  function Thrown(e: Option<Failure>): Failure {
    e.GetOr(Unknown)
  }

  /** The total-failure answer: nothing in production, sample SKUs otherwise. */
  function EnvironmentFallbackSkus(env: Env): Json {
    if EnvironmentConfigOf(env).isProduction then Arr([]) else Strings(SampleSkus)
  }

  /** The reference behaviour of `searchProducts(term, filtros)`. */
  function Resolve(env: Env, term: string, filtros: Option<map<string, Json>>, net: Network): (r: Resolution)
    ensures r.path == Legacy <==> r.direct.None?
    ensures r.legacy.calls <= 2 && (r.direct.Some? ==> r.direct.value.calls <= 2)
    ensures r.path == EnvironmentFallback ==> r.skus == EnvironmentFallbackSkus(env)
    ensures r.path == Legacy ==> r.migratedError.None?
  {
    var legacy := Retry(LegacyOp(env, term, filtros, net), SearchAttempts, SearchDelayMs);
    var a := if legacy.result.Ok? then Some(Validate(legacy.result.value)) else None;
    if a.Some? && a.value.isValid then
      Resolution(a.value.skus, Legacy, None, legacy, None)
    else
      var migratedError :=
        if a.None? then Some(Thrown(legacy.result.error))
        else if a.value.hasError then Some(Business(a.value.errorMessage.value))
        else None;
      DirectStage(env, term, filtros, net, legacy, migratedError)
  }

  /** Strategy B and the final `catch`, once strategy A has run as `legacy` and left `migratedError`. */
  function DirectStage(env: Env, term: string, filtros: Option<map<string, Json>>, net: Network,
                       legacy: Run<Json, Failure>, migratedError: Option<Failure>): (r: Resolution)
    ensures r.path != Legacy && r.direct.Some? && r.direct.value.calls <= 2
    ensures r.legacy == legacy && r.migratedError == migratedError
    ensures r.path == EnvironmentFallback ==> r.skus == EnvironmentFallbackSkus(env)
  {
    var direct := Retry(DirectOp(env, term, filtros, net, legacy.calls), SearchAttempts, SearchDelayMs);
    var b := if direct.result.Ok? then Some(Validate(direct.result.value)) else None;
    if b.Some? && b.value.isValid then
      Resolution(b.value.skus, Direct, migratedError, legacy, Some(direct))
    else if b.Some? && !b.value.hasError then
      Resolution(b.value.skus, DirectPartial, migratedError, legacy, Some(direct))
    else
      Resolution(EnvironmentFallbackSkus(env), EnvironmentFallback, migratedError, legacy, Some(direct))
  }

  /** `searchProducts`: strategy A through the retry loop; on a thrown, rejected or empty answer,
      strategy B; an error out of B becomes the environment fallback. It never throws. */
  method SearchProducts(env: Env, term: string, filtros: Option<map<string, Json>>, net: Network) returns (r: Resolution)
    ensures r == Resolve(env, term, filtros, net)
  {
    var migratedError: Option<Failure> := None;

    // Strategy 1: the shared payload builder, with retries.
    var legacy := RetryApiCall(LegacyOp(env, term, filtros, net), SearchAttempts, SearchDelayMs);
    if legacy.result.Ok? {
      var validation := ValidateSearchResponse(legacy.result.value);
      if validation.isValid {
        return Resolution(validation.skus, Legacy, None, legacy, None);
      }
      if validation.hasError {
        migratedError := Some(Business(validation.errorMessage.value));
      }
    } else {
      migratedError := Some(Thrown(legacy.result.error));
    }

    r := DirectSearch(env, term, filtros, net, legacy, migratedError);
  }

  /** The second `try` of `searchProducts` with its `catch`: strategy B, then the fallback. */
  method DirectSearch(env: Env, term: string, filtros: Option<map<string, Json>>, net: Network,
                      legacy: Run<Json, Failure>, migratedError: Option<Failure>) returns (r: Resolution)
    ensures r == DirectStage(env, term, filtros, net, legacy, migratedError)
  {
    var direct := RetryApiCall(DirectOp(env, term, filtros, net, legacy.calls), SearchAttempts, SearchDelayMs);
    if direct.result.Ok? {
      var validation := ValidateSearchResponse(direct.result.value);
      if validation.isValid {
        return Resolution(validation.skus, Direct, migratedError, legacy, Some(direct));
      }
      if !validation.hasError {
        return Resolution(validation.skus, DirectPartial, migratedError, legacy, Some(direct));
      }
    }
    r := Resolution(EnvironmentFallbackSkus(env), EnvironmentFallback, migratedError, legacy, Some(direct));
  }

  /** A valid answer to strategy A is returned as is, and strategy B is never started. */
  lemma LegacySuccessSkipsDirect(env: Env, term: string, filtros: Option<map<string, Json>>, net: Network)
    requires var run := Retry(LegacyOp(env, term, filtros, net), SearchAttempts, SearchDelayMs);
      run.result.Ok? && Validate(run.result.value).isValid
    ensures var run := Retry(LegacyOp(env, term, filtros, net), SearchAttempts, SearchDelayMs);
      var r := Resolve(env, term, filtros, net);
      r.skus == Validate(run.result.value).skus && r.path == Legacy && r.direct.None?
  {
  }

  /** A business rejection or an exhausted retry in strategy A is caught, recorded in
      `migratedError`, and strategy B runs. */
  lemma LegacyFailureFallsThrough(env: Env, term: string, filtros: Option<map<string, Json>>, net: Network)
    requires var run := Retry(LegacyOp(env, term, filtros, net), SearchAttempts, SearchDelayMs);
      run.result.Err? || Validate(run.result.value).hasError
    ensures var run := Retry(LegacyOp(env, term, filtros, net), SearchAttempts, SearchDelayMs);
      (run.result.Err? ==>
         run.calls == 2 &&
         Resolve(env, term, filtros, net) == DirectStage(env, term, filtros, net, run, Some(Thrown(run.result.error)))) &&
      (run.result.Ok? ==>
         Resolve(env, term, filtros, net) == DirectStage(env, term, filtros, net, run, Some(Business(RejectedMessage))))
  {
  }

  /** An answer to strategy A that is neither valid nor an error reaches strategy B without
      anything being thrown: `migratedError` stays null. */
  lemma LegacyEmptyAnswerFallsThroughSilently(env: Env, term: string, filtros: Option<map<string, Json>>, net: Network)
    requires var run := Retry(LegacyOp(env, term, filtros, net), SearchAttempts, SearchDelayMs);
      run.result.Ok? && !Validate(run.result.value).isValid && !Validate(run.result.value).hasError
    ensures var run := Retry(LegacyOp(env, term, filtros, net), SearchAttempts, SearchDelayMs);
      Resolve(env, term, filtros, net) == DirectStage(env, term, filtros, net, run, None)
  {
  }

  /** Once strategy B runs: a valid answer is returned; an answer neither valid nor an error is
      returned as a partial result; a rejection, like an exhausted retry, is caught by the same
      `catch` and becomes the environment fallback. */
  lemma DirectOutcomes(env: Env, term: string, filtros: Option<map<string, Json>>, net: Network,
                       legacy: Run<Json, Failure>, migratedError: Option<Failure>)
    ensures var r := DirectStage(env, term, filtros, net, legacy, migratedError);
      var run := Retry(DirectOp(env, term, filtros, net, legacy.calls), SearchAttempts, SearchDelayMs);
      r.direct == Some(run) &&
      (run.result.Ok? && Validate(run.result.value).isValid ==> r.path == Direct && r.skus == Validate(run.result.value).skus) &&
      (run.result.Ok? && !Validate(run.result.value).isValid && !Validate(run.result.value).hasError ==>
         r.path == DirectPartial && r.skus == Validate(run.result.value).skus) &&
      (run.result.Ok? && Validate(run.result.value).hasError ==> r.path == EnvironmentFallback) &&
      (run.result.Err? ==> r.path == EnvironmentFallback)
  {
  }

  /** After total failure the answer is `[]` in production and exactly the three sample SKUs otherwise. */
  lemma TotalFailureAnswer(env: Env)
    ensures env.nodeEnv == Some("production") ==> EnvironmentFallbackSkus(env) == Arr([])
    ensures env.nodeEnv != Some("production") ==>
      EnvironmentFallbackSkus(env) == Arr([Str("TE-24155"), Str("TE-27535"), Str("LG-24MS500")])
  {
    assert Strings(SampleSkus).items == [Str("TE-24155"), Str("TE-27535"), Str("LG-24MS500")];
  }

  /** Strategy A's transport failing on both attempts hands over to strategy B after two calls,
      with the second error in `migratedError`. */
  lemma LegacyExhausted(env: Env, term: string, filtros: Option<map<string, Json>>, net: Network)
    requires net(LegacyRequest(env, term, filtros), 0).Err? && net(LegacyRequest(env, term, filtros), 1).Err?
    ensures var run := Retry(LegacyOp(env, term, filtros, net), SearchAttempts, SearchDelayMs);
      run.calls == 2 && run.result.Err? &&
      Resolve(env, term, filtros, net) == DirectStage(env, term, filtros, net, run, Some(Thrown(run.result.error)))
  {
    var op := LegacyOp(env, term, filtros, net);
    assert op(0).Err? && op(1).Err?;
    RethrowsLastError(op, SearchDelayMs);
    LegacyFailureFallsThrough(env, term, filtros, net);
  }

  /** A valid answer to strategy B's first call is returned after that one call. */
  lemma DirectFirstAnswerValid(env: Env, term: string, filtros: Option<map<string, Json>>, net: Network,
                               legacy: Run<Json, Failure>, migratedError: Option<Failure>, answer: Json)
    requires net(DirectRequest(env, term, filtros), legacy.calls) == Ok(answer) && Validate(answer).isValid
    ensures var r := DirectStage(env, term, filtros, net, legacy, migratedError);
      r.path == Direct && r.skus == Validate(answer).skus && r.direct.value.calls == 1
  {
    var dop := DirectOp(env, term, filtros, net, legacy.calls);
    assert Post(net, DirectRequest(env, term, filtros), legacy.calls) == Ok(answer);
    assert dop(0) == Ok(answer);
    assert FirstOk(dop, 0, 2) == 0;
    DirectOutcomes(env, term, filtros, net, legacy, migratedError);
  }

  /** Strategy A's transport fails on every attempt, strategy B answers `{rpta: {ids: L}}` with a
      non-empty `L`: `L` is returned, after two calls for A and one for B. */
  lemma DirectRescuesFailedLegacy(env: Env, term: string, filtros: Option<map<string, Json>>, net: Network, ids: Json)
    requires IsNonEmptyArray(ids)
    requires net(LegacyRequest(env, term, filtros), 0).Err? && net(LegacyRequest(env, term, filtros), 1).Err?
    requires net(DirectRequest(env, term, filtros), 2) == Ok(Obj(map["rpta" := Obj(map["ids" := ids])]))
    ensures var r := Resolve(env, term, filtros, net);
      r.skus == ids && r.path == Direct && r.legacy.calls == 2 && r.direct.value.calls == 1
  {
    LegacyExhausted(env, term, filtros, net);
    var legacy := Retry(LegacyOp(env, term, filtros, net), SearchAttempts, SearchDelayMs);
    var answer := Obj(map["rpta" := Obj(map["ids" := ids])]);
    AnswerWithIdsIsValid(answer, ids);
    DirectFirstAnswerValid(env, term, filtros, net, legacy, Some(Thrown(legacy.result.error)), answer);
  }

  /** `{rpta: {ids: L}}` with a non-empty array `L` validates to `L`. */
  lemma AnswerWithIdsIsValid(answer: Json, ids: Json)
    requires IsNonEmptyArray(ids) && answer == Obj(map["rpta" := Obj(map["ids" := ids])])
    ensures Validate(answer).isValid && Validate(answer).skus == ids
  {
    var rpta := Member(answer, "rpta");
    assert PrimaryIds(answer) == Undefined;
    assert FirstNonEmptyArray(AlternativePaths(rpta)) == Some(0);
  }

  /** Both strategies post to `http://HOST:PORT/apish` with a 10000 ms timeout. */
  lemma StrategiesShareTarget(env: Env, term: string, filtros: Option<map<string, Json>>)
    ensures LegacyRequest(env, term, filtros).url == DirectRequest(env, term, filtros).url
    ensures LegacyRequest(env, term, filtros).url == "http://" + SearchHost(env).host + ":" + SearchHost(env).port + "/apish"
    ensures LegacyRequest(env, term, filtros).timeout == DirectRequest(env, term, filtros).timeout == 10000
  {
  }

  /** Strategy A sends the JSON headers, strategy B the SEARCH endpoint's headers. */
  lemma StrategyHeaders(env: Env, term: string, filtros: Option<map<string, Json>>)
    ensures DirectRequest(env, term, filtros).headers == EndpointConfigOf(env, "SEARCH").headers
    ensures LegacyRequest(env, term, filtros).headers == JsonHeaders
  {
    var h := SearchHost(env);
    var config := EndpointConfigOf(env, "SEARCH");
    var d := DirectRequest(env, term, filtros);
    assert d == BuildPostRequest(h.host, h.port, h.path, Value(DirectRequestData(term, filtros)), Options(Some(config.timeout), config.headers));
    assert d.headers == map["Content-Type" := "application/json"] + config.headers;
    DefaultContentTypeAbsorbed(config.headers);
  }

  /** The text strategy A sends parses to the very object strategy B builds inline. */
  lemma StrategiesSendSameBody(env: Env, term: string, filtros: Option<map<string, Json>>)
    ensures LegacyRequest(env, term, filtros).body == DirectRequest(env, term, filtros).body
  {
    assert DefaultFiltros == map[
      "linea_de_producto" := Str(""), "marca_de_producto" := Str(""),
      "almacen_codigo" := Str(""), "tipo_producto" := Str("")];
  }

  /** Spreading headers that already carry the JSON content type over the default changes nothing. */
  lemma DefaultContentTypeAbsorbed(headers: map<string, string>)
    requires "Content-Type" in headers && headers["Content-Type"] == "application/json"
    ensures map["Content-Type" := "application/json"] + headers == headers
  {
  }

  /* ---------------------------------------------------------------- wrappers */

  function CategoryFilter(categoria: string): Option<map<string, Json>> {
    Some(map["linea_de_producto" := Str(categoria)])
  }

  function BrandFilter(marca: string): Option<map<string, Json>> {
    Some(map["marca_de_producto" := Str(marca)])
  }

  /** `searchProductsWithFilters` is `searchProducts` itself. */
  method SearchProductsWithFilters(env: Env, term: string, filtros: Option<map<string, Json>>, net: Network) returns (r: Resolution)
    ensures r == Resolve(env, term, filtros, net)
  {
    r := SearchProducts(env, term, filtros, net);
  }

  /** `searchProductsByCategory`: searches with only `linea_de_producto` set. */
  method SearchProductsByCategory(env: Env, term: string, categoria: string, net: Network) returns (r: Resolution)
    ensures r == Resolve(env, term, CategoryFilter(categoria), net)
  {
    r := SearchProducts(env, term, CategoryFilter(categoria), net);
  }

  /** `searchProductsByBrand`: searches with only `marca_de_producto` set. */
  method SearchProductsByBrand(env: Env, term: string, marca: string, net: Network) returns (r: Resolution)
    ensures r == Resolve(env, term, BrandFilter(marca), net)
  {
    r := SearchProducts(env, term, BrandFilter(marca), net);
  }

  /** The category search sends all four filters, empty except `linea_de_producto`; the brand
      search, empty except `marca_de_producto`. */
  lemma SingleFacetFilters(env: Env, term: string, value: string, k: string)
    requires k in FilterKeys
    ensures var f := Member(LegacyRequest(env, term, CategoryFilter(value)).body, "filtros");
      f.Obj? && f.fields.Keys == FilterKeys && f.fields[k] == (if k == "linea_de_producto" then Str(value) else Str(""))
    ensures var f := Member(LegacyRequest(env, term, BrandFilter(value)).body, "filtros");
      f.Obj? && f.fields.Keys == FilterKeys && f.fields[k] == (if k == "marca_de_producto" then Str(value) else Str(""))
  {
  }
}
