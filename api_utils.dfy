/** Reusable API helpers: the request payload builder, the pure parts of the POST helper,
    the search-response normaliser and the retry loop. */
module ApiUtils {
  import opened Wrappers
  import opened Json

  /* ---------------------------------------------------------------- payload */

  /** The four filter keys the legacy search payload always carries. */
  const FilterKeys: set<string> := {"linea_de_producto", "marca_de_producto", "almacen_codigo", "tipo_producto"}

  const DefaultFiltros: map<string, Json> := map[
    "linea_de_producto" := Str(""), "marca_de_producto" := Str(""),
    "almacen_codigo" := Str(""), "tipo_producto" := Str("")]

  /** `generateApiPayload(pregunta, buscador = "Y", filtros = {})`: the JSON text of
      `{pregunta, buscador, filtros: {...defaults, ...filtros}}`. An omitted argument is `None`. */
  function GenerateApiPayload(pregunta: string, buscador: Option<string>, filtros: Option<map<string, Json>>): (t: JsonText)
    ensures Parse(t).Obj? && Parse(t).fields.Keys == {"pregunta", "buscador", "filtros"}
    ensures Member(Parse(t), "pregunta") == Str(pregunta)
    ensures Member(Parse(t), "buscador") == Str(buscador.GetOr("Y"))
    ensures Member(Parse(t), "filtros").Obj?
    ensures Member(Parse(t), "filtros").fields.Keys == FilterKeys + filtros.GetOr(map[]).Keys
    ensures forall k :: k in FilterKeys && k !in filtros.GetOr(map[]) ==> Member(Member(Parse(t), "filtros"), k) == Str("")
    ensures forall k :: k in filtros.GetOr(map[]) ==> Member(Member(Parse(t), "filtros"), k) == filtros.GetOr(map[])[k]
  {
    var merged := DefaultFiltros + filtros.GetOr(map[]);
    Stringify(Obj(map["pregunta" := Str(pregunta), "buscador" := Str(buscador.GetOr("Y")), "filtros" := Obj(merged)]))
  }

  /* ---------------------------------------------------------------- POST helper */

  /** `DEFAULT_API_CONFIG.TIMEOUT`, the timeout `callApiPost` falls back to. */
  const DefaultTimeout: int := 10000

  /** The `data` argument of `callApiPost`: JSON text or an already built object. */
  datatype Body = Text(text: JsonText) | Value(value: Json)

  /** The `options` argument of `callApiPost`; an absent `headers` spreads nothing. */
  datatype Options = Options(timeout: Option<int>, headers: map<string, string>)

  const NoOptions: Options := Options(None, map[])

  /** What `callApiPost` hands to the HTTP client. */
  datatype PostRequest = PostRequest(url: string, body: Json, timeout: int, headers: map<string, string>)

  /** The pure part of `callApiPost`: URL, request data and request configuration. */
  function BuildPostRequest(host: string, port: string, path: string, data: Body, options: Options): (r: PostRequest)
    ensures r.url == "http://" + host + ":" + port + path
    ensures data.Text? ==> r.body == Parse(data.text)
    ensures data.Value? ==> r.body == data.value
    ensures options.timeout.Some? && options.timeout.value != 0 ==> r.timeout == options.timeout.value
    ensures options.timeout.None? || options.timeout.value == 0 ==> r.timeout == DefaultTimeout
    ensures r.headers.Keys == options.headers.Keys + {"Content-Type"}
    ensures forall k :: k in options.headers ==> r.headers[k] == options.headers[k]
    ensures "Content-Type" !in options.headers ==> r.headers["Content-Type"] == "application/json"
  {
    var requestData := match data case Text(t) => Parse(t) case Value(v) => v;
    var timeout := if options.timeout.Some? && options.timeout.value != 0 then options.timeout.value else DefaultTimeout;
    PostRequest("http://" + host + ":" + port + path, requestData, timeout,
                map["Content-Type" := "application/json"] + options.headers)
  }

  /* ---------------------------------------------------------------- response normaliser */

  const RejectedMessage: string := "API returned rpta: false - request rejected"

  /** The record `validateSearchResponse` returns. */
  datatype Validation = Validation(isValid: bool, hasError: bool, errorMessage: Option<string>, data: Json, skus: Json)

  const Initial: Validation := Validation(false, false, None, Null, Arr([]))

  /** `response?.rpta?.dataIA?.ids?.[0]` */
  function PrimaryIds(response: Json): Json {
    First(Member(Member(Member(response, "rpta"), "dataIA"), "ids"))
  }

  /** The explicit rejection `response && response.rpta === false`. */
  predicate Rejected(response: Json) {
    Truthy(response) && Member(response, "rpta") == Bool(false)
  }

  /** The fields probed on `rpta`, in probe order. */
  function AlternativePaths(rpta: Json): seq<Json> {
    [Member(rpta, "ids"), Member(rpta, "productos"), Member(rpta, "skus"), Member(rpta, "data")]
  }

  /** The first non-empty array among `paths`, with its position. */
  function FirstNonEmptyArray(paths: seq<Json>): (r: Option<nat>)
    ensures r.Some? ==> r.value < |paths| && IsNonEmptyArray(paths[r.value])
    ensures r.Some? ==> forall j :: 0 <= j < r.value ==> !IsNonEmptyArray(paths[j])
    ensures r.None? ==> forall j :: 0 <= j < |paths| ==> !IsNonEmptyArray(paths[j])
  {
    if paths == [] then None
    else if IsNonEmptyArray(paths[0]) then Some(0)
    else match FirstNonEmptyArray(paths[1..])
      case None => None
      case Some(k) => Some(k + 1)
  }

  /** `response?.skus || response?.productos || response?.data || []`: the first truthy of the
      three fields, `[]` when none is, so never a falsy value. */
  function FallbackSkus(response: Json): (r: Json)
    ensures Truthy(r)
    ensures Truthy(Member(response, "skus")) ==> r == Member(response, "skus")
    ensures !Truthy(Member(response, "skus")) && Truthy(Member(response, "productos")) ==> r == Member(response, "productos")
    ensures (!Truthy(Member(response, "skus")) && !Truthy(Member(response, "productos")) && Truthy(Member(response, "data")))
            ==> r == Member(response, "data")
    ensures (!Truthy(Member(response, "skus")) && !Truthy(Member(response, "productos")) && !Truthy(Member(response, "data")))
            ==> r == Arr([])
  {
    Or(Or(Or(Member(response, "skus"), Member(response, "productos")), Member(response, "data")), Arr([]))
  }

  /** The value of `validateSearchResponse(response)`: a first-match-wins cascade. */
  function Validate(response: Json): (v: Validation)
    ensures !(v.isValid && v.hasError)
    ensures v.errorMessage.Some? <==> v.hasError
    ensures v.hasError <==> Rejected(response)
    ensures v.isValid && !Truthy(PrimaryIds(response)) ==> LengthPositive(v.skus)
  {
    if Rejected(response) then
      Initial.(hasError := true, errorMessage := Some(RejectedMessage))
    else if Truthy(PrimaryIds(response)) then
      Initial.(isValid := true, data := Member(Member(response, "rpta"), "dataIA"), skus := PrimaryIds(response))
    else
      var rpta := Member(response, "rpta");
      var alt := if Truthy(rpta) && IsObjectType(rpta) then FirstNonEmptyArray(AlternativePaths(rpta)) else None;
      if alt.Some? then
        Initial.(isValid := true, data := rpta, skus := AlternativePaths(rpta)[alt.value])
      else
        var skus := FallbackSkus(response);
        Initial.(isValid := LengthPositive(skus), data := response, skus := skus)
  }

  /** `validateSearchResponse`: fills a fresh result record field by field, probing the
      alternative paths in a loop. */
  method ValidateSearchResponse(response: Json) returns (result: Validation)
    ensures result == Validate(response)
  {
    result := Validation(false, false, None, Null, Arr([]));
    if Truthy(response) && Member(response, "rpta") == Bool(false) {
      result := result.(hasError := true);
      result := result.(errorMessage := Some(RejectedMessage));
      return;
    }
    var ids := Member(Member(Member(response, "rpta"), "dataIA"), "ids");
    if Truthy(First(ids)) {
      result := result.(isValid := true);
      result := result.(data := Member(Member(response, "rpta"), "dataIA"));
      result := result.(skus := First(ids));
      return;
    }
    var rpta := Member(response, "rpta");
    if Truthy(rpta) && IsObjectType(rpta) {
      var alternativePaths := [Member(rpta, "ids"), Member(rpta, "productos"), Member(rpta, "skus"), Member(rpta, "data")];
      var i := 0;
      while i < |alternativePaths|
        invariant 0 <= i <= |alternativePaths|
        invariant forall j :: 0 <= j < i ==> !IsNonEmptyArray(alternativePaths[j])
      {
        var path := alternativePaths[i];
        if path.Arr? && |path.items| > 0 {
          result := result.(isValid := true);
          result := result.(data := rpta);
          result := result.(skus := path);
          return;
        }
        i := i + 1;
      }
    }
    result := result.(skus := Or(Or(Or(Member(response, "skus"), Member(response, "productos")), Member(response, "data")), Arr([])));
    result := result.(isValid := LengthPositive(result.skus));
    result := result.(data := response);
  }

  /** An explicit `rpta: false` is a business error whatever else the response holds. */
  lemma ExplicitRejectionWins(response: Json)
    requires Member(response, "rpta") == Bool(false)
    ensures Validate(response) == Validation(false, true, Some(RejectedMessage), Null, Arr([]))
  {
  }

  /** A truthy `rpta.dataIA.ids[0]` is authoritative: valid, and exactly that list. */
  lemma PrimaryPathAuthoritative(response: Json)
    requires Truthy(PrimaryIds(response))
    ensures Validate(response).isValid && !Validate(response).hasError
    ensures Validate(response).skus == PrimaryIds(response)
  {
    assert !Rejected(response);
  }

  /** An empty first id list is still a valid answer, because `[]` is truthy. */
  lemma EmptyPrimaryListIsValid(rest: map<string, Json>)
    ensures var response := Obj(map["rpta" := Obj(map["dataIA" := Obj(map["ids" := Arr([Arr([])])])])] + rest);
      ("rpta" !in rest ==> Validate(response).isValid && Validate(response).skus == Arr([]))
  {
  }

  /** On an object `rpta`, the first field among ids, productos, skus, data that holds a
      non-empty array wins; empty arrays and non-arrays are skipped. */
  lemma AlternativeProbeOrder(response: Json, k: nat)
    requires !Rejected(response) && !Truthy(PrimaryIds(response))
    requires Truthy(Member(response, "rpta")) && IsObjectType(Member(response, "rpta"))
    requires k < 4 && IsNonEmptyArray(AlternativePaths(Member(response, "rpta"))[k])
    requires forall j :: 0 <= j < k ==> !IsNonEmptyArray(AlternativePaths(Member(response, "rpta"))[j])
    ensures Validate(response).isValid
    ensures Validate(response).skus == AlternativePaths(Member(response, "rpta"))[k]
  {
    var paths := AlternativePaths(Member(response, "rpta"));
    var alt := FirstNonEmptyArray(paths);
    assert alt.Some? && alt.value == k;
  }

  /** `{rpta: {ids: [], productos: ["X"]}}`: the empty `ids` is skipped and `productos` wins. */
  lemma EmptyIdsSkipped()
    ensures Validate(Obj(map["rpta" := Obj(map["ids" := Arr([]), "productos" := Strings(["X"])])])).skus == Strings(["X"])
  {
    var rpta := Obj(map["ids" := Arr([]), "productos" := Strings(["X"])]);
    var response := Obj(map["rpta" := rpta]);
    assert PrimaryIds(response) == Undefined;
    assert FirstNonEmptyArray(AlternativePaths(rpta)) == Some(1);
  }

  /** The top-level fallback takes the first truthy field, so `skus: []` shadows a non-empty
      `productos`, and the answer is then not valid. */
  lemma EmptySkusShadowProductos()
    ensures var v := Validate(Obj(map["skus" := Arr([]), "productos" := Strings(["A"])]));
      !v.isValid && !v.hasError && v.skus == Arr([])
  {
    var response := Obj(map["skus" := Arr([]), "productos" := Strings(["A"])]);
    assert Member(response, "rpta") == Undefined;
    assert FallbackSkus(response) == Arr([]);
  }

  /** When neither the rejection, nor the primary path, nor an alternative path applies, the
      result is the top-level fallback: its SKUs are the first truthy of `skus`, `productos`,
      `data` (else `[]`), valid exactly when they have a positive length, and the data is the
      response itself. */
  lemma FallbackStep(response: Json)
    requires !Rejected(response) && !Truthy(PrimaryIds(response))
    requires Truthy(Member(response, "rpta")) && IsObjectType(Member(response, "rpta")) ==>
      forall j :: 0 <= j < 4 ==> !IsNonEmptyArray(AlternativePaths(Member(response, "rpta"))[j])
    ensures Validate(response) == Validation(LengthPositive(FallbackSkus(response)), false, None, response, FallbackSkus(response))
  {
    var rpta := Member(response, "rpta");
    if Truthy(rpta) && IsObjectType(rpta) {
      assert FirstNonEmptyArray(AlternativePaths(rpta)).None?;
    }
  }

  /** A missing (`null` / `undefined`) response is invalid, without error, with no SKUs. */
  lemma MissingResponse(response: Json)
    requires response.Null? || response.Undefined?
    ensures Validate(response) == Validation(false, false, None, response, Arr([]))
  {
  }

  /** A non-empty SKU array is only ever returned as a valid result. */
  lemma NonEmptyArrayIsValid(response: Json)
    ensures IsNonEmptyArray(Validate(response).skus) ==> Validate(response).isValid
  {
  }

  /* ---------------------------------------------------------------- retry loop */

  /** What `retryApiCall` produced: the resolved value or the error it rethrows (`None` for the
      `undefined` rethrown when no attempt ran), how many times it called the operation, and the
      delays it waited, in order. */
  datatype Run<T, E> = Run(result: Result<T, Option<E>>, calls: nat, pauses: seq<int>)

  /** The first attempt index in `[from, bound)` that succeeds, or `bound`. */
  function FirstOk<T, E>(op: nat -> Result<T, E>, from: nat, bound: nat): (k: nat)
    requires from <= bound
    ensures from <= k <= bound
    ensures k < bound ==> op(k).Ok?
    ensures forall j :: from <= j < k ==> op(j).Err?
    decreases bound - from
  {
    if from == bound then bound
    else if op(from).Ok? then from
    else FirstOk(op, from + 1, bound)
  }

  function Pauses(count: nat, delay: int): (p: seq<int>)
    ensures |p| == count && forall i :: 0 <= i < count ==> p[i] == delay
  {
    seq(count, _ => delay)
  }

  /** The reference behaviour of `retryApiCall(op, maxAttempts, delay)`, where `op(i)` is the
      outcome of the operation's call number `i` (from 0). */
  function Retry<T, E>(op: nat -> Result<T, E>, maxAttempts: int, delay: int): (r: Run<T, E>)
    ensures r.calls <= (if maxAttempts > 0 then maxAttempts else 0)
    ensures r.result.Ok? <==> exists k :: 0 <= k < maxAttempts && op(k).Ok?
    ensures r.result.Ok? ==> 1 <= r.calls && op(r.calls - 1) == Ok(r.result.value)
    ensures forall j :: 0 <= j < r.calls - 1 ==> op(j).Err?
    ensures r.result.Err? ==> r.calls == (if maxAttempts > 0 then maxAttempts else 0)
    ensures r.result.Err? && r.calls == 0 ==> r.result.error == None
    ensures r.result.Err? && r.calls > 0 ==> op(r.calls - 1).Err? && r.result.error == Some(op(r.calls - 1).error)
    ensures |r.pauses| == (if r.calls == 0 then 0 else r.calls - 1)
    ensures forall i :: 0 <= i < |r.pauses| ==> r.pauses[i] == delay
  {
    var n: nat := if maxAttempts > 0 then maxAttempts else 0;
    var k := FirstOk(op, 0, n);
    if k < n then Run(Ok(op(k).value), k + 1, Pauses(k, delay))
    else if n == 0 then Run(Err(None), 0, [])
    else Run(Err(Some(op(n - 1).error)), n, Pauses(n - 1, delay))
  }

  /** `retryApiCall`: calls the operation up to `maxAttempts` times, waiting `delay` between
      failed attempts (never after the last one), and rethrows the last error. */
  method RetryApiCall<T, E>(op: nat -> Result<T, E>, maxAttempts: int, delay: int) returns (run: Run<T, E>)
    ensures run == Retry(op, maxAttempts, delay)
  {
    var lastError: Option<E> := None;
    var pauses: seq<int> := [];
    var attempt := 1;
    while attempt <= maxAttempts
      invariant 1 <= attempt && (maxAttempts >= 1 ==> attempt <= maxAttempts + 1)
      invariant maxAttempts < 1 ==> attempt == 1
      invariant forall j :: 0 <= j < attempt - 1 ==> op(j).Err?
      invariant attempt == 1 ==> lastError == None
      invariant attempt > 1 ==> lastError == Some(op(attempt - 2).error)
      invariant |pauses| == (if attempt <= maxAttempts || attempt == 1 then attempt - 1 else attempt - 2)
      invariant forall i :: 0 <= i < |pauses| ==> pauses[i] == delay
    {
      var outcome := op(attempt - 1);
      if outcome.Ok? {
        run := Run(Ok(outcome.value), attempt, pauses);
        assert FirstOk(op, 0, maxAttempts) == attempt - 1;
        assert pauses == Pauses(attempt - 1, delay);
        return;
      }
      lastError := Some(outcome.error);
      if attempt < maxAttempts {
        pauses := pauses + [delay];
      }
      attempt := attempt + 1;
    }
    run := Run(Err(lastError), attempt - 1, pauses);
    if maxAttempts > 0 {
      assert attempt == maxAttempts + 1;
      assert FirstOk(op, 0, maxAttempts) == maxAttempts;
      assert pauses == Pauses(maxAttempts - 1, delay);
    } else {
      assert pauses == [];
    }
  }

  /** Two failures then a success, with three attempts allowed: the success is returned after
      exactly three calls and two waits. */
  lemma SucceedsOnThirdAttempt<T, E>(op: nat -> Result<T, E>, delay: int)
    requires op(0).Err? && op(1).Err? && op(2).Ok?
    ensures Retry(op, 3, delay) == Run(Ok(op(2).value), 3, [delay, delay])
  {
    assert FirstOk(op, 0, 3) == 2;
    assert Pauses(2, delay) == [delay, delay];
  }

  /** With two attempts that both fail, the error rethrown is the second one, not the first. */
  lemma RethrowsLastError<T, E>(op: nat -> Result<T, E>, delay: int)
    requires op(0).Err? && op(1).Err?
    ensures Retry(op, 2, delay) == Run(Err(Some(op(1).error)), 2, [delay])
  {
    assert FirstOk(op, 0, 2) == 2;
    assert Pauses(1, delay) == [delay];
  }
}
