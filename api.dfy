/** The product API client: mock search and detail lookup, and the precedence it applies to a
    real response. */
module Api {
  import opened Wrappers
  import opened Json
  import opened Text
  import opened Seqs
  import opened Products
  import opened ApiConfig

  /** `MOCK_SKUS` */
  const MockSkus: seq<string> := [
    "TE-24155", "TE-27535", "TE-21265", "ADV-21655", "TE-27135",
    "LG-24MS500", "TE-27325", "TE-32155", "ADV-27505", "LG-22MK410",
    "SAMSUNG-27", "TE-32165"]

  function Record(sku: string, title: string, brand: string, price: int, originalPrice: Option<int>,
                  discount: Option<int>, stock: int, stockStatus: string, category: string,
                  features: seq<string>): Product {
    Product(Some(sku), Some(title), Some(brand), Some(price), originalPrice, discount, Some(stock),
            Some(stockStatus), Some(category), Some(features))
  }

  /** `MOCK_PRODUCTS` as its `[key, record]` entries in insertion order (images and specification
      texts left out). */
  const MockProductEntries: seq<(string, Product)> := [
    ("TE-24155", Record("TE-24155", "Monitor plano TEROS TE-24155, 23.8\" FHD IPS, HDMI, DP", "TEROS",
                        459, Some(520), Some(12), 150, "Disponible", "Monitores",
                        ["FHD", "IPS", "HDMI", "DisplayPort"])),
    ("TE-27535", Record("TE-27535", "Monitor plano gaming TEROS TE-27535, 27\" 2K QHD IPS, 165 Hz, 1 ms, FHD", "TEROS",
                        799, Some(899), Some(11), 85, "Disponible", "Monitores Gaming",
                        ["2K QHD", "IPS", "165Hz", "1ms", "Gaming"])),
    ("TE-21265", Record("TE-21265", "Monitor Teros TE-21265, 21.5\" IPS, 100Hz, 1920x1080, Full HD, HDMI, VGA, VESA Compatible", "TEROS",
                        329, None, None, 200, "Disponible", "Monitores",
                        ["Full HD", "IPS", "100Hz", "HDMI", "VGA", "VESA"])),
    ("ADV-21655", Record("ADV-21655", "Monitor plano Advance ADV-21655, 21.5\" IPS BOE, HDMI, DP, VGA, Parlantes", "ADVANCE",
                         399, None, None, 4, "Poco Stock", "Monitores",
                         ["IPS", "BOE", "HDMI", "DisplayPort", "VGA", "Parlantes"])),
    ("LG-24MS500", Record("LG-24MS500", "Monitor LG 24MS500-B, 23.8\" FHD IPS (1920x1080), HDMI x2 / Headphone Out 3.5", "LG",
                          549, None, None, 120, "Disponible", "Monitores",
                          ["FHD", "IPS", "HDMI", "Headphone Out"])),
    ("SAMSUNG-27", Record("SAMSUNG-27", "Monitor Samsung 27\" ViewFinity S6, QHD (2560x1440), IPS, HDMI/DP/HP, OUTPORTS 3.5", "SAMSUNG",
                          899, None, None, 4, "Poco Stock", "Monitores",
                          ["QHD", "IPS", "HDMI", "DisplayPort", "ViewFinity"]))]

  /** `Object.values(MOCK_PRODUCTS)` */
  function MockProductValues(): (r: seq<Product>)
    ensures |r| == |MockProductEntries|
    ensures forall i :: 0 <= i < |r| ==> r[i] == MockProductEntries[i].1
  {
    seq(|MockProductEntries|, i requires 0 <= i < |MockProductEntries| => MockProductEntries[i].1)
  }

  function LookupIn(entries: seq<(string, Product)>, key: string): (r: Option<Product>)
    ensures r.Some? ==> exists i :: 0 <= i < |entries| && entries[i] == (key, r.value)
    ensures r.None? ==> forall i :: 0 <= i < |entries| ==> entries[i].0 != key
  {
    if entries == [] then None
    else if entries[0].0 == key then Some(entries[0].1)
    else LookupIn(entries[1..], key)
  }

  /** `MOCK_PRODUCTS[sku]`, `None` for an unknown key. */
  function LookupMock(sku: string): Option<Product> {
    LookupIn(MockProductEntries, sku)
  }

  predicate IsMockKey(sku: string) {
    LookupMock(sku).Some?
  }

  /** Every mock record carries its own key as its `sku`. */
  lemma MockRecordsKeyedBySku(sku: string)
    ensures LookupMock(sku).Some? ==> LookupMock(sku).value.sku == Some(sku)
  {
    forall i | 0 <= i < |MockProductEntries| ensures MockProductEntries[i].1.sku == Some(MockProductEntries[i].0) {
    }
  }

  /** The mock branch condition of `searchProducts` and `getProductDetails`: the double negation
      `!url.includes(...) === false` is `url.includes(...)`. */
  function UsesMock(env: Env, url: string): (r: bool)
    ensures r <==> env.nodeEnv == Some("development") || Contains(url, "api.example.com")
  {
    env.nodeEnv == Some("development") || (!Contains(url, "api.example.com")) == false
  }

  /** `API_CONFIG.SEARCH_API_URL` */
  function SearchApiUrl(env: Env): string {
    EnvOr(env.searchApiUrl, "https://api.example.com/search")
  }

  /** The mock filter: the SKU contains the lower-cased term, or the term names the catalogue. */
  predicate MatchesTerm(term: string, sku: string) {
    var t := Lower(term);
    Contains(Lower(sku), t) || Contains(t, "monitor") || Contains(t, "teros") || Contains(t, "lg") || Contains(t, "samsung")
  }

  function TermFilter(term: string): string -> bool {
    sku => MatchesTerm(term, sku)
  }

  /** The first six mock SKUs, returned whenever nothing else applies. */
  function DefaultSkus(): seq<string> {
    MockSkus[..6]
  }

  /** The mock branch of `searchProducts(term)`. */
  function MockSearch(term: string): (r: seq<string>)
    ensures r != []
    ensures IsSubsequence(r, MockSkus)
    ensures Filter(MockSkus, TermFilter(term)) == [] ==> r == DefaultSkus()
    ensures forall i :: 0 <= i < |r| ==> r[i] in MockSkus
  {
    var filtered := Filter(MockSkus, TermFilter(term));
    FilterIsSubsequence(MockSkus, TermFilter(term));
    PrefixIsSubsequence(MockSkus, 6);
    if |filtered| > 0 then filtered else DefaultSkus()
  }

  /** When some mock SKU matches, the answer is exactly the matching SKUs: every one returned
      matches and every matching one is returned. */
  lemma MockSearchMatches(term: string, k: nat)
    requires k < |MockSkus| && MatchesTerm(term, MockSkus[k])
    ensures forall i :: 0 <= i < |MockSearch(term)| ==> MatchesTerm(term, MockSearch(term)[i])
    ensures forall i :: 0 <= i < |MockSkus| && MatchesTerm(term, MockSkus[i]) ==> MockSkus[i] in MockSearch(term)
  {
    FilterNonEmpty(MockSkus, TermFilter(term), k);
  }

  /** A term that names the catalogue (or the empty term, which every SKU contains) returns all twelve SKUs. */
  lemma BroadTermReturnsAll(term: string)
    requires term == "" || Contains(Lower(term), "monitor") || Contains(Lower(term), "teros")
          || Contains(Lower(term), "lg") || Contains(Lower(term), "samsung")
    ensures MockSearch(term) == MockSkus
  {
    forall i | 0 <= i < |MockSkus| ensures TermFilter(term)(MockSkus[i]) {
      ContainsEmpty(Lower(MockSkus[i]));
    }
    FilterKeepsAll(MockSkus, TermFilter(term));
  }

  /** `response.data.skus || response.data.products || response.data || []`; reading a field of
      `null` or `undefined` throws, and the `catch` returns the default SKUs. */
  function RealSearchResult(data: Json): (r: Json)
    ensures Truthy(r)
    ensures data.Null? || data.Undefined? ==> r == Strings(DefaultSkus())
    ensures Truthy(data) && Truthy(Member(data, "skus")) ==> r == Member(data, "skus")
    ensures Truthy(data) && !Truthy(Member(data, "skus")) && Truthy(Member(data, "products")) ==> r == Member(data, "products")
    ensures Truthy(data) && (data.Obj? ==> !Truthy(Member(data, "skus")) && !Truthy(Member(data, "products"))) ==> r == data
    ensures !Truthy(data) && !data.Null? && !data.Undefined? ==> r == Arr([])
  {
    if data.Null? || data.Undefined? then Strings(DefaultSkus())
    else Or(Or(Or(Member(data, "skus"), Member(data, "products")), data), Arr([]))
  }

  /** `searchProducts(term)`; `remote` is the outcome of the POST to the search URL. */
  function SearchProducts(env: Env, term: string, remote: Result<Json, string>): (r: Json)
    ensures UsesMock(env, SearchApiUrl(env)) ==> r == Strings(MockSearch(term))
    ensures !UsesMock(env, SearchApiUrl(env)) && remote.Err? ==> r == Strings(DefaultSkus())
    ensures !UsesMock(env, SearchApiUrl(env)) && remote.Ok? && Truthy(remote.value) && Truthy(Member(remote.value, "skus"))
            ==> r == Member(remote.value, "skus")
    ensures !UsesMock(env, SearchApiUrl(env)) && remote.Ok? ==> r == RealSearchResult(remote.value)
  {
    if UsesMock(env, SearchApiUrl(env)) then Strings(MockSearch(term))
    else match remote
      case Ok(data) => RealSearchResult(data)
      case Err(_) => Strings(DefaultSkus())
  }

  /** `skus.map(sku => MOCK_PRODUCTS[sku]).filter(Boolean)` */
  function KnownProducts(skus: seq<string>): (r: seq<Product>)
    ensures |r| == |Filter(skus, IsMockKey)|
    ensures forall i :: 0 <= i < |r| ==> Some(r[i]) == LookupMock(Filter(skus, IsMockKey)[i])
  {
    if skus == [] then []
    else
      var rest := KnownProducts(skus[1..]);
      match LookupMock(skus[0])
      case Some(p) =>
        assert Filter(skus, IsMockKey) == [skus[0]] + Filter(skus[1..], IsMockKey);
        [p] + rest
      case None =>
        assert Filter(skus, IsMockKey) == Filter(skus[1..], IsMockKey);
        rest
  }

  /** The mock detail answer: the known records, or the first six records when none is known. */
  function MockDetails(skus: seq<string>): (r: seq<Product>)
    ensures r != []
    ensures Filter(skus, IsMockKey) != [] ==> r == KnownProducts(skus)
    ensures Filter(skus, IsMockKey) == [] ==> r == MockProductValues()
  {
    var products := KnownProducts(skus);
    assert MockProductValues()[..6] == MockProductValues();
    if |products| == 0 then MockProductValues()[..6] else products
  }

  /** What `getProductDetails` resolves to: mock records, or a real response value taken as is. */
  datatype Details = Records(products: seq<Product>) | Payload(raw: Json)

  /** `getProductDetails(skus)`; `remote` is the outcome of the POST to the products URL. */
  function GetProductDetails(env: Env, skus: seq<string>, remote: Result<Json, string>): (r: Details)
    ensures UsesMock(env, ProductsUrl(env)) || remote.Err? ==> r == Records(MockDetails(skus))
    ensures r.Payload? ==> Truthy(r.raw)
  {
    if UsesMock(env, ProductsUrl(env)) then Records(MockDetails(skus))
    else match remote
      case Ok(data) =>
        if data.Null? || data.Undefined? then Records(MockDetails(skus))
        else Payload(Or(Or(Member(data, "products"), data), Arr([])))
      case Err(_) => Records(MockDetails(skus))
  }

  /** The real answer to a detail request: `products` over the data itself, and `[]` for other
      falsy data; null or undefined data throws on `.products` and falls back to the mock records. */
  lemma RealDetailsPrecedence(env: Env, skus: seq<string>, data: Json)
    requires !UsesMock(env, ProductsUrl(env))
    ensures data.Null? || data.Undefined? ==> GetProductDetails(env, skus, Ok(data)) == Records(MockDetails(skus))
    ensures Truthy(Member(data, "products")) ==> GetProductDetails(env, skus, Ok(data)) == Payload(Member(data, "products"))
    ensures !Truthy(Member(data, "products")) && Truthy(data) ==> GetProductDetails(env, skus, Ok(data)) == Payload(data)
    ensures !Truthy(data) && !data.Null? && !data.Undefined? ==> GetProductDetails(env, skus, Ok(data)) == Payload(Arr([]))
  {
  }

  /** The mock records are those of the requested SKUs that are known, in request order, with
      repeats kept, each carrying the SKU it was requested by. */
  lemma MockDetailsOfKnownSkus(skus: seq<string>)
    requires exists i :: 0 <= i < |skus| && IsMockKey(skus[i])
    ensures var known := Filter(skus, IsMockKey);
      |MockDetails(skus)| == |known| &&
      forall i :: 0 <= i < |known| ==> MockDetails(skus)[i].sku == Some(known[i])
  {
    var known := Filter(skus, IsMockKey);
    var i :| 0 <= i < |skus| && IsMockKey(skus[i]);
    assert skus[i] in known;
    forall j | 0 <= j < |known| ensures MockDetails(skus)[j].sku == Some(known[j]) {
      MockRecordsKeyedBySku(known[j]);
    }
  }

  /** When no requested SKU is known, the answer is every mock record in insertion order. */
  lemma MockDetailsOfUnknownSkus(skus: seq<string>)
    requires forall i :: 0 <= i < |skus| ==> !IsMockKey(skus[i])
    ensures MockDetails(skus) == MockProductValues()
  {
    FilterKeepsNone(skus, IsMockKey);
    assert MockProductValues()[..6] == MockProductValues();
  }

  /** The single-product lookup's answer: a record, a raw value, or `null`. */
  datatype Detail = NoDetail | Found(product: Product) | RawDetail(value: Json)

  /** `getProductDetail(sku)`: `products[0] || null`. The mock records and the failed request
      always give a record; a real payload gives its first element when that is truthy, else null. */
  function GetProductDetail(env: Env, sku: string, remote: Result<Json, string>): (r: Detail)
    ensures UsesMock(env, ProductsUrl(env)) || remote.Err? ==> r == Found(MockDetails([sku])[0])
    ensures GetProductDetails(env, [sku], remote).Payload? ==>
      var raw := GetProductDetails(env, [sku], remote).raw;
      (Truthy(First(raw)) ==> r == RawDetail(First(raw))) && (!Truthy(First(raw)) ==> r == NoDetail)
    ensures r.RawDetail? ==> Truthy(r.value)
  {
    match GetProductDetails(env, [sku], remote)
    case Records(ps) => if |ps| > 0 then Found(ps[0]) else NoDetail
    case Payload(raw) => if Truthy(First(raw)) then RawDetail(First(raw)) else NoDetail
  }

  /** On the mock path a single lookup is never null: a known SKU gives its record, an unknown
      one the first default record (TE-24155). */
  lemma SingleMockDetail(env: Env, sku: string, remote: Result<Json, string>)
    requires UsesMock(env, ProductsUrl(env))
    ensures IsMockKey(sku) ==> GetProductDetail(env, sku, remote) == Found(LookupMock(sku).value)
    ensures !IsMockKey(sku) ==> GetProductDetail(env, sku, remote) == Found(MockProductEntries[0].1)
  {
    if IsMockKey(sku) {
      assert Filter([sku], IsMockKey) == [sku];
    } else {
      MockDetailsOfUnknownSkus([sku]);
    }
  }
}
