/** The search page: the query in the address, the product list it loads, the facets derived from
    that list and the checkboxes that narrow it. */
module SearchPage {
  import opened Wrappers
  import opened Json
  import opened Text
  import opened Seqs
  import opened Products
  import opened ProductGrid

  /* ---------------------------------------------------------------- navigation */

  /** `handleSearch(term)`: the address to navigate to, if any. URL encoding is a parameter. */
  function HandleSearch(term: string, encode: string -> string): (r: Option<string>)
    ensures r.Some? <==> !Blank(term)
    ensures r.Some? ==> r.value == "/search?q=" + encode(Trim(term))
  {
    TrimEmptyIffBlank(term);
    var t := Trim(term);
    if t != "" then Some("/search?q=" + encode(t)) else None
  }

  /* ---------------------------------------------------------------- filter state */

  datatype Facet = Categories | Brands | PriceRanges | Features

  /** The checked values of each facet. */
  datatype ActiveFilters = ActiveFilters(categories: seq<string>, brands: seq<string>, priceRanges: seq<string>, features: seq<string>)
  {
    function Get(f: Facet): seq<string> {
      match f
      case Categories => categories
      case Brands => brands
      case PriceRanges => priceRanges
      case Features => features
    }

    /** `{...prev, [f]: values}` */
    function With(f: Facet, values: seq<string>): (r: ActiveFilters)
      ensures r.Get(f) == values
      ensures forall g :: g != f ==> r.Get(g) == Get(g)
    {
      match f
      case Categories => this.(categories := values)
      case Brands => this.(brands := values)
      case PriceRanges => this.(priceRanges := values)
      case Features => this.(features := values)
    }
  }

  const NoActiveFilters: ActiveFilters := ActiveFilters([], [], [], [])

  datatype FacetCount = FacetCount(name: string, count: nat)
  datatype PriceRange = PriceRange(name: string, min: int, max: int, count: nat)

  /** The facets offered in the sidebar. */
  datatype Filters = Filters(categories: seq<FacetCount>, brands: seq<FacetCount>, priceRanges: seq<PriceRange>, features: seq<FacetCount>)

  const NoFilters: Filters := Filters([], [], [], [])

  /** The new checked list of `handleFilterChange`: checking appends, unchecking removes every
      occurrence; the other facets keep their lists. */
  function Toggled(active: ActiveFilters, facet: Facet, value: string, checked: bool): (r: ActiveFilters)
    ensures forall g :: g != facet ==> r.Get(g) == active.Get(g)
    ensures checked ==> r.Get(facet) == active.Get(facet) + [value]
    ensures !checked ==> value !in r.Get(facet) && IsSubsequence(r.Get(facet), active.Get(facet))
    ensures !checked ==> forall i :: 0 <= i < |active.Get(facet)| && active.Get(facet)[i] != value ==> active.Get(facet)[i] in r.Get(facet)
    ensures !checked ==> multiset(r.Get(facet)) == multiset(active.Get(facet))[value := 0]
  {
    var current := active.Get(facet);
    var keep := (item: string) => item != value;
    FilterIsSubsequence(current, keep);
    FilterOutMultiset(current, keep, value);
    active.With(facet, if checked then current + [value] else Filter(current, keep))
  }

  /* ---------------------------------------------------------------- price ranges */

  predicate PricedIn(p: Product, lo: int, hi: int) {
    p.price.Some? && lo <= p.price.value <= hi
  }

  /** `products.filter(p => p.price >= lo && p.price <= hi).length` */
  function CountPricedIn(products: seq<Product>, lo: int, hi: int): nat {
    |Filter(products, (p: Product) => PricedIn(p, lo, hi))|
  }

  /** A range with a product in it counts at least one. */
  lemma CountedProduct(products: seq<Product>, k: int, lo: int, hi: int)
    requires 0 <= k < |products| && PricedIn(products[k], lo, hi)
    ensures CountPricedIn(products, lo, hi) > 0
  {
    assert products[k] in Filter(products, (p: Product) => PricedIn(p, lo, hi));
  }

  /** The label of a range; `locale` stands for `toLocaleString`. */
  function RangeName(lo: int, hi: int, locale: int -> string): string {
    "$" + locale(lo) + " - $" + locale(hi)
  }

  /** `Math.ceil((max - min) / 5)` */
  function Step(min: int, max: int): (s: int)
    requires min < max
    ensures 5 * (s - 1) < max - min <= 5 * s
  {
    (max - min + 4) / 5
  }

  /** Range `i` of five; the last ends at `max` itself. */
  function RangeAt(min: int, max: int, counted: seq<Product>, locale: int -> string, i: int): PriceRange
    requires min < max
  {
    var step := Step(min, max);
    var lo := min + step * i;
    var hi := if i == 4 then max else min + step * (i + 1);
    PriceRange(RangeName(lo, hi, locale), lo, hi, CountPricedIn(counted, lo, hi))
  }

  predicate RangesAdjoin(r: seq<PriceRange>) {
    r == [] || (|r| == 5 && forall i :: 0 <= i < 4 ==> r[i].max == r[i + 1].min)
  }

  /** What `generatePriceRanges(min, max)` returns when it counts over `counted`. */
  function PriceRangesFor(min: int, max: int, counted: seq<Product>, locale: int -> string): (r: seq<PriceRange>)
    ensures r == [] <==> min == 0 || max == 0 || min >= max
    ensures r != [] ==> |r| == 5
  {
    if min == 0 || max == 0 || min >= max then []
    else seq(5, i requires 0 <= i < 5 => RangeAt(min, max, counted, locale, i))
  }

  /** Five ranges from a rounded-up fifth of the spread: range `i` starts `i` steps above `min`,
      each range ends where the next starts, the last ends at `max`, and each is labelled by and
      counts the products within its own bounds. */
  lemma PriceRangesShape(min: int, max: int, counted: seq<Product>, locale: int -> string)
    ensures var r := PriceRangesFor(min, max, counted, locale);
      RangesAdjoin(r) &&
      (r != [] ==> r[0].min == min && r[4].max == max) &&
      (r != [] ==> forall i :: 0 <= i < 5 ==> r[i].min == min + Step(min, max) * i) &&
      (forall i :: 0 <= i < |r| ==>
         r[i].name == RangeName(r[i].min, r[i].max, locale) && r[i].count == CountPricedIn(counted, r[i].min, r[i].max))
  {
  }

  /** `generatePriceRanges`: five ranges pushed one by one. */
  method GeneratePriceRanges(min: int, max: int, counted: seq<Product>, locale: int -> string) returns (ranges: seq<PriceRange>)
    ensures ranges == PriceRangesFor(min, max, counted, locale)
  {
    if min == 0 || max == 0 || min >= max {
      return [];
    }
    ranges := [];
    var step := (max - min + 4) / 5;
    assert step == Step(min, max);
    for i := 0 to 5
      invariant |ranges| == i
      invariant forall j :: 0 <= j < i ==> ranges[j] == RangeAt(min, max, counted, locale, j)
    {
      var rangeMin := min + step * i;
      var rangeMax := if i == 4 then max else min + step * (i + 1);
      ranges := ranges + [PriceRange(RangeName(rangeMin, rangeMax, locale), rangeMin, rangeMax, CountPricedIn(counted, rangeMin, rangeMax))];
    }
    assert forall j :: 0 <= j < 5 ==> ranges[j] == PriceRangesFor(min, max, counted, locale)[j];
  }

  /** With fewer than sixteen between the bounds, rounding the step up can carry range 4's lower
      bound past `max`: the last range is inverted exactly for the spreads 1, 2, 3, 6, 7 and 11. */
  lemma NarrowSpreadInvertsLastRange(min: int, max: int, counted: seq<Product>, locale: int -> string)
    requires 0 < min < max
    ensures var r := PriceRangesFor(min, max, counted, locale);
      r[4].min > r[4].max <==> max - min in {1, 2, 3, 6, 7, 11}
  {
    var r := PriceRangesFor(min, max, counted, locale);
    PriceRangesShape(min, max, counted, locale);
    var d := max - min;
    var s := Step(min, max);
    assert r[4].min == min + s * 4 && r[4].max == max;
    if d >= 16 {
      assert 4 * s <= d;
    } else if d <= 5 {
      assert s == 1;
    } else if d <= 10 {
      assert s == 2;
    } else {
      assert s == 3;
    }
  }

  /* ---------------------------------------------------------------- facets */

  /** `xs.filter(Boolean)` on optional strings. */
  function TruthyStrings(xs: seq<Option<string>>): (r: seq<string>)
    ensures forall i :: 0 <= i < |r| ==> r[i] != "" && Some(r[i]) in xs
    ensures forall i :: 0 <= i < |xs| && TruthyText(xs[i]) ==> xs[i].value in r
  {
    if xs == [] then []
    else
      var rest := TruthyStrings(xs[1..]);
      assert forall i :: 1 <= i < |xs| ==> xs[i] == xs[1..][i - 1];
      if TruthyText(xs[0]) then [xs[0].value] + rest else rest
  }

  function CategoryField(products: seq<Product>): seq<Option<string>> {
    seq(|products|, i requires 0 <= i < |products| => products[i].category)
  }

  function BrandField(products: seq<Product>): seq<Option<string>> {
    seq(|products|, i requires 0 <= i < |products| => products[i].brand)
  }

  predicate HasFeature(p: Product, feature: string) {
    p.features.Some? && feature in p.features.value
  }

  /** `products.flatMap(p => p.features || [])` */
  function AllFeatures(products: seq<Product>): (r: seq<string>)
    ensures forall i :: 0 <= i < |r| ==> exists k :: 0 <= k < |products| && HasFeature(products[k], r[i])
    ensures forall k, f :: 0 <= k < |products| && HasFeature(products[k], f) ==> f in r
  {
    if products == [] then []
    else
      var own := products[0].features.GetOr([]);
      var rest := AllFeatures(products[1..]);
      assert forall k :: 1 <= k < |products| ==> products[k] == products[1..][k - 1];
      var r := own + rest;
      assert forall i :: |own| <= i < |r| ==> r[i] == rest[i - |own|];
      r
  }

  /** Positive prices only: `map(p => p.price).filter(p => p && p > 0)`. */
  function Prices(products: seq<Product>): (r: seq<int>)
    ensures forall i :: 0 <= i < |r| ==> r[i] > 0 && exists k :: 0 <= k < |products| && products[k].price == Some(r[i])
    ensures forall k :: 0 <= k < |products| && products[k].price.Some? && products[k].price.value > 0 ==> products[k].price.value in r
  {
    if products == [] then []
    else
      var rest := Prices(products[1..]);
      assert forall k :: 1 <= k < |products| ==> products[k] == products[1..][k - 1];
      match products[0].price
      case Some(v) => if v > 0 then [v] + rest else rest
      case None => rest
  }

  function Min(s: seq<int>): (m: int)
    requires s != []
    ensures m in s && forall i :: 0 <= i < |s| ==> m <= s[i]
  {
    if |s| == 1 then s[0]
    else
      var m := Min(s[1..]);
      assert forall i :: 1 <= i < |s| ==> s[i] == s[1..][i - 1];
      if s[0] <= m then s[0] else m
  }

  function Max(s: seq<int>): (m: int)
    requires s != []
    ensures m in s && forall i :: 0 <= i < |s| ==> s[i] <= m
  {
    if |s| == 1 then s[0]
    else
      var m := Max(s[1..]);
      assert forall i :: 1 <= i < |s| ==> s[i] == s[1..][i - 1];
      if s[0] >= m then s[0] else m
  }

  /** The price ranges of a product list, counted over `counted`. `Math.min()` of no prices is
      `Infinity` and `Math.max()` is `-Infinity`, which `generatePriceRanges` rejects, as it
      rejects a list whose positive prices are all the same. */
  function PriceRangesOf(products: seq<Product>, counted: seq<Product>, locale: int -> string): (r: seq<PriceRange>)
    ensures RangesAdjoin(r)
    ensures forall i :: 0 <= i < |r| ==> r[i].count == CountPricedIn(counted, r[i].min, r[i].max)
    ensures r != [] ==>
      (exists i, j :: 0 <= i < |products| && 0 <= j < |products| &&
                      products[i].price == Some(r[0].min) && products[j].price == Some(r[4].max))
  {
    var prices := Prices(products);
    if prices == [] then []
    else
      PriceRangesShape(Min(prices), Max(prices), counted, locale);
      PriceRangesFor(Min(prices), Max(prices), counted, locale)
  }

  /** No ranges exactly when the list has no positive price or a single one repeated; otherwise
      the ranges run from the lowest positive price to the highest. */
  lemma PriceRangesEnds(products: seq<Product>, counted: seq<Product>, locale: int -> string)
    ensures var r := PriceRangesOf(products, counted, locale);
      (r == [] <==> Prices(products) == [] || Min(Prices(products)) >= Max(Prices(products))) &&
      (r != [] ==> r[0].min == Min(Prices(products)) && r[4].max == Max(Prices(products)))
  {
    var prices := Prices(products);
    if prices != [] {
      PriceRangesShape(Min(prices), Max(prices), counted, locale);
    }
  }

  /** One product alone offers no price ranges, whatever its price. */
  lemma SinglePriceNoRanges(p: Product, counted: seq<Product>, locale: int -> string)
    ensures PriceRangesOf([p], counted, locale) == []
  {
    assert [p][1..] == [];
  }

  /** `productList.filter(p => p.category === name).length` */
  function CountCategory(products: seq<Product>, name: string): nat {
    |Filter(products, (p: Product) => p.category == Some(name))|
  }

  /** `productList.filter(p => p.brand === name).length` */
  function CountBrand(products: seq<Product>, name: string): nat {
    |Filter(products, (p: Product) => p.brand == Some(name))|
  }

  /** `productList.filter(p => p.features?.includes(name)).length` */
  function CountFeature(products: seq<Product>, name: string): nat {
    |Filter(products, (p: Product) => HasFeature(p, name))|
  }

  function CategoryCounts(names: seq<string>, products: seq<Product>): seq<FacetCount> {
    seq(|names|, i requires 0 <= i < |names| => FacetCount(names[i], CountCategory(products, names[i])))
  }

  function BrandCounts(names: seq<string>, products: seq<Product>): seq<FacetCount> {
    seq(|names|, i requires 0 <= i < |names| => FacetCount(names[i], CountBrand(products, names[i])))
  }

  function FeatureCounts(names: seq<string>, products: seq<Product>): seq<FacetCount> {
    seq(|names|, i requires 0 <= i < |names| => FacetCount(names[i], CountFeature(products, names[i])))
  }

  function Names(counts: seq<FacetCount>): seq<string> {
    seq(|counts|, i requires 0 <= i < |counts| => counts[i].name)
  }

  /** The category facet list: each distinct truthy category with its count. */
  function CategoryFacetsOf(productList: seq<Product>): seq<FacetCount> {
    CategoryCounts(Distinct(TruthyStrings(CategoryField(productList))), productList)
  }

  /** The brand facet list: each distinct truthy brand with its count. */
  function BrandFacetsOf(productList: seq<Product>): seq<FacetCount> {
    BrandCounts(Distinct(TruthyStrings(BrandField(productList))), productList)
  }

  /** The feature facet list: each distinct listed feature with its count. */
  function FeatureFacetsOf(productList: seq<Product>): seq<FacetCount> {
    FeatureCounts(Distinct(AllFeatures(productList)), productList)
  }

  /** `updateFiltersFromProducts(productList)` as written: the facets come from `productList`, but
      `generatePriceRanges` counts over `rendered`, the `products` state its closure captured. */
  function FiltersFromProductsAsWritten(productList: seq<Product>, rendered: seq<Product>, locale: int -> string): (f: Filters)
    ensures f.priceRanges == PriceRangesOf(productList, rendered, locale)
    ensures forall i :: 0 <= i < |f.priceRanges| ==>
      f.priceRanges[i].count == CountPricedIn(rendered, f.priceRanges[i].min, f.priceRanges[i].max)
    ensures RangesAdjoin(f.priceRanges)
  {
    Filters(CategoryFacetsOf(productList), BrandFacetsOf(productList), PriceRangesOf(productList, rendered, locale),
            FeatureFacetsOf(productList))
  }

  /** `updateFiltersFromProducts(productList)` with every count taken over `productList`. */
  function FiltersFromProducts(productList: seq<Product>, locale: int -> string): (f: Filters)
    ensures f.priceRanges == PriceRangesOf(productList, productList, locale)
    ensures forall i :: 0 <= i < |f.priceRanges| ==>
      f.priceRanges[i].count == CountPricedIn(productList, f.priceRanges[i].min, f.priceRanges[i].max)
    ensures RangesAdjoin(f.priceRanges)
  {
    FiltersFromProductsAsWritten(productList, productList, locale)
  }

  /** The truthy strings keep their entries' order: of two of them, the one met first among the
      strings is met first among the entries. */
  lemma {:induction false} TruthyStringsOrder(xs: seq<Option<string>>, x: string, y: string)
    requires x in TruthyStrings(xs) && y in TruthyStrings(xs)
    requires FirstIndex(TruthyStrings(xs), x) < FirstIndex(TruthyStrings(xs), y)
    ensures Some(x) in xs && Some(y) in xs && FirstIndex(xs, Some(x)) < FirstIndex(xs, Some(y))
  {
    var t := TruthyStrings(xs);
    assert x != "" && Some(x) in xs by { assert t[FirstIndex(t, x)] == x; }
    assert y != "" && Some(y) in xs by { assert t[FirstIndex(t, y)] == y; }
    var rest := TruthyStrings(xs[1..]);
    if TruthyText(xs[0]) {
      var h := xs[0].value;
      assert t == [h] + rest;
      assert FirstIndex(t, y) > 0;
      assert y != h;
      if h != x {
        TruthyStringsOrder(xs[1..], x, y);
      }
    } else {
      assert t == rest;
      TruthyStringsOrder(xs[1..], x, y);
    }
  }

  /** Each category is offered once, every truthy category of the list is offered, and each
      carries the number of products in it. */
  lemma CategoryFacets(productList: seq<Product>, rendered: seq<Product>, locale: int -> string)
    ensures var f := FiltersFromProductsAsWritten(productList, rendered, locale).categories;
      NoDuplicates(Names(f)) &&
      (forall i :: 0 <= i < |productList| && TruthyText(productList[i].category) ==> productList[i].category.value in Names(f)) &&
      (forall i :: 0 <= i < |f| ==> f[i].count == CountCategory(productList, f[i].name))
  {
    var field := CategoryField(productList);
    var names := Distinct(TruthyStrings(field));
    var f := CategoryFacetsOf(productList);
    assert Names(f) == names;
    forall i | 0 <= i < |productList| && TruthyText(productList[i].category) ensures productList[i].category.value in names {
      assert field[i] == productList[i].category;
    }
  }

  /** Only categories some product has are offered, and never the empty one. */
  lemma CategoryFacetsListed(productList: seq<Product>, rendered: seq<Product>, locale: int -> string)
    ensures var f := FiltersFromProductsAsWritten(productList, rendered, locale).categories;
      forall i :: 0 <= i < |f| ==>
        f[i].name != "" && exists k :: 0 <= k < |productList| && productList[k].category == Some(f[i].name)
  {
    var field := CategoryField(productList);
    var f := CategoryFacetsOf(productList);
    forall i | 0 <= i < |f| ensures f[i].name != "" && exists k :: 0 <= k < |productList| && productList[k].category == Some(f[i].name) {
      assert f[i].name in TruthyStrings(field);
      assert field[FirstIndex(field, Some(f[i].name))] == Some(f[i].name);
    }
  }

  /** The categories come in the order of the first product of each. */
  lemma CategoryFacetsOrder(productList: seq<Product>, rendered: seq<Product>, locale: int -> string)
    ensures var f := FiltersFromProductsAsWritten(productList, rendered, locale).categories;
      forall i, j :: 0 <= i < j < |f| ==>
        Some(f[i].name) in CategoryField(productList) && Some(f[j].name) in CategoryField(productList) &&
        FirstIndex(CategoryField(productList), Some(f[i].name)) < FirstIndex(CategoryField(productList), Some(f[j].name))
  {
    var field := CategoryField(productList);
    var names := Distinct(TruthyStrings(field));
    var f := CategoryFacetsOf(productList);
    forall i, j | 0 <= i < j < |f|
      ensures Some(f[i].name) in field && Some(f[j].name) in field &&
              FirstIndex(field, Some(f[i].name)) < FirstIndex(field, Some(f[j].name))
    {
      TruthyStringsOrder(field, names[i], names[j]);
    }
  }

  /** Each brand is offered once, every truthy brand of the list is offered, and each carries
      the number of products of that brand. */
  lemma BrandFacets(productList: seq<Product>, rendered: seq<Product>, locale: int -> string)
    ensures var f := FiltersFromProductsAsWritten(productList, rendered, locale).brands;
      NoDuplicates(Names(f)) &&
      (forall i :: 0 <= i < |productList| && TruthyText(productList[i].brand) ==> productList[i].brand.value in Names(f)) &&
      (forall i :: 0 <= i < |f| ==> f[i].count == CountBrand(productList, f[i].name))
  {
    var field := BrandField(productList);
    var names := Distinct(TruthyStrings(field));
    var f := BrandFacetsOf(productList);
    assert Names(f) == names;
    forall i | 0 <= i < |productList| && TruthyText(productList[i].brand) ensures productList[i].brand.value in names {
      assert field[i] == productList[i].brand;
    }
  }

  /** Only brands some product has are offered, and never the empty one. */
  lemma BrandFacetsListed(productList: seq<Product>, rendered: seq<Product>, locale: int -> string)
    ensures var f := FiltersFromProductsAsWritten(productList, rendered, locale).brands;
      forall i :: 0 <= i < |f| ==>
        f[i].name != "" && exists k :: 0 <= k < |productList| && productList[k].brand == Some(f[i].name)
  {
    var field := BrandField(productList);
    var f := BrandFacetsOf(productList);
    forall i | 0 <= i < |f| ensures f[i].name != "" && exists k :: 0 <= k < |productList| && productList[k].brand == Some(f[i].name) {
      assert f[i].name in TruthyStrings(field);
      assert field[FirstIndex(field, Some(f[i].name))] == Some(f[i].name);
    }
  }

  /** The brands come in the order of the first product of each. */
  lemma BrandFacetsOrder(productList: seq<Product>, rendered: seq<Product>, locale: int -> string)
    ensures var f := FiltersFromProductsAsWritten(productList, rendered, locale).brands;
      forall i, j :: 0 <= i < j < |f| ==>
        Some(f[i].name) in BrandField(productList) && Some(f[j].name) in BrandField(productList) &&
        FirstIndex(BrandField(productList), Some(f[i].name)) < FirstIndex(BrandField(productList), Some(f[j].name))
  {
    var field := BrandField(productList);
    var names := Distinct(TruthyStrings(field));
    var f := BrandFacetsOf(productList);
    forall i, j | 0 <= i < j < |f|
      ensures Some(f[i].name) in field && Some(f[j].name) in field &&
              FirstIndex(field, Some(f[i].name)) < FirstIndex(field, Some(f[j].name))
    {
      TruthyStringsOrder(field, names[i], names[j]);
    }
  }

  /** Each feature is offered once, every feature of every product is offered (the empty one
      included), and each carries the number of products that list it. */
  lemma FeatureFacets(productList: seq<Product>, rendered: seq<Product>, locale: int -> string)
    ensures var f := FiltersFromProductsAsWritten(productList, rendered, locale).features;
      NoDuplicates(Names(f)) &&
      (forall k, x :: 0 <= k < |productList| && HasFeature(productList[k], x) ==> x in Names(f)) &&
      (forall i :: 0 <= i < |f| ==> f[i].count == CountFeature(productList, f[i].name))
  {
    var all := AllFeatures(productList);
    var names := Distinct(all);
    var f := FeatureFacetsOf(productList);
    assert Names(f) == names;
    forall k, x | 0 <= k < |productList| && HasFeature(productList[k], x) ensures x in names {
      assert x in all;
      assert all[FirstIndex(all, x)] in names;
    }
  }

  /** Only features some product lists are offered, in the order they are first listed. */
  lemma FeatureFacetsListed(productList: seq<Product>, rendered: seq<Product>, locale: int -> string)
    ensures var f := FiltersFromProductsAsWritten(productList, rendered, locale).features;
      (forall i :: 0 <= i < |f| ==> exists k :: 0 <= k < |productList| && HasFeature(productList[k], f[i].name)) &&
      (forall i, j :: 0 <= i < j < |f| ==>
         f[i].name in AllFeatures(productList) && f[j].name in AllFeatures(productList) &&
         FirstIndex(AllFeatures(productList), f[i].name) < FirstIndex(AllFeatures(productList), f[j].name))
  {
    var all := AllFeatures(productList);
    var f := FeatureFacetsOf(productList);
    forall i | 0 <= i < |f| ensures exists k :: 0 <= k < |productList| && HasFeature(productList[k], f[i].name) {
      assert all[FirstIndex(all, f[i].name)] == f[i].name;
    }
  }

  /** Two products priced `0 < x < y` span exactly the ranges from `x` to `y`. */
  lemma PairPriceRanges(a: Product, b: Product, counted: seq<Product>, locale: int -> string)
    requires a.price.Some? && b.price.Some? && 0 < a.price.value < b.price.value
    ensures PriceRangesOf([a, b], counted, locale) == PriceRangesFor(a.price.value, b.price.value, counted, locale)
  {
    var x, y := a.price.value, b.price.value;
    assert [a, b][1..] == [b];
    assert Prices([b]) == [y] by { assert [b][1..] == []; }
    assert Prices([a, b]) == [x, y];
    assert [x, y][1..] == [y];
  }

  /** The stale count: two products priced `0 < x < y`, rendered over an empty `products` state,
      get a first range that counts nothing, while the cheaper product lies in it. */
  lemma StalePriceRangeCounts(a: Product, b: Product, locale: int -> string)
    requires a.price.Some? && b.price.Some? && 0 < a.price.value < b.price.value
    ensures var stale := FiltersFromProductsAsWritten([a, b], [], locale).priceRanges;
      var own := FiltersFromProducts([a, b], locale).priceRanges;
      |stale| == 5 && |own| == 5 && stale[0].count == 0 && own[0].count > 0
  {
    var x, y := a.price.value, b.price.value;
    PairPriceRanges(a, b, [], locale);
    PairPriceRanges(a, b, [a, b], locale);
    PriceRangesShape(x, y, [], locale);
    PriceRangesShape(x, y, [a, b], locale);
    var own := PriceRangesFor(x, y, [a, b], locale);
    assert own[0].min == x && own[0].max == own[1].min == x + Step(x, y);
    CountedProduct([a, b], 0, own[0].min, own[0].max);
  }

  /* ---------------------------------------------------------------- filtering */

  /** `filters.priceRanges.find(pr => pr.name === name)` as a position. */
  function FindRange(ranges: seq<PriceRange>, name: string): (k: Option<nat>)
    ensures k.Some? ==>
      k.value < |ranges| && ranges[k.value].name == name && (forall j :: 0 <= j < k.value ==> ranges[j].name != name)
    ensures k.None? ==> forall j :: 0 <= j < |ranges| ==> ranges[j].name != name
  {
    if ranges == [] then None
    else if ranges[0].name == name then Some(0)
    else match FindRange(ranges[1..], name)
      case Some(k) => Some(k + 1)
      case None => None
  }

  /** The product lies in the first offered range named `name`, bounds included. */
  predicate InNamedRange(p: Product, ranges: seq<PriceRange>, name: string) {
    var k := FindRange(ranges, name);
    k.Some? && PricedIn(p, ranges[k.value].min, ranges[k.value].max)
  }

  /** The `filteredProducts` test: every facet with something checked must match (AND), and
      within a facet one checked value suffices (OR). */
  predicate Keeps(active: ActiveFilters, filters: Filters, p: Product) {
    (|active.categories| > 0 ==> p.category.Some? && p.category.value in active.categories) &&
    (|active.brands| > 0 ==> p.brand.Some? && p.brand.value in active.brands) &&
    (|active.priceRanges| > 0 ==>
       exists i :: 0 <= i < |active.priceRanges| && InNamedRange(p, filters.priceRanges, active.priceRanges[i])) &&
    (|active.features| > 0 ==>
       exists i :: 0 <= i < |active.features| && HasFeature(p, active.features[i]))
  }

  /** `filteredProducts`: the products that pass, in their order. */
  function FilteredProducts(products: seq<Product>, active: ActiveFilters, filters: Filters): (r: seq<Product>)
    ensures IsSubsequence(r, products)
    ensures forall i :: 0 <= i < |r| ==> Keeps(active, filters, r[i])
    ensures forall i :: 0 <= i < |products| && Keeps(active, filters, products[i]) ==> products[i] in r
  {
    var keep := (p: Product) => Keeps(active, filters, p);
    FilterIsSubsequence(products, keep);
    Filter(products, keep)
  }

  /** With nothing checked the list shows every product. */
  lemma NothingCheckedKeepsAll(products: seq<Product>, filters: Filters)
    ensures FilteredProducts(products, NoActiveFilters, filters) == products
  {
    FilterKeepsAll(products, (p: Product) => Keeps(NoActiveFilters, filters, p));
  }

  /** Checking a category narrows the list to that category (when it was the only facet in use). */
  lemma CheckingOneCategory(products: seq<Product>, filters: Filters, category: string)
    ensures var r := FilteredProducts(products, Toggled(NoActiveFilters, Categories, category, true), filters);
      (forall i :: 0 <= i < |r| ==> r[i].category == Some(category)) &&
      (forall i :: 0 <= i < |products| && products[i].category == Some(category) ==> products[i] in r)
  {
    var active := Toggled(NoActiveFilters, Categories, category, true);
    assert active.categories == [category];
  }

  /** The facets of `productList`, computed step by step as `updateFiltersFromProducts` does,
      its ranges counted over the `rendered` list its closure holds. */
  method ComputeFilters(productList: seq<Product>, rendered: seq<Product>, locale: int -> string) returns (f: Filters)
    ensures f == FiltersFromProductsAsWritten(productList, rendered, locale)
  {
    var categories := Distinct(TruthyStrings(CategoryField(productList)));
    var brands := Distinct(TruthyStrings(BrandField(productList)));
    var features := Distinct(AllFeatures(productList));
    var prices := Prices(productList);
    var priceRanges: seq<PriceRange> := [];
    if prices != [] {
      priceRanges := GeneratePriceRanges(Min(prices), Max(prices), rendered, locale);
    }
    assert priceRanges == PriceRangesOf(productList, rendered, locale);
    f := Filters(
      CategoryCounts(categories, productList),
      BrandCounts(brands, productList),
      priceRanges,
      FeatureCounts(features, productList));
  }

  /* ---------------------------------------------------------------- page state */

  const LoadErrorText: string := "Error al cargar los productos. Por favor, intenta de nuevo."

  /** `skus && skus.length > 0` */
  predicate HasSkus(skus: Json) {
    Truthy(skus) && LengthPositive(skus)
  }

  /** The state of `SearchPage` held in its `useState` hooks. */
  class Page {
    var searchTerm: string
    var products: seq<Product>
    var loading: bool
    var error: Option<string>
    var filters: Filters
    var activeFilters: ActiveFilters

    /** Between fetches: not loading, an error only over an empty list, and the price ranges
        either absent or five adjoining ones. */
    predicate Settled()
      reads this
    {
      !loading && (error.Some? ==> error == Some(LoadErrorText) && products == []) && RangesAdjoin(filters.priceRanges)
    }

    /** The first render: the term from `?q=` (or empty), nothing loaded, nothing checked. */
    constructor(q: Option<string>)
      ensures Settled()
      ensures searchTerm == q.GetOr("") && products == [] && error.None?
      ensures filters == NoFilters && activeFilters == NoActiveFilters
    {
      searchTerm := q.GetOr("");
      products := [];
      loading := false;
      error := None;
      filters := NoFilters;
      activeFilters := NoActiveFilters;
    }

    /** The list the grid receives. */
    function Shown(): seq<Product>
      reads this
    {
      FilteredProducts(products, activeFilters, filters)
    }

    /** What the result area shows; between fetches a failed load shows its message. */
    function View(): (v: View)
      reads this
      ensures Settled() && error.Some? ==> v == ErrorView(LoadErrorText)
      ensures Settled() && error.None? && searchTerm == "" ==> v == EnterTerm
    {
      GridView(Shown(), loading, error, searchTerm)
    }

    /** `handleFilterChange(facet, value, checked)` */
    method HandleFilterChange(facet: Facet, value: string, checked: bool)
      requires Settled()
      modifies this
      ensures Settled()
      ensures activeFilters == Toggled(old(activeFilters), facet, value, checked)
      ensures searchTerm == old(searchTerm) && products == old(products) && loading == old(loading)
      ensures error == old(error) && filters == old(filters)
    {
      var current := activeFilters.Get(facet);
      var next := if checked then current + [value] else Filter(current, (item: string) => item != value);
      activeFilters := activeFilters.With(facet, next);
    }

    /** `updateFiltersFromProducts(productList)` as it runs inside `fetchProducts`: `rendered` is
        the `products` state of the render that created the closure, which the ranges count over. */
    method UpdateFiltersFromProducts(productList: seq<Product>, rendered: seq<Product>, locale: int -> string)
      modifies this
      ensures filters == FiltersFromProductsAsWritten(productList, rendered, locale)
      ensures searchTerm == old(searchTerm) && products == old(products) && loading == old(loading)
      ensures error == old(error) && activeFilters == old(activeFilters)
    {
      var f := ComputeFilters(productList, rendered, locale);
      filters := f;
    }

    /** `setProducts(productDetails); updateFiltersFromProducts(productDetails)` */
    method ShowDetails(details: seq<Product>, rendered: seq<Product>, locale: int -> string)
      modifies this
      ensures products == details && filters == FiltersFromProductsAsWritten(details, rendered, locale)
      ensures RangesAdjoin(filters.priceRanges)
      ensures searchTerm == old(searchTerm) && loading == old(loading) && error == old(error)
      ensures activeFilters == old(activeFilters)
    {
      products := details;
      UpdateFiltersFromProducts(details, rendered, locale);
    }

    /** `fetchProducts`: `found` is what the search resolved to (`Err` when it threw) and
        `fetchDetails` the detail lookup, `Err` when it or the facet update threw. Returns the SKU
        list the details were requested for. The price ranges count the products shown before the
        fetch, since the closure's `products` is the state of the render that started it. */
    method FetchProducts(found: Result<Json, string>, fetchDetails: Json -> Result<seq<Product>, string>, locale: int -> string)
      returns (requested: Option<Json>)
      requires Settled()
      modifies this
      ensures Settled()
      ensures searchTerm == old(searchTerm) && activeFilters == old(activeFilters)
      ensures requested == (if found.Ok? && HasSkus(found.value) then Some(found.value) else None)
      ensures found.Ok? && !HasSkus(found.value) ==> products == [] && filters == NoFilters && error.None?
      ensures found.Err? ==> products == [] && error == Some(LoadErrorText) && filters == old(filters)
      ensures requested.Some? && fetchDetails(requested.value).Ok? ==>
        products == fetchDetails(requested.value).value && error.None? &&
        filters == FiltersFromProductsAsWritten(products, old(products), locale)
      ensures requested.Some? && fetchDetails(requested.value).Err? ==>
        products == [] && error == Some(LoadErrorText) && filters == old(filters)
    {
      var rendered := products;
      loading := true;
      error := None;
      requested := None;
      match found {
        case Err(_) =>
          error := Some(LoadErrorText);
          products := [];
        case Ok(skus) =>
          if HasSkus(skus) {
            requested := Some(skus);
            match fetchDetails(skus) {
              case Ok(details) =>
                ShowDetails(details, rendered, locale);
              case Err(_) =>
                error := Some(LoadErrorText);
                products := [];
            }
          } else {
            products := [];
            filters := NoFilters;
          }
      }
      loading := false;
    }

    /** The effect on `searchParams`: a non-empty `q` becomes the term and is fetched. */
    method OnSearchParams(q: Option<string>, found: Result<Json, string>, fetchDetails: Json -> Result<seq<Product>, string>,
                          locale: int -> string)
      returns (requested: Option<Json>)
      requires Settled()
      modifies this
      ensures Settled()
      ensures TruthyText(q) ==> searchTerm == q.value && activeFilters == old(activeFilters)
      ensures TruthyText(q) ==> requested == (if found.Ok? && HasSkus(found.value) then Some(found.value) else None)
      ensures TruthyText(q) && found.Ok? && !HasSkus(found.value) ==> products == [] && filters == NoFilters && error.None?
      ensures TruthyText(q) && found.Err? ==> products == [] && error == Some(LoadErrorText) && filters == old(filters)
      ensures TruthyText(q) && requested.Some? && fetchDetails(requested.value).Ok? ==>
        products == fetchDetails(requested.value).value && error.None? &&
        filters == FiltersFromProductsAsWritten(products, old(products), locale)
      ensures TruthyText(q) && requested.Some? && fetchDetails(requested.value).Err? ==>
        products == [] && error == Some(LoadErrorText) && filters == old(filters)
      ensures !TruthyText(q) ==> requested.None? && unchanged(this)
    {
      requested := None;
      if TruthyText(q) {
        searchTerm := q.value;
        requested := FetchProducts(found, fetchDetails, locale);
      }
    }
  }
}
