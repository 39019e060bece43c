/** The result area: which view the grid shows, and one card per product. */
module ProductGrid {
  import opened Wrappers
  import opened Text
  import opened Products

  const LoadingText: string := "Cargando productos..."
  const EnterTermText: string := "Ingresa un término de búsqueda para ver los productos."

  /** The no-results message for a term. */
  function NoResultsText(term: string): string {
    "No se encontraron productos para \"" + term + "\"."
  }

  /** A React key: the product's SKU when it is truthy, its position otherwise. */
  datatype CardKey = SkuKey(sku: string) | IndexKey(index: nat)

  datatype Card = Card(key: CardKey, product: Product)

  datatype View = Loading | ErrorView(message: string) | EnterTerm | NoResults(message: string) | Grid(cards: seq<Card>)

  function KeyOf(p: Product, index: nat): CardKey {
    if TruthyText(p.sku) then SkuKey(p.sku.value) else IndexKey(index)
  }

  /** `products.map((product, index) => <ProductCard key={product.sku || index} …/>)` */
  function Cards(products: seq<Product>): (cs: seq<Card>)
    ensures |cs| == |products|
    ensures forall i :: 0 <= i < |cs| ==> cs[i].product == products[i]
    ensures forall i :: 0 <= i < |cs| ==> (cs[i].key.SkuKey? <==> TruthyText(products[i].sku))
    ensures forall i :: 0 <= i < |cs| && cs[i].key.SkuKey? ==> products[i].sku == Some(cs[i].key.sku)
    ensures forall i :: 0 <= i < |cs| && cs[i].key.IndexKey? ==> cs[i].key.index == i
  {
    seq(|products|, i requires 0 <= i < |products| => Card(KeyOf(products[i], i), products[i]))
  }

  /** The view chosen by the early returns of `ProductGrid`: loading, then a truthy error, then a
      missing term, then an empty list, then the grid. */
  function GridView(products: seq<Product>, loading: bool, error: Option<string>, searchTerm: string): (v: View)
    ensures loading ==> v == Loading
    ensures !loading && TruthyText(error) ==> v == ErrorView(error.value)
    ensures !loading && !TruthyText(error) && searchTerm == "" ==> v == EnterTerm
    ensures v.NoResults? <==> !loading && !TruthyText(error) && searchTerm != "" && products == []
    ensures v.NoResults? ==> Contains(v.message, searchTerm)
    ensures v.Grid? <==> !loading && !TruthyText(error) && searchTerm != "" && products != []
    ensures v.Grid? ==> |v.cards| == |products| && forall i :: 0 <= i < |products| ==> v.cards[i].product == products[i]
  {
    if loading then Loading
    else if TruthyText(error) then ErrorView(error.value)
    else if searchTerm == "" then EnterTerm
    else if |products| == 0 then
      ContainsInfix("No se encontraron productos para \"", searchTerm, "\".");
      NoResults(NoResultsText(searchTerm))
    else Grid(Cards(products))
  }
}
