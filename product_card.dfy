/** The display rules of one product card. */
module ProductCard {
  import opened Wrappers
  import opened Text
  import opened Products

  const InStockColor: string := "#27ae60"
  const OutOfStockColor: string := "#e74c3c"
  const UnknownStockColor: string := "#f39c12"
  const OutOfStockText: string := "Sin Stock"
  const UnknownStockText: string := "Consultar disponibilidad"
  const InStockPrefix: string := "Stock Disponible: "
  const UntitledText: string := "Producto sin título"

  /** `getStockDisplay()`: a known stock (zero included) decides between the unit count and
      "Sin Stock"; an absent stock shows the status text or a default. */
  function StockDisplay(p: Product): (s: string)
    ensures p.stock.Some? ==> (s == OutOfStockText <==> p.stock.value <= 0)
    ensures p.stock.Some? && p.stock.value > 0 ==>
      IsPrefix(InStockPrefix, s) && s == InStockPrefix + NatToString(p.stock.value) + " und"
    ensures p.stock.None? ==> s == (if TruthyText(p.stockStatus) then p.stockStatus.value else UnknownStockText)
    ensures s != ""
  {
    match p.stock
    case Some(n) =>
      if n > 0 then
        var s := InStockPrefix + IntToString(n) + " und";
        assert s[..|InStockPrefix|] == InStockPrefix;
        assert s[1] != OutOfStockText[1];
        s
      else OutOfStockText
    case None => if TruthyText(p.stockStatus) then p.stockStatus.value else UnknownStockText
  }

  /** `getStockColor()`: green for a positive stock, red for a known stock of zero or less,
      orange for an absent one. */
  function StockColor(p: Product): (c: string)
    ensures c == InStockColor <==> p.stock.Some? && p.stock.value > 0
    ensures c == OutOfStockColor <==> p.stock.Some? && p.stock.value <= 0
    ensures c == UnknownStockColor <==> p.stock.None?
  {
    match p.stock
    case Some(n) => if n > 0 then InStockColor else OutOfStockColor
    case None => UnknownStockColor
  }

  /** The colour follows the same branches as the text: green beside a unit count, red beside
      "Sin Stock", orange exactly when the stock is absent. */
  lemma StockColorMatchesDisplay(p: Product)
    ensures StockColor(p) == UnknownStockColor <==> p.stock.None?
    ensures StockColor(p) == OutOfStockColor <==> p.stock.Some? && StockDisplay(p) == OutOfStockText
    ensures StockColor(p) == InStockColor <==> p.stock.Some? && IsPrefix(InStockPrefix, StockDisplay(p))
  {
    if p.stock.Some? && p.stock.value <= 0 {
      assert !IsPrefix(InStockPrefix, OutOfStockText);
    }
  }

  /** `formatPrice(price)`: empty for a falsy price, otherwise "S/ " and the locale text, which is
      a parameter here. */
  function FormatPrice(price: Option<int>, format: int -> string): (r: string)
    ensures r == "" <==> !TruthyNumber(price)
    ensures TruthyNumber(price) ==> IsPrefix("S/ ", r) && r[3..] == format(price.value)
  {
    if !TruthyNumber(price) then "" else "S/ " + format(price.value)
  }

  /** `title || 'Producto sin título'`: the title shown is never empty. */
  function TitleText(p: Product): (t: string)
    ensures t != ""
    ensures TruthyText(p.title) ==> t == p.title.value
    ensures !TruthyText(p.title) ==> t == UntitledText
  {
    if TruthyText(p.title) then p.title.value else UntitledText
  }

  /** What a JSX slot `{n && … && <X/>}` renders. */
  datatype Slot<T> = Empty | Stray(text: string) | Content(value: T)

  /** The slot as written: `n && cond && <X/>` evaluates to `n` itself when `n` is `0`, and React
      prints that number. */
  function NumberGuardAsWritten<T>(n: Option<int>, cond: bool, content: T): (s: Slot<T>)
    ensures s.Stray? <==> n == Some(0)
    ensures s.Stray? ==> s.text == "0"
    ensures s.Content? <==> TruthyNumber(n) && cond
    ensures s.Content? ==> s.value == content
  {
    if n == Some(0) then Stray("0")
    else if n.Some? && cond then Content(content)
    else Empty
  }

  /** The slot as intended: the element or nothing. */
  function NumberGuard<T>(n: Option<int>, cond: bool, content: T): (s: Slot<T>)
    ensures !s.Stray?
    ensures s.Content? <==> TruthyNumber(n) && cond
    ensures s.Content? ==> s.value == content
    ensures TruthyNumber(n) ==> s == NumberGuardAsWritten(n, cond, content)
  {
    if TruthyNumber(n) && cond then Content(content) else Empty
  }

  /** `originalPrice > price`, false when either is missing: this is the comparison with an
      `undefined` price; a `null` price, which JavaScript compares as 0, is not told apart. */
  predicate AbovePrice(p: Product) {
    p.originalPrice.Some? && p.price.Some? && p.originalPrice.value > p.price.value
  }

  /** The rendered card. */
  datatype CardView = CardView(
    badge: Slot<int>, brand: Option<string>, title: string, originalPrice: Slot<string>,
    price: string, stockText: string, stockColor: string, code: Option<string>)

  /** `ProductCard` as written: a zero discount or a zero original price shows as a bare `0`. */
  function CardOf(p: Product, format: int -> string): (v: CardView)
    ensures v.badge.Content? <==> TruthyNumber(p.discount)
    ensures v.badge.Stray? <==> p.discount == Some(0)
    ensures v.originalPrice.Content? <==> TruthyNumber(p.originalPrice) && AbovePrice(p)
    ensures v.originalPrice.Stray? <==> p.originalPrice == Some(0)
    ensures v.originalPrice.Content? ==> v.originalPrice.value != "" && v.originalPrice.value == FormatPrice(p.originalPrice, format)
    ensures v.brand.Some? <==> TruthyText(p.brand)
    ensures v.code.Some? <==> TruthyText(p.sku)
    ensures v.title == TitleText(p) && v.title != ""
    ensures v.price == FormatPrice(p.price, format)
    ensures v.stockText == StockDisplay(p) && v.stockText != ""
    ensures v.stockColor == StockColor(p)
  {
    CardView(
      NumberGuardAsWritten(p.discount, true, p.discount.GetOr(0)),
      if TruthyText(p.brand) then p.brand else None,
      TitleText(p),
      NumberGuardAsWritten(p.originalPrice, AbovePrice(p), FormatPrice(p.originalPrice, format)),
      FormatPrice(p.price, format),
      StockDisplay(p),
      StockColor(p),
      if TruthyText(p.sku) then p.sku else None)
  }

  /** A stray number dropped: what the slot was meant to render. */
  function Unstray<T>(s: Slot<T>): Slot<T> {
    if s.Stray? then Empty else s
  }

  /** `ProductCard` with its two numeric guards corrected: it is the card as written with every
      stray `0` removed, and nothing else changed. */
  function IntendedCardOf(p: Product, format: int -> string): (v: CardView)
    ensures !v.badge.Stray? && !v.originalPrice.Stray?
    ensures var w := CardOf(p, format);
      v == w.(badge := Unstray(w.badge), originalPrice := Unstray(w.originalPrice))
  {
    CardView(
      NumberGuard(p.discount, true, p.discount.GetOr(0)),
      if TruthyText(p.brand) then p.brand else None,
      TitleText(p),
      NumberGuard(p.originalPrice, AbovePrice(p), FormatPrice(p.originalPrice, format)),
      FormatPrice(p.price, format),
      StockDisplay(p),
      StockColor(p),
      if TruthyText(p.sku) then p.sku else None)
  }

  /** The two cards differ exactly when the discount or the original price is zero. */
  lemma CardsAgree(p: Product, format: int -> string)
    ensures CardOf(p, format) == IntendedCardOf(p, format) <==> p.discount != Some(0) && p.originalPrice != Some(0)
  {
    var w := CardOf(p, format);
    if p.discount == Some(0) {
      assert w.badge.Stray? && !IntendedCardOf(p, format).badge.Stray?;
    } else if p.originalPrice == Some(0) {
      assert w.originalPrice.Stray? && !IntendedCardOf(p, format).originalPrice.Stray?;
    }
  }

  /** A zero discount, or a zero original price, makes the card as written print a bare `0`. */
  lemma ZeroGuardsPrintZero<T>(content: T, cond: bool)
    ensures NumberGuardAsWritten(Some(0), cond, content) == Stray("0")
    ensures NumberGuard(Some(0), cond, content) == Empty
  {
  }
}
