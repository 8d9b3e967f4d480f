/** The product detail view (components/ProductDetailView.tsx): its stock
    badge, the position label and the previous/next buttons, and the stock
    scale. Cost, margin and inventory value are floating point and are not
    modelled. */
module ProductDetail {
  import opened Wrappers
  import opened Text
  import opened Numbers
  import Inventory

  /** The example minimum the view uses for every product. */
  const MinStock: int := 10

  /** `isOutOfStock ? … : isLowStock ? … : …`. */
  function Badge(stock: int): (l: Inventory.StockLevel)
    ensures l == Inventory.SinStock <==> stock == 0
    ensures l == Inventory.StockBajo <==> stock != 0 && stock <= 10
  {
    var isLowStock := stock <= MinStock;
    var isOutOfStock := stock == 0;
    if isOutOfStock then Inventory.SinStock
    else if isLowStock then Inventory.StockBajo
    else Inventory.Normal
  }

  /** The badge text; the normal badge reads "Stock Normal" here. */
  function BadgeLabel(l: Inventory.StockLevel): string {
    match l
    case SinStock => "Sin Stock"
    case StockBajo => "Stock Bajo"
    case Normal => "Stock Normal"
  }

  /** The detail view classifies stock exactly as the list does with its
      default minimum of 10. */
  lemma BadgeAgreesWithList(stock: int)
    ensures Badge(stock) == Inventory.StockStatus(stock, Inventory.DefaultMinStock)
  {
  }

  /** `{currentIndex + 1} / {totalProducts}`: three space-separated words,
      the one-based position, a slash and the total. Joining the words again
      gives the label (`Text.SplitThenJoin`), so this fixes the whole text. */
  function PositionLabel(currentIndex: int, totalProducts: int): (s: string)
    ensures Split(s, ' ') == [IntToString(currentIndex + 1), "/", IntToString(totalProducts)]
    ensures ParseInt(Split(s, ' ')[2]) == Some(totalProducts)
    // `parseInt` of the whole label reads the position and stops at the space.
    ensures ParseInt(s) == Some(currentIndex + 1)
  {
    IntToStringHasNo(currentIndex + 1, ' ');
    IntToStringHasNo(totalProducts, ' ');
    SlashPair(IntToString(currentIndex + 1), IntToString(totalProducts));
    ParseIntOfString(totalProducts);
    ParseSlashed(currentIndex + 1, IntToString(totalProducts));
    IntToString(currentIndex + 1) + " / " + IntToString(totalProducts)
  }

  /** `parseInt` of `n / x` stops at the space and reads `n`. */
  lemma ParseSlashed(n: int, x: string)
    ensures ParseInt(IntToString(n) + " / " + x) == Some(n)
  {
    var rest := " / " + x;
    assert rest[0] == ' ';
    assert IntToString(n) + " / " + x == IntToString(n) + rest;
    ParseIntRoundTrip(n, rest);
  }

  /** `a / b`, for words without spaces, splits back into `a`, `/`, `b`. */
  lemma SlashPair(a: string, b: string)
    requires ' ' !in a && ' ' !in b
    ensures Split(a + " / " + b, ' ') == [a, "/", b]
  {
    var ws := [a, "/", b];
    assert ' ' !in "/";
    assert ws[1..] == ["/", b] && ws[1..][1..] == [b];
    assert Join(ws[1..], ' ') == "/" + [' '] + b;
    assert Join(ws, ' ') == a + " / " + b;
    JoinThenSplit(ws, ' ');
  }

  /** "Anterior" is disabled exactly at the first position. */
  predicate PrevDisabled(currentIndex: int) {
    currentIndex == 0
  }

  /** "Siguiente" is disabled exactly at the last position. */
  predicate NextDisabled(currentIndex: int, totalProducts: int) {
    currentIndex == totalProducts - 1
  }

  /** The top of the stock bar: three times the minimum. */
  const ScaleMax: int := MinStock * 3

  /** `{stock} / {minStock * 3} unidades`: the stock, a slash, the scale top
      and the unit word. */
  function ScaleLabel(stock: int): (s: string)
    ensures Split(s, ' ') == [IntToString(stock), "/", IntToString(ScaleMax), "unidades"]
    ensures ParseInt(Split(s, ' ')[0]) == Some(stock)
  {
    var top := IntToString(ScaleMax);
    IntToStringHasNo(stock, ' ');
    IntToStringHasNo(ScaleMax, ' ');
    ScaleWords(IntToString(stock), top);
    ParseIntOfString(stock);
    IntToString(stock) + " / " + IntToString(ScaleMax) + " unidades"
  }

  /** Splitting `a / b unidades` splits off the unit word as a fourth word. */
  lemma ScaleWords(a: string, b: string)
    requires ' ' !in a && ' ' !in b
    ensures Split(a + " / " + b + " unidades", ' ') == [a, "/", b, "unidades"]
  {
    var ws := [a, "/", b, "unidades"];
    var w1, w2, w3 := ws[1..], ws[2..], ws[3..];
    assert w1 == ["/", b, "unidades"] && w1[1..] == w2;
    assert w2 == [b, "unidades"] && w2[1..] == w3;
    assert w3 == ["unidades"];
    var j2 := b + [' '] + "unidades";
    assert Join(w2, ' ') == j2;
    var j1 := "/" + [' '] + j2;
    assert Join(w1, ' ') == j1;
    assert Join(ws, ' ') == a + [' '] + j1;
    assert a + [' '] + j1 == a + " / " + b + " unidades";
    assert ' ' !in "/" && ' ' !in "unidades";
    JoinThenSplit(ws, ' ');
  }

  /** The scale shows 30 units. */
  lemma ScaleIsThirty()
    ensures ScaleMax == 30
    ensures IntToString(ScaleMax) == "30"
  {
    assert NatToString(30) == NatToString(3) + [DigitChar(0)];
  }
}
