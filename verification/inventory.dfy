/** The product list (components/InventoryList.tsx): stock classification,
    the search-and-category filter, the category options, the mapping of
    `productos` rows to products, and the payload and error message of a
    save. Prices are floating point and are not modelled. */
module Inventory {
  import opened Wrappers
  import opened Text
  import opened Seqs
  import opened Store
  import opened Numbers

  datatype ProductStatus = Active | Inactive

  /** The `Product` shape of types.ts, without its price. */
  datatype Product = Product(
    id: string,
    name: string,
    sku: string,
    category: string,
    stock: int,
    minStock: int,
    status: ProductStatus,
    image: string)

  // ---------------------------------------------------------------------------
  // getStockStatus (lines 280-284)
  // ---------------------------------------------------------------------------

  datatype StockLevel = SinStock | StockBajo | Normal

  /** The badge text of each level in the list. */
  function LevelLabel(l: StockLevel): string {
    match l
    case SinStock => "Sin Stock"
    case StockBajo => "Stock Bajo"
    case Normal => "Normal"
  }

  /** `getStockStatus(stock, minStock)`: an exactly empty stock first, then
      anything up to the minimum (negative stock included), then normal. */
  function StockStatus(stock: int, minStock: int): (l: StockLevel)
    ensures l == SinStock <==> stock == 0
    ensures l == StockBajo <==> stock != 0 && stock <= minStock
    ensures l == Normal <==> stock != 0 && stock > minStock
  {
    if stock == 0 then SinStock
    else if stock <= minStock then StockBajo
    else Normal
  }

  function Rank(l: StockLevel): nat {
    match l
    case SinStock => 0
    case StockBajo => 1
    case Normal => 2
  }

  /** Over non-negative stock, more stock never gives a worse level. */
  lemma StockStatusMonotone(a: int, b: int, minStock: int)
    requires 0 <= a <= b
    ensures Rank(StockStatus(a, minStock)) <= Rank(StockStatus(b, minStock))
  {
  }

  /** A negative stock is never shown as out of stock, and is low whenever
      the minimum is not negative. */
  lemma NegativeStockIsLow(stock: int, minStock: int)
    requires stock < 0 <= minStock
    ensures StockStatus(stock, minStock) == StockBajo
  {
  }

  // ---------------------------------------------------------------------------
  // filteredProducts (lines 289-294)
  // ---------------------------------------------------------------------------

  /** The category filter value that disables it. */
  const Todos: string := "Todos"

  /** The name or the SKU contains the search, ignoring case. */
  predicate MatchesSearch(name: string, sku: string, search: string) {
    Includes(Lower(name), Lower(search)) || Includes(Lower(sku), Lower(search))
  }

  /** `categoryFilter === 'Todos' || category === categoryFilter`. */
  predicate MatchesCategory(category: string, filter: string) {
    filter == Todos || category == filter
  }

  predicate KeepProduct(search: string, filter: string, p: Product) {
    MatchesSearch(p.name, p.sku, search) && MatchesCategory(p.category, filter)
  }

  /** `filteredProducts`. */
  function FilteredProducts(ps: seq<Product>, search: string, filter: string): (r: seq<Product>)
    ensures SubseqOf(r, ps)
    ensures forall i :: 0 <= i < |r| ==> r[i] in ps && KeepProduct(search, filter, r[i])
    ensures forall i :: 0 <= i < |ps| && KeepProduct(search, filter, ps[i]) ==> ps[i] in r
  {
    Filter((p: Product) => KeepProduct(search, filter, p), ps)
  }

  /** An empty search matches every string. */
  lemma EmptySearchMatches(name: string, sku: string)
    ensures MatchesSearch(name, sku, "")
  {
    assert Lower("") == "";
    IncludesTrivia(Lower(name));
  }

  /** With an empty search and `'Todos'` every product is kept, in order. */
  lemma NoFilterKeepsAllProducts(ps: seq<Product>)
    ensures FilteredProducts(ps, "", Todos) == ps
  {
    forall p | p in ps
      ensures KeepProduct("", Todos, p)
    {
      EmptySearchMatches(p.name, p.sku);
    }
    FilterKeepsAll((p: Product) => KeepProduct("", Todos, p), ps);
  }

  /** The search does not depend on the case of the query. */
  lemma SearchIgnoresCase(name: string, sku: string, search: string)
    ensures MatchesSearch(name, sku, search) == MatchesSearch(name, sku, Lower(search))
  {
    LowerIdempotent(search);
  }

  // ---------------------------------------------------------------------------
  // categories (lines 286-287)
  // ---------------------------------------------------------------------------

  /** `['Todos', ...Array.from(new Set(categories))]`. */
  function CategoryOptions(categories: seq<string>): (r: seq<string>)
    ensures r != [] && r[0] == Todos
    ensures NoDup(r[1..])
    ensures forall c :: c in categories <==> c in r[1..]
  {
    var d := Dedup(categories);
    assert ([Todos] + d)[1..] == d;
    [Todos] + d
  }

  function CategoriesOf(ps: seq<Product>): (cs: seq<string>)
    ensures |cs| == |ps| && forall i :: 0 <= i < |ps| ==> cs[i] == ps[i].category
  {
    seq(|ps|, i requires 0 <= i < |ps| => ps[i].category)
  }

  /** `categories`: `'Todos'`, then every product category once, in the order
      of first appearance. */
  lemma CategoriesInFirstAppearanceOrder(ps: seq<Product>)
    ensures var r := CategoryOptions(CategoriesOf(ps));
      && r[0] == Todos
      && (forall i :: 0 <= i < |ps| ==> ps[i].category in r[1..])
      && (forall i, j :: 1 <= i < j < |r| ==> IndexOf(CategoriesOf(ps), r[i]) < IndexOf(CategoriesOf(ps), r[j]))
  {
    var cs := CategoriesOf(ps);
    var d := Dedup(cs);
    DedupFirstAppearanceOrder(cs);
    var r := CategoryOptions(cs);
    assert r[1..] == d;
    forall i | 0 <= i < |ps|
      ensures ps[i].category in r[1..]
    {
      assert cs[i] == ps[i].category;
    }
    forall i, j | 1 <= i < j < |r|
      ensures IndexOf(cs, r[i]) < IndexOf(cs, r[j])
    {
      assert r[i] == d[i - 1] && r[j] == d[j - 1];
    }
  }

  // ---------------------------------------------------------------------------
  // Row mapping in loadProducts (lines 107-117)
  // ---------------------------------------------------------------------------

  /** A `productos` row as selected, with the joined category's name (`None`
      when there is no category or its name is null). */
  datatype ProductoRow = ProductoRow(
    id: string,
    nombre: string,
    sku: string,
    stockActual: int,
    imagenUrl: Option<string>,
    categoria: Option<string>)

  const DefaultMinStock: int := 10
  const General: string := "General"
  const PlaceholderPrefix: string := "https://picsum.photos/64/64?random="

  /** The product a row becomes: no category (or an empty name) reads as
      `'General'`, the minimum is always 10, the product is active exactly
      when it has stock, and a missing image gets a placeholder keyed by id. */
  function MapRow(row: ProductoRow): (p: Product)
    ensures p.id == row.id && p.name == row.nombre && p.sku == row.sku && p.stock == row.stockActual
    ensures p.category != []
    ensures row.categoria.Some? && row.categoria.value != [] ==> p.category == row.categoria.value
    ensures row.categoria.None? || row.categoria.value == [] ==> p.category == General
    ensures p.minStock == DefaultMinStock
    ensures p.status == Active <==> row.stockActual > 0
    ensures row.imagenUrl.Some? && row.imagenUrl.value != [] ==> p.image == row.imagenUrl.value
    ensures row.imagenUrl.None? || row.imagenUrl.value == [] ==> p.image == PlaceholderPrefix + row.id
  {
    Product(
      row.id, row.nombre, row.sku,
      OrElse(row.categoria.GetOr([]), General),
      row.stockActual,
      DefaultMinStock,
      if row.stockActual > 0 then Active else Inactive,
      OrElse(row.imagenUrl.GetOr([]), PlaceholderPrefix + row.id))
  }

  /** `(productosData || []).map(...)`. */
  function MapRows(data: Option<seq<ProductoRow>>): (ps: seq<Product>)
    ensures data.None? ==> ps == []
    ensures data.Some? ==> |ps| == |data.value| && forall i :: 0 <= i < |ps| ==> ps[i] == MapRow(data.value[i])
  {
    if data.None? then [] else seq(|data.value|, i requires 0 <= i < |data.value| => MapRow(data.value[i]))
  }

  /** On a mapped product with non-negative stock, the inactive status and
      the out-of-stock badge coincide; a mapped product is never "low" on
      account of a custom minimum. */
  lemma MappedStatusAgreesWithBadge(row: ProductoRow)
    requires row.stockActual >= 0
    ensures var p := MapRow(row);
      (p.status == Inactive <==> StockStatus(p.stock, p.minStock) == SinStock)
      && (StockStatus(p.stock, p.minStock) == StockBajo <==> 0 < row.stockActual <= 10)
  {
  }

  // ---------------------------------------------------------------------------
  // Saving a product (lines 229-258, 272-274)
  // ---------------------------------------------------------------------------

  /** The form's text fields (price and minimum are not modelled). */
  datatype ProductForm = ProductForm(name: string, sku: string, category: string, stock: string, image: string)

  /** The non-price columns of a new `productos` row. */
  datatype ProductoInsert = ProductoInsert(
    organizacionId: string,
    nombre: string,
    sku: string,
    categoriaId: Option<string>,
    precioCosto: int,
    stockActual: int,
    imagenUrl: Option<string>)

  /** The insert of a new product: the initial stock is `parseInt(stock) || 0`,
      the cost is 0, and an empty image is sent as null. */
  function NewProductPayload(orgId: string, form: ProductForm, categoriaId: Option<string>): (ins: ProductoInsert)
    ensures ins.organizacionId == orgId && ins.nombre == form.name && ins.sku == form.sku && ins.categoriaId == categoriaId
    ensures ins.precioCosto == 0
    ensures ParseInt(form.stock).Some? ==> ins.stockActual == ParseInt(form.stock).value
    ensures ParseInt(form.stock).None? ==> ins.stockActual == 0
    ensures ins.imagenUrl.None? <==> form.image == []
    ensures ins.imagenUrl.Some? ==> ins.imagenUrl.value == form.image
  {
    ProductoInsert(orgId, form.name, form.sku, categoriaId, 0, ParseIntOrZero(form.stock),
      if form.image == [] then None else Some(form.image))
  }

  /** A stock field holding a number's decimal spelling stores that number;
      an empty or non-numeric one stores 0. */
  lemma NewProductStock(orgId: string, form: ProductForm, categoriaId: Option<string>, n: int)
    ensures form.stock == IntToString(n) ==> NewProductPayload(orgId, form, categoriaId).stockActual == n
    ensures form.stock == [] ==> NewProductPayload(orgId, form, categoriaId).stockActual == 0
  {
    if form.stock == IntToString(n) {
      ParseIntOfString(n);
    }
  }

  const SkuDuplicado: string := "El SKU ya existe en esta organización"
  const ErrorGuardarProducto: string := "Error al guardar el producto"

  /** The message a failed insert or update leaves in the list's error: a
      unique violation is reported as a duplicate SKU, anything else by its
      own message or the generic one. */
  function SaveError(e: DbError): (msg: string)
    ensures msg != []
    ensures e.code == UniqueViolation ==> msg == SkuDuplicado
    ensures e.code != UniqueViolation && e.message != [] ==> msg == e.message
  {
    if e.code == UniqueViolation then SkuDuplicado else OrElse(e.message, ErrorGuardarProducto)
  }

  /** Unless the backend itself used that wording, the duplicate-SKU message
      appears exactly for code 23505. */
  lemma SaveErrorIdentifiesDuplicates(e: DbError)
    requires e.message != SkuDuplicado
    ensures SaveError(e) == SkuDuplicado <==> e.code == UniqueViolation
  {
  }
}
