/** The demonstration catalogue (components/InventoryDemo.tsx): a fixed list
    of products, the same search-and-category filter as the product list,
    and previous/next navigation inside the filtered list that feeds the
    detail view. Prices and images are display-only and are not modelled. */
module InventoryDemo {
  import opened Wrappers
  import opened Seqs
  import opened Text
  import Inventory
  import ProductDetail

  datatype DemoProduct = DemoProduct(id: string, name: string, sku: string, category: string, stock: int)

  /** `DEMO_PRODUCTS`. */
  const DemoProducts: seq<DemoProduct> := [
    DemoProduct("1", "Acoustic Bloc Screens", "FURN_6666", "Muebles", 16),
    DemoProduct("2", "Bacon Burger", "", "Alimentos", 0),
    DemoProduct("3", "Cable Management Box", "FURN_5555", "Accesorios", 0),
    DemoProduct("4", "Chair Floor Protection", "", "Accesorios", 45),
    DemoProduct("5", "Chicken Curry Sandwich", "", "Alimentos", 120),
    DemoProduct("6", "Club Sandwich", "", "Alimentos", 89),
    DemoProduct("7", "Corner Desk Left Sit", "FURN_1118", "Muebles", 2),
    DemoProduct("8", "Corner Desk Right Sit", "E-COM06", "Muebles", 0),
    DemoProduct("9", "Desk Organizer", "FURN_0001", "Accesorios", 0),
    DemoProduct("10", "Desk Pad", "FURN_0002", "Accesorios", 0),
    DemoProduct("11", "Drawer", "FURN_8855", "Muebles", 174),
    DemoProduct("12", "Drawer Black", "FURN_8960", "Muebles", 0),
    DemoProduct("13", "Bolt", "CONS_89957", "Herramientas", 500),
    DemoProduct("14", "Chauffage", "", "Electrodomésticos", 234),
    DemoProduct("15", "Coca-Cola", "", "Bebidas", 456),
    DemoProduct("16", "Customizable Desk", "CONFIG", "Muebles", 345),
    DemoProduct("17", "Desk Combination", "FURN_7800", "Muebles", 28),
    DemoProduct("18", "Desk Stand with Screen", "FURN_7888", "Muebles", 0),
    DemoProduct("19", "Drawer Black Premium", "FURN_2100", "Muebles", 45),
    DemoProduct("20", "Drawer Case Black", "FURN_5623", "Muebles", 45),
    DemoProduct("21", "Cabinet with Doors", "E-COM11", "Muebles", 32),
    DemoProduct("22", "Cheese Burger", "", "Alimentos", 156),
    DemoProduct("23", "Conference Chair", "CONFIG16", "Muebles", 56),
    DemoProduct("24", "Funghi Pizza", "", "Alimentos", 78)
  ]

  // ---------------------------------------------------------------------------
  // categories and filteredProducts (lines 51-61)
  // ---------------------------------------------------------------------------

  predicate KeepDemo(search: string, filter: string, p: DemoProduct) {
    Inventory.MatchesSearch(p.name, p.sku, search) && Inventory.MatchesCategory(p.category, filter)
  }

  /** `filteredProducts` over any catalogue (the component applies it to `DemoProducts`). */
  function FilteredDemo(ps: seq<DemoProduct>, search: string, filter: string): (r: seq<DemoProduct>)
    ensures SubseqOf(r, ps)
    ensures forall i :: 0 <= i < |r| ==> r[i] in ps && KeepDemo(search, filter, r[i])
    ensures forall i :: 0 <= i < |ps| && KeepDemo(search, filter, ps[i]) ==> ps[i] in r
  {
    Filter((p: DemoProduct) => KeepDemo(search, filter, p), ps)
  }

  /** With an empty search and `'Todos'` the whole catalogue shows, in order. */
  lemma NoFilterShowsAllDemo(ps: seq<DemoProduct>)
    ensures FilteredDemo(ps, "", Inventory.Todos) == ps
  {
    forall p | p in ps
      ensures KeepDemo("", Inventory.Todos, p)
    {
      Inventory.EmptySearchMatches(p.name, p.sku);
    }
    FilterKeepsAll((p: DemoProduct) => KeepDemo("", Inventory.Todos, p), ps);
  }

  /** The demo keeps a product exactly when the product list would keep a
      product with the same name, SKU and category: the two screens share
      one rule. */
  lemma DemoFilterIsListFilter(p: DemoProduct, q: Inventory.Product, search: string, filter: string)
    requires q.name == p.name && q.sku == p.sku && q.category == p.category
    ensures KeepDemo(search, filter, p) <==> Inventory.KeepProduct(search, filter, q)
  {
  }

  /** `DEMO_PRODUCTS.map(p => p.category)`: the same projection as
      `Inventory.CategoriesOf`, over the demo's own product type. */
  function DemoCategoriesOf(ps: seq<DemoProduct>): (cs: seq<string>)
    ensures |cs| == |ps| && forall i :: 0 <= i < |ps| ==> cs[i] == ps[i].category
  {
    seq(|ps|, i requires 0 <= i < |ps| => ps[i].category)
  }

  /** `categories`: `'Todos'` followed by each demo category once, in the order
      of first appearance. */
  function DemoCategories(ps: seq<DemoProduct>): (r: seq<string>)
    ensures r != [] && r[0] == Inventory.Todos && NoDup(r[1..])
    ensures forall i :: 0 <= i < |ps| ==> ps[i].category in r[1..]
    ensures forall c :: c in r[1..] ==> exists i :: 0 <= i < |ps| && ps[i].category == c
  {
    var cs := DemoCategoriesOf(ps);
    var r := Inventory.CategoryOptions(cs);
    assert forall c :: c in r[1..] ==> c in cs;
    r
  }

  /** The demo's categories after `'Todos'` come in the order the products
      first mention them. */
  lemma DemoCategoriesInFirstAppearanceOrder(ps: seq<DemoProduct>)
    ensures var r := DemoCategories(ps); var cs := DemoCategoriesOf(ps);
      forall i, j :: 1 <= i < j < |r| ==> IndexOf(cs, r[i]) < IndexOf(cs, r[j])
  {
    var cs := DemoCategoriesOf(ps);
    var d := Dedup(cs);
    DedupFirstAppearanceOrder(cs);
    var r := DemoCategories(ps);
    assert r == [Inventory.Todos] + d;
    forall i, j | 1 <= i < j < |r|
      ensures IndexOf(cs, r[i]) < IndexOf(cs, r[j])
    {
      assert r[i] == d[i - 1] && r[j] == d[j - 1];
    }
  }

  // ---------------------------------------------------------------------------
  // handleNavigateProduct (lines 72-83, 86-96)
  // ---------------------------------------------------------------------------

  datatype Direction = Prev | Next

  /** `filteredProducts.findIndex(p => p.id === selected.id)`. */
  function IndexById(fs: seq<DemoProduct>, id: string): (k: int)
    ensures -1 <= k < |fs|
    ensures k >= 0 ==> fs[k].id == id && forall j :: 0 <= j < k ==> fs[j].id != id
    ensures k == -1 ==> forall j :: 0 <= j < |fs| ==> fs[j].id != id
  {
    FirstIndex((p: DemoProduct) => p.id == id, fs)
  }

  /** The selection after a click on the previous/next arrow. */
  function Navigate(fs: seq<DemoProduct>, selected: Option<DemoProduct>, dir: Direction): (r: Option<DemoProduct>)
    // No selection, or one that the filter hides: nothing happens.
    ensures selected.None? || IndexById(fs, selected.value.id) == -1 ==> r == selected
    // At either end of the list the arrow towards the outside does nothing.
    ensures selected.Some? && dir == Prev && IndexById(fs, selected.value.id) == 0 ==> r == selected
    ensures selected.Some? && dir == Next && IndexById(fs, selected.value.id) == |fs| - 1 ==> r == selected
    // Otherwise the selection moves exactly one place.
    ensures selected.Some? && dir == Prev && IndexById(fs, selected.value.id) > 0 ==>
      r == Some(fs[IndexById(fs, selected.value.id) - 1])
    ensures selected.Some? && dir == Next && 0 <= IndexById(fs, selected.value.id) < |fs| - 1 ==>
      r == Some(fs[IndexById(fs, selected.value.id) + 1])
  {
    if selected.None? then selected
    else
      var k := IndexById(fs, selected.value.id);
      if k == -1 then selected
      else if dir == Prev && k > 0 then Some(fs[k - 1])
      else if dir == Next && k < |fs| - 1 then Some(fs[k + 1])
      else selected
  }

  /** A selection inside the filtered list stays inside it. */
  lemma NavigateStaysInList(fs: seq<DemoProduct>, selected: Option<DemoProduct>, dir: Direction)
    requires selected.Some? && selected.value in fs
    ensures Navigate(fs, selected, dir).Some? && Navigate(fs, selected, dir).value in fs
  {
  }

  /** No two products share an id. */
  predicate IdsUnique(fs: seq<DemoProduct>) {
    forall i, j :: 0 <= i < j < |fs| ==> fs[i].id != fs[j].id
  }

  /** With distinct ids, a step forward is undone by a step back and the
      other way round. */
  lemma NavigateInverse(fs: seq<DemoProduct>, k: nat)
    requires IdsUnique(fs) && k < |fs|
    ensures k < |fs| - 1 ==> Navigate(fs, Navigate(fs, Some(fs[k]), Next), Prev) == Some(fs[k])
    ensures k > 0 ==> Navigate(fs, Navigate(fs, Some(fs[k]), Prev), Next) == Some(fs[k])
  {
    assert IndexById(fs, fs[k].id) == k;
    if k < |fs| - 1 {
      assert IndexById(fs, fs[k + 1].id) == k + 1;
    }
    if k > 0 {
      assert IndexById(fs, fs[k - 1].id) == k - 1;
    }
  }

  /** The detail view's arrows are disabled exactly where navigation does
      nothing: at position 0 for "previous" and at the last position for
      "next" (with distinct ids, so that moving always changes the product). */
  lemma ArrowsMatchNavigation(fs: seq<DemoProduct>, k: nat)
    requires IdsUnique(fs) && k < |fs|
    ensures var here := IndexById(fs, fs[k].id);
      && (ProductDetail.PrevDisabled(here) <==> Navigate(fs, Some(fs[k]), Prev) == Some(fs[k]))
      && (ProductDetail.NextDisabled(here, |fs|) <==> Navigate(fs, Some(fs[k]), Next) == Some(fs[k]))
  {
    assert IndexById(fs, fs[k].id) == k;
  }

  /** The demo ids are the decimal numerals 1 to 24, in order. */
  lemma DemoIdsAreNumerals(i: nat)
    requires i < |DemoProducts|
    ensures DemoProducts[i].id == NatToString(i + 1)
  {
    if i < 9 {
      OneDigitIds(i);
    } else {
      TwoDigitIds(i);
    }
  }

  lemma OneDigitIds(i: nat)
    requires i < 9
    ensures DemoProducts[i].id == NatToString(i + 1)
  {
    assert NatToString(i + 1) == [DigitChar(i + 1)];
  }

  lemma TwoDigitIds(i: nat)
    requires 9 <= i < |DemoProducts|
    ensures DemoProducts[i].id == NatToString(i + 1)
  {
    var n := i + 1;
    assert NatToString(n) == NatToString(n / 10) + [DigitChar(n % 10)];
    if n < 20 {
      TensIds(i, '1');
    } else {
      TensIds(i, '2');
    }
  }

  /** The ids from 10 on: the tens digit, then the units digit. */
  lemma TensIds(i: nat, tens: char)
    requires 9 <= i < |DemoProducts| && tens == DigitChar((i + 1) / 10)
    requires tens == '1' || tens == '2'
    ensures DemoProducts[i].id == [tens, DigitChar((i + 1) % 10)]
  {
  }

  /** The demo catalogue has 24 products with distinct ids, so navigation
      through it is reversible. */
  lemma DemoProductsWellFormed()
    ensures |DemoProducts| == 24
    ensures IdsUnique(DemoProducts)
  {
    forall i, j | 0 <= i < j < |DemoProducts|
      ensures DemoProducts[i].id != DemoProducts[j].id
    {
      DemoIdsAreNumerals(i);
      DemoIdsAreNumerals(j);
      NatToStringRoundTrip(i + 1);
      NatToStringRoundTrip(j + 1);
    }
  }

  /** Filtering keeps ids distinct. */
  lemma {:induction false} FilterKeepsIdsUnique(ps: seq<DemoProduct>, search: string, filter: string)
    requires IdsUnique(ps)
    ensures IdsUnique(FilteredDemo(ps, search, filter))
    decreases |ps|
  {
    if ps != [] {
      var tail := ps[1..];
      FilterKeepsIdsUnique(tail, search, filter);
      var rt := FilteredDemo(tail, search, filter);
      if KeepDemo(search, filter, ps[0]) {
        assert FilteredDemo(ps, search, filter) == [ps[0]] + rt;
        forall x | x in rt
          ensures x.id != ps[0].id
        {
          var j :| 0 <= j < |tail| && tail[j] == x;
          assert ps[j + 1] == x;
        }
        forall i, j | 0 <= i < j < |[ps[0]] + rt|
          ensures ([ps[0]] + rt)[i].id != ([ps[0]] + rt)[j].id
        {
          if i == 0 {
            assert ([ps[0]] + rt)[j] == rt[j - 1];
          } else {
            assert ([ps[0]] + rt)[i] == rt[i - 1];
          }
        }
      } else {
        assert FilteredDemo(ps, search, filter) == rt;
      }
    }
  }

  /** On the demo screen, whatever the search and category, stepping to the
      next product and back (or back and forward) returns to where it was. */
  lemma DemoNavigationReversible(search: string, filter: string, k: nat)
    requires k < |FilteredDemo(DemoProducts, search, filter)|
    ensures var fs := FilteredDemo(DemoProducts, search, filter);
      && (k < |fs| - 1 ==> Navigate(fs, Navigate(fs, Some(fs[k]), Next), Prev) == Some(fs[k]))
      && (k > 0 ==> Navigate(fs, Navigate(fs, Some(fs[k]), Prev), Next) == Some(fs[k]))
  {
    DemoProductsWellFormed();
    FilterKeepsIdsUnique(DemoProducts, search, filter);
    NavigateInverse(FilteredDemo(DemoProducts, search, filter), k);
  }
}
