/** The menu page of src/pages/Menu.tsx: the category tabs derived from the catalogue, the
    product list filtered by the active tab, and the flags that open the cart drawer and
    the checkout dialog. */
module Menu {
  import opened Types
  import Seqs
  import MockData

  /** The tab that shows every product. */
  const AllTab := "Todos"

  /** The category of every product, in catalogue order (`products.map(p => p.category)`). */
  function CategoryOf(products: seq<Product>): (r: seq<string>)
    ensures |r| == |products|
    ensures forall i :: 0 <= i < |r| ==> r[i] == products[i].category
  {
    seq(|products|, i requires 0 <= i < |products| => products[i].category)
  }

  /** `[...new Set(xs)]`: a JavaScript `Set` keeps insertion order and ignores a value it
      already holds, so each value is inserted in turn and repeats are skipped. */
  function Distinct(xs: seq<string>): seq<string> {
    if xs == [] then []
    else
      var seen := Distinct(xs[..|xs| - 1]);
      if xs[|xs| - 1] in seen then seen else seen + [xs[|xs| - 1]]
  }

  /** No value occurs twice. */
  predicate NoRepeats(xs: seq<string>) {
    forall i, j :: 0 <= i < j < |xs| ==> xs[i] != xs[j]
  }

  /** `Distinct` keeps exactly the values of its input, each once, in the order in which
      they first appear: every occurrence of a later value is preceded by an occurrence
      of each earlier one. */
  lemma {:induction false} DistinctFirstAppearance(xs: seq<string>)
    ensures forall c :: c in Distinct(xs) <==> c in xs
    ensures NoRepeats(Distinct(xs))
    ensures forall i, j, k :: 0 <= i < j < |Distinct(xs)| && 0 <= k < |xs| && xs[k] == Distinct(xs)[j]
              ==> Distinct(xs)[i] in xs[..k]
  {
    if xs != [] {
      var init, last := xs[..|xs| - 1], xs[|xs| - 1];
      DistinctFirstAppearance(init);
      var seen, d := Distinct(init), Distinct(xs);
      assert xs == init + [last];
      forall i, j, k | 0 <= i < j < |d| && 0 <= k < |xs| && xs[k] == d[j]
        ensures d[i] in xs[..k]
      {
        if j < |seen| {
          assert d[j] == seen[j] && d[i] == seen[i];
          if k < |init| {
            assert init[k] == xs[k];
            assert init[..k] == xs[..k];
          } else {
            assert seen[j] in init;
            var k' :| 0 <= k' < |init| && init[k'] == seen[j];
            assert seen[i] in init[..k'];
            assert init[..k'] <= xs[..k];
          }
        } else {
          assert d[i] == seen[i] && last !in init;
          assert k == |init| && xs[..k] == init;
        }
      }
    }
  }

  /** The `categories` tabs: "Todos" first, then every product category once. */
  function Categories(products: seq<Product>): (r: seq<string>)
    ensures |r| >= 1 && r[0] == AllTab
  {
    [AllTab] + Distinct(CategoryOf(products))
  }

  /** After "Todos", the tabs are exactly the product categories, each listed once, in the
      order in which the catalogue first mentions them. */
  lemma CategoriesFromCatalogue(products: seq<Product>)
    ensures forall c :: c in Categories(products)[1..] <==> exists p :: p in products && p.category == c
    ensures NoRepeats(Categories(products)[1..])
    ensures forall i, j, k :: 1 <= i < j < |Categories(products)| && 0 <= k < |products|
              && products[k].category == Categories(products)[j]
              ==> Categories(products)[i] in CategoryOf(products)[..k]
  {
    var cats := CategoryOf(products);
    DistinctFirstAppearance(cats);
    var tabs := Categories(products);
    assert tabs[1..] == Distinct(cats);
    forall c ensures c in tabs[1..] <==> exists p :: p in products && p.category == c {
      if c in cats {
        var i :| 0 <= i < |cats| && cats[i] == c;
        assert products[i] in products;
      }
      if exists p :: p in products && p.category == c {
        var p :| p in products && p.category == c;
        var i :| 0 <= i < |products| && products[i] == p;
        assert cats[i] == c;
      }
    }
    forall i, j, k | 1 <= i < j < |tabs| && 0 <= k < |products| && products[k].category == tabs[j]
      ensures tabs[i] in cats[..k]
    {
      assert tabs[i] == Distinct(cats)[i - 1] && tabs[j] == Distinct(cats)[j - 1];
      assert cats[k] == products[k].category;
    }
  }

  /** The mock catalogue gives the tabs "Todos", "Burgers", "Acompanhamentos", "Bebidas". */
  lemma MockCategories()
    ensures Categories(MockData.Products) == [AllTab, "Burgers", "Acompanhamentos", "Bebidas"]
  {
    MockCategoryColumn();
    DistinctMockColumn();
  }

  /** The categories of the mock catalogue, product by product. */
  lemma MockCategoryColumn()
    ensures CategoryOf(MockData.Products)
         == ["Burgers", "Burgers", "Burgers", "Burgers", "Acompanhamentos", "Acompanhamentos", "Bebidas", "Bebidas"]
  {
  }

  /** Inserting the mock category column into a `Set` one value at a time. */
  lemma DistinctMockColumn()
    ensures Distinct(["Burgers", "Burgers", "Burgers", "Burgers", "Acompanhamentos", "Acompanhamentos", "Bebidas", "Bebidas"])
         == ["Burgers", "Acompanhamentos", "Bebidas"]
  {
    var b, a, d := "Burgers", "Acompanhamentos", "Bebidas";
    assert Distinct([b]) == [b] by { assert [b][..0] == []; }
    assert Distinct([b, b]) == [b] by { assert [b, b][..1] == [b]; }
    assert Distinct([b, b, b]) == [b] by { assert [b, b, b][..2] == [b, b]; }
    assert Distinct([b, b, b, b]) == [b] by { assert [b, b, b, b][..3] == [b, b, b]; }
    assert Distinct([b, b, b, b, a]) == [b, a] by { assert [b, b, b, b, a][..4] == [b, b, b, b]; }
    assert Distinct([b, b, b, b, a, a]) == [b, a] by { assert [b, b, b, b, a, a][..5] == [b, b, b, b, a]; }
    assert Distinct([b, b, b, b, a, a, d]) == [b, a, d] by {
      assert [b, b, b, b, a, a, d][..6] == [b, b, b, b, a, a];
      assert d != b && d != a;
    }
    assert [b, b, b, b, a, a, d, d][..7] == [b, b, b, b, a, a, d];
  }

  /** The filter test of a tab: the product belongs to `category`. */
  function InCategory(category: string): Product -> bool {
    (p: Product) => p.category == category
  }

  /** `filteredProducts`: the whole catalogue under "Todos", otherwise the products of the
      active category. */
  function FilteredProducts(products: seq<Product>, active: string): seq<Product> {
    if active == AllTab then products else Seqs.Filter(products, InCategory(active))
  }

  /** Under "Todos" nothing is filtered out; under any other tab the list holds exactly
      the products of that category, each as many times as the catalogue holds it, in
      catalogue order. */
  lemma FilteredProductsSelect(products: seq<Product>, active: string)
    ensures active == AllTab ==> FilteredProducts(products, active) == products
    ensures active != AllTab ==>
      forall p :: p in FilteredProducts(products, active) <==> p in products && p.category == active
    ensures active != AllTab ==>
      forall p :: multiset(FilteredProducts(products, active))[p]
                  == if p.category == active then multiset(products)[p] else 0
    ensures Seqs.IsSubsequence(FilteredProducts(products, active), products)
  {
    var keep := InCategory(active);
    if active == AllTab {
      SubsequenceRefl(products);
    } else {
      forall p ensures p in FilteredProducts(products, active) <==> p in products && p.category == active {
        Seqs.FilterMembers(products, keep, p);
      }
      forall p ensures multiset(FilteredProducts(products, active))[p]
                       == if p.category == active then multiset(products)[p] else 0 {
        Seqs.FilterCount(products, keep, p);
      }
      Seqs.FilterIsSubsequence(products, keep);
    }
  }

  /** Every sequence is a subsequence of itself. */
  lemma {:induction false} SubsequenceRefl<T>(s: seq<T>)
    ensures Seqs.IsSubsequence(s, s)
  {
    if s != [] {
      SubsequenceRefl(s[1..]);
    }
  }

  /** On the mock catalogue, the "Bebidas" tab lists the two drinks, in catalogue order. */
  lemma MockDrinks()
    ensures FilteredProducts(MockData.Products, "Bebidas") == [MockData.Products[6], MockData.Products[7]]
  {
    MockCategoryColumn();
    DrinksAreLastTwo(MockData.Products);
  }

  /** A catalogue laid out like the mock one keeps its last two products under "Bebidas". */
  lemma DrinksAreLastTwo(ps: seq<Product>)
    requires CategoryOf(ps)
          == ["Burgers", "Burgers", "Burgers", "Burgers", "Acompanhamentos", "Acompanhamentos", "Bebidas", "Bebidas"]
    ensures FilteredProducts(ps, "Bebidas") == [ps[6], ps[7]]
  {
    var keep := InCategory("Bebidas");
    assert forall i :: 0 <= i < 6 ==> ps[i].category == CategoryOf(ps)[i];
    forall x | x in ps[..6] ensures !keep(x) {
      var i :| 0 <= i < 6 && ps[..6][i] == x;
      assert x.category == CategoryOf(ps)[i];
    }
    Seqs.FilterNonePass(ps[..6], keep);
    Seqs.FilterConcat(ps[..6], ps[6..], keep);
    assert ps == ps[..6] + ps[6..];
    assert keep(ps[6]) && keep(ps[7]) by {
      assert ps[6].category == CategoryOf(ps)[6] && ps[7].category == CategoryOf(ps)[7];
    }
    assert ps[6..][1..] == [ps[7]];
    assert [ps[7]][1..] == [];
  }

  /** The page state: the active category tab and whether the cart drawer and the
      checkout dialog are open. */
  class MenuPage {
    var activeCategory: string
    var cartOpen: bool
    var checkoutOpen: bool

    /** The page opens on "Todos" with both the drawer and the dialog closed. */
    constructor ()
      ensures activeCategory == AllTab && !cartOpen && !checkoutOpen
    {
      activeCategory := AllTab;
      cartOpen := false;
      checkoutOpen := false;
    }

    /** The products the page shows for the active tab. */
    function Shown(): seq<Product>
      reads this
    {
      FilteredProducts(MockData.Products, activeCategory)
    }

    /** Selecting a tab (`setActiveCategory`) changes the shown products and nothing else. */
    method SelectCategory(category: string)
      modifies this
      ensures activeCategory == category
      ensures cartOpen == old(cartOpen) && checkoutOpen == old(checkoutOpen)
      ensures forall p :: p in Shown() <==> p in MockData.Products && (category == AllTab || p.category == category)
    {
      activeCategory := category;
      FilteredProductsSelect(MockData.Products, category);
    }

    /** `handleCheckout`: the cart drawer closes and the checkout dialog opens; the
        active tab is kept. */
    method HandleCheckout()
      modifies this
      ensures !cartOpen && checkoutOpen
      ensures activeCategory == old(activeCategory)
    {
      cartOpen := false;
      checkoutOpen := true;
    }
  }
}
