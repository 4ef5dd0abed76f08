/** The product catalogue endpoints (`products.py`): filtering, lookup by id
    and the category list, all read-only over `products_db`. */
module ProductsApi {
  import opened Common

  /** A catalogue product; `price` in cents. */
  datatype Product = Product(
    id: int, name: string, description: string, price: int,
    category: string, stock: int, businessId: int)

  /** The module-level `products_db` list; the inventory endpoint writes the
      `stock` of its entries, so it is one shared mutable cell. */
  class Catalog {
    var products: seq<Product>

    constructor (initial: seq<Product>)
      ensures products == initial
    {
      products := initial;
    }
  }

  /** ASCII lower-casing of one character. */
  function LowerChar(c: char): char
  {
    if 'A' <= c <= 'Z' then (c as int - 'A' as int + 'a' as int) as char else c
  }

  /** No upper-case ASCII letter survives, and every other character is
      kept. */
  function Lower(s: string): (r: string)
    ensures |r| == |s|
    ensures forall i :: 0 <= i < |r| ==> !('A' <= r[i] <= 'Z')
    ensures forall i :: 0 <= i < |s| && !('A' <= s[i] <= 'Z') ==> r[i] == s[i]
  {
    seq(|s|, i requires 0 <= i < |s| => LowerChar(s[i]))
  }

  /** Lower-casing is idempotent, so matching lower-cased text against a
      lower-cased term does not depend on how often either was lowered. */
  lemma LowerIdempotent(s: string)
    ensures Lower(Lower(s)) == Lower(s)
  {
  }

  /** The category filter is on only for a non-empty category other than `'all'`. */
  predicate CategoryFilterOn(category: Option<string>)
  {
    category.Some? && category.value != "" && category.value != "all"
  }

  predicate InCategory(p: Product, category: Option<string>)
  {
    !CategoryFilterOn(category) || p.category == category.value
  }

  predicate MatchesSearch(p: Product, search: Option<string>)
  {
    search.None? || search.value == ""
    || Contains(Lower(p.name), Lower(search.value))
    || Contains(Lower(p.description), Lower(search.value))
  }

  function CategoryTest(category: Option<string>): Product -> bool
  {
    (p: Product) => InCategory(p, category)
  }

  function SearchTest(search: Option<string>): Product -> bool
  {
    (p: Product) => MatchesSearch(p, search)
  }

  function BothTests(category: Option<string>, search: Option<string>): Product -> bool
  {
    (p: Product) => InCategory(p, category) && MatchesSearch(p, search)
  }

  /** `get_products`: the category filter, then the search filter. */
  function GetProducts(products: seq<Product>, category: Option<string>, search: Option<string>): (r: seq<Product>)
    ensures |r| <= |products|
    ensures forall p :: p in r ==> p in products
  {
    var byCategory := if CategoryFilterOn(category) then Filter(products, CategoryTest(category)) else products;
    if search.Some? && search.value != "" then Filter(byCategory, SearchTest(search)) else byCategory
  }

  /** Filtering twice is filtering once by both tests. */
  lemma {:induction false} FilterTwice(s: seq<Product>, category: Option<string>, search: Option<string>)
    ensures Filter(Filter(s, CategoryTest(category)), SearchTest(search)) == Filter(s, BothTests(category, search))
  {
    var c, t, b := CategoryTest(category), SearchTest(search), BothTests(category, search);
    if s != [] {
      var s' := s[..|s| - 1];
      var x := s[|s| - 1];
      FilterTwice(s', category, search);
      var inner := Filter(s', c);
      assert Filter(s, c) == inner + (if c(x) then [x] else []);
      assert Filter(s, b) == Filter(s', b) + (if b(x) then [x] else []);
      if c(x) {
        FilterAppend(inner, [x], t);
        assert [x][..0] == [];
        assert Filter([x], t) == (if t(x) then [x] else []);
      } else {
        assert Filter(s, c) == inner;
      }
    }
  }

  /** The result is exactly the order-preserving subsequence of the catalogue
      whose products pass both the category and the search filter. */
  lemma GetProductsIsFilter(products: seq<Product>, category: Option<string>, search: Option<string>)
    ensures GetProducts(products, category, search) == Filter(products, BothTests(category, search))
    ensures Embeds(GetProducts(products, category, search), products)
    ensures forall p :: p in GetProducts(products, category, search) <==>
      p in products && InCategory(p, category) && MatchesSearch(p, search)
  {
    var both := BothTests(category, search);
    if CategoryFilterOn(category) {
      if search.Some? && search.value != "" {
        FilterTwice(products, category, search);
      } else {
        assert forall i :: 0 <= i < |products| ==> (both(products[i]) <==> CategoryTest(category)(products[i]));
        FilterSame(products, both, CategoryTest(category));
      }
    } else {
      if search.Some? && search.value != "" {
        assert forall i :: 0 <= i < |products| ==> (both(products[i]) <==> SearchTest(search)(products[i]));
        FilterSame(products, both, SearchTest(search));
      } else {
        FilterAll(products, both);
      }
    }
    FilterEmbeds(products, both);
  }

  /** Two tests that agree on every element filter alike. */
  lemma {:induction false} FilterSame(s: seq<Product>, t: Product -> bool, u: Product -> bool)
    requires forall i :: 0 <= i < |s| ==> (t(s[i]) <==> u(s[i]))
    ensures Filter(s, t) == Filter(s, u)
  {
    if s != [] {
      var init := s[..|s| - 1];
      assert forall i :: 0 <= i < |init| ==> (t(init[i]) <==> u(init[i])) by {
        forall i | 0 <= i < |init| ensures t(init[i]) <==> u(init[i]) {
          assert init[i] == s[i];
        }
      }
      FilterSame(init, t, u);
    }
  }

  /** `get_product`: the first product with the id, `None` for the 404. */
  function FindProduct(products: seq<Product>, id: int): (r: Option<Product>)
    ensures r.Some? ==> r.value in products && r.value.id == id
    ensures r.None? <==> forall i :: 0 <= i < |products| ==> products[i].id != id
    ensures r.Some? ==>
      exists k :: 0 <= k < |products| && products[k] == r.value && forall j :: 0 <= j < k ==> products[j].id != id
  {
    if products == [] then None
    else if products[0].id == id then Some(products[0])
    else
      var r := FindProduct(products[1..], id);
      assert forall i :: 1 <= i < |products| ==> products[i] == products[1..][i - 1];
      r
  }

  /** `get_categories`: the distinct non-empty categories. */
  function Categories(products: seq<Product>): (r: set<string>)
    ensures forall c :: c in r <==> c != "" && exists i :: 0 <= i < |products| && products[i].category == c
  {
    set i | 0 <= i < |products| && products[i].category != "" :: products[i].category
  }
}
