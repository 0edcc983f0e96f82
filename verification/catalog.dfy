/**
 * The product catalog and the product list page: the category choices
 * offered in the drop-down and the search/category filter over the products.
 */
module Catalog {
  import opened Common
  import opened Text

  /** A product as the catalog supplies it; the price is in cents. */
  datatype Product = Product(
    id: int,
    name: string,
    description: string,
    price: nat,
    availableQuantity: int,
    categoryName: string)

  /** The name of the drop-down entry that matches every category. */
  const AllCategories: string := "all"

  // ---------------------------------------------------------------------------
  // Category choices

  ghost predicate NoDuplicates(s: seq<string>) {
    forall i, j :: 0 <= i < j < |s| ==> s[i] != s[j]
  }

  /** The position of the first occurrence of `x` in `s`. */
  function FirstIndex(s: seq<string>, x: string): (i: nat)
    requires x in s
    ensures i < |s| && s[i] == x && x !in s[..i]
  {
    if s[0] == x then 0
    else
      var k := FirstIndex(s[1..], x);
      assert s[..k + 1] == [s[0]] + s[1..][..k];
      k + 1
  }

  /**
   * The distinct elements of `names`, each kept where it first occurs: the
   * iteration order of a JavaScript `Set` built from `names`.
   */
  function Distinct(names: seq<string>): (r: seq<string>)
    ensures forall x :: x in r <==> x in names
    ensures NoDuplicates(r)
  {
    if names == [] then []
    else
      var d := Distinct(names[..|names| - 1]);
      var last := names[|names| - 1];
      assert forall x :: x in names <==> x in names[..|names| - 1] || x == last;
      if last in d then d else d + [last]
  }

  /** A prefix does not change where an element it holds first occurs. */
  lemma FirstIndexInPrefix(s: seq<string>, k: nat, x: string)
    requires k <= |s| && x in s[..k]
    ensures x in s && FirstIndex(s, x) == FirstIndex(s[..k], x)
  {
    var i := FirstIndex(s, x);
    var j := FirstIndex(s[..k], x);
    assert s[..k][..j] == s[..j];
  }

  /** `Distinct` lists the names in the order in which they first occur. */
  lemma {:induction false} DistinctKeepsFirstOccurrenceOrder(names: seq<string>)
    ensures forall i, j :: 0 <= i < j < |Distinct(names)| ==>
      FirstIndex(names, Distinct(names)[i]) < FirstIndex(names, Distinct(names)[j])
  {
    if names != [] {
      var n := |names|;
      var prefix := names[..n - 1];
      var d := Distinct(prefix);
      var last := names[n - 1];
      var r := Distinct(names);
      DistinctKeepsFirstOccurrenceOrder(prefix);
      assert r == if last in d then d else d + [last];
      forall i, j | 0 <= i < j < |r|
        ensures FirstIndex(names, r[i]) < FirstIndex(names, r[j])
      {
        assert r[i] == d[i] && r[i] in prefix;
        FirstIndexInPrefix(names, n - 1, r[i]);
        if j < |d| {
          assert r[j] == d[j] && r[j] in prefix;
          FirstIndexInPrefix(names, n - 1, r[j]);
          assert FirstIndex(prefix, d[i]) < FirstIndex(prefix, d[j]);
        } else {
          assert r[j] == last && last !in prefix;
          assert FirstIndex(names, last) == n - 1;
        }
      }
    }
  }

  function CategoryNames(products: seq<Product>): (names: seq<string>)
    ensures |names| == |products|
    ensures forall i :: 0 <= i < |products| ==> names[i] == products[i].categoryName
  {
    seq(|products|, i requires 0 <= i < |products| => products[i].categoryName)
  }

  /**
   * The drop-down's choices: "all" first, then each product category once,
   * in the order of first occurrence (a category literally named "all" is
   * listed a second time, as the page does).
   */
  function Categories(products: seq<Product>): (r: seq<string>)
    ensures |r| >= 1 && r[0] == AllCategories
    ensures forall p :: p in products ==> p.categoryName in r[1..]
    ensures forall c :: c in r[1..] ==> exists p :: p in products && p.categoryName == c
    ensures NoDuplicates(r[1..])
  {
    var names := CategoryNames(products);
    var d := Distinct(names);
    var r := [AllCategories] + d;
    assert r[1..] == d;
    assert forall p :: p in products ==> p.categoryName in names;
    r
  }

  /** The categories after "all" appear in the order in which the products first name them. */
  lemma CategoriesInFirstOccurrenceOrder(products: seq<Product>)
    ensures forall i, j :: 1 <= i < j < |Categories(products)| ==>
      FirstIndex(CategoryNames(products), Categories(products)[i])
        < FirstIndex(CategoryNames(products), Categories(products)[j])
  {
    var names := CategoryNames(products);
    DistinctKeepsFirstOccurrenceOrder(names);
    var r := Categories(products);
    assert r == [AllCategories] + Distinct(names);
    forall i, j | 1 <= i < j < |r|
      ensures FirstIndex(names, r[i]) < FirstIndex(names, r[j])
    {
      assert r[i] == Distinct(names)[i - 1] && r[j] == Distinct(names)[j - 1];
    }
  }

  // ---------------------------------------------------------------------------
  // Search and category filter

  /** The search text occurs, ignoring case, in the product's name or description. */
  predicate MatchesSearch(p: Product, filter: string) {
    Includes(ToLower(p.name), ToLower(filter)) || Includes(ToLower(p.description), ToLower(filter))
  }

  predicate MatchesCategory(p: Product, category: string) {
    category == AllCategories || p.categoryName == category
  }

  predicate IsShown(p: Product, filter: string, category: string) {
    MatchesSearch(p, filter) && MatchesCategory(p, category)
  }

  /** The products listed on the page for the given search text and category. */
  function FilterProducts(products: seq<Product>, filter: string, category: string): (r: seq<Product>)
    ensures forall p :: p in r <==> p in products && IsShown(p, filter, category)
    ensures category != AllCategories ==> forall p :: p in r ==> p.categoryName == category
    ensures |r| <= |products|
  {
    if products == [] then []
    else
      var rest := FilterProducts(products[1..], filter, category);
      assert forall p :: p in products <==> p == products[0] || p in products[1..];
      if IsShown(products[0], filter, category) then [products[0]] + rest else rest
  }

  /** The listed products keep the catalog's order. */
  lemma {:induction false} FilterIsSubsequence(products: seq<Product>, filter: string, category: string)
    ensures IsSubsequence(FilterProducts(products, filter, category), products)
  {
    if products != [] {
      FilterIsSubsequence(products[1..], filter, category);
      var rest := FilterProducts(products[1..], filter, category);
      if !IsShown(products[0], filter, category) && rest != [] {
        assert IsSubsequence(rest, products[1..]);
      }
    }
  }

  /**
   * Each listed product appears as many times as in the catalog, and a
   * product that is not shown does not appear at all.
   */
  lemma {:induction false} FilterKeepsMultiplicity(products: seq<Product>, filter: string, category: string)
    ensures forall p :: multiset(FilterProducts(products, filter, category))[p] ==
                          (if IsShown(p, filter, category) then multiset(products)[p] else 0)
  {
    if products != [] {
      FilterKeepsMultiplicity(products[1..], filter, category);
      assert products == [products[0]] + products[1..];
      assert multiset(products) == multiset([products[0]]) + multiset(products[1..]);
    }
  }

  /** With no search text and the category "all", the page lists the whole catalog. */
  lemma {:induction false} EmptySearchShowsAll(products: seq<Product>)
    ensures FilterProducts(products, "", AllCategories) == products
  {
    if products != [] {
      IncludesEmpty(ToLower(products[0].name));
      EmptySearchShowsAll(products[1..]);
    }
  }

  /** The search ignores case: typing the text in lower case lists the same products. */
  lemma {:induction false} SearchIgnoresCase(products: seq<Product>, filter: string, category: string)
    ensures FilterProducts(products, ToLower(filter), category) == FilterProducts(products, filter, category)
  {
    ToLowerIdempotent(filter);
    if products != [] {
      SearchIgnoresCase(products[1..], filter, category);
    }
  }

  /**
   * The list's "Add to Cart" button: enabled when at least one unit is
   * available, and then it always adds a quantity of 1.
   */
  function ListAddQuantity(p: Product): (q: Option<int>)
    ensures q.Some? <==> p.availableQuantity >= 1
    ensures q.Some? ==> q.value == 1
  {
    if p.availableQuantity < 1 then None else Some(1)
  }
}
