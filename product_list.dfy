/**
 * The product page's two derived lists: the categories to offer (each
 * category once, in the order it first appears among the products) and
 * the products shown for the selected category, where "all" shows every
 * product.
 */
module ProductList {
  import opened ProductSlice

  const AllCategories := "all"

  /** `products.map(product => product.category)`. */
  function CategoryList(products: seq<Product>): (r: seq<string>)
    ensures |r| == |products| && forall k :: 0 <= k < |products| ==> r[k] == products[k].category
  {
    seq(|products|, k requires 0 <= k < |products| => products[k].category)
  }

  /**
   * Spreading a Set built from a list: each value is inserted in list
   * order and kept only the first time it is seen.
   */
  function Distinct(xs: seq<string>): (r: seq<string>)
    ensures |r| <= |xs|
    decreases |xs|
  {
    if xs == [] then []
    else
      var init := Distinct(xs[..|xs| - 1]);
      var last := xs[|xs| - 1];
      if last in init then init else init + [last]
  }

  /** The position of the first occurrence of a value that occurs. */
  function FirstIndex(xs: seq<string>, x: string): (i: nat)
    requires x in xs
    ensures i < |xs| && xs[i] == x && x !in xs[..i]
  {
    if xs[0] == x then 0
    else
      assert x in xs[1..] by {
        var k :| 0 <= k < |xs| && xs[k] == x;
        assert xs[1..][k - 1] == x;
      }
      var j := FirstIndex(xs[1..], x);
      assert xs[..j + 1] == [xs[0]] + xs[1..][..j];
      j + 1
  }

  /** The category buttons: every category of the catalogue once. */
  function Categories(products: seq<Product>): (r: seq<string>)
    ensures forall i, j :: 0 <= i < j < |r| ==> r[i] != r[j]
    ensures forall c :: c in r <==> exists k :: 0 <= k < |products| && products[k].category == c
  {
    var cats := CategoryList(products);
    DistinctMembers(cats);
    DistinctNoDuplicates(cats);
    Distinct(cats)
  }

  /** `products.filter(product => product.category === selected)`. */
  function WithCategory(products: seq<Product>, selected: string): (r: seq<Product>)
    ensures |r| <= |products|
    ensures forall k :: 0 <= k < |r| ==> r[k].category == selected
  {
    if products == [] then []
    else
      var rest := WithCategory(products[1..], selected);
      if products[0].category == selected then [products[0]] + rest else rest
  }

  /** The products shown for a selection. */
  function FilteredProducts(products: seq<Product>, selected: string): (r: seq<Product>)
    ensures selected == AllCategories ==> r == products
    ensures selected != AllCategories ==> forall p :: p in r <==> p in products && p.category == selected
    ensures |r| <= |products|
  {
    if selected == AllCategories then products
    else
      WithCategoryMembers(products, selected);
      WithCategory(products, selected)
  }

  // ---------------------------------------------------------------------
  // Properties of the category list

  lemma {:induction false} DistinctMembers(xs: seq<string>)
    ensures forall x :: x in Distinct(xs) <==> x in xs
    decreases |xs|
  {
    if xs != [] {
      var p := xs[..|xs| - 1];
      DistinctMembers(p);
      assert xs == p + [xs[|xs| - 1]];
    }
  }

  lemma {:induction false} DistinctNoDuplicates(xs: seq<string>)
    ensures forall i, j :: 0 <= i < j < |Distinct(xs)| ==> Distinct(xs)[i] != Distinct(xs)[j]
    decreases |xs|
  {
    if xs != [] {
      var p := xs[..|xs| - 1];
      DistinctNoDuplicates(p);
      var init := Distinct(p);
      var r := Distinct(xs);
      var last := xs[|xs| - 1];
      if last !in init {
        forall i, j | 0 <= i < j < |r| ensures r[i] != r[j] {
          if j == |init| {
            assert r[i] == init[i];
          } else {
            assert r[i] == init[i] && r[j] == init[j];
          }
        }
      }
    }
  }

  /** Extending a list keeps the first occurrences of what it already held. */
  lemma FirstIndexExtend(xs: seq<string>, y: string, x: string)
    requires x in xs
    ensures FirstIndex(xs + [y], x) == FirstIndex(xs, x)
  {
    var ys := xs + [y];
    assert ys[..|xs|] == xs;
  }

  /** The category list follows the order in which categories first appear. */
  lemma {:induction false} DistinctFirstOccurrenceOrder(xs: seq<string>)
    ensures forall x :: x in Distinct(xs) ==> x in xs
    ensures forall i, j :: 0 <= i < j < |Distinct(xs)| ==>
      FirstIndex(xs, Distinct(xs)[i]) < FirstIndex(xs, Distinct(xs)[j])
    decreases |xs|
  {
    DistinctMembers(xs);
    if xs != [] {
      var p := xs[..|xs| - 1];
      var last := xs[|xs| - 1];
      assert xs == p + [last];
      DistinctFirstOccurrenceOrder(p);
      DistinctMembers(p);
      var init := Distinct(p);
      var r := Distinct(xs);
      forall i, j | 0 <= i < j < |r| ensures FirstIndex(xs, r[i]) < FirstIndex(xs, r[j]) {
        assert r[i] == init[i] && r[i] in p;
        FirstIndexExtend(p, last, r[i]);
        if j < |init| {
          assert r[j] == init[j] && r[j] in p;
          FirstIndexExtend(p, last, r[j]);
        } else {
          assert r[j] == last && last !in p;
          assert FirstIndex(xs, last) == |p|;
        }
      }
    }
  }

  /** Categories in first-appearance order among the products. */
  lemma CategoriesInFirstAppearanceOrder(products: seq<Product>)
    ensures forall c :: c in Categories(products) ==> c in CategoryList(products)
    ensures forall i, j :: 0 <= i < j < |Categories(products)| ==>
      FirstIndex(CategoryList(products), Categories(products)[i])
        < FirstIndex(CategoryList(products), Categories(products)[j])
  {
    DistinctFirstOccurrenceOrder(CategoryList(products));
  }

  // ---------------------------------------------------------------------
  // Properties of the filter

  lemma {:induction false} WithCategoryMembers(products: seq<Product>, selected: string)
    ensures forall p :: p in WithCategory(products, selected) <==> p in products && p.category == selected
  {
    if products != [] {
      WithCategoryMembers(products[1..], selected);
      assert products == [products[0]] + products[1..];
    }
  }

  /** The filter works piecewise, so the products it keeps stay in catalogue order. */
  lemma {:induction false} WithCategoryAppend(a: seq<Product>, b: seq<Product>, selected: string)
    ensures WithCategory(a + b, selected) == WithCategory(a, selected) + WithCategory(b, selected)
  {
    if a == [] {
      assert a + b == b;
    } else {
      var ab := a + b;
      assert ab[0] == a[0];
      assert ab[1..] == a[1..] + b;
      WithCategoryAppend(a[1..], b, selected);
      var rest := WithCategory(a[1..], selected) + WithCategory(b, selected);
      if a[0].category == selected {
        assert WithCategory(ab, selected) == [a[0]] + rest;
      } else {
        assert WithCategory(ab, selected) == rest;
      }
    }
  }

  /** Every copy of a matching product is kept and none of the others. */
  lemma {:induction false} WithCategoryCounts(products: seq<Product>, selected: string)
    ensures forall p :: multiset(WithCategory(products, selected))[p]
                     == if p.category == selected then multiset(products)[p] else 0
  {
    if products != [] {
      WithCategoryCounts(products[1..], selected);
      assert products == [products[0]] + products[1..];
    }
  }

  /** Every category offered selects at least one product. */
  lemma OfferedCategoryNonEmpty(products: seq<Product>, c: string)
    requires c in Categories(products) && c != AllCategories
    ensures FilteredProducts(products, c) != []
  {
    var k :| 0 <= k < |products| && products[k].category == c;
    assert products[k] in products;
  }
}
