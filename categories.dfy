/** The category picker shared by the farmer's graph and analysis views:
    the distinct categories of the farmer's products in the order they
    first occur, and the products of the selected category. */
module Categories {
  import opened Records

  predicate NoDuplicates<T(==,!new)>(xs: seq<T>)
  {
    forall i, j :: 0 <= i < j < |xs| ==> xs[i] != xs[j]
  }

  /** `[...new Set(xs)]`: each value once, in order of first occurrence. */
  function Dedup<T(==,!new)>(xs: seq<T>): (r: seq<T>)
    ensures forall x :: x in r <==> x in xs
    ensures NoDuplicates(r)
    ensures |r| <= |xs|
  {
    if xs == [] then []
    else
      var init := xs[..|xs| - 1];
      var last := xs[|xs| - 1];
      assert forall x :: x in xs <==> x in init || x == last;
      var d := Dedup(init);
      if last in d then d else d + [last]
  }

  /** Where a value first occurs. */
  function FirstIndex<T(==,!new)>(xs: seq<T>, x: T): (i: nat)
    requires x in xs
    ensures i < |xs| && xs[i] == x && x !in xs[..i]
  {
    if xs[0] == x then 0
    else
      var i := 1 + FirstIndex(xs[1..], x);
      assert xs[..i] == [xs[0]] + xs[1..][..i - 1];
      i
  }

  lemma {:induction false} FirstIndexExtend<T(!new)>(xs: seq<T>, y: T, x: T)
    requires x in xs
    ensures FirstIndex(xs + [y], x) == FirstIndex(xs, x)
  {
    if xs[0] != x {
      assert (xs + [y])[1..] == xs[1..] + [y];
      FirstIndexExtend(xs[1..], y, x);
    }
  }

  /** The values of `Dedup(xs)` appear in the order of their first occurrence in `xs`. */
  lemma {:induction false} DedupFirstOccurrenceOrder<T(!new)>(xs: seq<T>, i: nat, j: nat)
    requires i < j < |Dedup(xs)|
    ensures FirstIndex(xs, Dedup(xs)[i]) < FirstIndex(xs, Dedup(xs)[j])
  {
    var init := xs[..|xs| - 1];
    var last := xs[|xs| - 1];
    var d := Dedup(init);
    assert xs == init + [last];
    if last in d {
      DedupFirstOccurrenceOrder(init, i, j);
      FirstIndexExtend(init, last, d[i]);
      FirstIndexExtend(init, last, d[j]);
    } else if j < |d| {
      DedupFirstOccurrenceOrder(init, i, j);
      FirstIndexExtend(init, last, d[i]);
      FirstIndexExtend(init, last, d[j]);
    } else {
      assert Dedup(xs)[j] == last && last !in init;
      FirstIndexExtend(init, last, d[i]);
      var k := FirstIndex(xs, last);
      assert xs[..|xs| - 1] == init;
      assert k == |xs| - 1;
    }
  }

  /** The category column of a product list. */
  function CategoryColumn(ps: seq<Product>): (cs: seq<string>)
    ensures |cs| == |ps| && forall i :: 0 <= i < |ps| ==> cs[i] == ps[i].category
  {
    seq(|ps|, i requires 0 <= i < |ps| => ps[i].category)
  }

  /** The categories offered for a product list. */
  function ProductCategories(ps: seq<Product>): (cs: seq<string>)
    ensures NoDuplicates(cs)
    ensures forall c :: c in cs <==> exists p :: p in ps && p.category == c
  {
    var col := CategoryColumn(ps);
    assert forall c :: c in col <==> exists p :: p in ps && p.category == c by {
      forall c ensures c in col <==> exists p :: p in ps && p.category == c {
        if c in col {
          var i :| 0 <= i < |col| && col[i] == c;
          assert ps[i] in ps;
        }
        if exists p :: p in ps && p.category == c {
          var p :| p in ps && p.category == c;
          var i :| 0 <= i < |ps| && ps[i] == p;
          assert col[i] == c;
        }
      }
    }
    Dedup(col)
  }

  /** The products of one category, in list order. */
  function InCategory(ps: seq<Product>, category: string): (r: seq<Product>)
    ensures forall p :: p in r <==> p in ps && p.category == category
    ensures |r| <= |ps|
  {
    if ps == [] then []
    else (if ps[0].category == category then [ps[0]] else []) + InCategory(ps[1..], category)
  }

  /** The filter keeps list order: filtering a concatenation concatenates the filtered parts. */
  lemma {:induction false} InCategoryAppend(a: seq<Product>, b: seq<Product>, category: string)
    ensures InCategory(a + b, category) == InCategory(a, category) + InCategory(b, category)
  {
    if a != [] {
      assert (a + b)[1..] == a[1..] + b;
      InCategoryAppend(a[1..], b, category);
    } else {
      assert a + b == b;
    }
  }

  /** `filteredProducts`: nothing until a category is selected, then that category's products. */
  function FilteredProducts(ps: seq<Product>, selectedCategory: string): (r: seq<Product>)
    ensures selectedCategory == "" ==> r == []
    ensures selectedCategory != "" ==> r == InCategory(ps, selectedCategory)
  {
    if selectedCategory != "" then InCategory(ps, selectedCategory) else []
  }

  /** The picker's options for some products: each product by its name, in list order. */
  function ProductNames(ps: seq<Product>): (names: seq<string>)
    ensures |names| == |ps| && forall i :: 0 <= i < |ps| ==> names[i] == ps[i].name
  {
    seq(|ps|, i requires 0 <= i < |ps| => ps[i].name)
  }

  /** Every category offered, other than an empty one, has a product to pick. */
  lemma OfferedCategoryHasProducts(ps: seq<Product>, c: string)
    requires c in ProductCategories(ps) && c != ""
    ensures FilteredProducts(ps, c) != []
  {
    var p :| p in ps && p.category == c;
    assert p in InCategory(ps, c);
  }
}
