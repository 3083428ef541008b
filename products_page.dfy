/**
 * The product list of app/dashboard/products/page.tsx: a search box filters
 * the products by name or category, ignoring case, and the table shows one
 * row per product kept, or a single "No products found" row when none is.
 */
module ProductsPage {

  datatype Product = Product(
    id: string,
    name: string,
    category: string,
    createdAt: string,
    status: string,
    scans: int)

  /** The sample products the page starts with. */
  const InitialProducts: seq<Product> := [
    Product("1", "Premium Headphones", "Electronics", "2023-10-15", "active", 145),
    Product("2", "Organic Coffee Beans", "Food & Beverage", "2023-11-02", "active", 89),
    Product("3", "Fitness Tracker", "Wearables", "2023-12-10", "active", 212),
    Product("4", "Leather Wallet", "Accessories", "2024-01-05", "inactive", 37),
    Product("5", "Vitamin Supplement", "Health", "2024-01-20", "active", 64)]

  // ----- Text: `toLowerCase` and `includes` -----

  /** Lower-casing of one character, on the ASCII letters. */
  function LowerChar(c: char): (r: char)
    ensures 'A' <= c <= 'Z' ==> r as int == c as int + 32
    ensures !('A' <= c <= 'Z') ==> r == c
    ensures !('A' <= r <= 'Z')
  {
    if 'A' <= c <= 'Z' then (c as int + 32) as char else c
  }

  /** `s.toLowerCase()`: the same length, each character lower-cased. */
  function ToLowerCase(s: string): (r: string)
    ensures |r| == |s|
    ensures forall i :: 0 <= i < |s| ==> r[i] == LowerChar(s[i])
  {
    seq(|s|, i requires 0 <= i < |s| => LowerChar(s[i]))
  }

  /** Lower-casing twice is lower-casing once. */
  lemma ToLowerCaseIdempotent(s: string)
    ensures ToLowerCase(ToLowerCase(s)) == ToLowerCase(s)
  {
  }

  /** `q` occurs in `s` starting at position `i`. */
  ghost predicate OccursAt(s: string, q: string, i: int)
  {
    0 <= i && i + |q| <= |s| && s[i..i + |q|] == q
  }

  /** `s.includes(q)`: a search from the left for `q` as a contiguous run of
      characters; it holds exactly when `q` occurs at some position of `s`. */
  function Includes(s: string, q: string): (b: bool)
    ensures b <==> exists i :: OccursAt(s, q, i)
    decreases |s|
  {
    if |q| > |s| then
      false
    else if s[..|q|] == q then
      assert OccursAt(s, q, 0);
      true
    else
      var rest := Includes(s[1..], q);
      ShiftOccurrence(s, q);
      rest
  }

  /** An occurrence after the first position of `s` is an occurrence in
      `s[1..]`, one position earlier. */
  lemma ShiftOccurrence(s: string, q: string)
    requires |s| > 0 && !OccursAt(s, q, 0)
    ensures (exists i :: OccursAt(s, q, i)) <==> (exists i :: OccursAt(s[1..], q, i))
  {
    if i :| OccursAt(s, q, i) {
      assert i > 0;
      assert s[1..][i - 1..i - 1 + |q|] == s[i..i + |q|];
      assert OccursAt(s[1..], q, i - 1);
    }
    if i :| OccursAt(s[1..], q, i) {
      assert s[i + 1..i + 1 + |q|] == s[1..][i..i + |q|];
      assert OccursAt(s, q, i + 1);
    }
  }

  /** The empty query occurs in every string. */
  lemma IncludesEmpty(s: string)
    ensures Includes(s, "")
  {
  }

  // ----- The filter -----

  /** The filter's test: the lower-cased query occurs in the lower-cased name
      or in the lower-cased category. */
  predicate Matches(p: Product, searchQuery: string)
  {
    || Includes(ToLowerCase(p.name), ToLowerCase(searchQuery))
    || Includes(ToLowerCase(p.category), ToLowerCase(searchQuery))
  }

  /** `filteredProducts`: `products.filter(...)` with the test above. Every
      product kept matches, and every matching product is kept. */
  function FilterProducts(products: seq<Product>, searchQuery: string): (r: seq<Product>)
    ensures |r| <= |products|
    ensures forall i :: 0 <= i < |r| ==> Matches(r[i], searchQuery)
    ensures forall p :: p in r <==> p in products && Matches(p, searchQuery)
  {
    if |products| == 0 then
      []
    else
      var rest := FilterProducts(products[1..], searchQuery);
      assert forall p :: p in products <==> p == products[0] || p in products[1..];
      if Matches(products[0], searchQuery) then [products[0]] + rest else rest
  }

  /** Every position moved one place right. */
  function Shift(idx: seq<nat>): (r: seq<nat>)
    ensures |r| == |idx|
    ensures forall i :: 0 <= i < |idx| ==> r[i] == idx[i] + 1
  {
    seq(|idx|, i requires 0 <= i < |idx| => idx[i] + 1)
  }

  lemma ShiftMembership(idx: seq<nat>, k: int)
    ensures k + 1 in Shift(idx) <==> k in idx
  {
  }

  /** The positions of `products` that the filter keeps, in increasing order. */
  function KeptIndices(products: seq<Product>, searchQuery: string): (idx: seq<nat>)
    ensures forall i :: 0 <= i < |idx| ==> idx[i] < |products|
  {
    if |products| == 0 then
      []
    else
      var rest := Shift(KeptIndices(products[1..], searchQuery));
      if Matches(products[0], searchQuery) then [0] + rest else rest
  }

  /** `r` is `s` read at the positions `idx`. */
  ghost predicate Picks(r: seq<Product>, s: seq<Product>, idx: seq<nat>)
  {
    && |idx| == |r|
    && forall i :: 0 <= i < |idx| ==> idx[i] < |s| && r[i] == s[idx[i]]
  }

  /** What `s[1..]` reads at `idx`, `s` reads one position later; its first
      element may go in front, read at position 0. */
  lemma PicksShift(r: seq<Product>, s: seq<Product>, idx: seq<nat>, withHead: bool)
    requires |s| > 0 && Picks(r, s[1..], idx)
    ensures Picks((if withHead then [s[0]] else []) + r, s, (if withHead then [0] else []) + Shift(idx))
  {
  }

  /** The filtered list is `products` read at the positions `KeptIndices`. */
  lemma {:induction false} FilterReadsKeptIndices(products: seq<Product>, searchQuery: string)
    ensures Picks(FilterProducts(products, searchQuery), products, KeptIndices(products, searchQuery))
  {
    if |products| > 0 {
      var tail := products[1..];
      FilterReadsKeptIndices(tail, searchQuery);
      PicksShift(FilterProducts(tail, searchQuery), products, KeptIndices(tail, searchQuery),
                 Matches(products[0], searchQuery));
    }
  }

  predicate Increasing(idx: seq<nat>)
  {
    forall i, j :: 0 <= i < j < |idx| ==> idx[i] < idx[j]
  }

  /** Shifting keeps positions increasing, and position 0 may go in front. */
  lemma ShiftIncreasing(idx: seq<nat>, withZero: bool)
    requires Increasing(idx)
    ensures Increasing((if withZero then [0] else []) + Shift(idx))
  {
  }

  /** The positions `KeptIndices` increase strictly, so the filter keeps the
      products in their original order. */
  lemma {:induction false} KeptIndicesIncrease(products: seq<Product>, searchQuery: string)
    ensures Increasing(KeptIndices(products, searchQuery))
  {
    if |products| > 0 {
      KeptIndicesIncrease(products[1..], searchQuery);
      ShiftIncreasing(KeptIndices(products[1..], searchQuery), Matches(products[0], searchQuery));
    }
  }

  /** A position is among `KeptIndices` exactly when its product matches. */
  lemma {:induction false} KeptIndicesAreMatches(products: seq<Product>, searchQuery: string)
    ensures var idx := KeptIndices(products, searchQuery);
      forall k :: 0 <= k < |products| ==> (k in idx <==> Matches(products[k], searchQuery))
  {
    if |products| > 0 {
      var tail := products[1..];
      KeptIndicesAreMatches(tail, searchQuery);
      var rest := KeptIndices(tail, searchQuery);
      var idx := KeptIndices(products, searchQuery);
      var shifted := Shift(rest);
      assert idx == (if Matches(products[0], searchQuery) then [0] else []) + shifted;
      assert 0 !in shifted;
      forall k | 0 < k < |products|
        ensures k in idx <==> Matches(products[k], searchQuery)
      {
        ShiftMembership(rest, k - 1);
        assert products[k] == tail[k - 1];
      }
    }
  }

  /** `r` is `s` read at the strictly increasing positions `idx`. */
  ghost predicate ReadsAt(r: seq<Product>, s: seq<Product>, idx: seq<nat>)
  {
    Picks(r, s, idx) && Increasing(idx)
  }

  /** The filtered list is a subsequence of the product list: the products it
      keeps appear in it in their original order. */
  lemma FilterIsSubsequence(products: seq<Product>, searchQuery: string)
    ensures exists idx :: ReadsAt(FilterProducts(products, searchQuery), products, idx)
  {
    FilterReadsKeptIndices(products, searchQuery);
    KeptIndicesIncrease(products, searchQuery);
    assert ReadsAt(FilterProducts(products, searchQuery), products, KeptIndices(products, searchQuery));
  }

  /** An empty query keeps every product. */
  lemma {:induction false} EmptyQueryKeepsAll(products: seq<Product>)
    ensures FilterProducts(products, "") == products
  {
    if |products| > 0 {
      IncludesEmpty(ToLowerCase(products[0].name));
      EmptyQueryKeepsAll(products[1..]);
    }
  }

  /** Filtering commutes with concatenation. */
  lemma {:induction false} FilterAppend(a: seq<Product>, b: seq<Product>, searchQuery: string)
    ensures FilterProducts(a + b, searchQuery) == FilterProducts(a, searchQuery) + FilterProducts(b, searchQuery)
  {
    if |a| > 0 {
      assert (a + b)[1..] == a[1..] + b;
      FilterAppend(a[1..], b, searchQuery);
    } else {
      assert a + b == b;
    }
  }

  /** Filtering the filtered list again with the same query changes nothing. */
  lemma {:induction false} FilterIdempotent(products: seq<Product>, searchQuery: string)
    ensures FilterProducts(FilterProducts(products, searchQuery), searchQuery) == FilterProducts(products, searchQuery)
  {
    if |products| > 0 {
      var rest := FilterProducts(products[1..], searchQuery);
      FilterIdempotent(products[1..], searchQuery);
      if Matches(products[0], searchQuery) {
        assert ([products[0]] + rest)[1..] == rest;
      }
    }
  }

  /** Two queries that lower-case alike keep the same products. */
  lemma {:induction false} FilterIgnoresQueryCase(products: seq<Product>, q1: string, q2: string)
    requires ToLowerCase(q1) == ToLowerCase(q2)
    ensures FilterProducts(products, q1) == FilterProducts(products, q2)
  {
    if |products| > 0 {
      FilterIgnoresQueryCase(products[1..], q1, q2);
    }
  }

  /** Lower-casing the query first changes nothing. */
  lemma FilterWithLoweredQuery(products: seq<Product>, searchQuery: string)
    ensures FilterProducts(products, ToLowerCase(searchQuery)) == FilterProducts(products, searchQuery)
  {
    ToLowerCaseIdempotent(searchQuery);
    FilterIgnoresQueryCase(products, ToLowerCase(searchQuery), searchQuery);
  }

  // ----- The table body -----

  const NoProductsMessage := "No products found. Try a different search or add a new product."

  /** A row of the table body: the empty-state row, or a product's row keyed by
      its id. */
  datatype Row = EmptyStateRow(message: string) | ProductRow(key: string, product: Product)

  /** The table body: the single empty-state row when nothing is kept,
      otherwise one row per kept product, in order, keyed by its id. */
  function TableRows(filtered: seq<Product>): (rows: seq<Row>)
    ensures |rows| == if |filtered| == 0 then 1 else |filtered|
    ensures |filtered| == 0 ==> rows[0] == EmptyStateRow(NoProductsMessage)
    ensures forall i :: 0 <= i < |filtered| ==> rows[i] == ProductRow(filtered[i].id, filtered[i])
  {
    if |filtered| == 0 then
      [EmptyStateRow(NoProductsMessage)]
    else
      seq(|filtered|, i requires 0 <= i < |filtered| => ProductRow(filtered[i].id, filtered[i]))
  }

  /** The page shows the empty-state row exactly when no product matches the
      query; otherwise each row shows a matching product under its own id. */
  lemma RowsForSearch(products: seq<Product>, searchQuery: string)
    ensures var rows := TableRows(FilterProducts(products, searchQuery));
      && (rows[0].EmptyStateRow? <==> forall p :: p in products ==> !Matches(p, searchQuery))
      && forall i :: 0 <= i < |rows| && rows[i].ProductRow? ==>
           rows[i].key == rows[i].product.id && rows[i].product in products && Matches(rows[i].product, searchQuery)
  {
  }

  /** The page as first shown: the empty query lists all five sample
      products, one row each, in order, keyed by id. */
  lemma InitialPageListsAllSamples()
    ensures var rows := TableRows(FilterProducts(InitialProducts, ""));
      && |rows| == 5
      && forall i :: 0 <= i < 5 ==> rows[i] == ProductRow(InitialProducts[i].id, InitialProducts[i])
  {
    EmptyQueryKeepsAll(InitialProducts);
  }
}
