/** The product-matching rule of the stock comparison page (pages/index.js,
    `mergeData`): every WooCommerce row, in order, is paired with the first
    Shopify row that has the same title and the same variant, and the pair
    becomes one row of the stock comparison table. */
module ProductMerge {

  datatype Option<+T> = None | Some(value: T)

  /** A property value of a row object as the spreadsheet reader produces it:
      text, a number, a boolean, or `undefined` when the row has no such
      column. The page never parses or converts these values. With no NaN
      among them, JavaScript's strict `===` on two cells is plain equality. */
  datatype Cell = Undefined | Text(text: string) | Number(number: real) | Boolean(truth: bool)

  /** A row of either export, reduced to the three properties the merge reads. */
  datatype Product = Product(title: Cell, variant: Cell, stock: Cell)

  /** A row of the stock comparison table:
      `{title, variant, woo_stock, shopify_stock}`. */
  datatype StockRow = StockRow(title: Cell, variant: Cell, wooStock: Cell, shopifyStock: Cell)

  /** The `0` written into `shopify_stock` when no Shopify row matches. */
  const NoStock: Cell := Number(0.0)

  /** The `find` callback: strict equality on the title AND on the variant. */
  predicate SameItem(shop: Product, woo: Product) {
    shop.title == woo.title && shop.variant == woo.variant
  }

  /** `k` is the lowest position of a Shopify row that matches `woo`. */
  ghost predicate IsFirstMatch(shopify: seq<Product>, woo: Product, k: int) {
    && 0 <= k < |shopify|
    && SameItem(shopify[k], woo)
    && forall j :: 0 <= j < k ==> !SameItem(shopify[j], woo)
  }

  /** No Shopify row matches `woo`. */
  ghost predicate NoMatch(shopify: seq<Product>, woo: Product) {
    forall j :: 0 <= j < |shopify| ==> !SameItem(shopify[j], woo)
  }

  /** Where `shopifyData.find(...)` stops: the position of the first Shopify
      row matching `woo`, or None when the scan runs off the end. */
  function FindFirst(shopify: seq<Product>, woo: Product): (r: Option<nat>)
    ensures r.Some? ==> IsFirstMatch(shopify, woo, r.value)
    ensures r.None? ==> NoMatch(shopify, woo)
  {
    if shopify == [] then None
    else if SameItem(shopify[0], woo) then Some(0)
    else match FindFirst(shopify[1..], woo)
      case None => None
      case Some(k) =>
        assert forall j :: 1 <= j <= k ==> shopify[j] == shopify[1..][j - 1];
        Some(k + 1)
  }

  /** The callback of `wooData.map(...)`: one row of the comparison table. */
  function MergeRow(shopify: seq<Product>, woo: Product): (r: StockRow)
    ensures r.title == woo.title && r.variant == woo.variant && r.wooStock == woo.stock
    ensures forall k :: IsFirstMatch(shopify, woo, k) ==> r.shopifyStock == shopify[k].stock
    ensures NoMatch(shopify, woo) ==> r.shopifyStock == NoStock
    ensures r.shopifyStock == NoStock || exists k :: 0 <= k < |shopify| && SameItem(shopify[k], woo) && r.shopifyStock == shopify[k].stock
  {
    var found := FindFirst(shopify, woo);
    StockRow(woo.title, woo.variant, woo.stock,
             if found.Some? then shopify[found.value].stock else NoStock)
  }

  /** The table `mergeData` stores: `wooData.map(...)`. */
  function Merged(wooData: seq<Product>, shopifyData: seq<Product>): (r: seq<StockRow>)
    ensures |r| == |wooData|
    ensures forall i :: 0 <= i < |wooData| ==> r[i] == MergeRow(shopifyData, wooData[i])
  {
    if wooData == [] then []
    else [MergeRow(shopifyData, wooData[0])] + Merged(wooData[1..], shopifyData)
  }

  // ---------------------------------------------------------------------------
  // A reference definition: the matching Shopify rows, in order.

  /** `shopifyData.filter(...)` with the same callback as the `find`. */
  function Matches(shopify: seq<Product>, woo: Product): seq<Product> {
    if shopify == [] then []
    else if SameItem(shopify[0], woo) then [shopify[0]] + Matches(shopify[1..], woo)
    else Matches(shopify[1..], woo)
  }

  /** `find` returns the head of the filtered sequence, and nothing exactly
      when that sequence is empty. */
  lemma {:induction false} FindFirstIsFirstOfMatches(shopify: seq<Product>, woo: Product)
    ensures FindFirst(shopify, woo).None? <==> Matches(shopify, woo) == []
    ensures FindFirst(shopify, woo).Some? ==>
              shopify[FindFirst(shopify, woo).value] == Matches(shopify, woo)[0]
  {
    if shopify != [] && !SameItem(shopify[0], woo) {
      FindFirstIsFirstOfMatches(shopify[1..], woo);
    }
  }

  /** The Shopify stock of a table row, stated through the filtered sequence. */
  lemma ShopifyStockIsFirstOfMatches(shopify: seq<Product>, woo: Product)
    ensures MergeRow(shopify, woo).shopifyStock ==
              if Matches(shopify, woo) == [] then NoStock else Matches(shopify, woo)[0].stock
  {
    FindFirstIsFirstOfMatches(shopify, woo);
  }

  // ---------------------------------------------------------------------------
  // Properties of the merge.

  /** First match wins: once a prefix of the Shopify rows holds a match,
      whatever follows it (later duplicates included) changes nothing. */
  lemma FirstMatchWins(prefix: seq<Product>, rest: seq<Product>, woo: Product)
    requires !NoMatch(prefix, woo)
    ensures MergeRow(prefix + rest, woo) == MergeRow(prefix, woo)
  {
    var k := FindFirst(prefix, woo).value;
    assert forall j :: 0 <= j < |prefix| ==> (prefix + rest)[j] == prefix[j];
    assert IsFirstMatch(prefix + rest, woo, k);
  }

  /** A leading Shopify row that does not match is skipped by the scan. */
  lemma SkipNonMatching(p: Product, rest: seq<Product>, woo: Product)
    requires !SameItem(p, woo)
    ensures MergeRow([p] + rest, woo) == MergeRow(rest, woo)
  {
    assert ([p] + rest)[1..] == rest;
  }

  /** A Shopify row that differs from the WooCommerce row in its title or in
      its variant never supplies the stock: removing it changes nothing. */
  lemma {:induction false} NonMatchingRowIgnored(before: seq<Product>, x: Product, after: seq<Product>, woo: Product)
    requires !SameItem(x, woo)
    ensures MergeRow(before + [x] + after, woo) == MergeRow(before + after, woo)
  {
    if before == [] {
      assert before + [x] + after == [x] + after;
      assert before + after == after;
      SkipNonMatching(x, after, woo);
    } else {
      var b, bs := before[0], before[1..];
      assert before + [x] + after == [b] + (bs + [x] + after);
      assert before + after == [b] + (bs + after);
      if SameItem(b, woo) {
        assert IsFirstMatch([b] + (bs + [x] + after), woo, 0);
        assert IsFirstMatch([b] + (bs + after), woo, 0);
      } else {
        NonMatchingRowIgnored(bs, x, after, woo);
        SkipNonMatching(b, bs + [x] + after, woo);
        SkipNonMatching(b, bs + after, woo);
      }
    }
  }

  /** The same for the whole table: a Shopify row that matches no WooCommerce
      row can be dropped without changing the merge. */
  lemma MergedIgnoresNonMatchingRow(wooData: seq<Product>, before: seq<Product>, x: Product, after: seq<Product>)
    requires forall i :: 0 <= i < |wooData| ==> !SameItem(x, wooData[i])
    ensures Merged(wooData, before + [x] + after) == Merged(wooData, before + after)
  {
    forall i | 0 <= i < |wooData|
      ensures Merged(wooData, before + [x] + after)[i] == Merged(wooData, before + after)[i]
    {
      NonMatchingRowIgnored(before, x, after, wooData[i]);
    }
  }

  /** With no Shopify rows every WooCommerce row passes through with a
      Shopify stock of 0. */
  lemma MergedWithoutShopify(wooData: seq<Product>)
    ensures Merged(wooData, []) ==
              seq(|wooData|, i requires 0 <= i < |wooData| =>
                StockRow(wooData[i].title, wooData[i].variant, wooData[i].stock, NoStock))
  {
  }

  /** The map treats each WooCommerce row on its own: merging two halves and
      concatenating is merging the whole. */
  lemma {:induction false} MergedAppend(woo1: seq<Product>, woo2: seq<Product>, shopifyData: seq<Product>)
    ensures Merged(woo1 + woo2, shopifyData) == Merged(woo1, shopifyData) + Merged(woo2, shopifyData)
  {
    if woo1 != [] {
      assert (woo1 + woo2)[1..] == woo1[1..] + woo2;
      MergedAppend(woo1[1..], woo2, shopifyData);
    }
  }

  /** Rows with neither a title nor a variant column match each other,
      because `undefined === undefined`. */
  lemma UndefinedKeysMatch(shopify: seq<Product>, woo: Product)
    requires woo.title == Undefined && woo.variant == Undefined
    requires |shopify| > 0 && shopify[0].title == Undefined && shopify[0].variant == Undefined
    ensures MergeRow(shopify, woo).shopifyStock == shopify[0].stock
  {
  }

  /** A small table: the duplicate "Tee"/"L" row comes too late to count,
      the "Cap" row matches on its title only, and the "Mug" row has no
      Shopify counterpart. */
  lemma MergeExample()
    ensures
      var tee, cap, mug := Text("Tee"), Text("Cap"), Text("Mug");
      var large, blue := Text("L"), Text("Blue");
      Merged([Product(tee, large, Number(4.0)), Product(cap, blue, Text("2")), Product(mug, Undefined, Number(1.0))],
             [Product(cap, large, Number(9.0)), Product(tee, large, Number(3.0)), Product(tee, large, Number(8.0))])
      == [StockRow(tee, large, Number(4.0), Number(3.0)),
          StockRow(cap, blue, Text("2"), NoStock),
          StockRow(mug, Undefined, Number(1.0), NoStock)]
  {
    var tee, cap, mug := Text("Tee"), Text("Cap"), Text("Mug");
    var large, blue := Text("L"), Text("Blue");
    var shopify := [Product(cap, large, Number(9.0)), Product(tee, large, Number(3.0)), Product(tee, large, Number(8.0))];
    assert IsFirstMatch(shopify, Product(tee, large, Number(4.0)), 1);
    assert NoMatch(shopify, Product(cap, blue, Text("2")));
    assert NoMatch(shopify, Product(mug, Undefined, Number(1.0)));
  }
}
