# Stock comparison merge: a Dafny model

The page `pages/index.js` lets a user pick a WooCommerce product export and
a Shopify product export, merges them, and offers the result as a "Stock
Comparison" spreadsheet. This project models the part with logic in it:

- `mergeData`: for each WooCommerce row, in order, find the **first** Shopify
  row whose `title` and `variant` are both strictly equal (`===`) to the
  WooCommerce row's. Emit `{title, variant, woo_stock, shopify_stock}`, where
  `shopify_stock` is that Shopify row's `stock`, or `0` when no row matches.
- The component state around it: two file slots filled by `handleFileUpload`
  according to a platform string, and `handleMerge`, which refuses to merge
  unless both slots hold a file.

Files:

- `product_merge.dfy`, module `ProductMerge`: the values and the pure
  matching rule. A cell value (`Cell`) is text, a number, a boolean or
  `undefined` (a missing column), and the merge passes it through untouched.
  The rule is built from `FindFirst` (where `Array.prototype.find` stops),
  `MergeRow` (the `map` callback) and `Merged` (the whole `map`). Beside it
  is a reference definition, `Matches` (the same callback used as a filter),
  and lemmas about the merge.
- `home_page.dfy`, module `HomePage`: class `Home` holds the three `useState`
  slots as fields. `HandleFileUpload`, `MergeData` and `HandleMerge` assign
  them as the page does. The ghost field `mergedFrom` and the invariant
  `Valid()` say that the table is always empty or the merge of the rows it
  was last computed from.

The code does less than a general description of such a tool would suggest.
It has no SKU or barcode keys, no case-insensitive or trimmed identifiers,
no stock-string parsing, no "not stocked" sentinel, no per-location sums and
no combined totals. It matches on title and variant only and does no
arithmetic. The model follows the code.

Strict equality has two consequences the model keeps. A row with neither a
`title` nor a `variant` column matches a Shopify row that also lacks both,
because `undefined === undefined` (`UndefinedKeysMatch`). The text `"2"` and
the number `2` are different cells, so they never match each other.

## Model

| member | source | states |
|---|---|---|
| `ProductMerge.FindFirst` | pages/index.js:41-45 | The scan returns the lowest position whose row has an equal title and an equal variant, with no matching row before it. It returns nothing only when no row matches. |
| `ProductMerge.MergeRow` | pages/index.js:40-52 | A table row carries the WooCommerce title, variant and stock unchanged. Its Shopify stock is the stock of the first matching Shopify row, or 0 when none matches. Any Shopify stock other than 0 comes from a row that matches on both fields. |
| `ProductMerge.Merged` | pages/index.js:39-53 | The table has exactly as many rows as the WooCommerce input. Row i is WooCommerce row i merged, so input order is kept. |
| `ProductMerge.FindFirstIsFirstOfMatches` | pages/index.js:41-45 | Reference definition: `find` yields nothing exactly when filtering by the same callback yields nothing. Otherwise it yields the head of the filtered rows. |
| `ProductMerge.ShopifyStockIsFirstOfMatches` | pages/index.js:41-51 | The Shopify stock is the stock of the first filtered row, or 0 when the filter is empty. |
| `ProductMerge.FirstMatchWins` | pages/index.js:41-45 | Once a prefix of the Shopify rows holds a match, the rows after it change nothing. Later duplicates are ignored. |
| `ProductMerge.SkipNonMatching` | pages/index.js:41-45 | A leading Shopify row that does not match is skipped and does not affect the row. |
| `ProductMerge.NonMatchingRowIgnored` | pages/index.js:43-44 | Removing a Shopify row whose title or variant differs does not change the merged row. A row with only one equal field never supplies stock. |
| `ProductMerge.MergedIgnoresNonMatchingRow` | pages/index.js:40-53 | The same for the whole table: a Shopify row that matches no WooCommerce row can be removed. |
| `ProductMerge.MergedWithoutShopify` | pages/index.js:41-51 | With no Shopify rows, every WooCommerce row passes through with Shopify stock 0. |
| `ProductMerge.MergedAppend` | pages/index.js:40 | The `map` treats each WooCommerce row on its own: merging a concatenation gives the concatenation of the merges. |
| `ProductMerge.UndefinedKeysMatch` | pages/index.js:43-44 | Rows missing both the title and the variant column match one another, because `undefined === undefined`. |
| `ProductMerge.MergeExample` | pages/index.js:39-53 | A worked table: a later duplicate is ignored, a title-only match gives 0, and an unmatched row gives 0. |
| `HomePage.Home.constructor` | pages/index.js:10-12 | Both file slots start empty and the merged table starts as `[]`. |
| `HomePage.Home.HandleFileUpload` | pages/index.js:14-21 | `"woo"` sets only the WooCommerce slot and `"shopify"` only the Shopify slot. Any other platform changes nothing. A cancelled picker (`files[0]` undefined) empties the chosen slot. The table is untouched. |
| `HomePage.Home.MergeData` | pages/index.js:39-56 | Stores the merge of the given rows as the new table, whose length is the WooCommerce row count. The table invariant is kept. |
| `HomePage.Home.HandleMerge` | pages/index.js:58-68 | With either slot empty it reports a missing file and leaves the table unchanged. With both filled and both files read, the table becomes the merge with the WooCommerce rows as the base list. A failed read leaves the table unchanged. |

## Left out

- Reading and parsing the files (`parseCSV`, lines 23-37): `FileReader` and
  the spreadsheet library's `read` / `sheet_to_json` are foreign code. The
  parser is a parameter of `HandleMerge`, a function from a file to its rows
  or to None when reading fails. The model keeps only the three properties
  the merge reads; other columns are dropped.
- `HandleMerge`: it does not model the order of the two reads or their
  asynchrony. The parser is a pure function here, so reading the WooCommerce
  file first cannot be observed. An exception inside the reader's `onload`,
  which leaves the promise pending, is covered by the same "table unchanged"
  outcome as a failed read.
- Writing the download (`downloadMergedFile`, lines 70-76): spreadsheet
  serialisation and the file write are library I/O.
- The `alert` popup (line 60): it is reduced to the `MissingFile` outcome.
  JSX rendering, the download button shown when the table is non-empty,
  styles, fonts and imports (lines 1-7, 78-108) are UI only.
- React `useState` mechanics and re-rendering: the slots are plain fields
  that are assigned at once.
- `Cell`: NaN and `null` are not modelled, so `===` on cells is plain
  equality. A NaN title would never match anything, not even itself.
