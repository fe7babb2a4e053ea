/** The state of the stock comparison page (pages/index.js, component `Home`):
    two file slots filled by the file inputs and the merged table that the
    "Merge Products" button computes. */
module HomePage {
  import opened ProductMerge

  /** A file picked in one of the two file inputs. Its bytes are only ever
      handed to the spreadsheet reader, which is not part of this model. */
  datatype File = File(name: string, bytes: seq<bv8>)

  /** How a click on "Merge Products" ended. */
  datatype MergeOutcome =
    | MissingFile  // a slot was empty: the page alerts and returns
    | Unreadable   // reading a file failed, so `mergeData` was never reached
    | MergeDone    // the table was replaced

  class Home {
    /** The three `useState` slots. A slot holds `None` when it is `null`
        or `undefined`, the two values the page treats as "no file". */
    var wooCommerceFile: Option<File>
    var shopifyFile: Option<File>
    var mergedData: seq<StockRow>

    /** The WooCommerce and Shopify rows the table was last merged from. */
    ghost var mergedFrom: Option<(seq<Product>, seq<Product>)>

    /** The table is empty until the first merge, and afterwards it is always
        the merge of the rows it was computed from. */
    ghost predicate Valid()
      reads this
    {
      match mergedFrom
      case None => mergedData == []
      case Some(inputs) => mergedData == Merged(inputs.0, inputs.1)
    }

    constructor ()
      ensures Valid()
      ensures wooCommerceFile == None && shopifyFile == None && mergedData == []
    {
      wooCommerceFile, shopifyFile, mergedData := None, None, [];
      mergedFrom := None;
    }

    /** A file input changed. `file` is `e.target.files[0]`, which is
        `undefined` (None) when the user cancelled the picker; it then empties
        the slot. A platform other than "woo" or "shopify" changes nothing. */
    method HandleFileUpload(file: Option<File>, platform: string)
      requires Valid()
      modifies this`wooCommerceFile, this`shopifyFile
      ensures Valid()
      ensures wooCommerceFile == if platform == "woo" then file else old(wooCommerceFile)
      ensures shopifyFile == if platform == "shopify" then file else old(shopifyFile)
    {
      if platform == "woo" {
        wooCommerceFile := file;
      } else if platform == "shopify" {
        shopifyFile := file;
      }
    }

    /** Merges the parsed rows and stores the table. */
    method MergeData(wooData: seq<Product>, shopifyData: seq<Product>)
      requires Valid()
      modifies this`mergedData, this`mergedFrom
      ensures Valid()
      ensures mergedData == Merged(wooData, shopifyData)
      ensures |mergedData| == |wooData|
    {
      mergedData := Merged(wooData, shopifyData);
      mergedFrom := Some((wooData, shopifyData));
    }

    /** The "Merge Products" button. `parse` stands for reading a file and
        converting its first sheet to row objects; it yields None when the
        read fails. The WooCommerce file is read first and gives the base
        list of the table. */
    method HandleMerge(parse: File -> Option<seq<Product>>) returns (outcome: MergeOutcome)
      requires Valid()
      modifies this`mergedData, this`mergedFrom
      ensures Valid()
      ensures outcome == MissingFile <==> wooCommerceFile.None? || shopifyFile.None?
      ensures outcome == MergeDone <==>
                && wooCommerceFile.Some? && shopifyFile.Some?
                && parse(wooCommerceFile.value).Some? && parse(shopifyFile.value).Some?
      ensures outcome != MergeDone ==> mergedData == old(mergedData)
      ensures outcome == MergeDone ==>
                mergedData == Merged(parse(wooCommerceFile.value).value, parse(shopifyFile.value).value)
    {
      if wooCommerceFile.None? || shopifyFile.None? {
        return MissingFile;
      }
      var wooData := parse(wooCommerceFile.value);
      if wooData.None? {
        return Unreadable;
      }
      var shopifyData := parse(shopifyFile.value);
      if shopifyData.None? {
        return Unreadable;
      }
      MergeData(wooData.value, shopifyData.value);
      outcome := MergeDone;
    }
  }
}
