/**
  * The recommendation section of the product details page: the seller's
  * other products, topped up from the general catalogue when the seller has
  * fewer than three, with the heading that goes with each case.
  *
  * The product looked up by handle arrives as `prod` (None when the lookup
  * found nothing); `others` is what the catalogue fetch for ten more
  * products returns, consulted only when the top-up is needed.
  */
module ProductDetails {
  import opened Builtins
  import opened Seqs
  import opened Catalog

  const SellerHeading := "More from this seller"
  const TopUpHeading := "More Products"
  const Suspended := "SUSPENDED"
  /** Below this many seller products the list is topped up. */
  const TopUpThreshold := 3
  const MaxShown := 10

  datatype Page =
    | NoProduct
    | NotFoundPage
    | Section(heading: string, products: seq<Product>)

  predicate IsSuspended(prod: Product) {
    prod.seller.Some? && prod.seller.value.storeStatus == Some(Suspended)
  }

  /** The catalogue embedded in the product's seller, `[]` when either is missing. */
  function SellerCatalogue(prod: Product): seq<Product> {
    if prod.seller.Some? then prod.seller.value.products.GetOr([]) else []
  }

  /** The seller's catalogue without the product being shown: exactly its entries with another id. */
  function SellerProducts(prod: Product): (r: seq<Product>)
    ensures forall p :: p in r <==> p in SellerCatalogue(prod) && p.id != prod.id
  {
    var keep := (p: Product) => p.id != prod.id;
    FilterExact(SellerCatalogue(prod), keep);
    Filter(SellerCatalogue(prod), keep)
  }

  /** Some entry of `list` has this id (`list.find(dp => dp.id === id)` is truthy). */
  predicate Listed(list: seq<Product>, id: string) {
    exists k :: 0 <= k < |list| && list[k].id == id
  }

  /** The fetched products that are neither the current product nor already listed. */
  function TopUp(prod: Product, listed: seq<Product>, others: seq<Product>): (r: seq<Product>)
    ensures forall p :: p in r <==> p in others && p.id != prod.id && !Listed(listed, p.id)
  {
    var keep := (p: Product) => p.id != prod.id && !Listed(listed, p.id);
    FilterExact(others, keep);
    Filter(others, keep)
  }

  /**
    * The topped-up list: the seller's products then the top-up, cut to ten,
    * never holds the current product, and every entry after the seller's
    * products is a fetched one not already listed.
    */
  lemma TopUpList(prod: Product, seller: seq<Product>, others: seq<Product>)
    requires seller == SellerProducts(prod) && |seller| < TopUpThreshold
    ensures var all := seller + TopUp(prod, seller, others);
            var shown := JsSlice(all, 0, MaxShown);
            && |shown| == Min(|all|, MaxShown)
            && shown == all[..|shown|]
            && seller <= shown
            && (forall p :: p in shown ==> p.id != prod.id)
            && (forall k :: |seller| <= k < |shown| ==> shown[k] in others && !Listed(seller, shown[k].id))
  {
    var additional := TopUp(prod, seller, others);
    var shown := JsSlice(seller + additional, 0, MaxShown);
    CutAfterPrefix(seller, additional, MaxShown);
    forall p | p in shown
      ensures p.id != prod.id
    {
      var k :| 0 <= k < |shown| && shown[k] == p;
      if k >= |seller| {
        assert p in additional;
      } else {
        assert p in seller;
      }
    }
    forall k | |seller| <= k < |shown|
      ensures shown[k] in others && !Listed(seller, shown[k].id)
    {
      assert shown[k] in additional;
    }
  }

  /** Cutting `a + b` to `n >= |a|` items keeps all of `a`, then the head of `b`. */
  lemma CutAfterPrefix<T>(a: seq<T>, b: seq<T>, n: nat)
    requires |a| <= n
    ensures var shown := JsSlice(a + b, 0, n);
            && |shown| == Min(|a| + |b|, n)
            && shown == (a + b)[..|shown|]
            && a <= shown
            && (forall k :: 0 <= k < |a| ==> shown[k] == a[k])
            && (forall k :: |a| <= k < |shown| ==> shown[k] == b[k - |a|])
  {
    SliceFrom(a + b, 0, n);
  }

  /**
    * The page for `prod`, and whether the extra catalogue fetch was made.
    * The list is the seller's products when there are at least three, and
    * otherwise those products followed by the top-up, cut to ten.
    */
  method Recommend(prod: Option<Product>, others: seq<Product>) returns (page: Page, fetchedMore: bool)
    ensures prod.None? ==> page == NoProduct && !fetchedMore
    ensures prod.Some? && IsSuspended(prod.value) ==> page == NotFoundPage && !fetchedMore
    ensures prod.Some? && !IsSuspended(prod.value) ==>
              var seller := SellerProducts(prod.value);
              && page.Section?
              && (fetchedMore <==> |seller| < TopUpThreshold)
              && (!fetchedMore ==> page.heading == SellerHeading && page.products == seller)
              && (fetchedMore ==>
                    && page.heading == TopUpHeading
                    && |page.products| == Min(|seller| + |TopUp(prod.value, seller, others)|, MaxShown)
                    && page.products == (seller + TopUp(prod.value, seller, others))[..|page.products|])
    ensures page.Section? ==> forall p :: p in page.products ==> p.id != prod.value.id
    ensures page.Section? && fetchedMore ==>
              var seller := SellerProducts(prod.value);
              && seller <= page.products
              && forall k :: |seller| <= k < |page.products| ==>
                   page.products[k] in others && !Listed(seller, page.products[k].id)
  {
    fetchedMore := false;
    if prod.None? {
      return NoProduct, false;
    }
    var current := prod.value;
    if IsSuspended(current) {
      return NotFoundPage, false;
    }
    var sellerProducts := SellerProducts(current);
    var displayed := sellerProducts;
    var heading := SellerHeading;
    if |displayed| < TopUpThreshold {
      heading := TopUpHeading;
      fetchedMore := true;
      var additional := TopUp(current, displayed, others);
      displayed := JsSlice(displayed + additional, 0, MaxShown);
      TopUpList(current, sellerProducts, others);
    }
    page := Section(heading, displayed);
  }
}
