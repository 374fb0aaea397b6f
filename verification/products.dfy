/**
  * Product listing (`listProducts`) and the seller-filtered, client-sorted,
  * client-paginated listing built on it (`listProductsWithSort`).
  *
  * The backend request is a parameter: `backend` maps the limit and offset the
  * storefront sends to what the backend answers. Region lookup, headers,
  * caching and logging do not change the result and are not modelled.
  */
module Products {
  import opened Builtins
  import opened Seqs
  import opened Catalog

  const DefaultLimit: nat := 12
  /** `listProductsWithSort` always fetches this many products in one go. */
  const SortWindow: nat := 100
  const DefaultSortKey := "created_at"
  const MissingRegionError := "Country code or region ID is required"

  /** The arguments of `listProducts`; `limit` is `queryParams.limit`. */
  datatype ListParams = ListParams(
    pageParam: Option<int>,
    limit: Option<nat>,
    countryCode: Option<string>,
    regionId: Option<string>)

  /** The paging part of the query sent to `/store/products`. */
  datatype ProductQuery = ProductQuery(limit: nat, offset: int)

  /** What `/store/products` answers: a body, or a rejected request. */
  datatype StoreResponse = Fetched(products: Option<seq<Product>>, count: int) | FetchFailed

  /** `{ response: { products, count }, nextPage }` */
  datatype Listing = Listing(products: seq<Product>, count: int, nextPage: Option<int>)

  /** A listing, or the error the call throws. */
  datatype Result<T> = Ok(value: T) | Err(error: string)

  function Max(a: int, b: int): int { if a >= b then a else b }

  /** `queryParams?.limit || 12`: a missing or zero limit means 12. */
  function EffectiveLimit(limit: Option<nat>): (r: nat)
    ensures r >= 1
    ensures limit.None? ==> r == DefaultLimit
    ensures limit == Some(0) ==> r == DefaultLimit
    ensures limit.Some? && limit.value > 0 ==> r == limit.value
  {
    if limit.Some? && limit.value != 0 then limit.value else DefaultLimit
  }

  /**
    * The limit the backend actually receives: `...queryParams` is spread after
    * `limit`, so a supplied limit (even 0) overrides the computed one.
    */
  function SentLimit(limit: Option<nat>): (r: nat)
    ensures limit.Some? ==> r == limit.value
    ensures limit.None? ==> r == DefaultLimit
  {
    limit.GetOr(DefaultLimit)
  }

  /** `(Math.max(pageParam, 1) - 1) * limit` */
  function Offset(pageParam: int, limit: nat): (r: int)
    ensures r >= 0
    ensures pageParam >= 1 ==> r == (pageParam - 1) * limit
    ensures pageParam <= 1 ==> r == 0
  {
    var p := Max(pageParam, 1) - 1;
    assert p >= 0;
    p * limit
  }

  function PageOf(p: ListParams): int {
    p.pageParam.GetOr(1)
  }

  /** The paging query `listProducts` sends for its arguments. */
  function QueryFor(p: ListParams): (q: ProductQuery)
    ensures q.offset >= 0
    ensures q.offset == Offset(PageOf(p), EffectiveLimit(p.limit))
    ensures q.limit == SentLimit(p.limit)
    ensures p.limit == Some(0) ==> q.limit == 0 && q.offset == Offset(PageOf(p), DefaultLimit)
  {
    ProductQuery(SentLimit(p.limit), Offset(PageOf(p), EffectiveLimit(p.limit)))
  }

  /** `listProducts`: argument check, paging arithmetic, and the empty and error fallbacks. */
  function ListProducts(p: ListParams, backend: ProductQuery -> StoreResponse): (r: Result<Listing>)
    ensures r.Err? <==> !Truthy(p.countryCode) && !Truthy(p.regionId)
    ensures r.Err? ==> r.error == MissingRegionError
    ensures r.Ok? && backend(QueryFor(p)).FetchFailed? ==> r.value == Listing([], 0, Some(0))
    ensures r.Ok? && backend(QueryFor(p)).Fetched? && backend(QueryFor(p)).products.GetOr([]) == [] ==>
              r.value == Listing([], 0, None)
    ensures r.Ok? && backend(QueryFor(p)).Fetched? && backend(QueryFor(p)).products.GetOr([]) != [] ==>
              var answer := backend(QueryFor(p));
              && r.value.products == answer.products.value
              && r.value.count == answer.count
              && (r.value.nextPage.Some? <==>
                    answer.count > Offset(PageOf(p), EffectiveLimit(p.limit)) + EffectiveLimit(p.limit))
              && (r.value.nextPage.Some? ==> r.value.nextPage.value == PageOf(p) + 1)
    ensures r.Ok? && r.value.products != [] ==>
              backend(QueryFor(p)).Fetched? && backend(QueryFor(p)).products == Some(r.value.products)
  {
    if !Truthy(p.countryCode) && !Truthy(p.regionId) then
      Err(MissingRegionError)
    else
      var limit := EffectiveLimit(p.limit);
      var offset := Offset(PageOf(p), limit);
      match backend(QueryFor(p))
      case FetchFailed => Ok(Listing([], 0, Some(0)))
      case Fetched(raw, count) =>
        if raw.None? || raw.value == [] then Ok(Listing([], 0, None))
        else
          var nextPage := if count > offset + limit then Some(PageOf(p) + 1) else None;
          Ok(Listing(raw.value, count, nextPage))
  }

  /**
    * For a page of 1 or more that the backend answered with products,
    * following `nextPage` asks for the window that starts right after this
    * one, and that window starts before `count`. (After a fetch error
    * `nextPage` is the sentinel 0, which names page 1 again.)
    */
  lemma NextPageAdvances(p: ListParams, backend: ProductQuery -> StoreResponse)
    requires PageOf(p) >= 1
    requires ListProducts(p, backend).Ok?
    requires ListProducts(p, backend).value.products != []
    requires ListProducts(p, backend).value.nextPage.Some?
    ensures var limit := EffectiveLimit(p.limit);
            var next := ListProducts(p, backend).value.nextPage.value;
            && Offset(next, limit) == Offset(PageOf(p), limit) + limit
            && Offset(next, limit) < ListProducts(p, backend).value.count
  {
    var limit := EffectiveLimit(p.limit);
    var page := PageOf(p);
    var r := ListProducts(p, backend);
    assert r.value.nextPage.value == page + 1;
    calc {
      Offset(page + 1, limit);
      page * limit;
      (page - 1) * limit + limit;
      Offset(page, limit) + limit;
    }
  }

  /**
    * `nextPage` is computed from the unclamped `pageParam`: for a page below 1
    * it names a page whose window is the one just returned (offset 0), or the
    * fetch-error sentinel 0.
    */
  lemma NextPageBelowOneRepeats(p: ListParams, backend: ProductQuery -> StoreResponse)
    requires PageOf(p) < 1
    requires ListProducts(p, backend).Ok?
    requires ListProducts(p, backend).value.nextPage.Some?
    ensures var limit := EffectiveLimit(p.limit);
            Offset(ListProducts(p, backend).value.nextPage.value, limit) == Offset(PageOf(p), limit) == 0
  {
  }

  // ---------------------------------------------------------------------------
  // listProductsWithSort

  /** `product.seller?.id === sellerId` */
  predicate SoldBy(product: Product, sellerId: string) {
    product.seller.Some? && product.seller.value.id == sellerId
  }

  /** The seller filter: applied only when a (non-empty) seller id is given. */
  function SellerFilter(products: seq<Product>, sellerId: Option<string>): seq<Product> {
    if Truthy(sellerId) then Filter(products, (q: Product) => SoldBy(q, sellerId.value)) else products
  }

  /** The seller filter keeps exactly the seller's products, and keeps everything when no seller is asked for. */
  lemma SellerFilterExact(products: seq<Product>, sellerId: Option<string>, q: Product)
    ensures Truthy(sellerId) ==> (q in SellerFilter(products, sellerId) <==> q in products && SoldBy(q, sellerId.value))
    ensures !Truthy(sellerId) ==> SellerFilter(products, sellerId) == products
  {
    if Truthy(sellerId) && q in products && SoldBy(q, sellerId.value) {
      FilterComplete(products, (x: Product) => SoldBy(x, sellerId.value), q);
    }
  }

  /** The seller filter keeps the backend order: filtering two halves and joining is filtering the whole. */
  lemma SellerFilterKeepsOrder(a: seq<Product>, b: seq<Product>, sellerId: Option<string>)
    ensures SellerFilter(a + b, sellerId) == SellerFilter(a, sellerId) + SellerFilter(b, sellerId)
  {
    if Truthy(sellerId) {
      FilterAppend(a, b, (x: Product) => SoldBy(x, sellerId.value));
    }
  }

  /** The parameters `listProductsWithSort` passes to `listProducts`. */
  function WindowParams(countryCode: string): ListParams {
    ListParams(Some(0), Some(SortWindow), Some(countryCode), None)
  }

  /** `(page - 1) * limit`: the start of the requested page, not clamped. */
  function PageStart(page: int, limit: nat): (r: int)
    ensures page >= 1 ==> r >= 0
  {
    (page - 1) * limit
  }

  /** `sortProducts` is a permutation, whatever the sort key. */
  ghost predicate PermutingSort(sort: (seq<Product>, string) -> seq<Product>) {
    forall products, key :: multiset(sort(products, key)) == multiset(products)
  }

  /** The seller-filtered and sorted list the page is cut from. */
  function SortedCandidates(
    window: Listing, sellerId: Option<string>, sortBy: Option<string>,
    sort: (seq<Product>, string) -> seq<Product>): seq<Product>
  {
    sort(SellerFilter(window.products, sellerId), sortBy.GetOr(DefaultSortKey))
  }

  /** `listProductsWithSort` */
  function ListProductsWithSort(
    page: Option<int>, limit: Option<nat>, sortBy: Option<string>, countryCode: string,
    sellerId: Option<string>, backend: ProductQuery -> StoreResponse,
    sort: (seq<Product>, string) -> seq<Product>): (r: Result<Listing>)
    ensures r.Err? <==> countryCode == ""
    ensures r.Ok? ==>
              var window := ListProducts(WindowParams(countryCode), backend).value;
              var size := EffectiveLimit(limit);
              var start := PageStart(page.GetOr(1), size);
              && r.value.count == window.count
              && |r.value.products| <= size
              && r.value.products == JsSlice(SortedCandidates(window, sellerId, sortBy, sort), start, start + size)
              && (r.value.nextPage.Some? <==> window.count > start + size)
              && (r.value.nextPage.Some? ==> r.value.nextPage.value == start + size)
  {
    var size := EffectiveLimit(limit);
    match ListProducts(WindowParams(countryCode), backend)
    case Err(e) => Err(e)
    case Ok(window) =>
      var sorted := SortedCandidates(window, sellerId, sortBy, sort);
      var start := PageStart(page.GetOr(1), size);
      var nextPage := if window.count > start + size then Some(start + size) else None;
      SliceWidth(sorted, start, size);
      Ok(Listing(JsSlice(sorted, start, start + size), window.count, nextPage))
  }

  /** For a page of 1 or more, the result is the contiguous window of the sorted list at `(page - 1) * limit`. */
  lemma PageIsWindow(
    page: int, limit: Option<nat>, sortBy: Option<string>, countryCode: string,
    sellerId: Option<string>, backend: ProductQuery -> StoreResponse,
    sort: (seq<Product>, string) -> seq<Product>)
    requires page >= 1 && countryCode != ""
    ensures var r := ListProductsWithSort(Some(page), limit, sortBy, countryCode, sellerId, backend, sort);
            var sorted := SortedCandidates(ListProducts(WindowParams(countryCode), backend).value, sellerId, sortBy, sort);
            var start := PageStart(page, EffectiveLimit(limit));
            r.Ok? && r.value.products == sorted[Min(start, |sorted|)..Min(start + EffectiveLimit(limit), |sorted|)]
  {
    var size := EffectiveLimit(limit);
    var window := ListProducts(WindowParams(countryCode), backend).value;
    var sorted := SortedCandidates(window, sellerId, sortBy, sort);
    var start := PageStart(page, size);
    var r := ListProductsWithSort(Some(page), limit, sortBy, countryCode, sellerId, backend, sort);
    assert r.Ok? && r.value.products == JsSlice(sorted, start, start + size);
    SliceFrom(sorted, start, size);
  }


  /** Page 0 resolves to `slice(-limit, 0)`, which is always empty. */
  lemma PageZeroIsEmpty(
    limit: Option<nat>, sortBy: Option<string>, countryCode: string,
    sellerId: Option<string>, backend: ProductQuery -> StoreResponse,
    sort: (seq<Product>, string) -> seq<Product>)
    requires countryCode != ""
    ensures ListProductsWithSort(Some(0), limit, sortBy, countryCode, sellerId, backend, sort).value.products == []
  {
  }

  /** With a seller id and a permuting sort, every product on the page belongs to that seller. */
  lemma PageHasOnlySellersProducts(
    page: Option<int>, limit: Option<nat>, sortBy: Option<string>, countryCode: string,
    sellerId: string, backend: ProductQuery -> StoreResponse,
    sort: (seq<Product>, string) -> seq<Product>, q: Product)
    requires PermutingSort(sort)
    requires sellerId != ""
    requires countryCode != ""
    requires q in ListProductsWithSort(page, limit, sortBy, countryCode, Some(sellerId), backend, sort).value.products
    ensures SoldBy(q, sellerId)
  {
    var window := ListProducts(WindowParams(countryCode), backend).value;
    var filtered := SellerFilter(window.products, Some(sellerId));
    var sorted := SortedCandidates(window, Some(sellerId), sortBy, sort);
    var size := EffectiveLimit(limit);
    var start := PageStart(page.GetOr(1), size);
    var a := ResolveIndex(start, |sorted|);
    var b := ResolveIndex(start + size, |sorted|);
    assert q in sorted[a..b];
    assert q in sorted;
    assert multiset(sorted) == multiset(filtered);
    assert q in multiset(filtered);
    SellerFilterExact(window.products, Some(sellerId), q);
  }
}
