/**
  * The shopping assistant's product tools: `search_products` (backend search,
  * then a manual all-terms fallback filter when the search finds nothing) and
  * `list_all_products`, and the compact product summary both hand back.
  *
  * The HTTP call and the SDK call are parameters mapping the request the
  * storefront makes to the answer it receives.
  */
module AgentTools {
  import opened Builtins
  import opened Seqs
  import opened Catalog
  import opened Messages

  const SearchDefaultLimit: int := 20
  /** How many products the fallback filter fetches to filter by hand. */
  const FallbackWindow: int := 100
  const ListAllDefaultLimit: int := 10
  const DescriptionLength: nat := 150
  const DefaultCurrency := "KES"
  /** Query words of this many characters or fewer are ignored by the fallback filter. */
  const ShortTermLength: nat := 2

  /** The query of `fetchProducts(query, limit)`: `q` is only sent when the query is non-empty. */
  datatype SearchRequest = SearchRequest(query: Option<string>, limit: int)

  /** What `fetch('/store/products?...')` answers. */
  datatype HttpAnswer = NotOk | OkBody(products: Option<seq<Product>>) | NetworkError

  /** The outcome of `fetchProducts`: a list, or a thrown error. */
  datatype Fetched = Got(products: seq<Product>) | Threw

  /** What `sdk.store.product.list` answers. */
  datatype SdkAnswer = SdkProducts(products: Option<seq<Product>>) | SdkError

  /** The object a tool serialises: `{ error?, message, products }`. */
  datatype ToolResult = ToolResult(message: string, products: seq<ToolProduct>, error: Option<string>)

  /** `fetchProducts`: a non-ok status and a body without products both give `[]`. */
  function FetchProducts(answer: HttpAnswer): (r: Fetched)
    ensures r.Threw? <==> answer.NetworkError?
    ensures answer.NotOk? ==> r == Got([])
    ensures answer.OkBody? ==> r == Got(answer.products.GetOr([]))
  {
    match answer
    case NotOk => Got([])
    case OkBody(products) => Got(products.GetOr([]))
    case NetworkError => Threw
  }

  // ---------------------------------------------------------------------------
  // The fallback filter

  predicate Significant(term: string) {
    |term| > ShortTermLength
  }

  /** `query.toLowerCase().split(' ').filter(term => term.length > 2)` */
  function SearchTerms(query: string): (terms: seq<string>)
    ensures forall t :: t in terms ==> Significant(t) && ' ' !in t && ToLower(t) == t
  {
    var pieces := Split(ToLower(query));
    var terms := Filter(pieces, Significant);
    forall t | t in terms ensures ' ' !in t && ToLower(t) == t {
      var i :| 0 <= i < |pieces| && pieces[i] == t;
      LowercasePieces(query, i);
    }
    terms
  }

  /** Every piece of a lower-cased query is itself lower-case. */
  lemma LowercasePieces(query: string, i: int)
    requires 0 <= i < |Split(ToLower(query))|
    ensures ToLower(Split(ToLower(query))[i]) == Split(ToLower(query))[i]
  {
    var lower := ToLower(query);
    JoinSplit(lower);
    PiecesOfLower(Split(lower), i);
  }

  lemma {:induction false} PiecesOfLower(pieces: seq<string>, i: int)
    requires |pieces| >= 1 && 0 <= i < |pieces|
    requires ToLower(Join(pieces)) == Join(pieces)
    ensures ToLower(pieces[i]) == pieces[i]
    decreases |pieces|
  {
    if |pieces| > 1 {
      var rest := Join(pieces[1..]);
      assert Join(pieces) == pieces[0] + (" " + rest);
      LowerOfConcat(pieces[0], " " + rest);
      LowerOfConcat(" ", rest);
      assert ToLower(pieces[0] + (" " + rest)) == ToLower(pieces[0]) + ToLower(" " + rest);
      SameLengthConcat(ToLower(pieces[0]), ToLower(" " + rest), pieces[0], " " + rest);
      assert ToLower(" " + rest) == " " + rest;
      SameLengthConcat(ToLower(" "), ToLower(rest), " ", rest);
      if i > 0 {
        PiecesOfLower(pieces[1..], i - 1);
      }
    }
  }

  lemma LowerOfConcat(a: string, b: string)
    ensures ToLower(a + b) == ToLower(a) + ToLower(b)
  {
  }

  lemma SameLengthConcat(a: string, b: string, c: string, d: string)
    requires |a| == |c| && a + b == c + d
    ensures a == c && b == d
  {
    assert a == (a + b)[..|a|] && c == (c + d)[..|c|];
    assert b == (a + b)[|a|..] && d == (c + d)[|c|..];
  }

  /** The significant terms are exactly the long pieces of the lower-cased query. */
  lemma SearchTermsExact(query: string, t: string)
    ensures t in SearchTerms(query) <==> t in Split(ToLower(query)) && Significant(t)
  {
    if t in Split(ToLower(query)) && Significant(t) {
      FilterComplete(Split(ToLower(query)), Significant, t);
    }
  }

  /** `${title} ${description} ${handle}`, each lower-cased, a missing field read as `""`. */
  function SearchableText(p: Product): string {
    ToLower(OrElse(p.title, "")) + " " + ToLower(OrElse(p.description, "")) + " " + ToLower(OrElse(p.handle, ""))
  }

  /** `queryTerms.every(term => searchableText.includes(term))` */
  predicate Matches(p: Product, terms: seq<string>) {
    forall i :: 0 <= i < |terms| ==> Contains(SearchableText(p), terms[i])
  }

  /** The manual fallback filter over all fetched products. */
  function ManualFilter(all: seq<Product>, query: string): seq<Product> {
    Filter(all, (p: Product) => Matches(p, SearchTerms(query)))
  }

  /**
    * The fallback filter is exact: a product is kept if and only if it was
    * fetched and every significant term occurs somewhere in its searchable text.
    */
  lemma ManualFilterExact(all: seq<Product>, query: string, p: Product)
    ensures p in ManualFilter(all, query) <==>
              p in all && forall t :: t in SearchTerms(query) ==> exists i :: OccursAt(SearchableText(p), t, i)
  {
    var terms := SearchTerms(query);
    var text := SearchableText(p);
    forall t | t in terms ensures Contains(text, t) <==> exists i :: OccursAt(text, t, i) {
      ContainsIffOccurs(text, t);
    }
    if p in all && Matches(p, terms) {
      FilterComplete(all, (q: Product) => Matches(q, SearchTerms(query)), p);
    }
  }

  /** A query without any word longer than two characters keeps every fetched product. */
  lemma NoSignificantTermsKeepsAll(all: seq<Product>, query: string)
    requires SearchTerms(query) == []
    ensures ManualFilter(all, query) == all
  {
    FilterAll(all, (q: Product) => Matches(q, SearchTerms(query)));
  }

  /** The query "grey pants" splits into two significant terms. */
  lemma GreyPantsTerms()
    ensures SearchTerms("grey pants") == ["grey", "pants"]
  {
    GreyPantsSplit();
    FilterAll(["grey", "pants"], Significant);
  }

  lemma GreyPantsSplit()
    ensures Split(ToLower("grey pants")) == ["grey", "pants"]
  {
    GreyPantsLower();
    SplitTwoWords("grey", "pants");
  }

  lemma GreyPantsLower()
    ensures ToLower("grey pants") == "grey" + " " + "pants"
  {
  }

  /** Two space-free words joined by one space split back into the two words. */
  lemma SplitTwoWords(a: string, b: string)
    requires ' ' !in a && ' ' !in b
    ensures Split(a + " " + b) == [a, b]
  {
    SplitAtSpace(a, b);
    SplitSpaceFree(b);
  }

  /**
    * As the source's comment promises, the query "grey pants" has the terms
    * "grey" and "pants", and the fallback filter keeps a product titled
    * "Grey Sweat Pants".
    */
  lemma GreyPantsFindsGreySweatPants(p: Product)
    requires p.title == Some("Grey Sweat Pants")
    ensures SearchTerms("grey pants") == ["grey", "pants"]
    ensures Matches(p, ["grey", "pants"])
    ensures ManualFilter([p], "grey pants") == [p]
  {
    GreyPantsTerms();
    GreySweatPantsMatches(p);
    FilterAll([p], (q: Product) => Matches(q, SearchTerms("grey pants")));
  }

  /** Both terms occur in the searchable text of a product titled "Grey Sweat Pants". */
  lemma GreySweatPantsMatches(p: Product)
    requires p.title == Some("Grey Sweat Pants")
    ensures Matches(p, ["grey", "pants"])
  {
    var title := "grey sweat pants";
    GreySweatPantsLower();
    var rest := " " + ToLower(OrElse(p.description, "")) + " " + ToLower(OrElse(p.handle, ""));
    assert SearchableText(p) == title + rest;
    assert OccursAt(title, "grey", 0) && OccursAt(title, "pants", 11);
    ContainedInFront(title, rest, "grey", 0);
    ContainedInFront(title, rest, "pants", 11);
  }

  lemma GreySweatPantsLower()
    ensures ToLower("Grey Sweat Pants") == "grey sweat pants"
  {
  }

  /** An occurrence in the front part of a string is included in the whole. */
  lemma ContainedInFront(a: string, b: string, term: string, i: int)
    requires OccursAt(a, term, i)
    ensures Contains(a + b, term)
  {
    assert (a + b)[i..i + |term|] == a[i..i + |term|];
    assert OccursAt(a + b, term, i);
    ContainsIffOccurs(a + b, term);
  }

  // ---------------------------------------------------------------------------
  // The product summary

  /** The summary of one product, with the fixed fallbacks for missing data. */
  function Summarize(p: Product): (r: ToolProduct)
    ensures r.id == p.id && r.title == p.title && r.handle == p.handle
    ensures FirstVariant(p).None? ==> r.variantId == ""
    ensures FirstVariant(p).Some? ==> r.variantId == OrElse(FirstVariant(p).value.id, "")
    ensures (FirstVariant(p).None? || FirstVariant(p).value.calculatedPrice.None?) ==>
              r.price == 0 && r.currency == DefaultCurrency
    ensures FirstVariant(p).Some? && FirstVariant(p).value.calculatedPrice.Some? ==>
              var price := FirstVariant(p).value.calculatedPrice.value;
              r.price == price.amount.GetOr(0) && r.currency == OrElse(price.currencyCode, DefaultCurrency)
    ensures r.currency != ""
    ensures Truthy(p.thumbnail) ==> r.thumbnail == p.thumbnail.value
    ensures !Truthy(p.thumbnail) && FirstImage(p).Some? ==> r.thumbnail == OrElse(FirstImage(p).value.url, "")
    ensures !Truthy(p.thumbnail) && FirstImage(p).None? ==> r.thumbnail == ""
    ensures r.description.Some? <==> p.description.Some?
    ensures r.description.Some? ==>
              && |r.description.value| == Min(DescriptionLength, |p.description.value|)
              && r.description.value <= p.description.value
  {
    var variant := FirstVariant(p);
    var price := if variant.Some? then variant.value.calculatedPrice else None;
    ToolProduct(
      p.id,
      if variant.Some? then OrElse(variant.value.id, "") else "",
      p.title,
      if p.description.Some? then Some(Prefix(p.description.value, DescriptionLength)) else None,
      if price.Some? && price.value.amount.Some? then price.value.amount.value else 0,
      if price.Some? then OrElse(price.value.currencyCode, DefaultCurrency) else DefaultCurrency,
      OrElse(p.thumbnail, if FirstImage(p).Some? then OrElse(FirstImage(p).value.url, "") else ""),
      p.handle)
  }

  /** `products.map(...)`: one summary per product, in order. */
  function SummarizeAll(ps: seq<Product>): (r: seq<ToolProduct>)
    ensures |r| == |ps|
    ensures forall i :: 0 <= i < |ps| ==> r[i] == Summarize(ps[i])
  {
    seq(|ps|, i requires 0 <= i < |ps| => Summarize(ps[i]))
  }

  // ---------------------------------------------------------------------------
  // search_products

  /** `fetchProducts(query, limit = 20)`: `q` is sent exactly when the query is non-empty. */
  function SearchRequestFor(query: string, limit: Option<int>): (r: SearchRequest)
    ensures r.query.Some? <==> query != ""
    ensures r.query.Some? ==> r.query.value == query
    ensures limit.None? ==> r.limit == SearchDefaultLimit
    ensures limit.Some? ==> r.limit == limit.value
  {
    SearchRequest(if query != "" then Some(query) else None, limit.GetOr(SearchDefaultLimit))
  }

  /** The request the fallback makes: no query, the whole window. */
  const FallbackRequest := SearchRequest(None, FallbackWindow)

  /** The fallback fetch is the search request of an empty query over the whole window. */
  lemma FallbackIsUnfilteredWindow()
    ensures FallbackRequest == SearchRequestFor("", Some(FallbackWindow))
    ensures FallbackRequest.query.None? && FallbackRequest.limit == 100
  {
  }

  /** The success result: the message's count is the number of products it carries. */
  function SearchFound(query: string, ps: seq<Product>): (r: ToolResult)
    ensures r.error.None? && r.products == SummarizeAll(ps)
    ensures r.message == "Found " + NatToString(|r.products|) + " products matching \"" + query + "\""
  {
    ToolResult("Found " + NatToString(|ps|) + " products matching \"" + query + "\"", SummarizeAll(ps), None)
  }

  function SearchNotFound(query: string): ToolResult {
    ToolResult(
      "No products found for \"" + query + "\". Try a different search term like 'houses', 'apartments', or browse categories.",
      [], None)
  }

  const SearchFailed :=
    ToolResult("I had trouble searching. Try browsing categories instead.", [], Some("Error searching products"))

  /** `searchProductsTool.func` */
  function SearchProducts(query: string, limit: Option<int>, backend: SearchRequest -> HttpAnswer): (r: ToolResult)
    ensures r.error.Some? <==>
              || backend(SearchRequestFor(query, limit)).NetworkError?
              || (FetchProducts(backend(SearchRequestFor(query, limit))) == Got([]) && backend(FallbackRequest).NetworkError?)
    ensures r.error.Some? ==> r.products == []
    ensures r.error.Some? ==> r == SearchFailed
    ensures FetchProducts(backend(SearchRequestFor(query, limit))).Got? ==>
              var first := FetchProducts(backend(SearchRequestFor(query, limit))).products;
              first != [] ==> r == SearchFound(query, first)
    ensures FetchProducts(backend(SearchRequestFor(query, limit))) == Got([]) && FetchProducts(backend(FallbackRequest)).Got? ==>
              var matched := ManualFilter(FetchProducts(backend(FallbackRequest)).products, query);
              && r.products == SummarizeAll(matched)
              && (matched == [] ==> r == SearchNotFound(query))
              && (matched != [] ==> r == SearchFound(query, matched))
  {
    match FetchProducts(backend(SearchRequestFor(query, limit)))
    case Threw => SearchFailed
    case Got(first) =>
      if first != [] then SearchFound(query, first)
      else
        match FetchProducts(backend(FallbackRequest))
        case Threw => SearchFailed
        case Got(all) =>
          var matched := ManualFilter(all, query);
          if matched == [] then SearchNotFound(query) else SearchFound(query, matched)
  }

  /**
    * Every product the search tool returns is the summary of a fetched product
    * that either came from the backend search or passes the fallback filter.
    */
  lemma SearchResultsJustified(query: string, limit: Option<int>, backend: SearchRequest -> HttpAnswer, k: int)
    requires 0 <= k < |SearchProducts(query, limit, backend).products|
    ensures var first := FetchProducts(backend(SearchRequestFor(query, limit)));
            var s := SearchProducts(query, limit, backend).products[k];
            first.Got? &&
            if first.products != [] then s == Summarize(first.products[k])
            else
              var all := FetchProducts(backend(FallbackRequest)).products;
              exists p :: p in all && Matches(p, SearchTerms(query)) && s == Summarize(p)
  {
    var first := FetchProducts(backend(SearchRequestFor(query, limit)));
    if first.Got? && first.products == [] {
      var all := FetchProducts(backend(FallbackRequest)).products;
      var matched := ManualFilter(all, query);
      var p := matched[k];
      assert p in matched;
      assert SearchProducts(query, limit, backend).products[k] == Summarize(p);
    }
  }

  // ---------------------------------------------------------------------------
  // list_all_products

  const NothingListed := ToolResult("No products available at the moment.", [], None)

  const ListingFailed :=
    ToolResult("I couldn't load the products. Please try again.", [], Some("Error listing products"))

  /** `listAllProductsTool.func`; `sdk` maps the requested limit to the SDK's answer. */
  function ListAllProducts(limit: Option<int>, sdk: int -> SdkAnswer): (r: ToolResult)
    ensures sdk(limit.GetOr(ListAllDefaultLimit)).SdkError? ==> r == ListingFailed
    ensures sdk(limit.GetOr(ListAllDefaultLimit)).SdkProducts? ==>
              var listed := sdk(limit.GetOr(ListAllDefaultLimit)).products.GetOr([]);
              && r.error.None?
              && r.products == SummarizeAll(listed)
              && (listed == [] <==> r == NothingListed)
  {
    match sdk(limit.GetOr(ListAllDefaultLimit))
    case SdkError => ListingFailed
    case SdkProducts(products) =>
      var listed := products.GetOr([]);
      if listed == [] then NothingListed
      else
        ToolResult("Here are " + NatToString(|listed|) + " products from our marketplace", SummarizeAll(listed), None)
  }

  /**
    * The tool message the agent receives: the serialised result always
    * carries a `products` array, so the chat endpoint reads it back whole.
    */
  function Encode(r: ToolResult): (payload: ToolPayload)
    ensures payload.Payload? && payload.products == Some(r.products)
  {
    Payload(Some(r.products))
  }
}
