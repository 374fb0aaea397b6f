/**
  * `listCollections`: fills in paging defaults in the caller's query
  * dictionary, fetches the collections and sorts them in place, ranked ones
  * first by ascending rank, the others by title.
  *
  * `localeCompare` is an abstract collation `collate` (negative, zero or
  * positive like `localeCompare`), required only to be total. The engine's
  * `Array.prototype.sort` is modelled by a stable insertion sort.
  */
module Collections {
  import opened Builtins

  const DefaultLimit := "100"
  const DefaultOffset := "0"

  datatype Collection = Collection(id: string, title: Option<string>, handle: Option<string>, rank: Option<int>)

  /** The comparator passed to `collections.sort`. */
  function Compare(a: Collection, b: Collection, collate: (string, string) -> int): int {
    if a.rank.Some? && b.rank.Some? then a.rank.value - b.rank.value
    else if a.rank.Some? then -1
    else if b.rank.Some? then 1
    else collate(a.title.GetOr(""), b.title.GetOr(""))
  }

  /** `a` may stand before `b`: the comparator does not ask to swap them. */
  predicate InOrder(a: Collection, b: Collection, collate: (string, string) -> int) {
    Compare(a, b, collate) <= 0
  }

  /** The collation puts any two titles in some order. */
  ghost predicate TotalCollation(collate: (string, string) -> int) {
    forall x, y :: collate(x, y) <= 0 || collate(y, x) <= 0
  }

  /** Two ranked collections are ordered by rank, ascending. */
  lemma RankedByRank(a: Collection, b: Collection, collate: (string, string) -> int)
    requires a.rank.Some? && b.rank.Some?
    ensures InOrder(a, b, collate) <==> a.rank.value <= b.rank.value
  {
  }

  /** A ranked collection always goes before an unranked one, never after. */
  lemma RankedBeforeUnranked(a: Collection, b: Collection, collate: (string, string) -> int)
    requires a.rank.Some? && b.rank.None?
    ensures InOrder(a, b, collate) && !InOrder(b, a, collate)
  {
  }

  /** Two unranked collections are ordered by title, a missing title counting as `""`. */
  lemma UnrankedByTitle(a: Collection, b: Collection, collate: (string, string) -> int)
    requires a.rank.None? && b.rank.None?
    ensures InOrder(a, b, collate) <==> collate(a.title.GetOr(""), b.title.GetOr("")) <= 0
  {
  }

  /** With a total collation the comparator is total too. */
  lemma CompareTotal(a: Collection, b: Collection, collate: (string, string) -> int)
    requires TotalCollation(collate)
    ensures InOrder(a, b, collate) || InOrder(b, a, collate)
  {
    if a.rank.None? && b.rank.None? {
      var x, y := a.title.GetOr(""), b.title.GetOr("");
      assert collate(x, y) <= 0 || collate(y, x) <= 0;
    }
  }

  /** Every neighbouring pair is in order. */
  ghost predicate Sorted(s: seq<Collection>, collate: (string, string) -> int) {
    forall k :: 0 < k < |s| ==> InOrder(s[k - 1], s[k], collate)
  }

  /**
    * `collections.sort(comparator)`, in place: the array ends sorted and holds
    * the same collections. Only out-of-order neighbours are swapped, so equal
    * collections keep their order.
    */
  method SortInPlace(a: array<Collection>, collate: (string, string) -> int)
    requires TotalCollation(collate)
    modifies a
    ensures Sorted(a[..], collate)
    ensures multiset(a[..]) == multiset(old(a[..]))
  {
    if a.Length == 0 {
      return;
    }
    var i := 1;
    while i < a.Length
      invariant 1 <= i <= a.Length
      invariant forall k :: 0 < k < i ==> InOrder(a[k - 1], a[k], collate)
      invariant multiset(a[..]) == multiset(old(a[..]))
    {
      InsertAt(a, i, collate);
      i := i + 1;
    }
  }

  /** Moves `a[i]` left past every neighbour that should follow it, extending the sorted prefix by one. */
  method InsertAt(a: array<Collection>, i: int, collate: (string, string) -> int)
    requires TotalCollation(collate)
    requires 0 < i < a.Length
    requires forall k :: 0 < k < i ==> InOrder(a[k - 1], a[k], collate)
    modifies a
    ensures forall k :: 0 < k <= i ==> InOrder(a[k - 1], a[k], collate)
    ensures multiset(a[..]) == multiset(old(a[..]))
  {
    var j := i;
    while j > 0 && !InOrder(a[j - 1], a[j], collate)
      invariant 0 <= j <= i
      invariant forall k :: 0 < k < j ==> InOrder(a[k - 1], a[k], collate)
      invariant forall k :: j < k <= i ==> InOrder(a[k - 1], a[k], collate)
      invariant 0 < j < i ==> InOrder(a[j - 1], a[j + 1], collate)
      invariant multiset(a[..]) == multiset(old(a[..]))
    {
      CompareTotal(a[j - 1], a[j], collate);
      SwapWithLeft(a, j);
      j := j - 1;
    }
  }

  /** Swaps `a[j - 1]` and `a[j]`. */
  method SwapWithLeft(a: array<Collection>, j: int)
    requires 0 < j < a.Length
    modifies a
    ensures a[j - 1] == old(a[j]) && a[j] == old(a[j - 1])
    ensures forall k :: 0 <= k < a.Length && k != j - 1 && k != j ==> a[k] == old(a[k])
    ensures multiset(a[..]) == multiset(old(a[..]))
  {
    a[j - 1], a[j] := a[j], a[j - 1];
  }

  /** In a sorted list no unranked collection stands before a ranked one. */
  lemma {:induction false} SortedRankedFirst(s: seq<Collection>, collate: (string, string) -> int, i: int, j: int)
    requires Sorted(s, collate)
    requires 0 <= i < j < |s|
    requires s[j].rank.Some?
    ensures s[i].rank.Some?
    decreases j - i
  {
    assert InOrder(s[j - 1], s[j], collate);
    if s[j - 1].rank.None? {
      RankedBeforeUnranked(s[j], s[j - 1], collate);
    }
    if i < j - 1 {
      SortedRankedFirst(s, collate, i, j - 1);
    }
  }

  /** In a sorted list the ranks never decrease from left to right. */
  lemma {:induction false} SortedRanksAscend(s: seq<Collection>, collate: (string, string) -> int, i: int, j: int)
    requires Sorted(s, collate)
    requires 0 <= i < j < |s|
    requires s[j].rank.Some?
    ensures s[i].rank.Some? && s[i].rank.value <= s[j].rank.value
    decreases j - i
  {
    SortedRankedFirst(s, collate, j - 1, j);
    assert InOrder(s[j - 1], s[j], collate);
    if i < j - 1 {
      SortedRanksAscend(s, collate, i, j - 1);
    }
  }

  /**
    * The caller's query dictionary (`Record<string, string>`), which
    * `listCollections` updates in place.
    */
  class QueryParams {
    var entries: map<string, string>

    constructor(entries: map<string, string>)
      ensures this.entries == entries
    {
      this.entries := entries;
    }

    /** `queryParams.limit = queryParams.limit || "100"; queryParams.offset = queryParams.offset || "0"` */
    method FillPagingDefaults()
      modifies this
      ensures entries == WithPagingDefaults(old(entries))
    {
      entries := entries["limit" := Fallback(entries, "limit", DefaultLimit)];
      entries := entries["offset" := Fallback(entries, "offset", DefaultOffset)];
    }
  }

  /** `m[key] || fallback` */
  function Fallback(m: map<string, string>, key: string, fallback: string): string {
    if key in m && m[key] != "" then m[key] else fallback
  }

  function WithPagingDefaults(m: map<string, string>): map<string, string> {
    m["limit" := Fallback(m, "limit", DefaultLimit)]["offset" := Fallback(m, "offset", DefaultOffset)]
  }

  /**
    * After the defaults, limit and offset are always set and non-empty; a value
    * the caller supplied is kept; a missing or empty one becomes "100" or "0";
    * no other entry changes.
    */
  lemma PagingDefaults(m: map<string, string>)
    ensures var d := WithPagingDefaults(m);
            && d.Keys == m.Keys + {"limit", "offset"}
            && d["limit"] != "" && d["offset"] != ""
            && ("limit" in m && m["limit"] != "" ==> d["limit"] == m["limit"])
            && ("offset" in m && m["offset"] != "" ==> d["offset"] == m["offset"])
            && (("limit" !in m || m["limit"] == "") ==> d["limit"] == DefaultLimit)
            && (("offset" !in m || m["offset"] == "") ==> d["offset"] == DefaultOffset)
            && (forall k :: k in m && k != "limit" && k != "offset" ==> d[k] == m[k])
  {
  }

  /** Applying the defaults twice changes nothing more. */
  lemma PagingDefaultsIdempotent(m: map<string, string>)
    ensures WithPagingDefaults(WithPagingDefaults(m)) == WithPagingDefaults(m)
  {
  }

  /** `{ collections, count }`, or the rejection of the fetch. */
  datatype CollectionPage = CollectionPage(collections: array<Collection>, count: int) | Rejected

  /**
    * `listCollections`: defaults are written into the caller's dictionary, the
    * fetched collections are sorted in place and `count` is their number.
    * `backend` maps the query sent to the collections received, or None when
    * the request is rejected (the rejection propagates to the caller).
    */
  method ListCollections(
    params: QueryParams, backend: map<string, string> -> Option<seq<Collection>>,
    collate: (string, string) -> int)
    returns (r: CollectionPage)
    requires TotalCollation(collate)
    modifies params
    ensures params.entries == WithPagingDefaults(old(params.entries))
    ensures r.Rejected? <==> backend(params.entries).None?
    ensures r.CollectionPage? ==>
              && fresh(r.collections)
              && multiset(r.collections[..]) == multiset(backend(params.entries).value)
              && Sorted(r.collections[..], collate)
              && r.count == r.collections.Length
  {
    params.FillPagingDefaults();
    var answer := backend(params.entries);
    if answer.None? {
      return Rejected;
    }
    var fetched := answer.value;
    var a := new Collection[|fetched|](k requires 0 <= k < |fetched| => fetched[k]);
    assert a[..] == fetched;
    SortInPlace(a, collate);
    r := CollectionPage(a, a.Length);
  }
}
