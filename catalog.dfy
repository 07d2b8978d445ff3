/** The catalog pagination controller of `src/context/ApiContext.tsx`: the loaded product
    list, the page cursor, the reported total, the last submitted query and the loading
    flag, changed only by `fetchProducts`; and the `canLoadMore` guard over them.
    The remote call is replaced by its outcome, given as a parameter. */
module Catalog {
  import opened Wrappers
  import opened Text

  /** The page size `limit`; it is created as 10 and never changed. */
  const Limit: nat := 10

  /** The one toast the controller shows, on any failed fetch. */
  const FailedToLoad: string := "Failed to load products"

  /** A catalog item. Only `id` and `title` matter to the core; the other fields
      (price, thumbnail, description) are passed through untouched. */
  datatype Product = Product(id: int, title: Option<string>)

  /** What the remote call came back with: a body whose `products` and `total` fields may
      be missing, or an error (network failure, timeout, non-2xx status). */
  datatype Outcome = Ok(products: Option<seq<Product>>, total: Option<nat>) | Err

  /** The request issued: the paged listing `/products?limit=..&skip=..`, or
      `/products/search?q=..` which carries no offset. */
  datatype Request = Listing(limit: nat, skip: nat) | Search(term: string)

  /** The controller's fields, as one value. */
  datatype CatalogState = CatalogState(
    products: seq<Product>,
    loading: bool,
    page: nat,
    total: Option<nat>,
    query: string)

  /** The state the provider starts in. */
  function Initial(): CatalogState {
    CatalogState([], false, 0, None, "")
  }

  /** What every reachable state satisfies: before the first successful fetch nothing has
      been loaded, and a stored total is never 0 (0 is stored as null). */
  predicate Consistent(s: CatalogState) {
    && (s.page == 0 ==> s.products == [] && s.total == None && s.query == "")
    && (s.total.Some? ==> s.total.value > 0)
  }

  /** `canLoadMore()`: an unknown total allows more; otherwise more are allowed while fewer
      than `total` items are loaded. */
  predicate CanLoadMore(s: CatalogState): (b: bool)
    ensures !b ==> s.total.Some? && s.total.value <= |s.products|
    ensures Consistent(s) && s.page == 0 ==> b
  {
    match s.total
    case None => true
    case Some(t) => |s.products| < t
  }

  /** The guard of the search branch: `search && search.trim().length > 0`. */
  predicate UsesSearch(search: string) {
    Truthy(search) && !IsBlank(search)
  }

  /** The request a fetch issues. The search endpoint is chosen exactly when the search text
      has a non-whitespace character; otherwise the listing asks for `Limit` items after
      `page * Limit` of them, or after none on a reset. */
  function RequestFor(page: nat, reset: bool, search: string): (r: Request)
    ensures r.Search? <==> exists i :: 0 <= i < |search| && !IsWhitespace(search[i])
    ensures r.Search? ==> r.term == search
    ensures r.Listing? ==> r.limit == Limit && r.skip == (if reset then 0 else page * Limit)
  {
    if UsesSearch(search) then Search(search)
    else
      var nextPage := if reset then 0 else page;
      Listing(Limit, nextPage * Limit)
  }

  /** `res.data.products || []`: a missing list counts as empty. */
  function Received(o: Outcome): seq<Product>
    requires o.Ok?
  {
    o.products.GetOr([])
  }

  /** `res.data.total || null`: a missing total and a total of 0 are both stored as null;
      any other total is stored as reported. */
  function StoredTotal(t: Option<nat>): (r: Option<nat>)
    ensures r == None <==> (t == None || t == Some(0))
    ensures r.Some? ==> r == t && r.value > 0
  {
    if t == Some(0) then None else t
  }

  /** The state after a fetch settles. On success a reset replaces the list and sets the
      page to 1, an append adds the received items after the old ones and advances the
      page; either way the total and query are taken from this fetch. On failure only
      `loading` changes. */
  function Settled(s: CatalogState, reset: bool, search: string, o: Outcome): (r: CatalogState)
    ensures !r.loading
    ensures o.Err? ==> r.(loading := s.loading) == s
    ensures o.Ok? ==> r.page >= 1 && r.total == StoredTotal(o.total) && r.query == search
    ensures o.Ok? ==> |r.products| == (if reset then 0 else |s.products|) + |Received(o)|
  {
    match o
    case Err => s.(loading := false)
    case Ok(_, total) =>
      CatalogState(
        if reset then Received(o) else s.products + Received(o),
        false,
        if reset then 1 else s.page + 1,
        StoredTotal(total),
        search)
  }

  /** The controller whose fields the source updates in place. */
  class ApiProvider {
    var products: seq<Product>
    var loading: bool
    var page: nat
    var total: Option<nat>
    var query: string

    /** The fields as one value. */
    function State(): CatalogState
      reads this
    {
      CatalogState(products, loading, page, total, query)
    }

    ghost predicate Valid()
      reads this
    {
      Consistent(State())
    }

    constructor ()
      ensures State() == Initial()
      ensures Valid()
    {
      products := [];
      loading := false;
      page := 0;
      total := None;
      query := "";
    }

    /** The first half of `fetchProducts`, up to the awaited call: set `loading` and choose
        the request from the page cursor as it stands now. */
    method Begin(reset: bool, search: string) returns (req: Request)
      requires Valid()
      modifies this`loading
      ensures Valid()
      ensures loading
      ensures req == RequestFor(page, reset, search)
      ensures products == old(products) && page == old(page) && total == old(total) && query == old(query)
    {
      loading := true;
      var nextPage := if reset then 0 else page;
      var skip := nextPage * Limit;
      if Truthy(search) && |Trim(search)| > 0 {
        req := Search(search);
      } else {
        req := Listing(Limit, skip);
      }
    }

    /** The second half of `fetchProducts`, once the call has come back: apply the outcome,
        show the failure toast when there is one, and clear `loading` in every case. */
    method Settle(reset: bool, search: string, outcome: Outcome) returns (toasts: seq<string>)
      requires Valid()
      modifies this
      ensures Valid()
      ensures State() == Settled(old(State()), reset, search, outcome)
      ensures toasts == if outcome.Err? then [FailedToLoad] else []
      ensures !loading
    {
      if outcome.Ok? {
        var received := outcome.products.GetOr([]);
        var receivedTotal := if outcome.total == Some(0) then None else outcome.total;
        if reset {
          products := received;
          page := 1;
        } else {
          products := products + received;
          page := page + 1;
        }
        total := receivedTotal;
        query := search;
        toasts := [];
      } else {
        toasts := [FailedToLoad];
      }
      loading := false;
    }

    /** `fetchProducts({reset, search})` run to completion, with no other call in between. */
    method Fetch(reset: bool, search: string, outcome: Outcome) returns (req: Request, toasts: seq<string>)
      requires Valid()
      modifies this
      ensures Valid()
      ensures req == RequestFor(old(page), reset, search)
      ensures State() == Settled(old(State()), reset, search, outcome)
      ensures toasts == if outcome.Err? then [FailedToLoad] else []
    {
      req := Begin(reset, search);
      toasts := Settle(reset, search, outcome);
    }

    /** `canLoadMore()` on the current fields. */
    method CanLoadMoreNow() returns (b: bool)
      ensures b == CanLoadMore(State())
      ensures total == None ==> b
      ensures total.Some? ==> (b <==> |products| < total.value)
    {
      if total == None {
        b := true;
      } else {
        b := |products| < total.value;
      }
    }
  }

  /** At start nothing is loaded, the cursor is 0, the total unknown and the query empty,
      so loading more is allowed. */
  lemma InitialState()
    ensures Initial().products == [] && Initial().page == 0
    ensures Initial().total == None && Initial().query == ""
    ensures Consistent(Initial()) && CanLoadMore(Initial())
  {
  }

  /** Every settled fetch keeps the state consistent. */
  lemma SettledConsistent(s: CatalogState, reset: bool, search: string, o: Outcome)
    requires Consistent(s)
    ensures Consistent(Settled(s, reset, search, o))
  {
  }

  /** A successful reset makes the list exactly the received one and the page 1, whatever
      was loaded before. */
  lemma ResetReplaces(s: CatalogState, search: string, items: Option<seq<Product>>, total: Option<nat>)
    ensures var r := Settled(s, true, search, Ok(items, total));
      r.products == items.GetOr([]) && r.page == 1 && |r.products| == |items.GetOr([])|
  {
  }

  /** A successful append keeps every old item in place and puts the received ones after
      them, in order and with nothing removed, and advances the page by one. */
  lemma AppendExtends(s: CatalogState, search: string, items: seq<Product>, total: Option<nat>)
    ensures var r := Settled(s, false, search, Ok(Some(items), total));
      && |r.products| == |s.products| + |items|
      && r.products[..|s.products|] == s.products
      && r.products[|s.products|..] == items
      && r.page == s.page + 1
  {
  }

  /** A failed fetch changes nothing but `loading`, which is false afterwards. */
  lemma FailureKeepsState(s: CatalogState, reset: bool, search: string)
    ensures var r := Settled(s, reset, search, Err);
      r.products == s.products && r.page == s.page && r.total == s.total
      && r.query == s.query && !r.loading
  {
  }

  /** On success the total is the received one (0 and missing become null) and the query is
      the search text verbatim, untrimmed; `loading` is false after every fetch. */
  lemma SuccessRecordsTotalAndQuery(s: CatalogState, reset: bool, search: string, o: Outcome)
    requires o.Ok?
    ensures var r := Settled(s, reset, search, o);
      r.total == StoredTotal(o.total) && r.query == search && !r.loading
  {
  }

  /** `canLoadMore` is false exactly when a total is known and the list has reached it. */
  lemma CanLoadMoreExactly(s: CatalogState)
    ensures !CanLoadMore(s) <==> s.total.Some? && |s.products| >= s.total.value
  {
  }

  /** A consistent state that has not completed a fetch yet is the initial one (up to
      `loading`), so loading more is allowed and an end-of-list listing starts at offset 0. */
  lemma ConsistentUnstartedIsInitial(s: CatalogState, search: string)
    requires Consistent(s) && s.page == 0
    ensures s.(loading := false) == Initial()
    ensures CanLoadMore(s)
    ensures !UsesSearch(search) ==> RequestFor(s.page, false, search) == Listing(Limit, 0)
  {
  }

  /** The lists received by a run of fetches, one after the other. */
  function Concat(pages: seq<seq<Product>>): seq<Product> {
    if pages == [] then [] else pages[0] + Concat(pages[1..])
  }

  /** A run of successful appends with the same search text, each reporting `total`. */
  function AppendAll(s: CatalogState, search: string, pages: seq<seq<Product>>, total: Option<nat>): CatalogState
    decreases |pages|
  {
    if pages == [] then s
    else AppendAll(Settled(s, false, search, Ok(Some(pages[0]), total)), search, pages[1..], total)
  }

  /** The requests issued by such a run, in order. */
  function AppendRequests(s: CatalogState, search: string, pages: seq<seq<Product>>, total: Option<nat>): seq<Request>
    decreases |pages|
  {
    if pages == [] then []
    else
      var next := Settled(s, false, search, Ok(Some(pages[0]), total));
      [RequestFor(s.page, false, search)] + AppendRequests(next, search, pages[1..], total)
  }

  /** After n successful appends the page cursor has advanced by exactly n and the list is
      the old one followed by every received list, in arrival order. */
  lemma {:induction false} AppendAllAdvances(s: CatalogState, search: string, pages: seq<seq<Product>>, total: Option<nat>)
    ensures AppendAll(s, search, pages, total).page == s.page + |pages|
    ensures AppendAll(s, search, pages, total).products == s.products + Concat(pages)
    ensures AppendAll(s, search, pages, total).total == if pages == [] then s.total else StoredTotal(total)
    decreases |pages|
  {
    if pages != [] {
      var s' := Settled(s, false, search, Ok(Some(pages[0]), total));
      AppendAllAdvances(s', search, pages[1..], total);
      assert s.products + pages[0] + Concat(pages[1..]) == s.products + (pages[0] + Concat(pages[1..]));
    }
  }

  /** The k-th append of a run asks for the page that follows the k before it: in listing
      mode the offsets are consecutive multiples of `Limit`, starting at the cursor. */
  lemma {:induction false} AppendRequestsAreConsecutive(s: CatalogState, search: string, pages: seq<seq<Product>>, total: Option<nat>)
    ensures |AppendRequests(s, search, pages, total)| == |pages|
    ensures forall k :: 0 <= k < |pages| ==>
      AppendRequests(s, search, pages, total)[k] == RequestFor(s.page + k, false, search)
    decreases |pages|
  {
    if pages != [] {
      var s' := Settled(s, false, search, Ok(Some(pages[0]), total));
      AppendRequestsAreConsecutive(s', search, pages[1..], total);
      var rest := AppendRequests(s', search, pages[1..], total);
      assert AppendRequests(s, search, pages, total) == [RequestFor(s.page, false, search)] + rest;
      assert s'.page == s.page + 1;
    }
  }

  /** In search mode the cursor is ignored: every append of a run re-issues the same search
      request, so the same results are asked for again. */
  lemma {:induction false} SearchAppendsRepeat(s: CatalogState, search: string, pages: seq<seq<Product>>, total: Option<nat>)
    requires UsesSearch(search)
    ensures forall k :: 0 <= k < |AppendRequests(s, search, pages, total)| ==>
      AppendRequests(s, search, pages, total)[k] == Search(search)
    decreases |pages|
  {
    if pages != [] {
      var next := Settled(s, false, search, Ok(Some(pages[0]), total));
      SearchAppendsRepeat(next, search, pages[1..], total);
      SearchIgnoresCursor(s.page, search);
    }
  }

  /** With a non-blank search text the request does not depend on the cursor. */
  lemma SearchIgnoresCursor(page: nat, search: string)
    requires UsesSearch(search)
    ensures RequestFor(page, false, search) == Search(search)
  {
  }

  /** A search that returned the first `|items|` of `t` results still allows loading more;
      the next append re-issues the same search and, if it returns the same results,
      keeps both copies: nothing is de-duplicated and the list grows past the total. */
  lemma {:induction false} SearchAppendDuplicates(s: CatalogState, search: string, items: seq<Product>, t: nat)
    requires UsesSearch(search) && items != []
    requires |items| < t < 2 * |items|
    ensures var s1 := Settled(s, true, search, Ok(Some(items), Some(t)));
      var s2 := Settled(s1, false, search, Ok(Some(items), Some(t)));
      && CanLoadMore(s1)
      && RequestFor(s1.page, false, search) == RequestFor(0, true, search) == Search(search)
      && s2.products == items + items
      && multiset(s2.products)[items[0]] >= 2
      && |s2.products| > t
  {
    assert multiset(items + items)[items[0]] >= 2 by {
      assert items + items == [items[0]] + items[1..] + items;
      assert multiset(items + items) == multiset([items[0]]) + multiset(items[1..]) + multiset(items);
      assert items[0] in multiset(items);
    }
  }
}
