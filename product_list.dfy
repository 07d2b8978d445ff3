/** The product list screen of `src/screens/ProductListScreen.tsx`: the live title filter
    over the loaded products, and the rules that decide when the screen asks the catalog
    controller for a fetch and with which `reset` and `search` arguments. */
module ProductList {
  import opened Wrappers
  import opened Text
  import opened Catalog

  /** The arguments of one `fetchProducts` call. */
  datatype FetchArgs = FetchArgs(reset: bool, search: string)

  /** `p.title || ""`: a missing title is matched as the empty string. */
  function TitleText(p: Product): string {
    p.title.GetOr("")
  }

  /** A product is kept by the filter when its lower-cased title includes `q`. */
  predicate TitleMatches(p: Product, q: string) {
    Includes(ToLower(TitleText(p)), q)
  }

  /** `a` is `b` with some items left out, the rest kept in order. */
  predicate IsSubsequence(a: seq<Product>, b: seq<Product>)
    decreases |b|
  {
    if a == [] then true
    else if b == [] then false
    else (a[0] == b[0] && IsSubsequence(a[1..], b[1..])) || IsSubsequence(a, b[1..])
  }

  /** `products.filter(...)` on titles matching `q`. */
  function Filter(ps: seq<Product>, q: string): (r: seq<Product>)
    ensures |r| <= |ps|
    ensures forall i :: 0 <= i < |r| ==> TitleMatches(r[i], q)
  {
    if ps == [] then []
    else if TitleMatches(ps[0], q) then [ps[0]] + Filter(ps[1..], q)
    else Filter(ps[1..], q)
  }

  /** The filter keeps the products whose title matches `q`, in their order and with every
      copy of a matching product, and nothing else. */
  lemma {:induction false} FilterKeepsMatches(ps: seq<Product>, q: string)
    ensures IsSubsequence(Filter(ps, q), ps)
    ensures forall p :: multiset(Filter(ps, q))[p] == if TitleMatches(p, q) then multiset(ps)[p] else 0
    decreases |ps|
  {
    if ps != [] {
      FilterKeepsMatches(ps[1..], q);
      assert ps == [ps[0]] + ps[1..];
      var r := Filter(ps, q);
      if TitleMatches(ps[0], q) {
        assert r[0] == ps[0] && r[1..] == Filter(ps[1..], q);
      }
    }
  }

  /** `displayed`: with blank typed text the list as loaded, otherwise the products whose
      lower-cased title includes the lower-cased typed text. The blank test trims; the match
      uses the text untrimmed. */
  function LiveFilter(products: seq<Product>, text: string): (r: seq<Product>)
    ensures (forall i :: 0 <= i < |text| ==> IsWhitespace(text[i])) ==> r == products
    ensures (exists i :: 0 <= i < |text| && !IsWhitespace(text[i])) ==>
      forall p :: multiset(r)[p] == if Includes(ToLower(TitleText(p)), ToLower(text)) then multiset(products)[p] else 0
    ensures IsSubsequence(r, products)
  {
    if !Truthy(text) || |Trim(text)| == 0 then
      SubsequenceOfItself(products);
      products
    else
      var q := ToLower(text);
      FilterKeepsMatches(products, q);
      Filter(products, q)
  }

  /** Every list is a subsequence of itself. */
  lemma {:induction false} SubsequenceOfItself(b: seq<Product>)
    ensures IsSubsequence(b, b)
    decreases |b|
  {
    if b != [] {
      SubsequenceOfItself(b[1..]);
    }
  }

  /** The filter of a concatenation is the concatenation of the filters. */
  lemma {:induction false} FilterAppend(a: seq<Product>, b: seq<Product>, q: string)
    ensures Filter(a + b, q) == Filter(a, q) + Filter(b, q)
    decreases |a|
  {
    if a != [] {
      assert (a + b)[1..] == a[1..] + b;
      FilterAppend(a[1..], b, q);
    } else {
      assert a + b == b;
    }
  }

  /** After a successful append the filtered list is the old filtered list followed by the
      matching received items: items already shown stay in place. */
  lemma DisplayedAfterAppend(s: CatalogState, search: string, items: seq<Product>, total: Option<nat>, text: string)
    ensures LiveFilter(Settled(s, false, search, Ok(Some(items), total)).products, text)
         == LiveFilter(s.products, text) + LiveFilter(items, text)
  {
    if Truthy(text) && |Trim(text)| > 0 {
      FilterAppend(s.products, items, ToLower(text));
    }
  }

  /** A worked example: with "Red Shoe" and "Blue Hat" loaded, typing "red"
      shows only "Red Shoe". */
  lemma RedShoeExample(red: Product, blue: Product)
    requires red.title == Some("Red Shoe") && blue.title == Some("Blue Hat")
    ensures LiveFilter([red, blue], "red") == [red]
  {
    assert !IsWhitespace("red"[0]);
    var q := ToLower("red");
    assert q == "red";
    assert TitleMatches(red, q) by {
      assert ToLower("Red Shoe")[..3] == "red";
    }
    assert !TitleMatches(blue, q) by {
      var lower := ToLower("Blue Hat");
      assert 'r' !in lower by {
        assert lower == "blue hat";
      }
      if Includes(lower, q) {
        IncludesNeedsFirstChar(lower, q);
      }
    }
    assert [red, blue][1..] == [blue] && [blue][1..] == [];
    assert Filter([blue], q) == [] by {
      assert Filter([blue], q) == Filter([], q);
    }
    assert Filter([red, blue], q) == [red] + Filter([blue], q);
    assert Truthy("red") && |Trim("red")| != 0;
  }

  /** `onEndReached`: fetch the next page, with the typed text, only when no fetch is in
      progress and more can be loaded. */
  function OnEndReached(loading: bool, canLoadMore: bool, search: string): (r: Option<FetchArgs>)
    ensures r.Some? <==> !loading && canLoadMore
    ensures r.Some? ==> !r.value.reset && r.value.search == search
  {
    if !loading && canLoadMore then Some(FetchArgs(false, search)) else None
  }

  /** `onSearchSubmit`: always a reset; blank text submits the empty search (the listing),
      any other text is submitted untrimmed (the search endpoint). */
  function OnSearchSubmit(search: string): (r: FetchArgs)
    ensures r.reset
    ensures (forall i :: 0 <= i < |search| ==> IsWhitespace(search[i])) ==> r.search == ""
    ensures (exists i :: 0 <= i < |search| && !IsWhitespace(search[i])) ==> r.search == search
    ensures UsesSearch(r.search) <==> exists i :: 0 <= i < |search| && !IsWhitespace(search[i])
  {
    if |Trim(search)| == 0 then FetchArgs(true, "") else FetchArgs(true, search)
  }

  /** `onRefresh`: a reset with the empty search, whatever is typed. */
  function OnRefresh(): (r: FetchArgs)
    ensures r.reset && !UsesSearch(r.search)
    ensures forall page :: RequestFor(page, r.reset, r.search) == Listing(Limit, 0)
  {
    FetchArgs(true, "")
  }

  /** The mount effect: `fetchProducts({ reset: true })`, the search defaulting to "". */
  function OnMount(): (r: FetchArgs)
    ensures r.reset && !UsesSearch(r.search)
    ensures forall page :: RequestFor(page, r.reset, r.search) == Listing(Limit, 0)
  {
    FetchArgs(true, "")
  }

  /** Refresh and the first load both restart the plain listing from offset 0. */
  lemma RefreshAndMountRestartListing(page: nat)
    ensures OnRefresh() == OnMount()
    ensures RequestFor(page, OnRefresh().reset, OnRefresh().search) == Listing(Limit, 0)
  {
  }

  /** Once a known total has been reached, reaching the end of the list fetches nothing. */
  lemma ExhaustedEndReachedIsIdle(s: CatalogState, search: string)
    requires s.total.Some? && |s.products| >= s.total.value
    ensures OnEndReached(s.loading, CanLoadMore(s), search) == None
  {
  }

  /** The 57-item run: a first load of 10 with total 57, then end-of-list appends. Each of
      the five appends is allowed and asks for the next 10 after what is loaded (skip 10 up
      to 50); after the last returns the remaining 7, all 57 are loaded and the end of the
      list fetches nothing more. */
  lemma {:induction false} FiftySevenItems(s: CatalogState, first: seq<Product>, pages: seq<seq<Product>>)
    requires |first| == 10 && |pages| == 5
    requires forall k :: 0 <= k < 4 ==> |pages[k]| == 10
    requires |pages[4]| == 7
    ensures var s1 := Settled(s, true, "", Ok(Some(first), Some(57)));
      && CanLoadMore(s1)
      && AppendRequests(s1, "", pages, Some(57))
         == [Listing(10, 10), Listing(10, 20), Listing(10, 30), Listing(10, 40), Listing(10, 50)]
      && (forall k :: 0 <= k < 5 ==>
            OnEndReached(false, CanLoadMore(AppendAll(s1, "", pages[..k], Some(57))), "") == Some(FetchArgs(false, "")))
      && |AppendAll(s1, "", pages, Some(57)).products| == 57
      && OnEndReached(false, CanLoadMore(AppendAll(s1, "", pages, Some(57))), "") == None
  {
    var s1 := Settled(s, true, "", Ok(Some(first), Some(57)));
    AppendRequestsAreConsecutive(s1, "", pages, Some(57));
    assert !UsesSearch("");
    forall k | 0 <= k < 5
      ensures |AppendAll(s1, "", pages[..k], Some(57)).products| == 10 + 10 * k
      ensures AppendAll(s1, "", pages[..k], Some(57)).total == Some(57)
    {
      AppendAllAdvances(s1, "", pages[..k], Some(57));
      ConcatLength(pages[..k], 10);
    }
    AppendAllAdvances(s1, "", pages, Some(57));
    assert pages == pages[..4] + [pages[4]];
    ConcatSplit(pages[..4], [pages[4]]);
    ConcatLength(pages[..4], 10);
    assert Concat([pages[4]]) == pages[4] + Concat([]);
  }

  /** Concatenating lists that all have length n gives n per list. */
  lemma {:induction false} ConcatLength(pages: seq<seq<Product>>, n: nat)
    requires forall k :: 0 <= k < |pages| ==> |pages[k]| == n
    ensures |Concat(pages)| == n * |pages|
    decreases |pages|
  {
    if pages != [] {
      ConcatLength(pages[1..], n);
    }
  }

  /** Concatenation of the lists of two runs is the concatenation of each run's lists. */
  lemma {:induction false} ConcatSplit(a: seq<seq<Product>>, b: seq<seq<Product>>)
    ensures Concat(a + b) == Concat(a) + Concat(b)
    decreases |a|
  {
    if a == [] {
      assert a + b == b;
    } else {
      assert (a + b)[1..] == a[1..] + b;
      ConcatSplit(a[1..], b);
    }
  }

  /** What a submitted search asks for: the search endpoint with the untrimmed text exactly
      when the text is non-blank, and otherwise the listing from offset 0. */
  lemma SubmittedRequest(search: string)
    ensures var req := RequestFor(0, true, OnSearchSubmit(search).search);
      && (req.Search? <==> exists i :: 0 <= i < |search| && !IsWhitespace(search[i]))
      && (req.Search? ==> req.term == search)
      && (req.Listing? ==> req == Listing(Limit, 0))
  {
  }

  /** The screen, holding the catalog controller it reads and the text being typed. */
  class ProductListScreen {
    const api: ApiProvider
    var search: string

    constructor (api: ApiProvider)
      ensures this.api == api && search == ""
    {
      this.api := api;
      search := "";
    }

    /** The list the screen shows. */
    function Displayed(): seq<Product>
      reads this, api
    {
      LiveFilter(api.products, search)
    }

    /** `onChangeText`: the typed text changes; the catalog is not touched and nothing is
        fetched, only the shown list follows the new text. */
    method ChangeText(text: string)
      modifies this`search
      ensures search == text
      ensures Displayed() == LiveFilter(api.products, text)
      ensures IsSubsequence(Displayed(), api.products)
    {
      search := text;
    }

    /** The first load, when the screen mounts. */
    method Mount(outcome: Outcome) returns (req: Request, toasts: seq<string>)
      requires api.Valid()
      modifies api
      ensures api.Valid()
      ensures req == Listing(Limit, 0)
      ensures api.State() == Settled(old(api.State()), true, "", outcome)
      ensures toasts == if outcome.Err? then [FailedToLoad] else []
    {
      var args := OnMount();
      req, toasts := api.Fetch(args.reset, args.search, outcome);
    }

    /** Pull-to-refresh. */
    method Refresh(outcome: Outcome) returns (req: Request, toasts: seq<string>)
      requires api.Valid()
      modifies api
      ensures api.Valid()
      ensures req == Listing(Limit, 0)
      ensures api.State() == Settled(old(api.State()), true, "", outcome)
      ensures toasts == if outcome.Err? then [FailedToLoad] else []
    {
      var args := OnRefresh();
      req, toasts := api.Fetch(args.reset, args.search, outcome);
    }

    /** Reaching the end of the list: an append with the typed text when the guard allows
        it; otherwise no request and no change. */
    method EndReached(outcome: Outcome) returns (req: Option<Request>, toasts: seq<string>)
      requires api.Valid()
      modifies api
      ensures api.Valid()
      ensures req.Some? <==> !old(api.loading) && CanLoadMore(old(api.State()))
      ensures req.Some? ==>
        && req.value == RequestFor(old(api.page), false, search)
        && api.State() == Settled(old(api.State()), false, search, outcome)
        && toasts == (if outcome.Err? then [FailedToLoad] else [])
      ensures req.None? ==> api.State() == old(api.State()) && toasts == []
    {
      var canLoadMore := api.CanLoadMoreNow();
      var args := OnEndReached(api.loading, canLoadMore, search);
      if args.Some? {
        var r;
        r, toasts := api.Fetch(args.value.reset, args.value.search, outcome);
        req := Some(r);
      } else {
        req, toasts := None, [];
      }
    }

    /** Submitting the search box: a reset, searching for the typed text unless it is blank. */
    method SearchSubmit(outcome: Outcome) returns (req: Request, toasts: seq<string>)
      requires api.Valid()
      modifies api
      ensures api.Valid()
      ensures req == RequestFor(0, true, OnSearchSubmit(search).search)
      ensures req.Search? <==> exists i :: 0 <= i < |search| && !IsWhitespace(search[i])
      ensures req.Search? ==> req.term == search
      ensures req.Listing? ==> req == Listing(Limit, 0)
      ensures api.State() == Settled(old(api.State()), true, OnSearchSubmit(search).search, outcome)
      ensures toasts == if outcome.Err? then [FailedToLoad] else []
    {
      var args := OnSearchSubmit(search);
      req, toasts := api.Fetch(args.reset, args.search, outcome);
      SubmittedRequest(search);
    }
  }
}
