/** `ListDataView`: a paginated list of model references over a
    `[start, count]` window, with the derived `hasNext` / `hasPrev` /
    `hasLast` flags, window navigation (`first`, `prev`, `next`, `last`),
    infinite (appending) mode and the post-fetch part of `search`. */
module Pagination {
  import opened JsValues
  import opened Datx
  import opened Network

  /** `limit`: the window `[start, count]`. */
  type Window = (int, int)

  // ---------------------------------------------------------------------
  // Derived flags and window arithmetic
  // ---------------------------------------------------------------------

  /** `hasNext`: the total is known and the window ends before it. */
  predicate HasNext(limit: Window, total: Option<int>) {
    total.Some? && limit.0 + limit.1 < total.value
  }

  /** `hasPrev`: the total is known and a whole window fits before this one. */
  predicate HasPrev(limit: Window, total: Option<int>) {
    total.Some? && limit.0 - limit.1 >= 0
  }

  /** `hasLast`: there is at least one item. */
  predicate HasLast(total: Option<int>) {
    total.Some? && total.value > 0
  }

  /** `first()`: back to the start, same page size. */
  function FirstWindow(limit: Window): (w: Window)
    ensures w.0 == 0 && w.1 == limit.1
  {
    (0, limit.1)
  }

  /** `prev()`: one page back, never before 0. */
  function PrevWindow(limit: Window): (w: Window)
    ensures w.1 == limit.1
    ensures w.0 >= 0
    ensures w.0 == if limit.0 - limit.1 <= 0 then 0 else limit.0 - limit.1
  {
    var start := limit.0 - limit.1;
    (if start <= 0 then 0 else start, limit.1)
  }

  /** `next()`: one page forward. */
  function NextWindow(limit: Window): (w: Window)
    ensures w.1 == limit.1 && w.0 - limit.0 == limit.1
  {
    (limit.0 + limit.1, limit.1)
  }

  /** `last()`: the window that ends exactly at the total; not clamped, so
      it starts before 0 when the total is smaller than a page. */
  function LastWindow(limit: Window, total: int): (w: Window)
    ensures w.1 == limit.1 && w.0 + w.1 == total
  {
    (total - limit.1, limit.1)
  }

  /** A step forward from a window that starts at or after 0 can always be
      undone by a step back. */
  lemma PrevUndoesNext(limit: Window, total: Option<int>)
    requires limit.0 >= 0 && total.Some?
    ensures HasPrev(NextWindow(limit), total)
    ensures PrevWindow(NextWindow(limit)) == limit
  {
  }

  /** A step back that `hasPrev` allows is undone by a step forward. */
  lemma NextUndoesPrev(limit: Window, total: Option<int>)
    requires HasPrev(limit, total)
    ensures NextWindow(PrevWindow(limit)) == limit
  {
  }

  /** `hasNext` means the next window starts before the total, and the last
      window never has a next one. */
  lemma NextStaysInside(limit: Window, total: int)
    ensures HasNext(limit, Some(total)) ==> NextWindow(limit).0 < total
    ensures !HasNext(LastWindow(limit, total), Some(total))
  {
  }

  /** With fewer items than a page, `last()` asks for a negative start. */
  lemma LastNotClamped(limit: Window, total: int)
    requires 0 <= total < limit.1
    ensures LastWindow(limit, total).0 < 0
  {
  }

  // ---------------------------------------------------------------------
  // Requests
  // ---------------------------------------------------------------------

  /** `{...o, selector: {...o.selector, limit: w}}`. */
  function WithLimit(o: RequestOptions, w: Window): (r: RequestOptions)
    ensures r.selector.Some? && r.selector.value.limit == Some(w)
    ensures o.selector.Some? ==> r.selector.value == o.selector.value.(limit := Some(w))
    ensures r.(selector := o.selector) == o
  {
    o.(selector := Some((if o.selector.Some? then o.selector.value else NoSelector).(limit := Some(w))))
  }

  /** The request of `first`, `prev`, `next` and `last`: the last request's
      options with the new window, then the caller's options spread over
      them. */
  function NavRequest(last: RequestOptions, w: Window, options: RequestOptions): RequestOptions {
    WithLimit(last, w).Spread(options)
  }

  /** The caller's options win: a caller `selector` replaces the computed one
      (window included) and so does every other property the caller gives;
      without a caller `selector` the request carries the new window and the
      last request's filters, orders and projection. */
  lemma CallerOptionsOverride(last: RequestOptions, w: Window, options: RequestOptions)
    ensures options.selector.Some? ==> NavRequest(last, w, options).selector == options.selector
    ensures options.selector.None? ==>
      && NavRequest(last, w, options).selector.Some?
      && NavRequest(last, w, options).selector.value.limit == Some(w)
      && (last.selector.Some? ==>
            NavRequest(last, w, options).selector.value.(limit := last.selector.value.limit) == last.selector.value)
    ensures options.verb.Some? ==> NavRequest(last, w, options).verb == options.verb
    ensures options.verb.None? ==> NavRequest(last, w, options).verb == last.verb
    ensures options.action.Some? ==> NavRequest(last, w, options).action == options.action
    ensures options.action.None? ==> NavRequest(last, w, options).action == last.action
    ensures options.params.Some? ==> NavRequest(last, w, options).params == options.params
    ensures options.params.None? ==> NavRequest(last, w, options).params == last.params
    ensures options.headers.Some? ==> NavRequest(last, w, options).headers == options.headers
    ensures options.headers.None? ==> NavRequest(last, w, options).headers == last.headers
    ensures options.data.Some? ==> NavRequest(last, w, options).data == options.data
    ensures options.data.None? ==> NavRequest(last, w, options).data == last.data
    ensures options == NoOptions ==> NavRequest(last, w, options) == WithLimit(last, w)
  {
  }

  // ---------------------------------------------------------------------
  // The view's state and its transitions
  // ---------------------------------------------------------------------

  /** What `collection.fetch` resolves to, as far as `search` reads it: whether
      it is a page response, its data, its `meta.count` (`None` when
      undefined) and the options the request was made with. */
  datatype Page = Page(isPage: bool, data: Option<OneOrMany<Ref>>, metaCount: Option<int>, requestOptions: Option<RequestOptions>)

  /** The settled fetch: rejected, or resolved with a response. */
  datatype Reply = Rejected | Resolved(page: Page)

  /** Why a call failed: the fetch was rejected, the response was not a page,
      `requestOptions` (or the third argument of `infinite`) was undefined
      when its `selector` was read, or `infinite` got an unsupported number
      of arguments. */
  datatype Failure = FetchRejected | NotAPage | OptionsUndefined | ArityError

  /** A call's result: `null` (no request made), an error, or the page. */
  datatype Outcome = NoCall | Thrown(failure: Failure) | Returned(page: Page)

  /** The observable state of a `ListDataView`. */
  datatype Pager = Pager(
    list: seq<Ref>,
    requestOptions: Option<RequestOptions>,
    isInfiniteMode: bool,
    isLoading: bool,
    metaCount: Option<int>,
    limit: Window)

  /** `search` once the fetch has settled. A failure leaves `isLoading` set
      and nothing else changed; a page response replaces the list (or, in
      infinite mode, is appended to it) and takes its `meta` and options. */
  function AfterSearch(p: Pager, reply: Reply): (r: (Pager, Outcome))
    ensures r.0.isLoading <==> r.1.Thrown?
    ensures !r.1.NoCall?
    ensures r.1.Thrown? ==> r.0 == p.(isLoading := true)
    ensures r.1.Thrown? <==> reply.Rejected? || !reply.page.isPage
    ensures r.1.Returned? ==>
      && r.1.page == reply.page
      && r.0.list == (if p.isInfiniteMode then p.list else []) + Items(reply.page.data)
      && r.0.metaCount == reply.page.metaCount
      && r.0.requestOptions == reply.page.requestOptions
      && r.0.limit == p.limit && r.0.isInfiniteMode == p.isInfiniteMode
  {
    match reply
    case Rejected => (p.(isLoading := true), Thrown(FetchRejected))
    case Resolved(page) =>
      if !page.isPage then (p.(isLoading := true), Thrown(NotAPage))
      else
        var list := (if p.isInfiniteMode then p.list else []) + Items(page.data);
        (p.(requestOptions := page.requestOptions, isLoading := false, list := list, metaCount := page.metaCount), Returned(page))
  }

  /** A navigation to window `w`: the window is set first, then the request
      is built from the last options (which must be defined) and searched. */
  function Navigate(p: Pager, w: Window, options: RequestOptions, fetch: RequestOptions -> Reply): (r: (Pager, Outcome))
    ensures r.0.limit == w && r.0.isInfiniteMode == p.isInfiniteMode
    ensures p.requestOptions.None? ==> r == (p.(limit := w), Thrown(OptionsUndefined))
    ensures p.requestOptions.Some? ==>
      r == AfterSearch(p.(limit := w), fetch(NavRequest(p.requestOptions.value, w, options)))
  {
    var p' := p.(limit := w);
    if p.requestOptions.None? then (p', Thrown(OptionsUndefined))
    else AfterSearch(p', fetch(NavRequest(p.requestOptions.value, w, options)))
  }

  /** `next(options)`: `null` and no change without a next page. */
  function NextSpec(p: Pager, options: RequestOptions, fetch: RequestOptions -> Reply): (r: (Pager, Outcome))
    ensures !HasNext(p.limit, p.metaCount) <==> r.1.NoCall?
    ensures r.1.NoCall? ==> r.0 == p
    ensures HasNext(p.limit, p.metaCount) ==> r == Navigate(p, NextWindow(p.limit), options, fetch)
    ensures r.0.limit.1 == p.limit.1
  {
    if !HasNext(p.limit, p.metaCount) then (p, NoCall)
    else Navigate(p, NextWindow(p.limit), options, fetch)
  }

  /** `prev(options)`: `null` and no change without a previous page. */
  function PrevSpec(p: Pager, options: RequestOptions, fetch: RequestOptions -> Reply): (r: (Pager, Outcome))
    ensures !HasPrev(p.limit, p.metaCount) <==> r.1.NoCall?
    ensures r.1.NoCall? ==> r.0 == p
    ensures HasPrev(p.limit, p.metaCount) ==> r == Navigate(p, PrevWindow(p.limit), options, fetch)
    ensures r.0.limit.1 == p.limit.1
    ensures !r.1.NoCall? ==> r.0.limit.0 >= 0
  {
    if !HasPrev(p.limit, p.metaCount) then (p, NoCall)
    else Navigate(p, PrevWindow(p.limit), options, fetch)
  }

  /** `first(options)`. */
  function FirstSpec(p: Pager, options: RequestOptions, fetch: RequestOptions -> Reply): (r: (Pager, Outcome))
    ensures r.0.limit == (0, p.limit.1) && !r.1.NoCall?
  {
    Navigate(p, FirstWindow(p.limit), options, fetch)
  }

  /** `last(options)`, with the total known. */
  function LastSpec(p: Pager, options: RequestOptions, fetch: RequestOptions -> Reply): (r: (Pager, Outcome))
    requires p.metaCount.Some?
    ensures r.0.limit == (p.metaCount.value - p.limit.1, p.limit.1) && !r.1.NoCall?
  {
    Navigate(p, LastWindow(p.limit, p.metaCount.value), options, fetch)
  }

  /** The arguments `infinite` can be called with. */
  datatype InfiniteArgs =
    | OneArg(options: RequestOptions)
    | TwoArgs(start: int, count: int)
    | ThreeArgs(start: int, count: int, rest: Option<RequestOptions>)
    /** No arguments, or more than three. */
    | OtherArity

  /** `infinite(...args)`: infinite mode is switched on whatever happens;
      the window is not changed. */
  function InfiniteSpec(p: Pager, args: InfiniteArgs, fetch: RequestOptions -> Reply): (r: (Pager, Outcome))
    ensures r.0.isInfiniteMode && r.0.limit == p.limit
    ensures args.OtherArity? ==> r == (p.(isInfiniteMode := true), Thrown(ArityError))
    ensures args.ThreeArgs? && args.rest.None? ==> r == (p.(isInfiniteMode := true), Thrown(OptionsUndefined))
    ensures args.TwoArgs? ==> r == AfterSearch(p.(isInfiniteMode := true), fetch(WithLimit(NoOptions, (args.start, args.count))))
    ensures args.ThreeArgs? && args.rest.Some? ==>
      r == AfterSearch(p.(isInfiniteMode := true), fetch(WithLimit(args.rest.value, (args.start, args.count))))
    ensures args.OneArg? ==> r == AfterSearch(p.(isInfiniteMode := true), fetch(args.options))
  {
    var p' := p.(isInfiniteMode := true);
    match args
    case OneArg(o) => AfterSearch(p', fetch(o))
    case TwoArgs(s, c) => AfterSearch(p', fetch(WithLimit(NoOptions, (s, c))))
    case ThreeArgs(s, c, o) =>
      if o.None? then (p', Thrown(OptionsUndefined))
      else AfterSearch(p', fetch(WithLimit(o.value, (s, c))))
    case OtherArity => (p', Thrown(ArityError))
  }

  /** Outside infinite mode the list is the last page; in infinite mode the
      pages accumulate in order. */
  lemma TwoSearches(p: Pager, a: Page, b: Page)
    requires a.isPage && b.isPage
    ensures var r := AfterSearch(AfterSearch(p, Resolved(a)).0, Resolved(b)).0;
      r.list == if p.isInfiniteMode then p.list + Items(a.data) + Items(b.data) else Items(b.data)
  {
  }

  /** After `infinite`, navigation appends instead of replacing. */
  lemma InfiniteThenNext(p: Pager, args: InfiniteArgs, options: RequestOptions, fetch: RequestOptions -> Reply)
    requires InfiniteSpec(p, args, fetch).1.Returned?
    ensures var q := InfiniteSpec(p, args, fetch).0;
      var r := NextSpec(q, options, fetch);
      r.1.Returned? ==> r.0.list == q.list + Items(r.1.page.data)
  {
  }

  /** A fetch that answers every request with a page of `total` items and
      remembers the request. */
  function PagesOf(total: int): RequestOptions -> Reply {
    (o: RequestOptions) => Resolved(Page(true, None, Some(total), Some(o)))
  }

  /** 25 items in pages of 10: `next` visits [10, 10] and [20, 10] and then
      answers `null`; `last` goes to [15, 10]; `prev` from [10, 10] goes
      back to [0, 10]. */
  lemma TwentyFiveItems(p: Pager, options: RequestOptions)
    requires p.limit == (0, 10) && p.metaCount == Some(25) && p.requestOptions.Some?
    ensures var fetch := PagesOf(25);
      var s1 := NextSpec(p, options, fetch);
      var s2 := NextSpec(s1.0, options, fetch);
      var s3 := NextSpec(s2.0, options, fetch);
      && s1.0.limit == (10, 10) && s1.1.Returned?
      && s2.0.limit == (20, 10) && s2.1.Returned?
      && s3.1.NoCall? && s3.0 == s2.0
      && LastSpec(s2.0, options, fetch).0.limit == (15, 10)
      && PrevSpec(s1.0, options, fetch).0.limit == (0, 10)
  {
    var fetch := PagesOf(25);
    var s1 := NextSpec(p, options, fetch);
    assert s1.0.metaCount == Some(25) && s1.0.requestOptions.Some?;
    var s2 := NextSpec(s1.0, options, fetch);
    assert s2.0.metaCount == Some(25);
  }

  /** A `ListDataView` over a model type. */
  class ListDataView {
    const modelType: string
    var list: seq<Ref>
    var requestOptions: Option<RequestOptions>
    var isInfiniteMode: bool
    var isLoading: bool
    /** `meta.count`; `None` when undefined. */
    var metaCount: Option<int>
    var limit: Window

    function State(): Pager
      reads this
    {
      Pager(list, requestOptions, isInfiniteMode, isLoading, metaCount, limit)
    }

    /** Starts with the given models, empty options, `meta = {count: 0}` and
        the window [0, 10]. */
    constructor (modelType: string, models: seq<Ref>)
      ensures this.modelType == modelType
      ensures State() == Pager(models, Some(NoOptions), false, false, Some(0), (0, 10))
      ensures !HasNext(limit, metaCount) && !HasPrev(limit, metaCount) && !HasLast(metaCount)
    {
      this.modelType := modelType;
      list := models;
      requestOptions := Some(NoOptions);
      isInfiniteMode := false;
      isLoading := false;
      metaCount := Some(0);
      limit := (0, 10);
    }

    /** `search(options)`, given what `collection.fetch` does with a request. */
    method Search(options: RequestOptions, fetch: RequestOptions -> Reply) returns (out: Outcome)
      modifies this
      ensures (State(), out) == AfterSearch(old(State()), fetch(options))
    {
      isLoading := true;
      var reply := fetch(options);
      if reply.Rejected? {
        out := Thrown(FetchRejected);
        return;
      }
      var response := reply.page;
      if !response.isPage {
        out := Thrown(NotAPage);
        return;
      }
      requestOptions := response.requestOptions;
      isLoading := false;
      if !isInfiniteMode {
        list := [];
      }
      list := list + Items(response.data);
      metaCount := response.metaCount;
      out := Returned(response);
    }

    /** The shared tail of the four navigation methods. */
    method GoTo(start: int, count: int, options: RequestOptions, fetch: RequestOptions -> Reply) returns (out: Outcome)
      modifies this
      ensures (State(), out) == Navigate(old(State()), (start, count), options, fetch)
    {
      limit := (start, count);
      if requestOptions.None? {
        out := Thrown(OptionsUndefined);
        return;
      }
      var ro := requestOptions.value;
      out := Search(WithLimit(ro, (start, count)).Spread(options), fetch);
    }

    method First(options: RequestOptions, fetch: RequestOptions -> Reply) returns (out: Outcome)
      modifies this
      ensures (State(), out) == FirstSpec(old(State()), options, fetch)
    {
      var start := 0;
      var count := limit.1;
      out := GoTo(start, count, options, fetch);
    }

    method Prev(options: RequestOptions, fetch: RequestOptions -> Reply) returns (out: Outcome)
      modifies this
      ensures (State(), out) == PrevSpec(old(State()), options, fetch)
    {
      if !HasPrev(limit, metaCount) {
        return NoCall;
      }
      var start := limit.0;
      var count := limit.1;
      start := start - count;
      start := if start <= 0 then 0 else start;
      out := GoTo(start, count, options, fetch);
    }

    method Next(options: RequestOptions, fetch: RequestOptions -> Reply) returns (out: Outcome)
      modifies this
      ensures (State(), out) == NextSpec(old(State()), options, fetch)
    {
      if !HasNext(limit, metaCount) {
        return NoCall;
      }
      var start := limit.0;
      var count := limit.1;
      start := start + count;
      out := GoTo(start, count, options, fetch);
    }

    method Last(options: RequestOptions, fetch: RequestOptions -> Reply) returns (out: Outcome)
      requires metaCount.Some?
      modifies this
      ensures (State(), out) == LastSpec(old(State()), options, fetch)
    {
      var count := limit.1;
      var start := metaCount.value - count;
      out := GoTo(start, count, options, fetch);
    }

    method Infinite(args: InfiniteArgs, fetch: RequestOptions -> Reply) returns (out: Outcome)
      modifies this
      ensures (State(), out) == InfiniteSpec(old(State()), args, fetch)
    {
      isInfiniteMode := true;
      match args
      case OneArg(o) =>
        out := Search(o, fetch);
      case TwoArgs(s, c) =>
        out := Search(NoOptions.(selector := Some(NoSelector.(limit := Some((s, c))))), fetch);
      case ThreeArgs(s, c, o) =>
        if o.None? {
          out := Thrown(OptionsUndefined);
        } else {
          out := Search(WithLimit(o.value, (s, c)), fetch);
        }
      case OtherArity =>
        out := Thrown(ArityError);
    }
  }
}
