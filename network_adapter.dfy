/** The request compiler of `NetworkAdapter` (endpoint, ids, action and
    selector to URL, verb, headers, body and cache key) and the
    classification of a transport outcome into a raw response. */
module Network {
  import opened JsValues

  // ---------------------------------------------------------------------
  // Selector and request options
  // ---------------------------------------------------------------------

  /** `filters`: one filter expression or a list of them. */
  datatype Filters = OneFilter(filter: string) | FilterList(filters: seq<string>)

  /** An entry of a `select` list: a field name, or a nested list whose head
      names a sub-resource and whose tail is that sub-resource's projection. */
  datatype SelectItem = Field(name: string) | Nested(items: seq<SelectItem>)

  /** `select`: a ready-made projection string or a list of entries. */
  datatype Select = SelectText(text: string) | SelectList(entries: seq<SelectItem>)

  datatype Selector = Selector(
    filters: Option<Filters>,
    orders: Option<seq<string>>,
    select: Option<Select>,
    limit: Option<(int, int)>)

  const NoSelector := Selector(None, None, None, None)

  datatype Direction = ASC | DESC
  datatype OrderParam = OrderParam(value: string, order: Direction)
  datatype LimitParam = LimitParam(start: int, count: int)

  /** The body fields a selector compiles to (`IQueryParams`). */
  datatype QueryParams = QueryParams(
    filterBy: Option<string>,
    orderBy: Option<seq<OrderParam>>,
    select: Option<string>,
    limit: Option<LimitParam>)

  /** `ids`: one identifier or many; numeric ids are given by their text. */
  datatype Ids = OneId(id: string) | ManyIds(ids: seq<string>)

  /** `action`: a trailing path segment or a function that rewrites the URL. */
  datatype Action = PathAction(path: string) | RewriteAction(rewrite: string -> string)

  /** `IRequestOptions`; a property that is not given is `None`. */
  datatype RequestOptions = RequestOptions(
    action: Option<Action>,
    params: Option<seq<(string, string)>>,
    headers: Option<seq<(string, string)>>,
    verb: Option<string>,
    data: Option<seq<(string, Value)>>,
    selector: Option<Selector>)
  {
    /** `{...this, ...other}`: every property `other` has replaces this one's. */
    function Spread(other: RequestOptions): (r: RequestOptions)
      ensures other.selector.Some? ==> r.selector == other.selector
      ensures other.selector.None? ==> r.selector == selector
      ensures other.verb.Some? ==> r.verb == other.verb
      ensures other.verb.None? ==> r.verb == verb
      ensures other.action.Some? ==> r.action == other.action
      ensures other.action.None? ==> r.action == action
      ensures other.params.Some? ==> r.params == other.params
      ensures other.params.None? ==> r.params == params
      ensures other.headers.Some? ==> r.headers == other.headers
      ensures other.headers.None? ==> r.headers == headers
      ensures other.data.Some? ==> r.data == other.data
      ensures other.data.None? ==> r.data == data
    {
      RequestOptions(
        if other.action.Some? then other.action else action,
        if other.params.Some? then other.params else params,
        if other.headers.Some? then other.headers else headers,
        if other.verb.Some? then other.verb else verb,
        if other.data.Some? then other.data else data,
        if other.selector.Some? then other.selector else selector)
    }
  }

  const NoOptions := RequestOptions(None, None, None, None, None, None)

  /** Helpers whose code is not part of this model: `URL_REGEX.test`,
      `JSON.stringify` of an object and `isEmptyObject`. */
  datatype Helpers = Helpers(
    isAbsolute: string -> bool,
    stringify: seq<(string, Value)> -> string,
    isEmptyObject: Option<seq<(string, Value)>> -> bool)

  /** A configured adapter: the base URL, the default headers and params
      of `defaultFetchOptions`, and its other properties (`defaultOthers`). */
  datatype Adapter = Adapter(
    baseUrl: string,
    defaultHeaders: seq<(string, string)>,
    defaultParams: Option<seq<(string, string)>>,
    defaultOthers: seq<(string, Value)>,
    helpers: Helpers)

  function OrEmpty<V>(o: Option<seq<(string, V)>>): seq<(string, V)> {
    if o.Some? then o.value else []
  }

  // ---------------------------------------------------------------------
  // Query string
  // ---------------------------------------------------------------------

  /** `appendParams`: an absent or empty query string leaves the URL as it
      is; otherwise it is appended after `?`, or after `&` when the URL
      already has a `?`. */
  function AppendParams(url: string, qs: Option<string>): (r: string)
    ensures qs.None? || qs.value == "" ==> r == url
    ensures qs.Some? && qs.value != "" ==>
      r == url + [if '?' in url then '&' else '?'] + qs.value
  {
    if qs.Some? && |qs.value| > 0 then
      var separator := if '?' in url then '&' else '?';
      url + [separator] + qs.value
    else url
  }

  /** Appending a second query string uses `&`, since the first one put a `?`
      in the URL. */
  lemma AppendParamsTwice(url: string, qs1: string, qs2: string)
    requires '?' !in url && qs1 != "" && qs2 != ""
    ensures AppendParams(AppendParams(url, Some(qs1)), Some(qs2)) == url + "?" + qs1 + "&" + qs2
  {
    var u1 := AppendParams(url, Some(qs1));
    assert u1[|url|] == '?';
    assert '?' in u1;
  }

  /** The `key=value` text of each property, in order. */
  function QueryPairs(ps: seq<(string, string)>): (r: seq<string>)
    ensures |r| == |ps|
    ensures forall i :: 0 <= i < |ps| ==> r[i] == ps[i].0 + "=" + ps[i].1
  {
    seq(|ps|, i requires 0 <= i < |ps| => ps[i].0 + "=" + ps[i].1)
  }

  /** `prepareQS`: `key=value` pairs joined by `&`, in property order. */
  function PrepareQS(params: Option<seq<(string, string)>>): (r: Option<string>)
    ensures params.None? <==> r.None?
    ensures params == Some([]) ==> r == Some("")
    ensures params.Some? && |params.value| == 1 ==>
      r == Some(params.value[0].0 + "=" + params.value[0].1)
  {
    match params
    case None => None
    case Some(ps) => Some(Join(QueryPairs(ps), "&"))
  }

  /** One more parameter adds `&key=value` at the end of the query string
      (just `key=value` for the first one). */
  lemma PrepareQSGrows(ps: seq<(string, string)>, k: string, v: string)
    ensures PrepareQS(Some(ps + [(k, v)])).value ==
      if ps == [] then k + "=" + v else PrepareQS(Some(ps)).value + "&" + k + "=" + v
  {
    assert QueryPairs(ps + [(k, v)]) == QueryPairs(ps) + [k + "=" + v];
    if ps != [] {
      JoinSnoc(QueryPairs(ps), k + "=" + v, "&");
      assert PrepareQS(Some(ps)).value + "&" + (k + "=" + v) == PrepareQS(Some(ps)).value + "&" + k + "=" + v;
    }
  }

  // ---------------------------------------------------------------------
  // Selector compilation
  // ---------------------------------------------------------------------

  /** `prepareFilters`: a list is joined with `&&`, a single filter is kept;
      an absent or empty filter gives `undefined`. */
  function PrepareFilters(filters: Option<Filters>): (r: Option<string>)
    ensures r.None? <==> filters.None? || filters == Some(OneFilter(""))
    ensures filters.Some? && filters.value.OneFilter? && r.Some? ==> r.value == filters.value.filter
    ensures filters.Some? && filters.value.FilterList? ==> r == Some(Join(filters.value.filters, "&&"))
  {
    match filters
    case None => None
    case Some(OneFilter(f)) => if f == "" then None else Some(f)
    case Some(FilterList(fs)) => Some(Join(fs, "&&"))
  }

  /** A list that grows by one filter gains `&&` and that filter at the end. */
  lemma FilterListGrows(fs: seq<string>, f: string)
    requires fs != []
    ensures PrepareFilters(Some(FilterList(fs + [f]))) == Some(PrepareFilters(Some(FilterList(fs))).value + "&&" + f)
  {
    JoinSnoc(fs, f, "&&");
  }

  predicate EndsWithBang(key: string) {
    key != [] && key[|key| - 1] == '!'
  }

  /** The order entry of one key of `orders`. */
  function OrderOf(key: string): (p: OrderParam)
    ensures p.order == DESC <==> EndsWithBang(key)
    ensures OrderKey(p) == key
  {
    if EndsWithBang(key) then OrderParam(key[..|key| - 1], DESC) else OrderParam(key, ASC)
  }

  /** The key an order entry was compiled from: its value, with `!` for DESC. */
  function OrderKey(p: OrderParam): string {
    if p.order == DESC then p.value + "!" else p.value
  }

  /** `prepareOrders`: one entry per key, in order; DESC without the `!` for a
      key ending in `!`, ASC with the key as it is otherwise. */
  function PrepareOrders(orders: Option<seq<string>>): (r: Option<seq<OrderParam>>)
    ensures r.None? <==> orders.None?
    ensures r.Some? ==> |r.value| == |orders.value|
    ensures r.Some? ==> forall i :: 0 <= i < |r.value| ==>
      (r.value[i].order == DESC <==> EndsWithBang(orders.value[i])) &&
      OrderKey(r.value[i]) == orders.value[i]
  {
    match orders
    case None => None
    case Some(keys) => Some(seq(|keys|, i requires 0 <= i < |keys| => OrderOf(keys[i])))
  }

  /** Compiling orders loses nothing: different key lists give different
      order entries. */
  lemma PrepareOrdersInjective(o1: Option<seq<string>>, o2: Option<seq<string>>)
    requires PrepareOrders(o1) == PrepareOrders(o2)
    ensures o1 == o2
  {
    if o1.Some? {
      var r := PrepareOrders(o1).value;
      assert o2.Some?;
      assert |o1.value| == |r| == |o2.value|;
      forall i | 0 <= i < |r| ensures o1.value[i] == o2.value[i] {
        assert OrderKey(r[i]) == o1.value[i] && OrderKey(r[i]) == o2.value[i];
      }
      assert o1.value == o2.value;
    }
  }

  /** `prepareLimit`: `[start, count]` becomes `{start, count}`. */
  function PrepareLimit(limit: Option<(int, int)>): (r: Option<LimitParam>)
    ensures r.None? <==> limit.None?
    ensures r.Some? ==> r.value.start == limit.value.0 && r.value.count == limit.value.1
  {
    match limit
    case None => None
    case Some((start, count)) => Some(LimitParam(start, count))
  }

  /** How one select field is printed: `...` in backticks, any other name as it is. */
  function FieldText(name: string): string {
    if name == "..." then "`...`" else name
  }

  /** `String(k)` of a select entry; a nested list prints as its entries
      joined by `,` (`Array.prototype.toString`). */
  function ItemText(k: SelectItem): string
    decreases k
  {
    match k
    case Field(name) => name
    case Nested(items) => ListText(items, 0)
  }

  function ListText(xs: seq<SelectItem>, i: nat): string
    requires i <= |xs|
    decreases xs, |xs| - i
  {
    if i == |xs| then ""
    else if i == |xs| - 1 then ItemText(xs[i])
    else ItemText(xs[i]) + "," + ListText(xs, i + 1)
  }

  /** The `map` callback of `prepareSelect` on one entry: the printed entry,
      and the entry as `k.shift()` leaves it (a nested list loses its head,
      and its tail is rendered, and so mutated, in turn). */
  function RenderItem(k: SelectItem): (r: (string, SelectItem))
    ensures k.Field? ==> r == (FieldText(k.name), k)
    ensures k.Nested? ==> r.1.Nested? && |r.1.items| == if k.items == [] then 0 else |k.items| - 1
    decreases k
  {
    match k
    case Field(name) => (FieldText(name), k)
    case Nested(items) =>
      var head := if items == [] then "undefined" else ItemText(items[0]);
      var rest := if items == [] then ([], []) else RenderFrom(items, 1);
      (head + "(" + Join(rest.0, ",") + ")", Nested(rest.1))
  }

  /** `prepareSelect`'s `map` over `xs[i..]`: the printed entries and the
      entries as the call leaves them. Fields print as `FieldText` and are
      not changed; nested lists stay nested lists. */
  function RenderFrom(xs: seq<SelectItem>, i: nat): (r: (seq<string>, seq<SelectItem>))
    requires i <= |xs|
    ensures |r.0| == |xs| - i && |r.1| == |xs| - i
    ensures forall j :: i <= j < |xs| && xs[j].Field? ==>
      r.0[j - i] == FieldText(xs[j].name) && r.1[j - i] == xs[j]
    ensures forall j :: i <= j < |xs| && xs[j].Nested? ==> r.1[j - i].Nested?
    decreases xs, |xs| - i
  {
    if i == |xs| then ([], [])
    else
      var first := RenderItem(xs[i]);
      var rest := RenderFrom(xs, i + 1);
      ([first.0] + rest.0, [first.1] + rest.1)
  }

  /** Each entry from `i` on is rendered by itself: position `j - i` of the
      result holds `RenderItem` of `xs[j]`. */
  lemma {:induction false} RenderFromItems(xs: seq<SelectItem>, i: nat)
    requires i <= |xs|
    ensures forall j :: i <= j < |xs| ==>
      RenderFrom(xs, i).0[j - i] == RenderItem(xs[j]).0 && RenderFrom(xs, i).1[j - i] == RenderItem(xs[j]).1
    decreases |xs| - i
  {
    if i < |xs| {
      RenderFromItems(xs, i + 1);
    }
  }

  /** `prepareSelect`: the projection string (`undefined` for an absent or
      empty select) and the select as the call leaves it. A list prints as
      its entries, each rendered by `RenderItem`, joined by `,`, and is left
      as the entries `RenderItem` leaves. */
  function PrepareSelect(select: Option<Select>): (r: (Option<string>, Option<Select>))
    ensures select.None? ==> r == (None, None)
    ensures select.Some? && select.value.SelectText? ==>
      r.1 == select && r.0 == (if select.value.text == "" then None else Some(select.value.text))
    ensures select.Some? && select.value.SelectList? ==>
      var xs := select.value.entries;
      && r.0 == Some(Join(seq(|xs|, j requires 0 <= j < |xs| => RenderItem(xs[j]).0), ","))
      && r.1 == Some(SelectList(seq(|xs|, j requires 0 <= j < |xs| => RenderItem(xs[j]).1)))
  {
    match select
    case None => (None, None)
    case Some(SelectText(t)) => (if t == "" then None else Some(t), select)
    case Some(SelectList(xs)) =>
      var rendered := RenderFrom(xs, 0);
      RenderFromItems(xs, 0);
      assert rendered.0 == seq(|xs|, j requires 0 <= j < |xs| => RenderItem(xs[j]).0);
      assert rendered.1 == seq(|xs|, j requires 0 <= j < |xs| => RenderItem(xs[j]).1);
      (Some(Join(rendered.0, ",")), Some(SelectList(rendered.1)))
  }

  /** `RenderFrom` only looks at the entries from `i` on. */
  lemma {:induction false} RenderFromTail(xs: seq<SelectItem>, i: nat)
    requires 1 <= i <= |xs|
    ensures RenderFrom(xs, i) == RenderFrom(xs[1..], i - 1)
    decreases |xs| - i
  {
    if i < |xs| {
      RenderFromTail(xs, i + 1);
      assert xs[1..][i - 1] == xs[i];
    }
  }

  /** A list of plain fields is printed as its fields joined by `,`, with
      `...` in backticks, and is left unchanged. */
  lemma FlatSelect(xs: seq<SelectItem>)
    requires forall j :: 0 <= j < |xs| ==> xs[j].Field?
    ensures PrepareSelect(Some(SelectList(xs))).0 ==
      Some(Join(seq(|xs|, j requires 0 <= j < |xs| => FieldText(xs[j].name)), ","))
    ensures PrepareSelect(Some(SelectList(xs))).1 == Some(SelectList(xs))
  {
    var r := RenderFrom(xs, 0);
    assert r.0 == seq(|xs|, j requires 0 <= j < |xs| => FieldText(xs[j].name));
    assert r.1 == xs;
  }

  /** A nested entry `[h, ...rest]` prints as `h(` + the projection of `rest` + `)`. */
  lemma NestedSelect(h: string, rest: seq<SelectItem>)
    ensures RenderItem(Nested([Field(h)] + rest)).0 ==
      h + "(" + PrepareSelect(Some(SelectList(rest))).0.value + ")"
    ensures RenderItem(Nested([Field(h)] + rest)).1 ==
      Nested(PrepareSelect(Some(SelectList(rest))).1.value.entries)
  {
    var items := [Field(h)] + rest;
    RenderFromTail(items, 1);
    assert items[1..] == rest;
  }

  /** `k.shift()` changes the caller's selector: compiling the same select a
      second time prints something else. */
  lemma SelectCompiledTwiceDiffers()
    ensures
      var sel := SelectList([Field("a"), Nested([Field("b"), Field("c")])]);
      var first := PrepareSelect(Some(sel));
      first.0 == Some("a,b(c)") &&
      first.1 == Some(SelectList([Field("a"), Nested([Field("c")])])) &&
      PrepareSelect(first.1).0 == Some("a,c()")
  {
    var inner := [Field("b"), Field("c")];
    var r1 := RenderFrom(inner, 1);
    assert r1.0 == ["c"] && r1.1 == [Field("c")];
    var n1 := RenderItem(Nested(inner));
    assert n1.0 == "b(c)" && n1.1 == Nested([Field("c")]);
    var xs := [Field("a"), Nested(inner)];
    var r2 := RenderFrom(xs, 0);
    assert RenderFrom(xs, 1).0 == ["b(c)"] && RenderFrom(xs, 1).1 == [Nested([Field("c")])];
    assert r2.0 == ["a", "b(c)"] && r2.1 == [Field("a"), Nested([Field("c")])];
    assert Join(r2.0, ",") == "a,b(c)";
    var inner2 := [Field("c")];
    var n2 := RenderItem(Nested(inner2));
    assert RenderFrom(inner2, 1).0 == [] && RenderFrom(inner2, 1).1 == [];
    assert n2.0 == "c()" && n2.1 == Nested([]);
    var ys := [Field("a"), Nested(inner2)];
    assert RenderFrom(ys, 1).0 == ["c()"];
    assert RenderFrom(ys, 0).0 == ["a", "c()"];
    assert Join(["a", "c()"], ",") == "a,c()";
  }

  /** `prepareSelector`: the four query fields, and the selector as the call
      leaves it (only `select` can change). */
  function PrepareSelector(sel: Selector): (r: (QueryParams, Selector))
    ensures r.0.filterBy == PrepareFilters(sel.filters)
    ensures r.0.orderBy == PrepareOrders(sel.orders)
    ensures r.0.limit == PrepareLimit(sel.limit)
    ensures r.0.select == PrepareSelect(sel.select).0
    ensures r.1 == sel.(select := PrepareSelect(sel.select).1)
  {
    var select := PrepareSelect(sel.select);
    (QueryParams(PrepareFilters(sel.filters), PrepareOrders(sel.orders), select.0, PrepareLimit(sel.limit)),
     sel.(select := select.1))
  }

  function OptText(s: Option<string>): Value {
    if s.Some? then Str(s.value) else Undefined
  }

  function OrderValue(p: OrderParam): Value {
    Obj([("value", Str(p.value)), ("order", Str(if p.order == DESC then "DESC" else "ASC"))])
  }

  function OrdersValue(orders: Option<seq<OrderParam>>): Value {
    if orders.Some? then Arr(seq(|orders.value|, i requires 0 <= i < |orders.value| => OrderValue(orders.value[i])))
    else Undefined
  }

  function LimitValue(limit: Option<LimitParam>): (v: Value)
    ensures limit.None? <==> v == Undefined
  {
    if limit.Some? then Obj([("start", Num(limit.value.start)), ("count", Num(limit.value.count))]) else Undefined
  }

  /** The object literal of `prepareSelector` as a body object; absent fields
      are present with the value `undefined`. */
  function QueryObject(q: QueryParams): (o: seq<(string, Value)>)
    ensures UniqueKeys(o)
    ensures Lookup(o, "filterBy") == Some(OptText(q.filterBy))
    ensures Lookup(o, "orderBy") == Some(OrdersValue(q.orderBy))
    ensures Lookup(o, "select") == Some(OptText(q.select))
    ensures Lookup(o, "limit") == Some(LimitValue(q.limit))
  {
    var o := [("filterBy", OptText(q.filterBy)), ("orderBy", OrdersValue(q.orderBy)),
              ("select", OptText(q.select)), ("limit", LimitValue(q.limit))];
    assert |o[0].0| == 8 && |o[1].0| == 7 && |o[2].0| == 6 && |o[3].0| == 5;
    assert o[1..][0].0 == "orderBy" && o[1..][1..][0].0 == "select" && o[1..][1..][1..][0].0 == "limit";
    o
  }

  // ---------------------------------------------------------------------
  // URL
  // ---------------------------------------------------------------------

  /** No three `/` in a row anywhere in `s`. */
  predicate NoTripleSlash(s: string) {
    forall i :: 0 <= i < |s| - 2 ==> !TripleAt(s, i)
  }

  /** Three `/` start at position `i` of `s`. */
  predicate TripleAt(s: string, i: int)
    requires 0 <= i < |s| - 2
  {
    s[i] == '/' && s[i + 1] == '/' && s[i + 2] == '/'
  }

  /** The number of `/` that `s` starts with. */
  function SlashRun(s: string): (n: nat)
    ensures n <= |s|
    ensures forall i :: 0 <= i < n ==> s[i] == '/'
    ensures n < |s| ==> s[n] != '/'
  {
    if s != [] && s[0] == '/' then 1 + SlashRun(s[1..]) else 0
  }

  /** A run of at most two `/`, or one character that is not `/`, followed by
      text with no three `/` in a row that does not start a longer run. */
  lemma ShortRunThen(x: string, y: string)
    requires |x| <= 2 && NoTripleSlash(y)
    requires y == [] || y[0] != '/' || (|x| == 1 && x[0] != '/')
    ensures NoTripleSlash(x + y)
  {
    var s := x + y;
    forall i | 0 <= i < |s| - 2 ensures !TripleAt(s, i) {
      if i >= |x| {
        assert !TripleAt(y, i - |x|);
        assert s[i] == y[i - |x|] && s[i + 1] == y[i - |x| + 1] && s[i + 2] == y[i - |x| + 2];
      } else if |x| == 1 && x[0] != '/' {
        assert s[0] == x[0];
      } else {
        assert s[|x|] == y[0];
      }
    }
  }

  /** How many characters one step of the replacement consumes: a whole run
      of `/`, or one other character. */
  function StepLength(s: string): (k: nat)
    requires s != []
    ensures 1 <= k <= |s|
  {
    var n := SlashRun(s);
    if n > 0 then n else 1
  }

  /** What one step of the replacement produces: one `/` for a run of three
      or more, the consumed characters otherwise. */
  function StepText(s: string): (t: string)
    requires s != []
    ensures 1 <= |t| <= 2
    ensures t[0] == s[0]
    ensures SlashRun(s) == 0 ==> t == [s[0]] && s[0] != '/'
  {
    if SlashRun(s) >= 3 then "/" else s[..StepLength(s)]
  }

  /** `s.replace(/[/]{3,}/g, '/')`: every run of three or more `/` becomes
      one `/`; shorter runs and everything else are kept. */
  function Collapse(s: string): (r: string)
    ensures NoTripleSlash(r)
    ensures s == [] <==> r == []
    ensures s != [] ==> r[0] == s[0]
    decreases |s|
  {
    if s == [] then []
    else
      var k := StepLength(s);
      var rest := Collapse(s[k..]);
      ShortRunThen(StepText(s), rest);
      StepText(s) + rest
  }

  /** `SlashRun` of a concatenation stays within the first part when the
      first part does not end in a run that the second part continues. */
  lemma SlashRunAppend(a: string, b: string)
    requires SlashRun(a) < |a| || b == [] || b[0] != '/'
    ensures SlashRun(a + b) == SlashRun(a)
  {
    var m := SlashRun(a);
    if m < |a| {
      assert (a + b)[m] == a[m];
    } else if b != [] {
      assert (a + b)[m] == b[0];
    }
  }

  /** Concatenating `a` and `b` does not join two runs of `/`. */
  predicate Splittable(a: string, b: string) {
    a == [] || b == [] || a[|a| - 1] != '/' || b[0] != '/'
  }

  /** One step of the replacement on a concatenation only reads the first part. */
  lemma StepAppend(a: string, b: string)
    requires a != [] && Splittable(a, b)
    ensures StepLength(a + b) == StepLength(a)
    ensures StepText(a + b) == StepText(a)
  {
    if SlashRun(a) == |a| {
      assert a[|a| - 1] == '/';
    }
    SlashRunAppend(a, b);
    var k := StepLength(a);
    assert (a + b)[..k] == a[..k];
  }

  /** What is left after `k` characters of `a` is the rest of `a` followed by `b`. */
  lemma TailAppend(a: string, b: string, k: nat)
    requires k <= |a| && Splittable(a, b)
    ensures (a + b)[k..] == a[k..] + b
    ensures Splittable(a[k..], b)
  {
    if a[k..] != [] {
      assert a[k..][|a[k..]| - 1] == a[|a| - 1];
    }
  }

  lemma Associate(x: string, y: string, z: string)
    ensures x + (y + z) == (x + y) + z
  {
  }

  /** Collapsing works piecewise across a boundary that does not split a run
      of `/`. */
  lemma {:induction false} CollapseAppend(a: string, b: string)
    requires Splittable(a, b)
    ensures Collapse(a + b) == Collapse(a) + Collapse(b)
    decreases |a|
  {
    if a == [] {
      assert a + b == b;
    } else {
      StepAppend(a, b);
      var k := StepLength(a);
      TailAppend(a, b, k);
      CollapseAppend(a[k..], b);
      Associate(StepText(a), Collapse(a[k..]), Collapse(b));
    }
  }

  /** A suffix of a string without a run of three slashes has none either. */
  lemma NoTripleSuffix(s: string, k: nat)
    requires NoTripleSlash(s) && k <= |s|
    ensures NoTripleSlash(s[k..])
  {
    forall i | 0 <= i < |s[k..]| - 2
      ensures !TripleAt(s[k..], i)
    {
      assert !TripleAt(s, k + i);
      assert s[k..][i] == s[k + i] && s[k..][i + 1] == s[k + i + 1] && s[k..][i + 2] == s[k + i + 2];
    }
  }

  /** Without three `/` at the front, one step copies what it consumes. */
  lemma ShortStep(s: string)
    requires s != [] && NoTripleSlash(s)
    ensures StepText(s) == s[..StepLength(s)]
  {
    if |s| >= 3 {
      assert !TripleAt(s, 0);
    }
  }

  /** A step that copies what it consumes, before a rest that collapses to
      itself, leaves the whole string as it is. */
  lemma KeepStep(s: string, k: nat)
    requires s != [] && k == StepLength(s) && StepText(s) == s[..k] && Collapse(s[k..]) == s[k..]
    ensures Collapse(s) == s
  {
    CollapseStep(s);
    Rejoin(s, k, StepText(s), Collapse(s[k..]));
  }

  /** One step of `Collapse`, unfolded. */
  lemma CollapseStep(s: string)
    requires s != []
    ensures Collapse(s) == StepText(s) + Collapse(s[StepLength(s)..])
  {
  }

  /** A string is its prefix of length `k` followed by the rest. */
  lemma Rejoin(s: string, k: nat, head: string, tail: string)
    requires k <= |s| && head == s[..k] && tail == s[k..]
    ensures head + tail == s
  {
    assert s[..k] + s[k..] == s;
  }

  /** A string with no three `/` in a row is left as it is. */
  lemma {:induction false} CollapseKeeps(s: string)
    requires NoTripleSlash(s)
    ensures Collapse(s) == s
    decreases |s|
  {
    if s != [] {
      ShortStep(s);
      var k := StepLength(s);
      NoTripleSuffix(s, k);
      CollapseKeeps(s[k..]);
      KeepStep(s, k);
    }
  }

  /** Three `/` before something that does not start with `/` become one. */
  lemma CollapseSeparator(x: string)
    requires x == [] || x[0] != '/'
    ensures Collapse("///" + x) == "/" + Collapse(x)
  {
    ThreeSlashes(x);
    CollapseStep("///" + x);
  }

  /** Three `/` before something that does not start with `/` are one run of
      length three. */
  lemma ThreeSlashes(x: string)
    requires x == [] || x[0] != '/'
    ensures SlashRun("///" + x) == 3 && ("///" + x)[3..] == x
  {
    var s := "///" + x;
    assert s[0] == '/' && s[1..] == "//" + x;
    assert s[1..][0] == '/' && s[1..][1..] == "/" + x;
    assert s[1..][1..][0] == '/' && s[1..][1..][1..] == x;
  }

  /** A path piece with no `/` at either end and no three `/` in a row. */
  predicate Segment(s: string) {
    s != [] && s[0] != '/' && s[|s| - 1] != '/' && NoTripleSlash(s)
  }

  /** A clean piece, three `/` and text that does not start with `/` collapse
      to the piece, one `/` and the collapsed text. */
  lemma JoinSegment(a: string, b: string)
    requires Segment(a) && (b == [] || b[0] != '/')
    ensures Collapse(a + ("///" + b)) == a + ("/" + Collapse(b))
  {
    CollapseAppend(a, "///" + b);
    CollapseKeeps(a);
    CollapseSeparator(b);
  }

  /** The path of `ids`: `/$<id>` for one, `/[<id>,<id>,...]` for many. */
  function IdsSuffix(ids: Option<Ids>): string {
    match ids
    case None => ""
    case Some(OneId(id)) => "/$" + id
    case Some(ManyIds(xs)) => "/[" + Join(xs, ",") + "]"
  }

  /** Drops one trailing `/`. */
  function StripTrailingSlash(s: string): (r: string)
    ensures NoTripleSlash(s) ==> NoTripleSlash(r)
    ensures s != [] && s[|s| - 1] != '/' ==> r == s
  {
    if s != [] && s[|s| - 1] == '/' then
      var r := s[..|s| - 1];
      assert NoTripleSlash(s) ==> NoTripleSlash(r) by {
        if NoTripleSlash(s) {
          forall i | 0 <= i < |r| - 2 ensures !TripleAt(r, i) {
            assert !TripleAt(s, i);
            assert r[i] == s[i] && r[i + 1] == s[i + 1] && r[i + 2] == s[i + 2];
          }
        }
      }
      r
    else s
  }

  /** The URL for a path action: the base URL (unless `url` is absolute),
      `url` and the path joined by `///`, runs collapsed, one trailing `/`
      dropped. */
  function PathURL(a: Adapter, url: string, path: string): (r: string)
    ensures NoTripleSlash(r)
  {
    var oo := if a.helpers.isAbsolute(url) then url + ("///" + path) else a.baseUrl + ("///" + (url + ("///" + path)));
    StripTrailingSlash(Collapse(oo))
  }

  /** `prepareURL`: the endpoint with the ids path appended; an absent or
      empty action is the empty path; a rewriting action is applied to the
      collapsed URL (prefixed with the base URL unless absolute) and its
      result returned as is. */
  function PrepareURL(a: Adapter, endpoint: string, ids: Option<Ids>, action: Option<Action>): (r: string)
    ensures action.None? || action.value.PathAction? ==> NoTripleSlash(r)
    ensures action.Some? && action.value.RewriteAction? ==>
      var u := endpoint + IdsSuffix(ids);
      r == action.value.rewrite(Collapse(if a.helpers.isAbsolute(u) then u else a.baseUrl + "///" + u))
  {
    var url := endpoint + IdsSuffix(ids);
    match action
    case None => PathURL(a, url, "")
    case Some(PathAction(p)) => PathURL(a, url, p)
    case Some(RewriteAction(f)) =>
      var oo := if a.helpers.isAbsolute(url) then url else a.baseUrl + "///" + url;
      f(Collapse(oo))
  }

  /** Dropping the trailing `/` of `y + "/" + path` leaves `y` alone for an
      empty path and changes nothing otherwise. */
  lemma StripJoin(y: string, path: string)
    requires path == [] || Segment(path)
    ensures StripTrailingSlash(y + ("/" + path)) == y + (if path == [] then "" else "/" + path)
  {
    if path == [] {
      assert y + ("/" + path) == y + "/";
      assert (y + "/")[..|y|] == y;
    } else {
      assert (y + ("/" + path))[|y + ("/" + path)| - 1] == path[|path| - 1];
    }
  }

  /** For clean pieces, the URL is the base URL (unless the endpoint is
      absolute), the endpoint with its ids and the action path joined by
      exactly one `/`, with no trailing `/`. */
  lemma PrepareURLJoinsSegments(a: Adapter, endpoint: string, ids: Option<Ids>, path: string)
    requires Segment(endpoint + IdsSuffix(ids))
    requires Segment(a.baseUrl)
    requires path == [] || Segment(path)
    ensures
      var url := endpoint + IdsSuffix(ids);
      PrepareURL(a, endpoint, ids, Some(PathAction(path))) ==
        (if a.helpers.isAbsolute(url) then url else a.baseUrl + ("/" + url)) +
        (if path == [] then "" else "/" + path)
  {
    var url := endpoint + IdsSuffix(ids);
    if a.helpers.isAbsolute(url) {
      CollapseAbsolute(url, path);
      StripJoin(url, path);
    } else {
      CollapseRelative(a.baseUrl, url, path);
      StripJoin(a.baseUrl + ("/" + url), path);
    }
  }

  lemma CollapseAbsolute(url: string, path: string)
    requires Segment(url) && (path == [] || Segment(path))
    ensures Collapse(url + ("///" + path)) == url + ("/" + path)
  {
    CollapseKeeps(path);
    JoinSegment(url, path);
  }

  lemma CollapseRelative(base: string, url: string, path: string)
    requires Segment(base) && Segment(url) && (path == [] || Segment(path))
    ensures Collapse(base + ("///" + (url + ("///" + path)))) == (base + ("/" + url)) + ("/" + path)
  {
    var x := url + ("///" + path);
    JoinSegment(base, x);
    CollapseAbsolute(url, path);
    Reassociate(base, url, path);
  }

  lemma Reassociate(b: string, u: string, p: string)
    ensures b + ("/" + (u + ("/" + p))) == (b + ("/" + u)) + ("/" + p)
  {
  }

  // ---------------------------------------------------------------------
  // prepare
  // ---------------------------------------------------------------------

  /** What `prepare` returns: the URL with its query string, the final method,
      the merged headers, the serialized body if one is sent, the adapter's
      other default fetch options, and the cache key if the request is a GET. */
  datatype PreparedRequest = PreparedRequest(
    url: string,
    verb: Option<string>,
    headers: seq<(string, string)>,
    body: Option<string>,
    others: seq<(string, Value)>,
    cacheKey: Option<string>)

  /** The properties of the returned fetch options that `prepare` sets itself. */
  const OwnOptionKeys: set<string> := {"body", "headers", "method"}

  /** `props.options || {}`. */
  function EffectiveOptions(options: Option<RequestOptions>): RequestOptions {
    if options.Some? then options.value else NoOptions
  }

  /** The URL with the merged default and request params appended. */
  function FixedURL(a: Adapter, endpoint: string, ids: Option<Ids>, opts: RequestOptions): string {
    AppendParams(PrepareURL(a, endpoint, ids, opts.action),
                 PrepareQS(Some(Assign(OrEmpty(a.defaultParams), OrEmpty(opts.params)))))
  }

  /** `options.method?.toUpperCase() || props.method?.toUpperCase()`. */
  function RequestedMethod(opts: RequestOptions, verb: Option<string>): (r: Option<string>)
    ensures opts.verb.Some? && opts.verb.value != "" ==> r == Some(ToUpper(opts.verb.value))
    ensures opts.verb.None? || opts.verb.value == "" ==>
      r == (if verb.Some? then Some(ToUpper(verb.value)) else None)
  {
    if opts.verb.Some? && ToUpper(opts.verb.value) != "" then Some(ToUpper(opts.verb.value))
    else if verb.Some? then Some(ToUpper(verb.value))
    else None
  }

  /** The compiled selector as a body object, when the options have a selector. */
  function SelectBody(opts: RequestOptions): Option<seq<(string, Value)>> {
    if opts.selector.Some? then Some(QueryObject(PrepareSelector(opts.selector.value).0)) else None
  }

  /** `body`: the request data with the selector fields spread over it. */
  function MergedBody(opts: RequestOptions): Option<seq<(string, Value)>> {
    if opts.selector.Some? then Some(Assign(OrEmpty(opts.data), SelectBody(opts).value)) else opts.data
  }

  /** The method sent: a GET whose selector body is not empty becomes a POST. */
  function FinalMethod(a: Adapter, opts: RequestOptions, verb: Option<string>): Option<string> {
    var m := RequestedMethod(opts, verb);
    if m == Some("GET") && !a.helpers.isEmptyObject(SelectBody(opts)) then Some("POST") else m
  }

  /** The cache key: only for a GET as requested, the URL, `@@` and the
      serialized body (empty without a body). */
  function CacheKey(a: Adapter, endpoint: string, ids: Option<Ids>, opts: RequestOptions, verb: Option<string>): Option<string> {
    if RequestedMethod(opts, verb) == Some("GET") then
      var body := MergedBody(opts);
      Some(FixedURL(a, endpoint, ids, opts) + "@@" + (if body.Some? then a.helpers.stringify(body.value) else ""))
    else None
  }

  /** `(isBodySupported && JSON.stringify(body)) || undefined`. */
  function SentBody(a: Adapter, opts: RequestOptions, verb: Option<string>): Option<string> {
    BodyFor(FinalMethod(a, opts, verb), MergedBody(opts), a.helpers.stringify)
  }

  /** The serialized body a request with method `m` carries: none for GET and
      HEAD, none for a missing body or one that serializes to nothing. */
  function BodyFor(m: Option<string>, body: Option<seq<(string, Value)>>, stringify: seq<(string, Value)> -> string): (r: Option<string>)
    ensures m == Some("GET") || m == Some("HEAD") || body.None? ==> r.None?
    ensures r.Some? ==> r == Some(stringify(body.value)) && r.value != ""
    ensures m != Some("GET") && m != Some("HEAD") && body.Some? && stringify(body.value) != "" ==> r == Some(stringify(body.value))
  {
    assert "POST" != "GET" && "POST" != "HEAD" by {
      assert "POST"[0] != "GET"[0] && "POST"[0] != "HEAD"[0];
    }
    if m != Some("GET") && m != Some("HEAD") && body.Some? && stringify(body.value) != "" then
      Some(stringify(body.value))
    else None
  }

  /** `prepare`. Besides the request it gives the options as the call leaves
      them: compiling the selector consumes the heads of nested select lists. */
  method Prepare(a: Adapter, endpoint: string, ids: Option<Ids>, options: Option<RequestOptions>, verb: Option<string>)
    returns (req: PreparedRequest, optionsAfter: RequestOptions)
    ensures req.url == FixedURL(a, endpoint, ids, EffectiveOptions(options))
    ensures req.verb == FinalMethod(a, EffectiveOptions(options), verb)
    ensures req.headers == Assign(a.defaultHeaders, OrEmpty(EffectiveOptions(options).headers))
    ensures req.body == SentBody(a, EffectiveOptions(options), verb)
    ensures req.cacheKey == CacheKey(a, endpoint, ids, EffectiveOptions(options), verb)
    ensures forall k :: Lookup(req.others, k) == if k in OwnOptionKeys then None else Lookup(a.defaultOthers, k)
    ensures var opts := EffectiveOptions(options);
      optionsAfter == if opts.selector.Some? then opts.(selector := Some(PrepareSelector(opts.selector.value).1)) else opts
  {
    var opts := if options.Some? then options.value else NoOptions;
    optionsAfter := opts;
    var url := PrepareURL(a, endpoint, ids, opts.action);
    var fixedURL := AppendParams(url, PrepareQS(Some(Assign(OrEmpty(a.defaultParams), OrEmpty(opts.params)))));
    var requestHeaders := OrEmpty(opts.headers);
    var uppercaseMethod := RequestedMethod(opts, verb);
    assert uppercaseMethod == RequestedMethod(opts, verb);
    var body := opts.data;
    var cacheKey: Option<string> := None;
    var selectBody: Option<seq<(string, Value)>> := None;
    if opts.selector.Some? {
      var compiled := PrepareSelector(opts.selector.value);
      selectBody := Some(QueryObject(compiled.0));
      body := Some(Assign(OrEmpty(body), selectBody.value));
      optionsAfter := opts.(selector := Some(compiled.1));
    }
    assert selectBody == SelectBody(opts) && body == MergedBody(opts);
    if uppercaseMethod == Some("GET") {
      if !a.helpers.isEmptyObject(selectBody) {
        uppercaseMethod := Some("POST");
      }
      cacheKey := Some(fixedURL + "@@" + (if body.Some? then a.helpers.stringify(body.value) else ""));
    }
    assert uppercaseMethod == FinalMethod(a, opts, verb);
    assert cacheKey == CacheKey(a, endpoint, ids, opts, verb);
    var isBodySupported := uppercaseMethod != Some("GET") && uppercaseMethod != Some("HEAD");
    var sent: Option<string> := None;
    if isBodySupported && body.Some? && a.helpers.stringify(body.value) != "" {
      sent := Some(a.helpers.stringify(body.value));
    }
    var others := Without(a.defaultOthers, OwnOptionKeys);
    req := PreparedRequest(fixedURL, uppercaseMethod, Assign(a.defaultHeaders, requestHeaders), sent, others, cacheKey);
  }

  /** A cache key exists exactly for a request made as a GET; it is the URL,
      `@@` and the serialized body. */
  lemma CacheKeyOnlyForGet(a: Adapter, endpoint: string, ids: Option<Ids>, opts: RequestOptions, verb: Option<string>)
    ensures CacheKey(a, endpoint, ids, opts, verb).Some? <==> RequestedMethod(opts, verb) == Some("GET")
    ensures CacheKey(a, endpoint, ids, opts, verb).Some? && MergedBody(opts).None? ==>
      CacheKey(a, endpoint, ids, opts, verb).value == FixedURL(a, endpoint, ids, opts) + "@@"
  {
  }

  /** A GET with a selector whose body is not empty is sent as a POST; a
      GET with no selector stays a GET when `isEmptyObject(undefined)`
      holds. */
  lemma MethodUpgrade(a: Adapter, opts: RequestOptions, verb: Option<string>)
    requires RequestedMethod(opts, verb) == Some("GET")
    ensures opts.selector.Some? && !a.helpers.isEmptyObject(SelectBody(opts)) ==> FinalMethod(a, opts, verb) == Some("POST")
    ensures opts.selector.None? && a.helpers.isEmptyObject(None) ==> FinalMethod(a, opts, verb) == Some("GET")
  {
    if opts.selector.None? {
      assert SelectBody(opts) == None;
    }
  }

  /** The upgraded POST carries the merged body; the GET that stays a GET
      carries none. */
  lemma UpgradeSendsBody(a: Adapter, opts: RequestOptions, verb: Option<string>)
    requires RequestedMethod(opts, verb) == Some("GET")
    ensures opts.selector.Some? && !a.helpers.isEmptyObject(SelectBody(opts))
      && a.helpers.stringify(MergedBody(opts).value) != ""
      ==> SentBody(a, opts, verb) == Some(a.helpers.stringify(MergedBody(opts).value))
    ensures opts.selector.None? && a.helpers.isEmptyObject(None) ==> SentBody(a, opts, verb) == None
  {
    MethodUpgrade(a, opts, verb);
  }

  /** GET and HEAD never carry a body. */
  lemma NoBodyForGetOrHead(a: Adapter, opts: RequestOptions, verb: Option<string>)
    requires FinalMethod(a, opts, verb) in {Some("GET"), Some("HEAD")}
    ensures SentBody(a, opts, verb).None?
  {
  }

  /** The selector's fields override data fields of the same name; every
      other data field is kept. */
  lemma SelectorOverridesData(opts: RequestOptions, k: string)
    requires opts.selector.Some?
    ensures var sb := SelectBody(opts).value;
      Lookup(MergedBody(opts).value, k) == if HasKey(sb, k) then Lookup(sb, k) else Lookup(OrEmpty(opts.data), k)
  {
    AssignLookup(OrEmpty(opts.data), SelectBody(opts).value, k);
  }

  /** Request headers override the adapter's default headers of the same
      name; every other default is kept. */
  lemma RequestHeadersOverride(a: Adapter, opts: RequestOptions, k: string)
    requires UniqueKeys(OrEmpty(opts.headers))
    ensures var hs := OrEmpty(opts.headers);
      Lookup(Assign(a.defaultHeaders, hs), k) == if HasKey(hs, k) then Lookup(hs, k) else Lookup(a.defaultHeaders, k)
  {
    AssignLookup(a.defaultHeaders, OrEmpty(opts.headers), k);
  }

  /** Texts with a common prefix are equal only if the rest is. */
  lemma PrefixCancel(p: string, x: string, y: string)
    requires p + x == p + y
    ensures x == y
  {
    assert x == (p + x)[|p|..];
    assert y == (p + y)[|p|..];
  }

  /** The merged body carries the compiled `limit` of the selector. */
  lemma BodyLimit(opts: RequestOptions)
    requires opts.selector.Some?
    ensures Lookup(MergedBody(opts).value, "limit") == Some(LimitValue(PrepareLimit(opts.selector.value.limit)))
  {
    SelectorOverridesData(opts, "limit");
  }

  /** The merged body carries the compiled `orders` of the selector. */
  lemma BodyOrders(opts: RequestOptions)
    requires opts.selector.Some?
    ensures Lookup(MergedBody(opts).value, "orderBy") == Some(OrdersValue(PrepareOrders(opts.selector.value.orders)))
  {
    SelectorOverridesData(opts, "orderBy");
  }

  /** Different order entries are different body values. */
  lemma OrderValueInjective(p: OrderParam, q: OrderParam)
    requires OrderValue(p) == OrderValue(q)
    ensures p == q
  {
    var pp := OrderValue(p).props;
    var qp := OrderValue(q).props;
    assert pp[0] == qp[0] && pp[1] == qp[1];
    assert p.value == q.value;
  }

  /** Different compiled orders are different body values. */
  lemma OrdersValueInjective(p: Option<seq<OrderParam>>, q: Option<seq<OrderParam>>)
    requires OrdersValue(p) == OrdersValue(q)
    ensures p == q
  {
    if p.Some? {
      assert q.Some?;
      var ep := OrdersValue(p).elems;
      assert |p.value| == |ep| == |q.value|;
      forall i | 0 <= i < |p.value| ensures p.value[i] == q.value[i] {
        assert OrderValue(p.value[i]) == ep[i] == OrderValue(q.value[i]);
        OrderValueInjective(p.value[i], q.value[i]);
      }
      assert p.value == q.value;
    }
  }

  /** With an injective serializer, two GET requests to the same URL whose
      selectors differ in `limit` get different cache keys. */
  lemma CacheKeySeparatesLimits(a: Adapter, endpoint: string, ids: Option<Ids>, opts: RequestOptions,
                                verb: Option<string>, s1: Selector, s2: Selector)
    requires forall x, y :: a.helpers.stringify(x) == a.helpers.stringify(y) ==> x == y
    requires RequestedMethod(opts, verb) == Some("GET")
    requires s1.limit != s2.limit
    ensures CacheKey(a, endpoint, ids, opts.(selector := Some(s1)), verb) !=
            CacheKey(a, endpoint, ids, opts.(selector := Some(s2)), verb)
  {
    BodyLimit(opts.(selector := Some(s1)));
    BodyLimit(opts.(selector := Some(s2)));
    CacheKeySeparatesBodies(a, endpoint, ids, opts, verb, s1, s2);
  }

  /** With an injective serializer, two GET requests to the same URL whose
      selectors differ in `orders` get different cache keys. */
  lemma CacheKeySeparatesOrders(a: Adapter, endpoint: string, ids: Option<Ids>, opts: RequestOptions,
                                verb: Option<string>, s1: Selector, s2: Selector)
    requires forall x, y :: a.helpers.stringify(x) == a.helpers.stringify(y) ==> x == y
    requires RequestedMethod(opts, verb) == Some("GET")
    requires s1.orders != s2.orders
    ensures CacheKey(a, endpoint, ids, opts.(selector := Some(s1)), verb) !=
            CacheKey(a, endpoint, ids, opts.(selector := Some(s2)), verb)
  {
    BodyOrders(opts.(selector := Some(s1)));
    BodyOrders(opts.(selector := Some(s2)));
    if OrdersValue(PrepareOrders(s1.orders)) == OrdersValue(PrepareOrders(s2.orders)) {
      OrdersValueInjective(PrepareOrders(s1.orders), PrepareOrders(s2.orders));
      PrepareOrdersInjective(s1.orders, s2.orders);
    }
    CacheKeySeparatesBodies(a, endpoint, ids, opts, verb, s1, s2);
  }

  /** Filters are joined into one text, so the filter lists `["a&&b"]` and
      `["a", "b"]` give the same body and two GET requests share one cache
      key, whatever the serializer. */
  lemma FiltersShareCacheKey(a: Adapter, endpoint: string, ids: Option<Ids>, opts: RequestOptions, verb: Option<string>)
    requires RequestedMethod(opts, verb) == Some("GET")
    ensures
      var s1 := NoSelector.(filters := Some(FilterList(["a&&b"])));
      var s2 := NoSelector.(filters := Some(FilterList(["a", "b"])));
      var k1 := CacheKey(a, endpoint, ids, opts.(selector := Some(s1)), verb);
      s1 != s2 && k1.Some? && k1 == CacheKey(a, endpoint, ids, opts.(selector := Some(s2)), verb)
  {
    var s1 := NoSelector.(filters := Some(FilterList(["a&&b"])));
    var s2 := NoSelector.(filters := Some(FilterList(["a", "b"])));
    assert ["a", "b"][1..] == ["b"];
    assert Join(["a", "b"], "&&") == "a&&b";
    assert PrepareSelector(s1).0 == PrepareSelector(s2).0;
  }

  /** Select entries are joined into one text, so the select lists
      `["a,b"]` and `["a", "b"]` give the same body and two GET requests
      share one cache key, whatever the serializer. */
  lemma SelectsShareCacheKey(a: Adapter, endpoint: string, ids: Option<Ids>, opts: RequestOptions, verb: Option<string>)
    requires RequestedMethod(opts, verb) == Some("GET")
    ensures
      var s1 := NoSelector.(select := Some(SelectList([Field("a,b")])));
      var s2 := NoSelector.(select := Some(SelectList([Field("a"), Field("b")])));
      var k1 := CacheKey(a, endpoint, ids, opts.(selector := Some(s1)), verb);
      s1 != s2 && k1.Some? && k1 == CacheKey(a, endpoint, ids, opts.(selector := Some(s2)), verb)
  {
    var s1 := NoSelector.(select := Some(SelectList([Field("a,b")])));
    var s2 := NoSelector.(select := Some(SelectList([Field("a"), Field("b")])));
    assert [Field("a"), Field("b")] != [Field("a,b")];
    var t1 := seq(1, j requires 0 <= j < 1 => RenderItem([Field("a,b")][j]).0);
    var t2 := seq(2, j requires 0 <= j < 2 => RenderItem([Field("a"), Field("b")][j]).0);
    assert t1 == ["a,b"];
    assert t2 == ["a", "b"] && t2[1..] == ["b"];
    assert Join(t2, ",") == "a,b";
    assert PrepareSelector(s1).0 == PrepareSelector(s2).0;
  }

  /** With an injective serializer, two GET requests to the same URL whose
      merged bodies differ get different cache keys. */
  lemma CacheKeySeparatesBodies(a: Adapter, endpoint: string, ids: Option<Ids>, opts: RequestOptions,
                                verb: Option<string>, s1: Selector, s2: Selector)
    requires forall x, y :: a.helpers.stringify(x) == a.helpers.stringify(y) ==> x == y
    requires RequestedMethod(opts, verb) == Some("GET")
    requires MergedBody(opts.(selector := Some(s1))) != MergedBody(opts.(selector := Some(s2)))
    ensures CacheKey(a, endpoint, ids, opts.(selector := Some(s1)), verb) !=
            CacheKey(a, endpoint, ids, opts.(selector := Some(s2)), verb)
  {
    var o1 := opts.(selector := Some(s1));
    var o2 := opts.(selector := Some(s2));
    var b1 := MergedBody(o1).value;
    var b2 := MergedBody(o2).value;
    var prefix := FixedURL(a, endpoint, ids, opts) + "@@";
    assert FixedURL(a, endpoint, ids, o1) == FixedURL(a, endpoint, ids, opts) == FixedURL(a, endpoint, ids, o2);
    assert CacheKey(a, endpoint, ids, o1, verb) == Some(prefix + a.helpers.stringify(b1));
    assert CacheKey(a, endpoint, ids, o2, verb) == Some(prefix + a.helpers.stringify(b2));
    if prefix + a.helpers.stringify(b1) == prefix + a.helpers.stringify(b2) {
      PrefixCancel(prefix, a.helpers.stringify(b1), a.helpers.stringify(b2));
    }
  }

  // ---------------------------------------------------------------------
  // fetch: classification of the transport outcome
  // ---------------------------------------------------------------------

  /** What the transport produced: no response at all (the fetch call
      rejected), or a status, headers and the parsed body (`None` when
      `response.json()` failed). */
  datatype TransportOutcome =
    | NoResponse
    | Responded(status: int, headers: seq<(string, string)>, body: Option<Value>)

  /** What `fetch` catches: the transport's error, the body parser's error,
      the `TypeError` of `'value' in` on a non-object, the unexpected body
      itself, or the invalid-status record. */
  datatype FetchError =
    | TransportFailed
    | BodyParseFailed
    | BodyNotAnObject(body: Value)
    | UnexpectedBody(body: Value)
    | InvalidStatus(message: string, status: int)

  /** `IRawResponse`: `meta` is `{count}` of a list body, `count` may be
      `undefined`. */
  datatype RawResponse = RawResponse(
    data: Option<Value>,
    metaCount: Option<Value>,
    status: Option<int>,
    headers: Option<seq<(string, string)>>,
    requestHeaders: seq<(string, string)>,
    error: Option<FetchError>)

  /** The accepted envelope shapes of a parsed body. */
  datatype Shape =
    | SingleShape(value: Value)
    | ListShape(items: seq<Value>, count: Value)
    | NotAnObject
    | OtherShape

  /** `{value}` is a single result, `{items: [...], count}` a list result;
      `'value'` is tested first. Primitives make `in` throw. */
  function ShapeOf(body: Value): Shape {
    match body
    case Obj(props) =>
      if HasKey(props, "value") then SingleShape(Get(props, "value"))
      else if HasKey(props, "items") && Get(props, "items").Arr? then ListShape(Get(props, "items").elems, Get(props, "count"))
      else OtherShape
    case Arr(_) => OtherShape
    case _ => NotAnObject
  }

  /** `fetch` after the network call: never throws; a successful result
      carries the data (and `count` for a list) with the status and headers;
      any failure gives `{error, headers, requestHeaders, status}` with the
      status and headers known at that point. An unparsable body is an
      error even for status 204. A status of 400 or more is an error even
      for a valid shape, but a bad shape is reported first. */
  method Fetch(outcome: TransportOutcome, requestHeaders: seq<(string, string)>) returns (r: RawResponse)
    ensures r.requestHeaders == requestHeaders
    ensures r.status == (if outcome.Responded? then Some(outcome.status) else None)
    ensures r.headers == (if outcome.Responded? then Some(outcome.headers) else None)
    ensures r.error.None? <==>
      outcome.Responded? && outcome.body.Some? &&
      (ShapeOf(outcome.body.value).SingleShape? || ShapeOf(outcome.body.value).ListShape?) &&
      outcome.status < 400
    ensures r.error.None? ==> match ShapeOf(outcome.body.value)
      case SingleShape(v) => r.data == Some(v) && r.metaCount.None?
      case ListShape(items, count) => r.data == Some(Arr(items)) && r.metaCount == Some(count)
      case _ => false
    ensures r.error.Some? ==> r.data.None? && r.metaCount.None?
    ensures outcome.NoResponse? ==> r.error == Some(TransportFailed)
    ensures outcome.Responded? && outcome.body.None? ==> r.error == Some(BodyParseFailed)
    ensures outcome.Responded? && outcome.body.Some? && ShapeOf(outcome.body.value) == NotAnObject ==>
      r.error == Some(BodyNotAnObject(outcome.body.value))
    ensures
      && outcome.Responded? && outcome.body.Some? && outcome.status >= 400
      && (ShapeOf(outcome.body.value).SingleShape? || ShapeOf(outcome.body.value).ListShape?)
      ==> r.error == Some(InvalidStatus("Invalid HTTP status: " + IntText(outcome.status), outcome.status))
    ensures outcome.Responded? && outcome.body.Some? && ShapeOf(outcome.body.value) == OtherShape ==>
      r.error == Some(UnexpectedBody(outcome.body.value))
  {
    var status: Option<int> := None;
    var headers: Option<seq<(string, string)>> := None;
    var failure: Option<FetchError> := None;
    var data: Option<Value> := None;
    var metaCount: Option<Value> := None;
    if outcome.NoResponse? {
      failure := Some(TransportFailed);
    } else {
      status := Some(outcome.status);
      headers := Some(outcome.headers);
      if outcome.body.None? {
        // `responseData = null` for a 204 is overwritten by the rethrow
        failure := Some(BodyParseFailed);
      } else {
        var responseData := outcome.body.value;
        if !responseData.Obj? && !responseData.Arr? {
          failure := Some(BodyNotAnObject(responseData));
        } else if responseData.Obj? && HasKey(responseData.props, "value") {
          data := Some(Get(responseData.props, "value"));
        } else if responseData.Obj? && HasKey(responseData.props, "items") && Get(responseData.props, "items").Arr? {
          data := Some(Get(responseData.props, "items"));
          metaCount := Some(Get(responseData.props, "count"));
        } else {
          failure := Some(UnexpectedBody(responseData));
        }
        if failure.None? && outcome.status >= 400 {
          failure := Some(InvalidStatus("Invalid HTTP status: " + IntText(outcome.status), outcome.status));
        }
      }
    }
    if failure.Some? {
      r := RawResponse(None, None, status, headers, requestHeaders, failure);
    } else {
      r := RawResponse(data, metaCount, status, headers, requestHeaders, None);
    }
  }
}
