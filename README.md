# mobx-cobweb core, modelled in Dafny

mobx-cobweb adds networking to a datx collection of models. This project
models its core:

* **Network adapter** (`network_adapter.dfy` → module `Network`).
  `prepare` compiles a request: the URL with ids, action and query
  string; the method, upgraded from GET to POST when a selector is given;
  the merged headers; the serialized body; the adapter's other default
  fetch options; and the cache key of a GET. The selector compilers for
  `filters`, `orders`, `select` and `limit` are part of it. `fetch` classifies what the transport returned
  into a raw response: `{value}` or `{items, count}` bodies, status
  ≥ 400, unparsable bodies and transport failures.
* **Net patches** (`net_patches.dfy` → module `NetPatches`). The collection
  mixin's operations:
  * `sync`, which reconciles a raw payload into the store (orphan types,
    id lookup, update in place or add, the persisted flag, unregistered
    types);
  * the argument shuffle and error rejection of `fetch`;
  * `removeOne` with its argument decoding;
  * `removeAll` and `reset`, with their cache clearing.

  A model instance is a reference (`Ref`) into a record arena, so an
  update through one holder is seen by all. The store indexes records by
  (type, id).
* **Model layer stand-ins** (`datx.dfy` → module `Datx`). Records, their
  keys, `updateModel` on fields, and a `View` class holding an ordered list
  of references.
* **ListDataView** (`list_data_view.dfy` → module `Pagination`). The
  `[start, count]` window with `hasNext`, `hasPrev` and `hasLast`. It covers
  `first`, `prev`, `next` and `last`, infinite (appending) mode, and what
  `search` does once the fetch settles. The class's methods are proved
  against pure transition functions. Lemmas about those functions cover
  undoing steps, staying inside the total, callers' options overriding, and
  a 25-item walk.
* **ResponseView** (`response_view.dfy` → module `Envelope`). The
  constructor syncs the payload or adds the override data, appends the data
  to its views and copies status, headers and error. `replace` swaps the
  held record for another instance: in the collection, at the first
  position of each view, and in a fresh envelope it returns.
* **JavaScript values** (`values.dfy` → module `JsValues`). Values,
  truthiness, property lookup, `Object.assign` / spread, `join` and
  `toUpperCase`, as the rest of the model uses them.

## Model

| member | source | states |
|---|---|---|
| JsValues.AssignLookup | src/adapter/NetworkAdapter.ts:102 | `Object.assign({}, a, b)`: a key of `b` takes `b`'s value; every other key keeps `a`'s |
| JsValues.AssignLookupAll | src/adapter/NetworkAdapter.ts:79 | the same override rule for every key at once (default params under request params) |
| JsValues.JoinSnoc | src/adapter/NetworkAdapter.ts:161 | `join` of one more element ends with the separator and that element |
| JsValues.ToUpper | src/adapter/NetworkAdapter.ts:82 | `toUpperCase` keeps the length and upper-cases each ASCII letter in place |
| Network.AppendParams | src/adapter/NetworkAdapter.ts:9-16 | an absent or empty query string leaves the URL alone; otherwise it is appended after `?`, or after `&` when the URL already has a `?` |
| Network.AppendParamsTwice | src/adapter/NetworkAdapter.ts:9-16 | appending two query strings gives `url?qs1&qs2` |
| Network.PrepareQS | src/adapter/NetworkAdapter.ts:211-216 | no params gives undefined; an empty object gives the empty string; a single pair gives `key=value` |
| Network.PrepareQSGrows | src/adapter/NetworkAdapter.ts:211-216 | one more pair appends `&key=value` to the query string (or is the whole string after no pairs), so the string lists every pair as `key=value` in order |
| Network.PrepareFilters | src/adapter/NetworkAdapter.ts:158-162 | undefined exactly for no filter or the empty filter; a single filter is returned unchanged; a list is joined with `&&` |
| Network.FilterListGrows | src/adapter/NetworkAdapter.ts:158-162 | one more filter in a list adds `&&` and that filter at the end |
| Network.OrderOf | src/adapter/NetworkAdapter.ts:165-170 | an order is DESC exactly when the key ends with `!`; the order's value plus its marker gives back the key |
| Network.PrepareOrders | src/adapter/NetworkAdapter.ts:163-172 | undefined exactly for no orders; otherwise one order per key, in order, each as `OrderOf` gives it |
| Network.PrepareOrdersInjective | src/adapter/NetworkAdapter.ts:163-172 | different order lists never compile to the same orders |
| Network.PrepareLimit | src/adapter/NetworkAdapter.ts:189-192 | undefined exactly for no limit; otherwise `{start, count}` from the pair |
| Network.RenderItem | src/adapter/NetworkAdapter.ts:178-186 | a field prints as itself (`...` quoted); a nested list prints as `head(rest)` and loses its head |
| Network.RenderFrom | src/adapter/NetworkAdapter.ts:177-187 | one text and one leftover item per entry; fields are kept and printed as themselves; nested lists stay nested |
| Network.PrepareSelect | src/adapter/NetworkAdapter.ts:173-188 | no select gives undefined; a non-empty string is returned as it is; a list, nested entries included, prints as its entries, each as `RenderItem` prints it, joined by `,`, and is left as the entries `RenderItem` leaves (nested heads consumed) |
| Network.RenderFromItems | src/adapter/NetworkAdapter.ts:177-187 | the `map` renders each entry by itself: position j of the result is `RenderItem` of entry j, text and leftover |
| Network.RenderFromTail | src/adapter/NetworkAdapter.ts:177-187 | rendering from position i of a list equals rendering from i-1 of its tail |
| Network.FlatSelect | src/adapter/NetworkAdapter.ts:173-188 | a list of plain fields prints as the fields joined by `,` and is left unchanged |
| Network.NestedSelect | src/adapter/NetworkAdapter.ts:182-184 | `[h, ...rest]` prints as `h(<rest compiled>)` and is left as `rest` |
| Network.SelectCompiledTwiceDiffers | src/adapter/NetworkAdapter.ts:183 | because `shift()` mutates the selector, compiling `['a', ['b', 'c']]` gives `a,b(c)` and compiling it again gives `a,c()` |
| Network.PrepareSelector | src/adapter/NetworkAdapter.ts:217-224 | the four query fields are the four compilers' results, `select` included; only the selector's `select` is changed by the call, and it becomes what `PrepareSelect` leaves |
| Network.LimitValue | src/adapter/NetworkAdapter.ts:189-192 | the limit is `undefined` in the body exactly when no limit was given |
| Network.QueryObject | src/adapter/NetworkAdapter.ts:218-223 | the select body has the keys filterBy, orderBy, select and limit once each, carrying the compiled values |
| JsValues.Without | src/adapter/NetworkAdapter.ts:103-107 | an object without the named properties: those are absent, every other keeps its value |
| Network.SlashRun | src/adapter/NetworkAdapter.ts:202 | the length of the leading run of `/` |
| Network.StepText | src/adapter/NetworkAdapter.ts:202 | one step of the collapse emits one or two characters, starting with the input's first; a character other than `/` is emitted alone |
| Network.Collapse | src/adapter/NetworkAdapter.ts:202 | `replace(/[/]{3,}/g, '/')` leaves no three `/` in a row, keeps emptiness and keeps the first character |
| Network.CollapseAppend | src/adapter/NetworkAdapter.ts:202 | collapsing distributes over a concatenation that does not split a run of slashes |
| Network.CollapseStep | src/adapter/NetworkAdapter.ts:202 | the collapse emits one step's text and then collapses the rest |
| Network.CollapseKeeps | src/adapter/NetworkAdapter.ts:202 | a string without three `/` in a row is left unchanged |
| Network.CollapseSeparator | src/adapter/NetworkAdapter.ts:201-202 | the `///` separator collapses to a single `/` before text not starting with `/` |
| Network.JoinSegment | src/adapter/NetworkAdapter.ts:201-202 | `a///b` for a clean segment `a` collapses to `a/` and the collapsed `b` |
| Network.StripTrailingSlash | src/adapter/NetworkAdapter.ts:203 | a string not ending in `/` is unchanged; no run of three slashes is created |
| Network.PathURL | src/adapter/NetworkAdapter.ts:200-203 | a URL built for a path action never holds three `/` in a row |
| Network.PrepareURL | src/adapter/NetworkAdapter.ts:193-210 | with no action or a path action, the URL never holds three `/` in a row; a rewriting action is given the collapsed URL (the base prefixed unless the URL is absolute) and its result is returned as it is |
| Network.StripJoin | src/adapter/NetworkAdapter.ts:203 | dropping the trailing `/` of `y/` gives `y`, and `y/path` is unchanged |
| Network.PrepareURLJoinsSegments | src/adapter/NetworkAdapter.ts:193-210 | for clean segments the URL is base (unless absolute), endpoint with ids, and action path, each joined by exactly one `/` with no trailing `/` |
| Network.RequestedMethod | src/adapter/NetworkAdapter.ts:82 | a non-empty method in the options wins and is upper-cased; an absent or empty one falls back to the call's own method, upper-cased, or to undefined |
| Network.BodyFor | src/adapter/NetworkAdapter.ts:101-107 | no body for GET, HEAD or no data; a sent body is the non-empty serialization of the merged body; every method other than GET and HEAD (an absent one included) sends a non-empty serialization |
| Network.Prepare | src/adapter/NetworkAdapter.ts:68-110 | the request's URL, method, headers, body and cache key, the adapter's other default fetch options except `body`, `headers` and `method`, and the options as the call leaves them (nested select heads consumed) |
| Network.CacheKeyOnlyForGet | src/adapter/NetworkAdapter.ts:92-99 | a cache key exists exactly when the requested method is GET; without a body it is the URL followed by `@@` |
| Network.MethodUpgrade | src/adapter/NetworkAdapter.ts:92-97 | a GET with a non-empty selector body is sent as POST; one without a selector stays a GET |
| Network.UpgradeSendsBody | src/adapter/NetworkAdapter.ts:92-107 | an upgraded GET sends its merged body; a GET without a selector sends none |
| Network.NoBodyForGetOrHead | src/adapter/NetworkAdapter.ts:101-104 | a request finally made as GET or HEAD carries no body |
| Network.SelectorOverridesData | src/adapter/NetworkAdapter.ts:87-90 | in the merged body a selector field overrides a data field of the same name; every other data field is kept |
| Network.RequestHeadersOverride | src/adapter/NetworkAdapter.ts:102 | request headers override default headers of the same name; every other default is kept |
| Network.BodyLimit | src/adapter/NetworkAdapter.ts:87-90 | the merged body carries the compiled `limit` of the selector |
| Network.CacheKeySeparatesBodies | src/adapter/NetworkAdapter.ts:92-99 | given an injective serializer, two GETs to the same URL whose merged bodies differ get different cache keys |
| Network.CacheKeySeparatesLimits | src/adapter/NetworkAdapter.ts:92-99 | given an injective serializer, two GETs whose selectors differ in `limit` get different cache keys |
| Network.BodyOrders | src/adapter/NetworkAdapter.ts:87-90 | the merged body carries the compiled `orders` of the selector |
| Network.OrderValueInjective | src/adapter/NetworkAdapter.ts:165-170 | different order entries give different `{value, order}` objects |
| Network.OrdersValueInjective | src/adapter/NetworkAdapter.ts:163-172 | different compiled order lists give different body values |
| Network.CacheKeySeparatesOrders | src/adapter/NetworkAdapter.ts:87-99 | given an injective serializer, two GETs whose selectors differ in `orders` get different cache keys |
| Network.FiltersShareCacheKey | src/adapter/NetworkAdapter.ts:158-162 | the filter lists `["a&&b"]` and `["a", "b"]` compile to the same text, so two different GETs share one cache key, whatever the serializer |
| Network.SelectsShareCacheKey | src/adapter/NetworkAdapter.ts:173-188 | the select lists `["a,b"]` and `["a", "b"]` compile to the same text, so two different GETs share one cache key, whatever the serializer |
| Network.RequestOptions.Spread | src/views/ListDataView.ts:91-98 | `{...a, ...b}` on request options: each property `b` gives wins, the others come from `a` |
| Network.Fetch | src/adapter/NetworkAdapter.ts:111-152 | never throws; success exactly for a response with a parsable `{value}` or `{items: [...]}` body and status < 400, carrying the data (and the count of a list); every failure carries the error, status and headers known at that point and no data; a transport failure is `TransportFailed`; a body that is not an object is reported as such; a `{value}` or `{items}` body with status ≥ 400 gives `Invalid HTTP status: <status>`; an unparsable body is an error even for 204; a bad shape is reported before a bad status |
| Datx.UpdateFields | src/mixins/withNetPatches.ts:60 | `updateModel` writes the item's fields over the record's, keeps the record's other fields, its key and its flag |
| Datx.UpdateFieldsTwice | src/mixins/withNetPatches.ts:60 | writing the same fields twice equals writing them once |
| Datx.Items | src/ResponseView.ts:55-57 | the references a view receives: none for null, one for a single record, all of a list in order |
| Datx.View.Add | src/ResponseView.ts:56 | `view.add` appends the models in order |
| Datx.View.RemoveAll | src/views/ListDataView.ts:80 | `removeAll` empties the list |
| NetPatches.AddRecord | src/mixins/withNetPatches.ts:62 | `add` creates a fresh record under the key with the item's fields, unpersisted, and keeps the store consistent for a new key |
| NetPatches.DetachedRecord | src/ResponseView.ts:65 | `new Model(data)`: a fresh, unpersisted record with the data's id (or a fresh automatic one) and fields, which no index entry holds; the store stays consistent |
| NetPatches.UpdateRecord | src/mixins/withNetPatches.ts:60 | `updateModel` changes only that record, in place; the index is unchanged |
| NetPatches.MarkPersisted | src/mixins/withNetPatches.ts:65 | `setModelPersisted` changes only that record's flag |
| NetPatches.ItemKey | src/mixins/withNetPatches.ts:52-56 | an orphan type looks up the reserved id; otherwise the id is the item's id field, and an item without one gets a fresh id |
| NetPatches.SyncItemSpec | src/mixins/withNetPatches.ts:44-70 | syncing one item keeps the store consistent; the result is indexed under its own key and carries every field of the item |
| NetPatches.SyncAllSpec | src/mixins/withNetPatches.ts:44-71 | syncing a list keeps the store consistent and gives one record per item |
| NetPatches.SyncSpec | src/mixins/withNetPatches.ts:40-72 | the result mirrors the payload's shape: null exactly for null or undefined (store untouched), one record per element of an array, one record otherwise |
| NetPatches.SyncAllStep | src/mixins/withNetPatches.ts:44 | items are synced one after the other, each into the store its predecessors left |
| NetPatches.SyncExisting | src/mixins/withNetPatches.ts:55-60 | an item whose (type, id) is indexed resolves to that record, updated in place and marked persisted; the index is unchanged |
| NetPatches.SyncOrphan | src/mixins/withNetPatches.ts:52-53 | an orphan item resolves to the record under the reserved id, which is created if missing, and is never marked persisted |
| NetPatches.SyncWithoutId | src/mixins/withNetPatches.ts:56-62 | an item without an id is never looked up: it always becomes a new, unpersisted record |
| NetPatches.SyncPersisted | src/mixins/withNetPatches.ts:65 | the persisted flag is set exactly when the type has an id field and the item's id is truthy |
| NetPatches.SyncUnregistered | src/mixins/withNetPatches.ts:66-67 | an item of an unknown type always becomes a fresh generic record; no existing record changes |
| NetPatches.SyncFound | src/mixins/withNetPatches.ts:59-65 | an item whose key is indexed updates that record and sets its flag |
| NetPatches.SyncKey | src/mixins/withNetPatches.ts:47-63 | an item of a registered type resolves to a record under the key the item names |
| NetPatches.SyncIdempotent | src/mixins/withNetPatches.ts:40-72 | syncing an orphan item, or an item with an id, a second time changes nothing and resolves to the same record |
| NetPatches.SyncAllOrphan | src/mixins/withNetPatches.ts:52-53 | any number of orphan items resolve to one record, indexed under the reserved id |
| NetPatches.OrphanFetchedFourTimes | __tests__/collection.fetch.spec.ts:52-59 | syncing an orphan resource four times into an empty store leaves exactly one record of that type |
| NetPatches.SyncAllTypes | src/mixins/withNetPatches.ts:40-72 | syncing a registered type only adds index keys of that type |
| NetPatches.RawItems | src/mixins/withNetPatches.ts:44 | `mapItems`: null for null or undefined, one entry per element of an array |
| NetPatches.Indexed | src/ResponseView.ts:52 | `add` of an existing instance indexes it under its own key; no record changes |
| NetPatches.IndexedAll | src/ResponseView.ts:52 | adding instances keeps the store consistent and indexes each of them; no key is lost |
| NetPatches.Rekeyed | src/ResponseView.ts:83 | `updateModelId` gives the record the new id and moves its index entry to the new key |
| NetPatches.SettleFetch | src/mixins/withNetPatches.ts:86-91 | the fetch promise rejects exactly when the response carries an error, with that error; otherwise it resolves to the response |
| NetPatches.ClearCacheByType | src/mixins/withNetPatches.ts:124 | drops exactly the cache entries of that type and keeps the others as they are |
| NetPatches.DecodeRemove | src/mixins/withNetPatches.ts:99-108 | the remote flag is `id` when it is a boolean or an object, otherwise `remote`; the id is a string or number argument, else the model's own id, else none; the type is the argument's or the model's |
| NetPatches.FoundModelHasId | src/mixins/withNetPatches.ts:109-114 | in a consistent store the model found under (type, id) has that id, so the mismatch guard never fires |
| NetPatches.FetchArguments | src/mixins/withNetPatches.ts:81-84 | with exactly two arguments a plain object in the ids position becomes the options and the ids become undefined; otherwise nothing moves |
| NetPatches.Collection.FindOne | src/mixins/withNetPatches.ts:53-56 | finds a model exactly when its (type, id) is indexed, and returns that model |
| NetPatches.Collection.Add | src/mixins/withNetPatches.ts:62 | the store becomes `AddRecord` of the old one; the cache is unchanged |
| NetPatches.Collection.NewModel | src/ResponseView.ts:65 | the store becomes `DetachedRecord` of the old one; the cache is unchanged |
| NetPatches.Collection.UpdateModel | src/mixins/withNetPatches.ts:60 | the store becomes `UpdateRecord` of the old one |
| NetPatches.Collection.SetPersisted | src/mixins/withNetPatches.ts:65 | the store becomes `MarkPersisted` of the old one |
| NetPatches.Collection.SyncItem | src/mixins/withNetPatches.ts:44-70 | the new store and record are `SyncItemSpec` of the old store |
| NetPatches.Collection.SyncList | src/mixins/withNetPatches.ts:44-71 | the new store and records are `SyncAllSpec` of the old store |
| NetPatches.Collection.Sync | src/mixins/withNetPatches.ts:40-72 | the new store and result are `SyncSpec` of the old store; the cache is unchanged |
| NetPatches.Collection.Insert | src/ResponseView.ts:79 | the store becomes `Indexed` of the old one |
| NetPatches.Collection.InsertAll | src/ResponseView.ts:52 | the store becomes `IndexedAll` of the old one |
| NetPatches.Collection.ChangeId | src/ResponseView.ts:83 | the store becomes `Rekeyed` of the old one |
| NetPatches.Collection.RemoveOne | src/mixins/withNetPatches.ts:94-126 | a found model with a truthy remote flag is handed to remote removal (with the options when the flag is an object) and nothing changes; otherwise a found model leaves the index and the type's cache entries are dropped, found or not; records are never destroyed |
| NetPatches.Collection.RemoveAll | src/mixins/withNetPatches.ts:128-131 | exactly the keys of that type leave the index, the others keep their models, and the type's cache entries are dropped |
| NetPatches.Collection.Reset | src/mixins/withNetPatches.ts:133-136 | the index and the whole cache are emptied |
| Pagination.FirstWindow | src/views/ListDataView.ts:88-90 | start 0, same page size |
| Pagination.PrevWindow | src/views/ListDataView.ts:102-105 | one page back, clamped at 0, same page size |
| Pagination.NextWindow | src/views/ListDataView.ts:118-120 | one page forward, same page size |
| Pagination.LastWindow | src/views/ListDataView.ts:131-133 | the window that ends exactly at the total, same page size |
| Pagination.PrevUndoesNext | src/views/ListDataView.ts:30-34 | from a start ≥ 0 with the total known, after `next` there is a previous page, and `prev` returns to the same window |
| Pagination.NextUndoesPrev | src/views/ListDataView.ts:30-34 | a step back that `hasPrev` allows is undone by a step forward |
| Pagination.NextStaysInside | src/views/ListDataView.ts:25-29 | when `hasNext` holds, the next window starts before the total; the last window never has a next one |
| Pagination.LastNotClamped | src/views/ListDataView.ts:130-133 | with fewer items than a page, `last` asks for a negative start |
| Pagination.WithLimit | src/views/ListDataView.ts:93-96 | the options with `selector.limit` set to the window; every other property and selector field is kept |
| Pagination.CallerOptionsOverride | src/views/ListDataView.ts:91-98 | a caller's `selector` replaces the computed one, window included; without one, the request carries the new window and the last request's other selector fields; the caller's other properties win; no caller options leave the computed request |
| Pagination.AfterSearch | src/views/ListDataView.ts:70-85 | a rejected fetch or a non-page response throws and leaves only `isLoading` set; a page replaces the list (or appends to it in infinite mode) and takes the page's meta and options |
| Pagination.Navigate | src/views/ListDataView.ts:90-98 | the window is set first; undefined last options throw; otherwise the built request is searched |
| Pagination.NextSpec | src/views/ListDataView.ts:115-129 | `null` and no change exactly when there is no next page; otherwise it navigates to the window one page on; the page size never changes |
| Pagination.PrevSpec | src/views/ListDataView.ts:100-114 | `null` and no change exactly when there is no previous page; otherwise it navigates to the window one page back, whose start is ≥ 0 |
| Pagination.FirstSpec | src/views/ListDataView.ts:87-99 | always requests, at window [0, count] |
| Pagination.LastSpec | src/views/ListDataView.ts:130-143 | always requests, at the window ending at the total |
| Pagination.InfiniteSpec | src/views/ListDataView.ts:47-69 | infinite mode is switched on whatever happens; one argument searches it, two search their window, three spread the window into the third's options (undefined options throw); any other arity throws |
| Pagination.TwoSearches | src/views/ListDataView.ts:79-82 | after two page searches the list is the last page, or in infinite mode everything appended in order |
| Pagination.InfiniteThenNext | src/views/ListDataView.ts:47-85 | after `infinite`, `next` appends its page instead of replacing the list |
| Pagination.TwentyFiveItems | src/views/ListDataView.ts:100-143 | with 25 items in pages of 10: `next` reaches [10, 10] and [20, 10] and then returns `null`; `last` goes to [15, 10]; `prev` from [10, 10] goes to [0, 10] |
| Pagination.ListDataView.constructor | src/views/ListDataView.ts:14-43 | starts with the given models, empty options, count 0 and window [0, 10], so no next, previous or last page |
| Pagination.ListDataView.Search | src/views/ListDataView.ts:70-85 | the new state and result are `AfterSearch` of the old state and the fetch's reply |
| Pagination.ListDataView.GoTo | src/views/ListDataView.ts:90-98 | the new state and result are `Navigate` of the old state |
| Pagination.ListDataView.First | src/views/ListDataView.ts:87-99 | the new state and result are `FirstSpec` of the old state |
| Pagination.ListDataView.Prev | src/views/ListDataView.ts:100-114 | the new state and result are `PrevSpec` of the old state |
| Pagination.ListDataView.Next | src/views/ListDataView.ts:115-129 | the new state and result are `NextSpec` of the old state |
| Pagination.ListDataView.Last | src/views/ListDataView.ts:130-143 | the new state and result are `LastSpec` of the old state |
| Pagination.ListDataView.Infinite | src/views/ListDataView.ts:47-69 | the new state and result are `InfiniteSpec` of the old state |
| Envelope.IndexOf | src/ResponseView.ts:75 | `indexOf`: -1 exactly when absent; otherwise the first position holding the reference |
| Envelope.ReplaceFirst | src/ResponseView.ts:85-89 | a list without the record is unchanged; otherwise the first position holding it now holds the new one; the length is kept |
| Envelope.ReplaceFirstOnly | src/ResponseView.ts:85-89 | only the first occurrence changes; every other position keeps its reference |
| Envelope.ReplaceFirstFindsNew | src/ResponseView.ts:75-87 | after the swap, the new reference is found where the old one was first found |
| Envelope.ReplacedState | src/ResponseView.ts:77-83 | after `replace`, the new record is indexed under its own key and the store stays consistent |
| Envelope.AddIndexedAgain | src/ResponseView.ts:91 | the `add` made by the returned envelope changes nothing |
| Envelope.ReplacedRecords | src/ResponseView.ts:82-83 | the new record takes the old record's id, and the old record's fields over its own; it keeps its type and flag; every other record is unchanged |
| Envelope.ReplacedIndex | src/ResponseView.ts:77-83 | the store finds the new record under its type and the old id, so it replaces the old record for a same-type swap; unrelated keys are untouched |
| Envelope.ReplaceByNewModel | src/ResponseView.ts:65-92 | `replace(new Model(data))` of a same-type record: the new instance is indexed under the old key, takes the old id and the old fields over the data's own, stays unpersisted; the old record object is left as it was |
| Envelope.ResponseView.constructor | src/ResponseView.ts:34-63 | override data is added as it is, otherwise the payload is synced; non-null data is appended to every view; status, meta, headers, request headers and error are copied |
| Envelope.ResponseView.Replace | src/ResponseView.ts:65-92 | replacing with the same record returns this envelope and changes nothing; otherwise the collection becomes `ReplacedState`, the type's cache entries are dropped, each view's first occurrence is swapped, and a fresh envelope holding only the new record, with no views, is returned |
| Envelope.SwapRecord | src/ResponseView.ts:77-83 | `removeOne`, `add`, `updateModel` and `updateModelId` together give `ReplacedState` and clear the type's cache entries |
| Envelope.AddToViews | src/ResponseView.ts:55-57 | every view gets the data appended |
| Envelope.IndexesOf | src/ResponseView.ts:75 | one `indexOf` per view, in view order |
| Envelope.WriteBack | src/ResponseView.ts:85-89 | every view's list becomes `ReplaceFirst` of its old list |
| Envelope.Payload | src/ResponseView.ts:53 | the response's data, `undefined` when it has none |

## Left out

- Numbers are integers: floating point, `NaN` and non-numeric values are not modelled. A non-numeric `meta.count` is treated as undefined.
- Pagination.ListDataView.Last: requires the total to be known. With an undefined total the source computes a `NaN` start, which is not modelled.
- Pagination.LastSpec: requires the total to be known, for the same reason.
- Asynchrony, mobx observability, `@action` and `transaction` batching are not modelled; every call runs to completion at once. The fetch a view or envelope depends on is a function parameter.
- The construction of the network adapter (`fetchInstance` detection, the browser environment) is not part of this model. The transport call, `response.json()` and the thrown values are summarised by a `TransportOutcome`.
- `URL_REGEX`, `JSON.stringify` and `isEmptyObject` are parameters of the adapter (`Helpers`) rather than defined.
- JsValues.ToUpper: only ASCII letters are upper-cased, one character for one. `toUpperCase` also maps other letters ('ſ' to 'S', 'ß' to 'SS', which changes the length), so a method such as `poſt` is sent as `POST` by the code but not by the model.
- The cache key does not tell every selector apart. Limits and orders are separated (Network.CacheKeySeparatesLimits, Network.CacheKeySeparatesOrders). Filters and select lists are flattened into one text before they reach the key, so different selectors can share a key (Network.FiltersShareCacheKey, Network.SelectsShareCacheKey). The model follows the code.
- Network.CacheKeySeparatesLimits: holds only for an injective serializer. `JSON.stringify` drops `undefined` properties, which is not modelled.
- Network.CacheKeySeparatesOrders: holds only for an injective serializer, for the same reason.
- Spread of request options cannot tell an absent property from one explicitly set to `undefined`; both are `None`.
- Page.isPage stands for `response.dataType === PAGE`. That value is set by the query layer, which is not part of this model.
- The unique-list flag `ListDataView` passes to its datx `View` is not modelled: a view's `add` always appends.
- `removeModel`, the remote deletion, is not part of this model. `removeOne` returns a `RemoteRemoval` outcome naming the model and options it would be given.
- The mismatch guard of `removeOne` is not modelled as a branch: NetPatches.FoundModelHasId shows it cannot fire in a consistent store.
- `getModelId` of a type name (a `removeOne` called with a type and a boolean) gives no id in the model.
- Models of a type the collection does not register become records of a generic type, under a fresh automatic id.
- An `id` of `null` is looked up like any other id value. A non-object raw item has no properties.
- The response cache is a map from cache key to the model type cached under it. `query`, `request`, `clearCache`'s storage and the cache's response contents are not part of this model.
- `withNetActions` and the `INetPatchesMixin` interface are not part of this model.
- `updateModelId` is modelled as moving the record's index entry to its new key. This is how the datx store re-keys a model, and datx's own source is not part of this model.
- `modelToJSON(record)` is modelled as the record's fields.
- The collection of a `ResponseView` is always present; the source's `if (this.collection)` guard is not modelled.
- Envelope.ResponseView.constructor: requires the views to be distinct objects.
- Envelope.ResponseView.Replace: requires the views to be distinct objects, and the envelope to hold a single record. `replace` on list data is not modelled. The new data is a record of the collection's arena: a model made with `new Model(data)` first becomes one through NetPatches.Collection.NewModel, which the index does not hold.
- Objects keep their properties in insertion order. JavaScript lists integer-like keys first, in ascending order, in `Object.keys`, `Object.assign` and `JSON.stringify`. For such keys, the query string text and the cache key differ from the model.
- A 204 response whose body does not parse is an error in the model, as in the code: the `responseData = null` assignment is followed by a rethrow.
