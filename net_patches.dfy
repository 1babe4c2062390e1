/** The collection mixin `withNetPatches`: reconciling raw payloads into
    the store (`sync`), removal with cache invalidation (`removeOne`,
    `removeAll`, `reset`) and `fetch`'s argument handling. */
module NetPatches {
  import opened JsValues
  import opened Datx
  import Network

  /** How a registered model type identifies its records: it is an orphan
      (singleton) type, or its id is read from the named field. */
  datatype TypeInfo = OrphanType | IdField(name: string)

  /** The type of the collection's default `Model`, used for items of a type
      the collection does not know. */
  const GenericType: string := "generic"

  /** The record arena, the (type, id) index and the next fresh reference. */
  datatype StoreState = StoreState(records: map<Ref, RecordData>, store: map<Key, Ref>, nextRef: Ref)

  /** Every indexed record exists and is indexed under its own key, so there
      is at most one record per (type, id); references and automatic ids
      below `nextRef` are the only ones in use. */
  predicate StoreValid(s: StoreState) {
    && (forall k :: k in s.store ==> s.store[k] in s.records && s.records[s.store[k]].KeyOf() == k)
    && (forall r :: r in s.records ==> r < s.nextRef)
    && (forall r :: r in s.records && s.records[r].id.Auto? ==> s.records[r].id.n < s.nextRef)
  }

  /** `add`: a new record under `key`, indexed, with a fresh reference. */
  function AddRecord(s: StoreState, key: Key, fields: map<string, Value>): (r: (StoreState, Ref))
    ensures r.1 == s.nextRef && r.0.nextRef == s.nextRef + 1
    ensures StoreValid(s) ==> r.1 !in s.records
    ensures r.0.records == s.records[r.1 := RecordData(key.modelType, key.id, fields, false)]
    ensures r.0.store == s.store[key := r.1]
    ensures StoreValid(s) && key !in s.store && (key.id.Auto? ==> key.id.n == s.nextRef) ==> StoreValid(r.0)
  {
    var ref := s.nextRef;
    (StoreState(s.records[ref := RecordData(key.modelType, key.id, fields, false)], s.store[key := ref], ref + 1), ref)
  }

  /** `new Model(data)` outside the collection: a fresh, unpersisted model
      instance that the index does not hold. Data without an id gives it a
      fresh automatic one. */
  function DetachedRecord(s: StoreState, modelType: string, id: Option<Value>, fields: map<string, Value>): (r: (StoreState, Ref))
    ensures r.1 == s.nextRef && r.0.nextRef == s.nextRef + 1 && r.0.store == s.store
    ensures r.0.records == s.records[r.1 := RecordData(modelType, if id.Some? then Given(id.value) else Auto(s.nextRef), fields, false)]
    ensures StoreValid(s) ==> StoreValid(r.0) && r.1 !in s.records
    ensures StoreValid(s) ==> forall k :: k in r.0.store ==> r.0.store[k] != r.1
  {
    var ref := s.nextRef;
    var rec := RecordData(modelType, if id.Some? then Given(id.value) else Auto(ref), fields, false);
    (s.(records := s.records[ref := rec], nextRef := ref + 1), ref)
  }

  /** `updateModel` on the record at `ref`, in place: every holder of `ref`
      sees the new fields. */
  function UpdateRecord(s: StoreState, ref: Ref, fields: map<string, Value>): (r: StoreState)
    requires ref in s.records
    ensures r.store == s.store && r.nextRef == s.nextRef
    ensures r.records == s.records[ref := UpdateFields(s.records[ref], fields)]
    ensures StoreValid(s) ==> StoreValid(r)
  {
    s.(records := s.records[ref := UpdateFields(s.records[ref], fields)])
  }

  /** `setModelPersisted(record, flag)`. */
  function MarkPersisted(s: StoreState, ref: Ref, flag: bool): (r: StoreState)
    requires ref in s.records
    ensures r.store == s.store && r.nextRef == s.nextRef
    ensures r.records == s.records[ref := s.records[ref].(persisted := flag)]
    ensures StoreValid(s) ==> StoreValid(r)
  {
    s.(records := s.records[ref := s.records[ref].(persisted := flag)])
  }

  /** The key an item of a registered type is looked up or added under, and
      the id value `setModelPersisted` sees (`undefined` for an orphan). */
  function ItemKey(s: StoreState, modelType: string, info: TypeInfo, item: seq<(string, Value)>): (r: (Key, Value))
    ensures r.0.modelType == modelType
    ensures info.OrphanType? ==> r == (Key(modelType, Orphan), Undefined)
    ensures info.IdField? ==> r.1 == Get(item, info.name)
    ensures info.IdField? && r.1 != Undefined ==> r.0 == Key(modelType, Given(r.1))
    ensures info.IdField? && r.1 == Undefined ==> r.0 == Key(modelType, Auto(s.nextRef))
  {
    match info
    case OrphanType => (Key(modelType, Orphan), Undefined)
    case IdField(f) =>
      var id := Get(item, f);
      (Key(modelType, if id == Undefined then Auto(s.nextRef) else Given(id)), id)
  }

  /** The `sync` callback on one item: the store afterwards and the record
      the item resolved to. The store stays consistent, the record is
      indexed under its own key, and it carries every field of the item. */
  function SyncItemSpec(registry: map<string, TypeInfo>, s: StoreState, modelType: string, item: seq<(string, Value)>): (r: (StoreState, Ref))
    requires StoreValid(s)
    ensures StoreValid(r.0) && r.1 in r.0.records
    ensures r.0.records[r.1].KeyOf() in r.0.store && r.0.store[r.0.records[r.1].KeyOf()] == r.1
    ensures forall k :: k in ToMap(item) ==>
      k in r.0.records[r.1].fields && r.0.records[r.1].fields[k] == ToMap(item)[k]
  {
    var fields := ToMap(item);
    if modelType !in registry then
      assert Key(GenericType, Auto(s.nextRef)) !in s.store;
      AddRecord(s, Key(GenericType, Auto(s.nextRef)), fields)
    else
      var ki := ItemKey(s, modelType, registry[modelType], item);
      var key := ki.0;
      var id := ki.1;
      var lookup := registry[modelType].OrphanType? || id != Undefined;
      assert !lookup ==> key !in s.store;
      var step :=
        if lookup && key in s.store then (UpdateRecord(s, s.store[key], fields), s.store[key])
        else AddRecord(s, key, fields);
      (MarkPersisted(step.0, step.1, Truthy(id)), step.1)
  }

  /** `sync` over a list of items, one after the other. */
  function SyncAllSpec(registry: map<string, TypeInfo>, s: StoreState, modelType: string, items: seq<seq<(string, Value)>>): (r: (StoreState, seq<Ref>))
    requires StoreValid(s)
    ensures StoreValid(r.0)
    ensures |r.1| == |items|
  {
    if items == [] then (s, [])
    else
      var prefix := SyncAllSpec(registry, s, modelType, items[..|items| - 1]);
      var last := SyncItemSpec(registry, prefix.0, modelType, items[|items| - 1]);
      (last.0, prefix.1 + [last.1])
  }

  /** `sync(raw, type)` on the whole payload: the store afterwards and the
      result, whose shape mirrors the payload's: `null` for `null` or
      `undefined`, one record for one item, one record per element, in
      order, for an array. */
  function SyncSpec(registry: map<string, TypeInfo>, s: StoreState, raw: Value, modelType: string): (r: (StoreState, Option<OneOrMany<Ref>>))
    requires StoreValid(s)
    ensures StoreValid(r.0)
    ensures r.1.None? <==> raw == Null || raw == Undefined
    ensures r.1.None? ==> r.0 == s
    ensures raw.Arr? ==> r.1.Some? && r.1.value.Many? && |r.1.value.items| == |raw.elems|
    ensures !raw.Arr? && raw != Null && raw != Undefined ==> r.1.Some? && r.1.value.One?
  {
    match RawItems(raw)
    case None => (s, None)
    case Some(One(item)) =>
      var x := SyncItemSpec(registry, s, modelType, item);
      (x.0, Some(One(x.1)))
    case Some(Many(items)) =>
      var x := SyncAllSpec(registry, s, modelType, items);
      (x.0, Some(Many(x.1)))
  }

  /** One more item: the prefix's store, then that item synced into it. */
  lemma SyncAllStep(registry: map<string, TypeInfo>, s: StoreState, modelType: string, xs: seq<seq<(string, Value)>>, i: nat)
    requires StoreValid(s) && i < |xs|
    ensures var prefix := SyncAllSpec(registry, s, modelType, xs[..i]);
      var last := SyncItemSpec(registry, prefix.0, modelType, xs[i]);
      SyncAllSpec(registry, s, modelType, xs[..i + 1]) == (last.0, prefix.1 + [last.1])
  {
    assert xs[..i + 1][..i] == xs[..i];
  }

  /** An item whose (type, id) is already in the store resolves to that same
      record, updated in place with the item's fields; the index, the other
      records and the reference counter are unchanged. */
  lemma SyncExisting(registry: map<string, TypeInfo>, s: StoreState, modelType: string, item: seq<(string, Value)>)
    requires StoreValid(s)
    requires modelType in registry && registry[modelType].IdField?
    requires Get(item, registry[modelType].name) != Undefined
    requires Key(modelType, Given(Get(item, registry[modelType].name))) in s.store
    ensures var id := Get(item, registry[modelType].name);
      var ref := s.store[Key(modelType, Given(id))];
      var r := SyncItemSpec(registry, s, modelType, item);
      && r.1 == ref
      && r.0.store == s.store && r.0.nextRef == s.nextRef
      && r.0.records == s.records[ref := UpdateFields(s.records[ref], ToMap(item)).(persisted := Truthy(id))]
  {
    SyncFound(registry, s, modelType, item);
    var ref := s.store[Key(modelType, Given(Get(item, registry[modelType].name)))];
    var u := UpdateFields(s.records[ref], ToMap(item));
    MapUpdateTwice(s.records, ref, u, u.(persisted := Truthy(Get(item, registry[modelType].name))));
  }

  /** An item of an orphan type resolves to the record at the reserved id:
      the existing one if there is one, otherwise a new one indexed there.
      No other key is added, and the record is never marked persisted. */
  lemma SyncOrphan(registry: map<string, TypeInfo>, s: StoreState, modelType: string, item: seq<(string, Value)>)
    requires StoreValid(s)
    requires modelType in registry && registry[modelType] == OrphanType
    ensures var key := Key(modelType, Orphan);
      var r := SyncItemSpec(registry, s, modelType, item);
      && (key in s.store ==> r.1 == s.store[key] && r.0.store == s.store)
      && (key !in s.store ==> r.0.store == s.store[key := r.1] && r.1 !in s.records)
      && !r.0.records[r.1].persisted
  {
  }

  /** An item with no id is never looked up: it always becomes a new record
      under a fresh automatic id, not persisted. */
  lemma SyncWithoutId(registry: map<string, TypeInfo>, s: StoreState, modelType: string, item: seq<(string, Value)>)
    requires StoreValid(s)
    requires modelType in registry && registry[modelType].IdField?
    requires Get(item, registry[modelType].name) == Undefined
    ensures var r := SyncItemSpec(registry, s, modelType, item);
      && r.1 !in s.records
      && r.0.store == s.store[Key(modelType, Auto(s.nextRef)) := r.1]
      && Key(modelType, Auto(s.nextRef)) !in s.store
      && |r.0.store| == |s.store| + 1
      && !r.0.records[r.1].persisted
  {
    assert Key(modelType, Auto(s.nextRef)) !in s.store;
  }

  /** The persisted flag is `Boolean(id)`: false for an orphan, for an item
      with no id and for a falsy id, true otherwise. */
  lemma SyncPersisted(registry: map<string, TypeInfo>, s: StoreState, modelType: string, item: seq<(string, Value)>)
    requires StoreValid(s)
    requires modelType in registry
    ensures var r := SyncItemSpec(registry, s, modelType, item);
      r.0.records[r.1].persisted <==>
        registry[modelType].IdField? && Truthy(Get(item, registry[modelType].name))
  {
  }

  /** An item of a type the collection does not know always becomes a fresh
      generic record; nothing already in the store changes. */
  lemma SyncUnregistered(registry: map<string, TypeInfo>, s: StoreState, modelType: string, item: seq<(string, Value)>)
    requires StoreValid(s)
    requires modelType !in registry
    ensures var r := SyncItemSpec(registry, s, modelType, item);
      && r.1 !in s.records
      && r.0.records[r.1].modelType == GenericType
      && (forall ref :: ref in s.records ==> r.0.records[ref] == s.records[ref])
      && |r.0.store| == |s.store| + 1
  {
    assert Key(GenericType, Auto(s.nextRef)) !in s.store;
  }

  /** Writing a map's own entries over it changes nothing. */
  lemma MergeAbsorbed(x: map<string, Value>, f: map<string, Value>)
    requires forall k :: k in f ==> k in x && x[k] == f[k]
    ensures x + f == x
  {
  }

  /** Writing an entry's own value back leaves a map unchanged. */
  lemma MapSelfUpdate<K, V>(m: map<K, V>, k: K)
    requires k in m
    ensures m[k := m[k]] == m
  {
  }

  /** The second of two writes to one key wins. */
  lemma MapUpdateTwice<K, V>(m: map<K, V>, k: K, v: V, w: V)
    ensures m[k := v][k := w] == m[k := w]
  {
  }

  /** When the item's key is already indexed, `sync` updates that record in
      place and sets its persisted flag. */
  lemma SyncFound(registry: map<string, TypeInfo>, s: StoreState, modelType: string, item: seq<(string, Value)>)
    requires StoreValid(s)
    requires modelType in registry
    requires registry[modelType].OrphanType? || Get(item, registry[modelType].name) != Undefined
    requires ItemKey(s, modelType, registry[modelType], item).0 in s.store
    ensures var ki := ItemKey(s, modelType, registry[modelType], item);
      var ref := s.store[ki.0];
      SyncItemSpec(registry, s, modelType, item) == (MarkPersisted(UpdateRecord(s, ref, ToMap(item)), ref, Truthy(ki.1)), ref)
  {
  }

  /** An item of a registered type resolves to a record under its own key. */
  lemma SyncKey(registry: map<string, TypeInfo>, s: StoreState, modelType: string, item: seq<(string, Value)>)
    requires StoreValid(s)
    requires modelType in registry
    ensures var r := SyncItemSpec(registry, s, modelType, item);
      r.0.records[r.1].KeyOf() == ItemKey(s, modelType, registry[modelType], item).0
  {
  }

  /** Syncing an item a second time changes nothing and resolves to the same
      record, when the item is of an orphan type or carries an id. */
  lemma SyncIdempotent(registry: map<string, TypeInfo>, s: StoreState, modelType: string, item: seq<(string, Value)>)
    requires StoreValid(s)
    requires modelType in registry
    requires registry[modelType].OrphanType? || Get(item, registry[modelType].name) != Undefined
    ensures var once := SyncItemSpec(registry, s, modelType, item);
      SyncItemSpec(registry, once.0, modelType, item) == once
  {
    var once := SyncItemSpec(registry, s, modelType, item);
    var s1 := once.0;
    var ref := once.1;
    var ki := ItemKey(s, modelType, registry[modelType], item);
    assert ItemKey(s1, modelType, registry[modelType], item) == ki;
    SyncKey(registry, s, modelType, item);
    SyncFound(registry, s1, modelType, item);
    var rec := s1.records[ref];
    MergeAbsorbed(rec.fields, ToMap(item));
    SyncPersisted(registry, s, modelType, item);
    assert UpdateFields(rec, ToMap(item)) == rec;
    MapSelfUpdate(s1.records, ref);
    assert UpdateRecord(s1, ref, ToMap(item)) == s1;
    assert rec.(persisted := Truthy(ki.1)) == rec;
    assert MarkPersisted(s1, ref, Truthy(ki.1)) == s1;
    assert s1.store[ki.0] == ref;
    assert SyncItemSpec(registry, s1, modelType, item) == (s1, ref);
  }

  /** Any number of items of an orphan type all resolve to one record, and
      the store never holds a second key of that type. */
  lemma {:induction false} SyncAllOrphan(registry: map<string, TypeInfo>, s: StoreState, modelType: string, items: seq<seq<(string, Value)>>)
    requires StoreValid(s)
    requires modelType in registry && registry[modelType] == OrphanType
    requires forall k :: k in s.store && k.modelType == modelType ==> k.id == Orphan
    ensures var r := SyncAllSpec(registry, s, modelType, items);
      && StoreValid(r.0)
      && (forall k :: k in r.0.store && k.modelType == modelType ==> k.id == Orphan)
      && (items != [] ==> Key(modelType, Orphan) in r.0.store)
      && (forall i :: 0 <= i < |r.1| ==> r.1[i] == r.0.store[Key(modelType, Orphan)])
    decreases |items|
  {
    if items != [] {
      var init := items[..|items| - 1];
      SyncAllOrphan(registry, s, modelType, init);
      var prefix := SyncAllSpec(registry, s, modelType, init);
      SyncOrphan(registry, prefix.0, modelType, items[|items| - 1]);
    }
  }

  /** Fetching an orphan resource four times leaves exactly one record of
      its type in the store. */
  lemma OrphanFetchedFourTimes(registry: map<string, TypeInfo>, modelType: string, item: seq<(string, Value)>)
    requires modelType in registry && registry[modelType] == OrphanType
    ensures var r := SyncAllSpec(registry, StoreState(map[], map[], 0), modelType, [item, item, item, item]);
      r.0.store.Keys == {Key(modelType, Orphan)}
  {
    var s := StoreState(map[], map[], 0);
    SyncAllOrphan(registry, s, modelType, [item, item, item, item]);
    var r := SyncAllSpec(registry, s, modelType, [item, item, item, item]);
    assert forall k :: k in r.0.store ==> k.modelType == modelType by {
      SyncAllTypes(registry, s, modelType, [item, item, item, item]);
    }
  }

  /** A sync of a registered type only adds keys of that type. */
  lemma {:induction false} SyncAllTypes(registry: map<string, TypeInfo>, s: StoreState, modelType: string, items: seq<seq<(string, Value)>>)
    requires StoreValid(s)
    requires modelType in registry
    ensures forall k :: k in SyncAllSpec(registry, s, modelType, items).0.store ==> k in s.store || k.modelType == modelType
    decreases |items|
  {
    if items != [] {
      SyncAllTypes(registry, s, modelType, items[..|items| - 1]);
    }
  }

  /** `mapItems`: `null`/`undefined` give `null`, an array gives one result
      per element in order, anything else one result. */
  function RawItems(raw: Value): (r: Option<OneOrMany<seq<(string, Value)>>>)
    ensures r.None? <==> raw == Null || raw == Undefined
    ensures raw.Arr? ==> r.Some? && r.value.Many? && |r.value.items| == |raw.elems|
  {
    match raw
    case Null => None
    case Undefined => None
    case Arr(elems) => Some(Many(seq(|elems|, i requires 0 <= i < |elems| => ItemProps(elems[i]))))
    case _ => Some(One(ItemProps(raw)))
  }

  /** The properties of one raw item (a non-object item has none). */
  function ItemProps(item: Value): seq<(string, Value)> {
    if item.Obj? then item.props else []
  }

  /** `add(model)` of an existing model instance: the store indexes it under
      its own (type, id), in place of whatever was there. */
  function Indexed(s: StoreState, ref: Ref): (r: StoreState)
    requires ref in s.records
    ensures r.records == s.records && r.nextRef == s.nextRef
    ensures r.store == s.store[s.records[ref].KeyOf() := ref]
    ensures StoreValid(s) ==> StoreValid(r)
  {
    s.(store := s.store[s.records[ref].KeyOf() := ref])
  }

  /** `add(models)`: each model indexed in turn. */
  function IndexedAll(s: StoreState, refs: seq<Ref>): (r: StoreState)
    requires forall i :: 0 <= i < |refs| ==> refs[i] in s.records
    ensures r.records == s.records && r.nextRef == s.nextRef
    ensures StoreValid(s) ==> StoreValid(r)
    ensures forall i :: 0 <= i < |refs| ==> s.records[refs[i]].KeyOf() in r.store
    ensures forall k :: k in s.store ==> k in r.store
    decreases |refs|
  {
    if refs == [] then s
    else IndexedAll(Indexed(s, refs[0]), refs[1..])
  }

  /** `updateModelId(model, id)`: the record takes the new id and the store
      moves its entry from the old key to the new one. */
  function Rekeyed(s: StoreState, ref: Ref, id: Id): (r: StoreState)
    requires ref in s.records
    ensures r.records == s.records[ref := s.records[ref].(id := id)] && r.nextRef == s.nextRef
    ensures var old_key := s.records[ref].KeyOf();
      r.store == (if old_key in s.store && s.store[old_key] == ref then s.store - {old_key} else s.store)[Key(s.records[ref].modelType, id) := ref]
    ensures StoreValid(s) && (id.Auto? ==> id.n < s.nextRef) ==> StoreValid(r)
  {
    var oldKey := s.records[ref].KeyOf();
    var store := if oldKey in s.store && s.store[oldKey] == ref then s.store - {oldKey} else s.store;
    StoreState(s.records[ref := s.records[ref].(id := id)], store[Key(s.records[ref].modelType, id) := ref], s.nextRef)
  }

  /** The outcome of `fetch` once `query` has settled: a response carrying
      an error becomes a rejection with that error. */
  datatype Settlement = Resolves(response: Network.RawResponse) | Rejects(error: Network.FetchError)

  function SettleFetch(response: Network.RawResponse): (r: Settlement)
    ensures r.Rejects? <==> response.error.Some?
    ensures r.Rejects? ==> r.error == response.error.value
    ensures r.Resolves? ==> r.response == response && r.response.error.None?
  {
    if response.error.Some? then Rejects(response.error.value) else Resolves(response)
  }

  /** `clearCacheByType(type)`: drops exactly the cache entries of that type. */
  function ClearCacheByType(cache: map<string, string>, modelType: string): (c: map<string, string>)
    ensures forall k :: k in c <==> k in cache && cache[k] != modelType
    ensures forall k :: k in c ==> c[k] == cache[k]
  {
    map k | k in cache && cache[k] != modelType :: cache[k]
  }

  /** The first argument of `removeOne`: a type or a model. */
  datatype RemoveTarget = TypeTarget(modelType: string) | ModelTarget(ref: Ref)

  /** An optional argument of `removeOne`: absent, an id (string or number),
      a boolean, an options object, or `null`. */
  datatype RemoveArg =
    | NoArg
    | IdArg(id: Id)
    | FlagArg(flag: bool)
    | OptionsArg(options: Network.RequestOptions)
    | NullArg

  /** `typeof x === 'boolean' || typeof x === 'object'` (`null` is an object). */
  predicate IsFlagOrObject(a: RemoveArg) {
    a.FlagArg? || a.OptionsArg? || a.NullArg?
  }

  function ArgTruthy(a: RemoveArg): bool {
    match a
    case NoArg => false
    case IdArg(id) => if id.Given? then Truthy(id.value) else true
    case FlagArg(b) => b
    case OptionsArg(_) => true
    case NullArg => false
  }

  /** How `removeOne` reads its arguments: the remote flag (`id` when it is a
      boolean or an object, `remote` otherwise), the model id (`id` when it
      is a string or number, the model's own id when `id` is a boolean or the
      target is a model) and the type. */
  datatype RemovePlan = RemovePlan(modelType: string, modelId: Option<Id>, remove: RemoveArg)

  function DecodeRemove(records: map<Ref, RecordData>, obj: RemoveTarget, id: RemoveArg, remote: RemoveArg): (p: RemovePlan)
    requires obj.ModelTarget? ==> obj.ref in records
    ensures p.remove == if IsFlagOrObject(id) then id else remote
    ensures id.IdArg? ==> p.modelId == Some(id.id)
    ensures obj.ModelTarget? && !id.IdArg? ==> p.modelId == Some(records[obj.ref].id)
    ensures obj.TypeTarget? && !id.IdArg? ==> p.modelId.None?
    ensures p.modelType == if obj.TypeTarget? then obj.modelType else records[obj.ref].modelType
  {
    var remove := if IsFlagOrObject(id) then id else remote;
    var modelId :=
      if id.IdArg? then Some(id.id)
      else if (id.FlagArg? || obj.ModelTarget?) && obj.ModelTarget? then Some(records[obj.ref].id)
      else None;
    var modelType := if obj.TypeTarget? then obj.modelType else records[obj.ref].modelType;
    RemovePlan(modelType, modelId, remove)
  }

  /** In a consistent store the model found under (type, id) has that id,
      so `removeOne`'s guard against a found model with another id never
      fires. */
  lemma FoundModelHasId(s: StoreState, plan: RemovePlan)
    requires StoreValid(s)
    requires plan.modelId.Some? && Key(plan.modelType, plan.modelId.value) in s.store
    ensures s.records[s.store[Key(plan.modelType, plan.modelId.value)]].id == plan.modelId.value
  {
    var k := Key(plan.modelType, plan.modelId.value);
    assert s.records[s.store[k]].KeyOf() == k;
  }

  /** What `removeOne` leaves to do: nothing more, or the remote removal of
      the found model with the options object given as the remote flag. */
  datatype RemoveOutcome = Settled | RemoteRemoval(ref: Ref, options: Option<Network.RequestOptions>)

  /** `fetch(type, ids, options)` argument handling: with exactly two
      arguments a plain object in the ids position is the options. */
  datatype IdsPosition = NoIds | IdsGiven(ids: Network.Ids) | PlainObject(options: Network.RequestOptions)

  function FetchArguments(argc: nat, ids: IdsPosition, options: Option<Network.RequestOptions>): (r: (IdsPosition, Option<Network.RequestOptions>))
    ensures argc == 2 && ids.PlainObject? ==> r == (NoIds, Some(ids.options))
    ensures !(argc == 2 && ids.PlainObject?) ==> r == (ids, options)
    ensures argc == 2 ==> !r.0.PlainObject?
  {
    if argc == 2 && ids.PlainObject? then (NoIds, Some(ids.options)) else (ids, options)
  }

  /** A collection with the net patches mixed in. */
  class Collection {
    const registry: map<string, TypeInfo>
    var records: map<Ref, RecordData>
    var store: map<Key, Ref>
    var nextRef: Ref
    /** Cached responses: cache key to the model type they hold. */
    var cache: map<string, string>

    function State(): StoreState
      reads this
    {
      StoreState(records, store, nextRef)
    }

    predicate Valid()
      reads this
    {
      StoreValid(State())
    }

    constructor (registry: map<string, TypeInfo>)
      ensures Valid()
      ensures this.registry == registry && records == map[] && store == map[] && nextRef == 0 && cache == map[]
    {
      this.registry := registry;
      records := map[];
      store := map[];
      nextRef := 0;
      cache := map[];
    }

    /** `findOne(type, id)`. */
    method FindOne(key: Key) returns (r: Option<Ref>)
      ensures r.Some? <==> key in store
      ensures r.Some? ==> r.value == store[key]
    {
      if key in store {
        r := Some(store[key]);
      } else {
        r := None;
      }
    }

    /** `add(item, type)`: a new record under `key`. */
    method Add(key: Key, fields: map<string, Value>) returns (ref: Ref)
      modifies this
      ensures (State(), ref) == AddRecord(old(State()), key, fields)
      ensures cache == old(cache)
    {
      ref := nextRef;
      records := records[ref := RecordData(key.modelType, key.id, fields, false)];
      store := store[key := ref];
      nextRef := nextRef + 1;
    }

    /** `new Model(data)`: a model instance the collection does not index. */
    method NewModel(modelType: string, id: Option<Value>, fields: map<string, Value>) returns (ref: Ref)
      requires Valid()
      modifies this
      ensures Valid()
      ensures (State(), ref) == DetachedRecord(old(State()), modelType, id, fields)
      ensures cache == old(cache)
    {
      ref := nextRef;
      records := records[ref := RecordData(modelType, if id.Some? then Given(id.value) else Auto(ref), fields, false)];
      nextRef := nextRef + 1;
    }

    /** `updateModel(record, item)` on the record at `ref`. */
    method UpdateModel(ref: Ref, fields: map<string, Value>)
      requires ref in records
      modifies this
      ensures State() == UpdateRecord(old(State()), ref, fields)
      ensures cache == old(cache)
    {
      records := records[ref := UpdateFields(records[ref], fields)];
    }

    /** `setModelPersisted(record, flag)`. */
    method SetPersisted(ref: Ref, flag: bool)
      requires ref in records
      modifies this
      ensures State() == MarkPersisted(old(State()), ref, flag)
      ensures cache == old(cache)
    {
      records := records[ref := records[ref].(persisted := flag)];
    }

    /** The `sync` callback on one item. */
    method SyncItem(modelType: string, item: seq<(string, Value)>) returns (ref: Ref)
      requires Valid()
      modifies this
      ensures Valid()
      ensures (State(), ref) == SyncItemSpec(registry, old(State()), modelType, item)
      ensures cache == old(cache)
    {
      var fields := ToMap(item);
      if modelType !in registry {
        ref := Add(Key(GenericType, Auto(nextRef)), fields);
        return;
      }
      ghost var ki := ItemKey(State(), modelType, registry[modelType], item);
      var id := Undefined;
      var key := Key(modelType, Orphan);
      var found: Option<Ref> := None;
      if registry[modelType].OrphanType? {
        found := FindOne(key);
      } else {
        id := Get(item, registry[modelType].name);
        key := Key(modelType, if id == Undefined then Auto(nextRef) else Given(id));
        if id != Undefined {
          found := FindOne(key);
        }
      }
      assert (key, id) == ki;
      if found.Some? {
        ref := found.value;
        UpdateModel(ref, fields);
      } else {
        ref := Add(key, fields);
      }
      SetPersisted(ref, Truthy(id));
    }

    /** The `sync` callback over a list of items, in order. */
    method SyncList(modelType: string, xs: seq<seq<(string, Value)>>) returns (refs: seq<Ref>)
      requires Valid()
      modifies this
      ensures Valid()
      ensures (State(), refs) == SyncAllSpec(registry, old(State()), modelType, xs)
      ensures cache == old(cache)
    {
      refs := [];
      var i := 0;
      while i < |xs|
        invariant 0 <= i <= |xs|
        invariant Valid() && cache == old(cache)
        invariant State() == SyncAllSpec(registry, old(State()), modelType, xs[..i]).0
        invariant refs == SyncAllSpec(registry, old(State()), modelType, xs[..i]).1
      {
        SyncAllStep(registry, old(State()), modelType, xs, i);
        var ref := SyncItem(modelType, xs[i]);
        refs := refs + [ref];
        i := i + 1;
      }
      assert xs[..|xs|] == xs;
    }

    /** `sync(raw, type)`: one record for a single item, records in item
      order for an array, `null` for `null`/`undefined`. */
    method Sync(raw: Value, modelType: string) returns (r: Option<OneOrMany<Ref>>)
      requires Valid()
      modifies this
      ensures Valid()
      ensures cache == old(cache)
      ensures (State(), r) == SyncSpec(registry, old(State()), raw, modelType)
    {
      var items := RawItems(raw);
      match items
      case None =>
        r := None;
      case Some(One(item)) =>
        var ref := SyncItem(modelType, item);
        r := Some(One(ref));
      case Some(Many(xs)) =>
        var refs := SyncList(modelType, xs);
        r := Some(Many(refs));
    }

    /** `add(model)` of an existing model instance. */
    method Insert(ref: Ref)
      requires Valid() && ref in records
      modifies this
      ensures Valid()
      ensures State() == Indexed(old(State()), ref)
      ensures cache == old(cache)
    {
      store := store[records[ref].KeyOf() := ref];
    }

    /** `add(models)` of existing model instances, in order. */
    method InsertAll(refs: seq<Ref>)
      requires Valid()
      requires forall i :: 0 <= i < |refs| ==> refs[i] in records
      modifies this
      ensures Valid()
      ensures State() == IndexedAll(old(State()), refs)
      ensures cache == old(cache)
    {
      var i := 0;
      while i < |refs|
        invariant 0 <= i <= |refs|
        invariant Valid() && cache == old(cache) && records == old(records)
        invariant IndexedAll(old(State()), refs) == IndexedAll(State(), refs[i..])
      {
        assert refs[i..][1..] == refs[i + 1..];
        Insert(refs[i]);
        i := i + 1;
      }
    }

    /** `updateModelId(model, id)`. */
    method ChangeId(ref: Ref, id: Id)
      requires Valid() && ref in records
      requires id.Auto? ==> id.n < nextRef
      modifies this
      ensures Valid()
      ensures State() == Rekeyed(old(State()), ref, id)
      ensures cache == old(cache)
    {
      var oldKey := records[ref].KeyOf();
      if oldKey in store && store[oldKey] == ref {
        store := store - {oldKey};
      }
      store := store[Key(records[ref].modelType, id) := ref];
      records := records[ref := records[ref].(id := id)];
    }

    /** `removeOne(obj, id, remote)`. A found model with a truthy remote flag
      is handed over for remote removal and nothing else happens; otherwise
      a found model is removed from the index, and the type's cache entries
      are dropped whether or not a model was found. */
    method RemoveOne(obj: RemoveTarget, id: RemoveArg, remote: RemoveArg) returns (outcome: RemoveOutcome)
      requires Valid()
      requires obj.ModelTarget? ==> obj.ref in records
      modifies this
      ensures Valid()
      ensures records == old(records) && nextRef == old(nextRef)
      ensures var p := DecodeRemove(old(records), obj, id, remote);
        var found := p.modelId.Some? && Key(p.modelType, p.modelId.value) in old(store);
        if found && ArgTruthy(p.remove) then
          && outcome == RemoteRemoval(old(store)[Key(p.modelType, p.modelId.value)],
                                      if p.remove.OptionsArg? then Some(p.remove.options) else None)
          && store == old(store) && cache == old(cache)
        else
          && outcome == Settled
          && store == (if found then old(store) - {Key(p.modelType, p.modelId.value)} else old(store))
          && cache == ClearCacheByType(old(cache), p.modelType)
    {
      var plan := DecodeRemove(records, obj, id, remote);
      var model: Option<Ref> := None;
      if plan.modelId.Some? {
        model := FindOne(Key(plan.modelType, plan.modelId.value));
      }
      if model.Some? && ArgTruthy(plan.remove) {
        outcome := RemoteRemoval(model.value, if plan.remove.OptionsArg? then Some(plan.remove.options) else None);
        return;
      }
      if model.Some? {
        store := store - {Key(plan.modelType, plan.modelId.value)};
      }
      cache := ClearCacheByType(cache, plan.modelType);
      outcome := Settled;
    }

    /** `removeAll(type)`: every record of the type leaves the index and the
      type's cache entries are dropped. */
    method RemoveAll(modelType: string)
      requires Valid()
      modifies this
      ensures Valid()
      ensures records == old(records) && nextRef == old(nextRef)
      ensures forall k :: k in store <==> k in old(store) && k.modelType != modelType
      ensures forall k :: k in store ==> store[k] == old(store)[k]
      ensures cache == ClearCacheByType(old(cache), modelType)
    {
      store := map k | k in store && k.modelType != modelType :: store[k];
      cache := ClearCacheByType(cache, modelType);
    }

    /** `reset()`: the index and the whole cache are emptied. */
    method Reset()
      requires Valid()
      modifies this
      ensures Valid()
      ensures records == old(records) && nextRef == old(nextRef)
      ensures store == map[] && cache == map[]
    {
      store := map[];
      cache := map[];
    }
  }
}
