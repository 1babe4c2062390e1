/** `ResponseView`: the envelope a fetch resolves to. It holds the synced
    data, copies the response's status, headers and error, attaches the data
    to views, and can `replace` its record with another instance. */
module Envelope {
  import opened JsValues
  import opened Datx
  import opened NetPatches
  import Network

  /** `list.indexOf(x)`: the first position of `x`, or -1. */
  function IndexOf(list: seq<Ref>, x: Ref): (i: int)
    ensures -1 <= i < |list|
    ensures i == -1 <==> x !in list
    ensures i >= 0 ==> list[i] == x && x !in list[..i]
  {
    if list == [] then -1
    else if list[0] == x then 0
    else
      var j := IndexOf(list[1..], x);
      assert list[1..][..if j >= 0 then j else 0] == list[1..1 + if j >= 0 then j else 0];
      if j == -1 then -1 else j + 1
  }

  /** What `replace` does to one view's list: the first position that held
      `x` now holds `y`; a list without `x` is left as it is. */
  function ReplaceFirst(list: seq<Ref>, x: Ref, y: Ref): (r: seq<Ref>)
    ensures |r| == |list|
    ensures x !in list ==> r == list
    ensures x in list ==> r == list[IndexOf(list, x) := y]
  {
    var i := IndexOf(list, x);
    if i == -1 then list else list[i := y]
  }

  /** Only the first occurrence changes: every other position keeps its
      reference, and the earlier positions never held `x`. */
  lemma ReplaceFirstOnly(list: seq<Ref>, x: Ref, y: Ref)
    requires x in list
    ensures var r := ReplaceFirst(list, x, y);
      exists i :: 0 <= i < |list| && list[i] == x && r[i] == y && x !in list[..i] &&
        forall j :: 0 <= j < |list| && j != i ==> r[j] == list[j]
  {
    var i := IndexOf(list, x);
    assert list[i] == x;
  }

  /** A list whose first `x` was replaced by `y` holds `y` at the first
      position where either `x` or `y` appears, when `y` was not in it. */
  lemma {:induction false} ReplaceFirstFindsNew(list: seq<Ref>, x: Ref, y: Ref)
    requires x in list && y !in list
    ensures IndexOf(ReplaceFirst(list, x, y), y) == IndexOf(list, x)
    decreases |list|
  {
    if list[0] != x {
      var r := ReplaceFirst(list, x, y);
      assert r[0] == list[0];
      assert r[1..] == ReplaceFirst(list[1..], x, y);
      ReplaceFirstFindsNew(list[1..], x, y);
    }
  }

  /** The collection after `replace(d)` of the record `rec`: the old record's
      (type, id) leaves the index, `d` is added, takes the old record's
      fields over its own and the old record's id, and the new envelope
      adds `d` once more. */
  function ReplacedState(s: StoreState, rec: Ref, d: Ref): (r: StoreState)
    requires rec in s.records && d in s.records
    ensures r.nextRef == s.nextRef && d in r.records
    ensures r.records[d].KeyOf() in r.store && r.store[r.records[d].KeyOf()] == d
    ensures StoreValid(s) ==> StoreValid(r)
  {
    var key := s.records[rec].KeyOf();
    var removed := s.(store := s.store - {key});
    var added := Indexed(removed, d);
    var merged := UpdateRecord(added, d, s.records[rec].fields);
    assert StoreValid(s) && key.id.Auto? ==> key.id.n < s.nextRef;
    Rekeyed(merged, d, key.id)
  }

  /** Adding a record that is already indexed under its own key changes
      nothing: the `add` made by the envelope `replace` returns is a no-op. */
  lemma AddIndexedAgain(s: StoreState, d: Ref)
    requires d in s.records && s.records[d].KeyOf() in s.store && s.store[s.records[d].KeyOf()] == d
    ensures IndexedAll(s, [d]) == s
  {
    MapSelfUpdate(s.store, s.records[d].KeyOf());
    assert [d][1..] == [];
  }

  /** After `replace`, `d` carries the old record's id and its fields with
      the old record's written over them; `d` keeps its type and flag; the
      old record object and every other record are unchanged. */
  lemma ReplacedRecords(s: StoreState, rec: Ref, d: Ref)
    requires StoreValid(s) && rec in s.records && d in s.records && rec != d
    ensures var r := ReplacedState(s, rec, d);
      && r.records.Keys == s.records.Keys
      && r.records[d].id == s.records[rec].id
      && r.records[d].modelType == s.records[d].modelType
      && r.records[d].persisted == s.records[d].persisted
      && r.records[d].fields == s.records[d].fields + s.records[rec].fields
      && (forall ref :: ref in s.records && ref != d ==> r.records[ref] == s.records[ref])
  {
  }

  /** After `replace`, the store finds `d` under its type and the old id; for
      a `d` of the old record's type that is the old record's key, so a
      lookup that found the old record now finds `d`. Keys other than the
      old record's and `d`'s own are untouched. */
  lemma ReplacedIndex(s: StoreState, rec: Ref, d: Ref)
    requires StoreValid(s) && rec in s.records && d in s.records && rec != d
    ensures var r := ReplacedState(s, rec, d);
      var newKey := Key(s.records[d].modelType, s.records[rec].id);
      && newKey in r.store && r.store[newKey] == d
      && (s.records[d].modelType == s.records[rec].modelType ==> r.store[s.records[rec].KeyOf()] == d)
      && (forall k :: k != s.records[rec].KeyOf() && k != s.records[d].KeyOf() && k != newKey ==>
            (k in r.store <==> k in s.store) && (k in s.store ==> r.store[k] == s.store[k]))
  {
    var key := s.records[rec].KeyOf();
    var removed := s.(store := s.store - {key});
    var added := Indexed(removed, d);
    var merged := UpdateRecord(added, d, s.records[rec].fields);
    assert merged.records[d].KeyOf() == s.records[d].KeyOf();
    assert merged.store[s.records[d].KeyOf()] == d;
  }

  /** `replace(new Model(data))` of an indexed record of the same type: the
      new instance takes over the old record's key, its id and its fields
      (over the data's own); the old record object is left as it was. */
  lemma ReplaceByNewModel(s: StoreState, rec: Ref, id: Option<Value>, fields: map<string, Value>)
    requires StoreValid(s) && rec in s.records
    ensures var n := DetachedRecord(s, s.records[rec].modelType, id, fields);
      var r := ReplacedState(n.0, rec, n.1);
      && n.1 != rec
      && r.store[s.records[rec].KeyOf()] == n.1
      && r.records[n.1].KeyOf() == s.records[rec].KeyOf()
      && r.records[n.1].fields == fields + s.records[rec].fields
      && !r.records[n.1].persisted
      && r.records[rec] == s.records[rec]
  {
    var n := DetachedRecord(s, s.records[rec].modelType, id, fields);
    ReplacedRecords(n.0, rec, n.1);
    ReplacedIndex(n.0, rec, n.1);
  }

  /** The response envelope. `meta` is the count of a list response (`None`
      for the default `{}`). */
  class ResponseView {
    var data: Option<OneOrMany<Ref>>
    var metaCount: Option<Value>
    var status: Option<int>
    var headers: Option<seq<(string, string)>>
    var requestHeaders: seq<(string, string)>
    var error: Option<Network.FetchError>
    var views: seq<View>
    const collection: Collection
    const requestOptions: Option<Network.RequestOptions>
    const rawResponse: Network.RawResponse
    const modelType: string

    /** Builds the envelope: the override data is added to the collection
        as it is, otherwise the payload is synced; non-null data is then
        appended to every view, and the response's fields are copied. */
    constructor (rawResponse: Network.RawResponse, modelType: string, collection: Collection,
                 requestOptions: Option<Network.RequestOptions>, overrideData: Option<OneOrMany<Ref>>,
                 views: seq<View>)
      requires collection.Valid()
      requires forall i :: 0 <= i < |Items(overrideData)| ==> Items(overrideData)[i] in collection.records
      requires forall i, j :: 0 <= i < j < |views| ==> views[i] != views[j]
      modifies collection, set v | v in views
      ensures collection.Valid() && collection.cache == old(collection.cache)
      ensures overrideData.Some? ==>
        data == overrideData && collection.State() == IndexedAll(old(collection.State()), Items(overrideData))
      ensures overrideData.None? ==>
        (collection.State(), data) ==
          SyncSpec(collection.registry, old(collection.State()), Payload(rawResponse), modelType)
      ensures this.views == views
      ensures forall i :: 0 <= i < |views| ==> views[i].list == old(views[i].list) + Items(data)
      ensures this.collection == collection && this.requestOptions == requestOptions
      ensures this.rawResponse == rawResponse && this.modelType == modelType
      ensures metaCount == rawResponse.metaCount && status == rawResponse.status
      ensures headers == rawResponse.headers && requestHeaders == rawResponse.requestHeaders
      ensures error == rawResponse.error
    {
      var d: Option<OneOrMany<Ref>>;
      if overrideData.Some? {
        collection.InsertAll(Items(overrideData));
        d := overrideData;
      } else {
        d := collection.Sync(Payload(rawResponse), modelType);
      }
      this.collection := collection;
      this.requestOptions := requestOptions;
      this.rawResponse := rawResponse;
      this.modelType := modelType;
      status := rawResponse.status;
      this.views := views;
      data := d;
      metaCount := rawResponse.metaCount;
      headers := rawResponse.headers;
      requestHeaders := rawResponse.requestHeaders;
      error := rawResponse.error;
      new;
      if d.Some? {
        AddToViews(views, Items(d));
      }
    }

    /** `replace(d)` for an envelope holding one record. Replacing the record
        with itself returns this envelope and changes nothing. Otherwise the
        collection drops the old record's (type, id) (and the type's cached
        responses) and takes `d` under the old id with the old record's
        fields; each view's first position that held the old record now
        holds `d`; and a fresh envelope around `d`, with no views, is
        returned. */
    method Replace(d: Ref) returns (r: ResponseView)
      requires collection.Valid()
      requires data.Some? && data.value.One? && data.value.item in collection.records
      requires d in collection.records
      requires forall i, j :: 0 <= i < j < |views| ==> views[i] != views[j]
      modifies collection, set v | v in views
      ensures collection.Valid()
      ensures d == data.value.item ==>
        && r == this
        && collection.State() == old(collection.State()) && collection.cache == old(collection.cache)
        && forall i :: 0 <= i < |views| ==> views[i].list == old(views[i].list)
      ensures d != data.value.item ==>
        && collection.State() == ReplacedState(old(collection.State()), data.value.item, d)
        && collection.cache == ClearCacheByType(old(collection.cache), old(collection.records[data.value.item].modelType))
        && (forall i :: 0 <= i < |views| ==> views[i].list == ReplaceFirst(old(views[i].list), data.value.item, d))
        && fresh(r) && r.data == Some(One(d)) && r.views == []
        && r.collection == collection && r.requestOptions == requestOptions && r.rawResponse == rawResponse
      ensures data == old(data) && views == old(views)
    {
      var record := data.value.item;
      if record == d {
        return this;
      }
      var viewIndexes := IndexesOf(views, record);
      SwapRecord(collection, record, d);
      WriteBack(views, viewIndexes, record, d);
      ghost var swapped := collection.State();
      r := new ResponseView(rawResponse, this.modelType, collection, requestOptions, Some(One(d)), []);
      AddIndexedAgain(swapped, d);
    }
  }

  /** The collection part of `replace`: `removeOne(type, id)` of the old
      record, `add(d)`, `updateModel(d, <old record's fields>)` and
      `updateModelId(d, id)`. */
  method SwapRecord(collection: Collection, record: Ref, d: Ref)
    requires collection.Valid() && record in collection.records && d in collection.records && record != d
    modifies collection
    ensures collection.Valid()
    ensures collection.State() == ReplacedState(old(collection.State()), record, d)
    ensures collection.cache == ClearCacheByType(old(collection.cache), old(collection.records[record].modelType))
  {
    ghost var s := collection.State();
    var newId := collection.records[record].id;
    var modelType := collection.records[record].modelType;
    var snapshot := collection.records[record].fields;
    var key := Key(modelType, newId);
    assert DecodeRemove(s.records, TypeTarget(modelType), IdArg(newId), NoArg) == RemovePlan(modelType, Some(newId), NoArg);
    var _ := collection.RemoveOne(TypeTarget(modelType), IdArg(newId), NoArg);
    assert collection.store == s.store - {key};
    ghost var removed := s.(store := s.store - {key});
    assert collection.State() == removed;
    collection.Insert(d);
    ghost var added := Indexed(removed, d);
    collection.UpdateModel(d, snapshot);
    ghost var merged := UpdateRecord(added, d, snapshot);
    assert collection.State() == merged;
    assert newId.Auto? ==> newId.n < collection.nextRef;
    collection.ChangeId(d, newId);
  }

  /** `views.forEach((view) => view.add(data))`. */
  method AddToViews(views: seq<View>, refs: seq<Ref>)
    requires forall i, j :: 0 <= i < j < |views| ==> views[i] != views[j]
    modifies set v | v in views
    ensures forall i :: 0 <= i < |views| ==> views[i].list == old(views[i].list) + refs
  {
    var i := 0;
    while i < |views|
      invariant 0 <= i <= |views|
      invariant forall j :: 0 <= j < i ==> views[j].list == old(views[j].list) + refs
      invariant forall j :: i <= j < |views| ==> views[j].list == old(views[j].list)
    {
      views[i].Add(refs);
      i := i + 1;
    }
  }

  /** `views.map((view) => view.list.indexOf(record))`. */
  method IndexesOf(views: seq<View>, record: Ref) returns (indexes: seq<int>)
    ensures |indexes| == |views|
    ensures forall j :: 0 <= j < |views| ==> indexes[j] == IndexOf(views[j].list, record)
  {
    indexes := [];
    var k := 0;
    while k < |views|
      invariant 0 <= k <= |views| && |indexes| == k
      invariant forall j :: 0 <= j < k ==> indexes[j] == IndexOf(views[j].list, record)
    {
      indexes := indexes + [IndexOf(views[k].list, record)];
      k := k + 1;
    }
  }

  /** The `forEach` that writes `d` at each recorded index other than -1. */
  method WriteBack(views: seq<View>, indexes: seq<int>, record: Ref, d: Ref)
    requires forall i, j :: 0 <= i < j < |views| ==> views[i] != views[j]
    requires |indexes| == |views|
    requires forall j :: 0 <= j < |views| ==> indexes[j] == IndexOf(views[j].list, record)
    modifies set v | v in views
    ensures forall i :: 0 <= i < |views| ==> views[i].list == ReplaceFirst(old(views[i].list), record, d)
  {
    var i := 0;
    while i < |views|
      invariant 0 <= i <= |views|
      invariant forall j :: 0 <= j < i ==> views[j].list == ReplaceFirst(old(views[j].list), record, d)
      invariant forall j :: i <= j < |views| ==> views[j].list == old(views[j].list)
    {
      if indexes[i] != -1 {
        views[i].list := views[i].list[indexes[i] := d];
      }
      i := i + 1;
    }
  }

  /** `rawResponse.data`, with `undefined` for a response without data. */
  function Payload(rawResponse: Network.RawResponse): (v: Value)
    ensures rawResponse.data.None? ==> v == Undefined
    ensures rawResponse.data.Some? ==> v == rawResponse.data.value
  {
    if rawResponse.data.Some? then rawResponse.data.value else Undefined
  }
}
