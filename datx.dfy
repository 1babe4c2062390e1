/** Stand-ins for the model layer the sync code is built on: model
    instances, their (type, id) keys and views holding references to them. */
module Datx {
  import opened JsValues

  /** A reference to a model instance. Two holders of the same `Ref` observe
      the same object, so an update through one is seen by all. */
  type Ref = nat

  /** A model identifier: a value from the payload, one the model layer
      assigned to a record that came without one, or the reserved id of an
      orphan (singleton) type. */
  datatype Id = Given(value: Value) | Auto(n: nat) | Orphan

  /** The (type, id) pair under which the store indexes a record. */
  datatype Key = Key(modelType: string, id: Id)

  /** The state of one model instance. */
  datatype RecordData = RecordData(modelType: string, id: Id, fields: map<string, Value>, persisted: bool)
  {
    function KeyOf(): Key {
      Key(modelType, id)
    }
  }

  /** `updateModel(record, data)`: the fields of `data` are written over the
      record's; the record's other fields, type, id and flag stay. */
  function UpdateFields(r: RecordData, data: map<string, Value>): (u: RecordData)
    ensures u.fields.Keys == r.fields.Keys + data.Keys
    ensures forall k :: k in data ==> u.fields[k] == data[k]
    ensures forall k :: k in r.fields && k !in data ==> u.fields[k] == r.fields[k]
    ensures u.KeyOf() == r.KeyOf() && u.persisted == r.persisted
  {
    r.(fields := r.fields + data)
  }

  /** Writing the same fields twice is writing them once. */
  lemma UpdateFieldsTwice(r: RecordData, data: map<string, Value>)
    ensures UpdateFields(UpdateFields(r, data), data) == UpdateFields(r, data)
  {
    assert UpdateFields(UpdateFields(r, data), data).fields == UpdateFields(r, data).fields;
  }

  /** The references `view.add(data)` appends (none for `null`). */
  function Items(data: Option<OneOrMany<Ref>>): (r: seq<Ref>)
    ensures data.None? ==> r == []
    ensures data.Some? && data.value.One? ==> r == [data.value.item]
    ensures data.Some? && data.value.Many? ==> r == data.value.items
  {
    match data
    case None => []
    case Some(One(x)) => [x]
    case Some(Many(xs)) => xs
  }

  /** A view: an ordered list of model references. */
  class View {
    var list: seq<Ref>

    constructor (models: seq<Ref>)
      ensures list == models
    {
      list := models;
    }

    /** `view.add(models)`: the models are appended in order. */
    method Add(models: seq<Ref>)
      modifies this
      ensures list == old(list) + models
    {
      list := list + models;
    }

    /** `view.removeAll()`. */
    method RemoveAll()
      modifies this
      ensures list == []
    {
      list := [];
    }
  }
}
