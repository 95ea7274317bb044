/**
 * The in-memory base class (part2/app/models/BaseModel.py): an id and two
 * timestamps set at construction, `save`, and an `update` that only touches
 * attributes the object already has.
 */
module BaseModelV2 {
  import opened Common

  /** The attributes of a new object. */
  function Fresh(freshId: Id, now: Time): (o: Obj)
    ensures o.Keys == {"id", "created_at", "updated_at"}
    ensures o["id"] == VStr(freshId) && o["created_at"] == o["updated_at"] == VTime(now)
  {
    map["id" := VStr(freshId), "created_at" := VTime(now), "updated_at" := VTime(now)]
  }

  class BaseModel {
    /** The attribute namespace of the object. */
    var attrs: Obj

    /** `BaseModel()`: a fresh uuid and both timestamps at the clock reading. */
    constructor (freshId: Id, now: Time)
      ensures attrs == Fresh(freshId, now)
    {
      attrs := Fresh(freshId, now);
    }

    /** `save()`: `updated_at` moves to the clock reading and nothing else changes. */
    method Save(now: Time)
      modifies this
      ensures attrs == old(attrs)["updated_at" := VTime(now)]
    {
      attrs := attrs["updated_at" := VTime(now)];
    }

    /**
     * `update(data)`: each key the object already has (`hasattr`) is set in
     * order, any other key is ignored, and `save()` runs in every case.
     */
    method Update(data: Dict, now: Time)
      modifies this
      ensures attrs == Assign(old(attrs), data, Only(old(attrs).Keys))["updated_at" := VTime(now)]
    {
      var i := 0;
      while i < |data|
        invariant 0 <= i <= |data|
        invariant attrs == Assign(old(attrs), data[..i], Only(old(attrs).Keys))
      {
        var (k, v) := data[i];
        AssignStep(old(attrs), data, Only(old(attrs).Keys), i);
        AssignKeys(old(attrs), data[..i], Only(old(attrs).Keys));
        if k in attrs {
          attrs := attrs[k := v];
        }
        i := i + 1;
      }
      assert data[..i] == data;
      Save(now);
    }
  }

  /**
   * What `update(data)` leaves: the same attribute names as before (unknown
   * keys are ignored), each existing key of `data` at its value, every other
   * attribute untouched, and `updated_at` at the clock reading even when no
   * key matched.
   */
  lemma {:induction false} UpdateAt(o: Obj, data: Dict, now: Time, k: string)
    requires "updated_at" in o
    ensures var u := Assign(o, data, Only(o.Keys))["updated_at" := VTime(now)];
      && u.Keys == o.Keys
      && u["updated_at"] == VTime(now)
      && (k != "updated_at" && k in o && k in Keys(data) ==> u[k] == Lookup(data, k).value)
      && (k != "updated_at" && k in o && k !in Keys(data) ==> u[k] == o[k])
  {
    AssignAt(o, data, Only(o.Keys), k);
    AssignKeys(o, data, Only(o.Keys));
  }
}
