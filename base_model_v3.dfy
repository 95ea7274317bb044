/**
 * The database-era base class (part3/app/models/BaseModel.py): an id and two
 * timestamps, construction from keyword arguments, `save`, `update` with its
 * protected keys, and `to_dict`.
 */
module BaseModelV3 {
  import opened Common
  import BaseModelV2

  /** The keys `update` never copies onto the object. */
  const Protected: set<string> := {"id", "created_at", "updated_at", "__class__"}

  /** The keyword arguments `__init__` parses with `datetime.fromisoformat`. */
  const Stamps: set<string> := {"created_at", "updated_at"}

  /**
   * The value `__init__` stores for one keyword argument: a timestamp key goes
   * through `fromisoformat`, which refuses a non-string and a malformed one.
   */
  function Coerce(k: string, v: Value, parseIso: string -> Option<Time>): Result<Value> {
    if k !in Stamps then Ok(v)
    else if !v.VStr? then Err(TypeError("fromisoformat: argument must be str"))
    else
      match parseIso(v.s)
      case Some(t) => Ok(VTime(t))
      case None => Err(ValueError("Invalid isoformat string: '" + v.s + "'"))
  }

  /** The attributes the keyword loop of `__init__` sets, or the error it raises. */
  function CopyKwargs(kw: Dict, parseIso: string -> Option<Time>): Result<Obj>
    decreases |kw|
  {
    if kw == [] then Ok(map[])
    else
      match CopyKwargs(kw[..|kw| - 1], parseIso)
      case Err(e) => Err(e)
      case Ok(o) =>
        var (k, v) := kw[|kw| - 1];
        if k == "__class__" then Ok(o)
        else
          match Coerce(k, v, parseIso)
          case Err(e) => Err(e)
          case Ok(w) => Ok(o[k := w])
  }

  /** The attributes `BaseModel(**kw)` leaves on the object, or the error it raises. */
  function Init(kw: Dict, freshId: Id, now: Time, parseIso: string -> Option<Time>): Result<Obj> {
    if kw == [] then Ok(BaseModelV2.Fresh(freshId, now))
    else
      match CopyKwargs(kw, parseIso)
      case Err(e) => Err(e)
      case Ok(o) => if "id" in Keys(kw) then Ok(o) else Ok(o["id" := VStr(freshId)])
  }

  /**
   * The constructor as the rest of the model uses it: like `Init`, but the
   * keyword path also sets a timestamp the keywords do not carry to the
   * clock reading (see `KwargsLeaveNoStamps`).
   */
  function InitStamped(kw: Dict, freshId: Id, now: Time, parseIso: string -> Option<Time>): (r: Result<Obj>)
    ensures r.Ok? <==> Init(kw, freshId, now, parseIso).Ok?
    ensures r.Ok? ==> HasStamp(r.value, "created_at") && HasStamp(r.value, "updated_at")
    ensures r.Ok? ==> forall k :: k in Init(kw, freshId, now, parseIso).value ==>
      k in r.value && (k !in Stamps ==> r.value[k] == Init(kw, freshId, now, parseIso).value[k])
  {
    match Init(kw, freshId, now, parseIso)
    case Err(e) => Err(e)
    case Ok(o) =>
      if kw == [] then Ok(o)
      else
        CopyKwargsAt(kw, parseIso, "created_at");
        CopyKwargsAt(kw, parseIso, "updated_at");
        var c := if "created_at" in Keys(kw) then o else o["created_at" := VTime(now)];
        Ok(if "updated_at" in Keys(kw) then c else c["updated_at" := VTime(now)])
  }

  /**
   * As written, the keyword path of `__init__` sets no timestamp the keywords
   * lack, so an object built from keywords without them (as `User(**data)`
   * is) cannot be rendered by `to_dict`.
   */
  lemma KwargsLeaveNoStamps(kw: Dict, freshId: Id, now: Time, parseIso: string -> Option<Time>, className: string, iso: Time -> string)
    requires kw != [] && "created_at" !in Keys(kw)
    requires Init(kw, freshId, now, parseIso).Ok?
    ensures !HasStamp(Init(kw, freshId, now, parseIso).value, "created_at")
    ensures ToDict(Init(kw, freshId, now, parseIso).value, className, iso).Err?
  {
    CopyKwargsAt(kw, parseIso, "created_at");
  }

  /** With the timestamps defaulted, every constructed object renders. */
  lemma StampedRenders(kw: Dict, freshId: Id, now: Time, parseIso: string -> Option<Time>, className: string, iso: Time -> string)
    requires InitStamped(kw, freshId, now, parseIso).Ok?
    ensures ToDict(InitStamped(kw, freshId, now, parseIso).value, className, iso).Ok?
  {
  }

  /** An error in the first i entries is the error of the whole loop. */
  lemma {:induction false} CopyKwargsErr(kw: Dict, parseIso: string -> Option<Time>, i: nat)
    requires i <= |kw| && CopyKwargs(kw[..i], parseIso).Err?
    ensures CopyKwargs(kw, parseIso) == CopyKwargs(kw[..i], parseIso)
    decreases |kw| - i
  {
    if i < |kw| {
      assert kw[..i + 1][..i] == kw[..i];
      CopyKwargsErr(kw, parseIso, i + 1);
    } else {
      assert kw[..i] == kw;
    }
  }

  /**
   * The keyword loop succeeds exactly when every timestamp entry parses, and
   * then holds, under every key but `__class__`, the (parsed) value of that
   * key's last entry, and nothing else.
   */
  lemma {:induction false} CopyKwargsAt(kw: Dict, parseIso: string -> Option<Time>, k: string)
    ensures CopyKwargs(kw, parseIso).Ok? <==>
      forall i :: 0 <= i < |kw| && kw[i].0 != "__class__" ==> Coerce(kw[i].0, kw[i].1, parseIso).Ok?
    ensures CopyKwargs(kw, parseIso).Ok? ==>
      (k in CopyKwargs(kw, parseIso).value <==> k != "__class__" && k in Keys(kw))
    ensures CopyKwargs(kw, parseIso).Ok? && k != "__class__" && k in Keys(kw) ==>
      Coerce(k, Lookup(kw, k).value, parseIso) == Ok(CopyKwargs(kw, parseIso).value[k])
    decreases |kw|
  {
    if kw != [] {
      var front := kw[..|kw| - 1];
      CopyKwargsAt(front, parseIso, k);
      KeysAppend(front, kw[|kw| - 1]);
      assert front + [kw[|kw| - 1]] == kw;
      if CopyKwargs(front, parseIso).Err? {
        var i :| 0 <= i < |front| && front[i].0 != "__class__" && Coerce(front[i].0, front[i].1, parseIso).Err?;
        assert kw[i] == front[i];
      }
    }
  }

  /**
   * `BaseModel(**kw)`: with no keywords a fresh id and both timestamps set to
   * the clock; with keywords every key but `__class__` copied (timestamps
   * parsed), and a fresh id only when the keywords carry none.
   */
  lemma InitAt(kw: Dict, freshId: Id, now: Time, parseIso: string -> Option<Time>, k: string)
    ensures kw == [] ==> Init(kw, freshId, now, parseIso) == Ok(BaseModelV2.Fresh(freshId, now))
    ensures kw != [] ==> (Init(kw, freshId, now, parseIso).Ok? <==>
      forall i :: 0 <= i < |kw| && kw[i].0 != "__class__" ==> Coerce(kw[i].0, kw[i].1, parseIso).Ok?)
    ensures kw != [] && Init(kw, freshId, now, parseIso).Ok? ==>
      var o := Init(kw, freshId, now, parseIso).value;
      && (k in o <==> k == "id" || (k != "__class__" && k in Keys(kw)))
      && (k != "__class__" && k in Keys(kw) ==> Coerce(k, Lookup(kw, k).value, parseIso) == Ok(o[k]))
      && (k == "id" && k !in Keys(kw) ==> o[k] == VStr(freshId))
  {
    CopyKwargsAt(kw, parseIso, k);
  }

  /** A timestamp attribute, as `isoformat` needs it. */
  predicate HasStamp(o: Obj, k: string) {
    k in o && o[k].VTime?
  }

  /**
   * `to_dict()` of an object of class `className`: its attributes plus a
   * `__class__` entry, with both timestamps rendered by `iso`; an object
   * without datetime timestamps raises AttributeError.
   */
  function ToDict(o: Obj, className: string, iso: Time -> string): (r: Result<Obj>)
    ensures r.Ok? <==> HasStamp(o, "created_at") && HasStamp(o, "updated_at")
    ensures r.Ok? ==> r.value.Keys == o.Keys + {"__class__"}
    ensures r.Ok? ==> r.value["__class__"] == VStr(className)
    ensures r.Ok? ==> r.value["created_at"] == VStr(iso(o["created_at"].t))
    ensures r.Ok? ==> r.value["updated_at"] == VStr(iso(o["updated_at"].t))
    ensures r.Ok? ==> forall k :: k in o && k !in {"created_at", "updated_at", "__class__"} ==> r.value[k] == o[k]
  {
    if !HasStamp(o, "created_at") then Err(AttributeError("created_at"))
    else if !HasStamp(o, "updated_at") then Err(AttributeError("updated_at"))
    else Ok(o["__class__" := VStr(className)]
             ["created_at" := VStr(iso(o["created_at"].t))]
             ["updated_at" := VStr(iso(o["updated_at"].t))])
  }

  /** The dict `kw` lists exactly the entries of `m`, each key once. */
  predicate Lists(kw: Dict, m: Obj) {
    DistinctKeys(kw) && Keys(kw) == m.Keys && forall k :: k in m ==> Lookup(kw, k) == Some(m[k])
  }

  /**
   * Rebuilding an object from its `to_dict()` gives the object back, when the
   * ISO parser inverts the ISO formatter: `BaseModel(**o.to_dict())` restores
   * the id, the timestamps and every other attribute.
   */
  lemma {:induction false} ToDictRoundTrip(o: Obj, className: string, iso: Time -> string,
                                           parseIso: string -> Option<Time>, kw: Dict, freshId: Id, now: Time)
    requires forall t: Time :: parseIso(iso(t)) == Some(t)
    requires "__class__" !in o && "id" in o
    requires ToDict(o, className, iso).Ok?
    requires Lists(kw, ToDict(o, className, iso).value)
    ensures Init(kw, freshId, now, parseIso) == Ok(o)
    ensures InitStamped(kw, freshId, now, parseIso) == Ok(o)
  {
    var d := ToDict(o, className, iso).value;
    assert "__class__" in Keys(kw);
    assert kw != [];
    forall i | 0 <= i < |kw| && kw[i].0 != "__class__"
      ensures Coerce(kw[i].0, kw[i].1, parseIso).Ok?
    {
      LookupEntry(kw, i);
      assert kw[i].0 in Keys(kw);
    }
    CopyKwargsAt(kw, parseIso, "id");
    var c := CopyKwargs(kw, parseIso).value;
    forall k | true ensures (k in c <==> k in o) && (k in o ==> c[k] == o[k]) {
      CopyKwargsAt(kw, parseIso, k);
    }
    assert c == o;
    CopyKwargsAt(kw, parseIso, "created_at");
    CopyKwargsAt(kw, parseIso, "updated_at");
  }

  class BaseModel {
    /** The attribute namespace of the object. */
    var attrs: Obj

    constructor Of(a: Obj)
      ensures attrs == a
    {
      attrs := a;
    }

    /**
     * `BaseModel(**kw)`, on the clock reading `now` and the uuid `freshId`,
     * with the missing timestamps defaulted (`InitStamped`).
     */
    static method New(kw: Dict, freshId: Id, now: Time, parseIso: string -> Option<Time>) returns (r: Result<BaseModel>)
      ensures r.Ok? <==> InitStamped(kw, freshId, now, parseIso).Ok?
      ensures r.Ok? ==> fresh(r.value) && r.value.attrs == InitStamped(kw, freshId, now, parseIso).value
      ensures r.Err? ==> r.error == InitStamped(kw, freshId, now, parseIso).error
    {
      if kw == [] {
        var b := new BaseModel.Of(BaseModelV2.Fresh(freshId, now));
        return Ok(b);
      }
      var o: Obj := map[];
      var i := 0;
      while i < |kw|
        invariant 0 <= i <= |kw|
        invariant CopyKwargs(kw[..i], parseIso) == Ok(o)
      {
        var (k, v) := kw[i];
        assert kw[..i + 1][..i] == kw[..i];
        if k != "__class__" {
          var w := Coerce(k, v, parseIso);
          if w.Err? {
            CopyKwargsErr(kw, parseIso, i + 1);
            return Err(w.error);
          }
          o := o[k := w.value];
        }
        i := i + 1;
      }
      assert kw[..i] == kw;
      if "id" !in Keys(kw) {
        o := o["id" := VStr(freshId)];
      }
      if "created_at" !in Keys(kw) {
        o := o["created_at" := VTime(now)];
      }
      if "updated_at" !in Keys(kw) {
        o := o["updated_at" := VTime(now)];
      }
      var b := new BaseModel.Of(o);
      return Ok(b);
    }

    /** `save()`: `updated_at` moves to the clock reading and nothing else changes. */
    method Save(now: Time)
      modifies this
      ensures attrs == old(attrs)["updated_at" := VTime(now)]
    {
      attrs := attrs["updated_at" := VTime(now)];
    }

    /** `update(data)`: every unprotected key copied in order, then `save()`. */
    method Update(data: Dict, now: Time)
      modifies this
      ensures attrs == Assign(old(attrs), data, Except(Protected))["updated_at" := VTime(now)]
    {
      var i := 0;
      while i < |data|
        invariant 0 <= i <= |data|
        invariant attrs == Assign(old(attrs), data[..i], Except(Protected))
      {
        var (k, v) := data[i];
        AssignStep(old(attrs), data, Except(Protected), i);
        if k !in Protected {
          attrs := attrs[k := v];
        }
        i := i + 1;
      }
      assert data[..i] == data;
      Save(now);
    }
  }

  /**
   * What `update(data)` leaves: the id, `created_at` and `__class__` as they
   * were whatever `data` holds, `updated_at` at the clock reading, every other
   * key of `data` at its value, and every other attribute untouched.
   */
  lemma {:induction false} UpdateAt(o: Obj, data: Dict, now: Time, k: string)
    ensures var u := Assign(o, data, Except(Protected))["updated_at" := VTime(now)];
      && (k in Protected - {"updated_at"} ==> (k in u <==> k in o) && (k in o ==> u[k] == o[k]))
      && u["updated_at"] == VTime(now)
      && (k !in Protected && k in Keys(data) ==> k in u && u[k] == Lookup(data, k).value)
      && (k !in Protected && k !in Keys(data) ==> (k in u <==> k in o) && (k in o ==> u[k] == o[k]))
  {
    AssignAt(o, data, Except(Protected), k);
  }
}
