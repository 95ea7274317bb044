/**
 * The slice of the Python runtime the HBnB models depend on: values, the
 * exceptions the code raises, keyword dictionaries, attribute namespaces of
 * objects, and the `setattr` loops that copy a dictionary onto an object.
 */
module Common {

  type Id = string

  /** A reading of the wall clock; later readings are never smaller. */
  type Time = nat

  datatype Option<T> = None | Some(value: T)

  /** The exceptions raised by the modelled code. */
  datatype Error =
    | ValueError(msg: string)
    | TypeError(msg: string)
    | KeyError(key: string)
    | AttributeError(name: string)
    | RepositoryException(msg: string)

  datatype Result<T> = Ok(value: T) | Err(error: Error)

  /** The result of a call that returns nothing or raises. */
  datatype Outcome = Pass | Fail(error: Error)

  /** The model classes an object reference can point to. */
  datatype Cls = UserCls | PlaceCls | ReviewCls | AmenityCls

  /**
   * A Python value as far as the models look at it: `float` is `real`, a
   * `datetime` is a clock reading, and an instance of one of the model
   * classes is a reference carrying its class and its id.
   */
  datatype Value =
    | VNone
    | VBool(b: bool)
    | VInt(i: int)
    | VReal(r: real)
    | VStr(s: string)
    | VTime(t: Time)
    | VList(items: seq<Value>)
    | VDict(entries: seq<(string, Value)>)
    | VRef(cls: Cls, id: Id)

  /** A Python dict as passed by a caller: its entries in insertion order. */
  type Dict = seq<(string, Value)>

  /** The attribute namespace (`__dict__`) of an object. */
  type Obj = map<string, Value>

  /** `str(e)` for an exception. */
  function Message(e: Error): string {
    match e
    case ValueError(m) => m
    case TypeError(m) => m
    case KeyError(k) => "'" + k + "'"
    case AttributeError(n) => n
    case RepositoryException(m) => m
  }

  /** Python truthiness (`if v:`). */
  predicate Truthy(v: Value) {
    match v
    case VNone => false
    case VBool(b) => b
    case VInt(i) => i != 0
    case VReal(r) => r != 0.0
    case VStr(s) => s != ""
    case VTime(_) => true
    case VList(items) => items != []
    case VDict(entries) => entries != []
    case VRef(_, _) => true
  }

  /** `isinstance(v, (int, float))`; `bool` is a subclass of `int` in Python. */
  predicate IsNumber(v: Value) {
    v.VBool? || v.VInt? || v.VReal?
  }

  /** The numeric value of a number, for comparisons against constants. */
  function Num(v: Value): real
    requires IsNumber(v)
  {
    match v
    case VBool(b) => if b then 1.0 else 0.0
    case VInt(i) => i as real
    case VReal(r) => r
  }

  /** `len(v)`, or None where `len` raises TypeError. */
  function Len(v: Value): Option<nat> {
    match v
    case VStr(s) => Some(|s|)
    case VList(items) => Some(|items|)
    case VDict(entries) => Some(|entries|)
    case _ => None
  }

  /** `isinstance(v, C)` for a model class C. */
  predicate IsInstance(v: Value, c: Cls) {
    v.VRef? && v.cls == c
  }

  /** `getattr(o, k)`, raising AttributeError when the attribute is missing. */
  function Attr(o: Obj, k: string): (r: Result<Value>)
    ensures r.Ok? <==> k in o
    ensures r.Ok? ==> r.value == o[k]
  {
    if k in o then Ok(o[k]) else Err(AttributeError(k))
  }

  /** The keys of a dict. */
  function Keys(d: Dict): set<string> {
    set i | 0 <= i < |d| :: d[i].0
  }

  /** Appending an entry adds its key. */
  lemma KeysAppend(d: Dict, e: (string, Value))
    ensures Keys(d + [e]) == Keys(d) + {e.0}
  {
    var de := d + [e];
    forall k | k in Keys(de) ensures k in Keys(d) + {e.0} {
      var i :| 0 <= i < |de| && de[i].0 == k;
      if i < |d| { assert d[i].0 == k; }
    }
    forall k | k in Keys(d) ensures k in Keys(de) {
      var i :| 0 <= i < |d| && d[i].0 == k;
      assert de[i].0 == k;
    }
    assert de[|d|].0 == e.0;
  }

  /** A dict's keys are pairwise distinct (every Python dict). */
  predicate DistinctKeys(d: Dict) {
    forall i, j :: 0 <= i < j < |d| ==> d[i].0 != d[j].0
  }

  /** `d.get(k)`: the value stored under k (its last entry, as a dict literal keeps). */
  function Lookup(d: Dict, k: string): (r: Option<Value>)
    ensures r.Some? <==> k in Keys(d)
    decreases |d|
  {
    if d == [] then None
    else if d[|d| - 1].0 == k then Some(d[|d| - 1].1)
    else
      var r := Lookup(d[..|d| - 1], k);
      KeysAppend(d[..|d| - 1], d[|d| - 1]);
      assert d[..|d| - 1] + [d[|d| - 1]] == d;
      r
  }

  /** In a dict with distinct keys every entry is the one `d.get` finds. */
  lemma {:induction false} LookupEntry(d: Dict, i: nat)
    requires DistinctKeys(d) && i < |d|
    ensures Lookup(d, d[i].0) == Some(d[i].1)
    decreases |d|
  {
    if i < |d| - 1 {
      var front := d[..|d| - 1];
      assert front[i] == d[i];
      LookupEntry(front, i);
    }
  }

  /** `d.get(k, default)`. */
  function GetOr(d: Dict, k: string, default: Value): Value {
    match Lookup(d, k)
    case Some(v) => v
    case None => default
  }

  /** The dict after `d.pop(k, ...)`: every entry under k removed, the rest in order. */
  function RemoveKey(d: Dict, k: string): (r: Dict)
    ensures Keys(r) == Keys(d) - {k}
    ensures forall j :: j != k ==> Lookup(r, j) == Lookup(d, j)
    decreases |d|
  {
    if d == [] then []
    else
      var front := RemoveKey(d[..|d| - 1], k);
      KeysAppend(d[..|d| - 1], d[|d| - 1]);
      assert d[..|d| - 1] + [d[|d| - 1]] == d;
      if d[|d| - 1].0 == k then front
      else
        KeysAppend(front, d[|d| - 1]);
        front + [d[|d| - 1]]
  }

  /** The dict after `d[k] = v`: an existing entry keeps its place, a new one goes last. */
  function SetKey(d: Dict, k: string, v: Value): (r: Dict)
    ensures Keys(r) == Keys(d) + {k}
    ensures Lookup(r, k) == Some(v)
    ensures forall j :: j != k ==> Lookup(r, j) == Lookup(d, j)
  {
    if k in Keys(d) then Replace(d, k, v) else
      KeysAppend(d, (k, v));
      d + [(k, v)]
  }

  /** Every entry under k of d gets the value v. */
  function Replace(d: Dict, k: string, v: Value): (r: Dict)
    ensures |r| == |d| && Keys(r) == Keys(d)
    ensures k in Keys(d) ==> Lookup(r, k) == Some(v)
    ensures forall j :: j != k ==> Lookup(r, j) == Lookup(d, j)
    decreases |d|
  {
    if d == [] then []
    else
      var front := Replace(d[..|d| - 1], k, v);
      var last := if d[|d| - 1].0 == k then (k, v) else d[|d| - 1];
      KeysAppend(d[..|d| - 1], d[|d| - 1]);
      assert d[..|d| - 1] + [d[|d| - 1]] == d;
      KeysAppend(front, last);
      assert (front + [last])[..|d| - 1] == front;
      front + [last]
  }

  /** Which keys a `setattr` loop copies onto the object. */
  datatype KeyFilter =
    | AllKeys                   // every key
    | Except(skip: set<string>) // every key but these
    | Only(keep: set<string>)   // these keys only

  predicate Admits(f: KeyFilter, k: string) {
    match f
    case AllKeys => true
    case Except(skip) => k !in skip
    case Only(keep) => k in keep
  }

  /**
   * The object after `for k, v in d.items(): if <f admits k>: setattr(o, k, v)`,
   * one entry at a time in the dict's order.
   */
  function Assign(o: Obj, d: Dict, f: KeyFilter): Obj
    decreases |d|
  {
    if d == [] then o
    else
      var before := Assign(o, d[..|d| - 1], f);
      var (k, v) := d[|d| - 1];
      if Admits(f, k) then before[k := v] else before
  }

  /**
   * What such a loop leaves under a key: the dict's value when the filter
   * admits the key and the dict holds it, and otherwise what was there before
   * (present exactly when it was present before).
   */
  lemma {:induction false} AssignAt(o: Obj, d: Dict, f: KeyFilter, k: string)
    ensures Admits(f, k) && Lookup(d, k).Some? ==>
      k in Assign(o, d, f) && Assign(o, d, f)[k] == Lookup(d, k).value
    ensures !(Admits(f, k) && Lookup(d, k).Some?) ==>
      (k in Assign(o, d, f) <==> k in o) && (k in o ==> Assign(o, d, f)[k] == o[k])
    decreases |d|
  {
    if d != [] {
      AssignAt(o, d[..|d| - 1], f, k);
    }
  }

  /** The keys of the object after such a loop. */
  lemma AssignKeys(o: Obj, d: Dict, f: KeyFilter)
    ensures Assign(o, d, f).Keys == o.Keys + set k | k in Keys(d) && Admits(f, k)
  {
    forall k ensures k in Assign(o, d, f) <==> k in o || (k in Keys(d) && Admits(f, k)) {
      AssignAt(o, d, f, k);
    }
  }

  /**
   * Running the loop a second time with the same dict changes nothing: every
   * admitted key already holds the dict's value.
   */
  lemma AssignTwice(o: Obj, d: Dict, f: KeyFilter)
    ensures Assign(Assign(o, d, f), d, f) == Assign(o, d, f)
  {
    var once := Assign(o, d, f);
    forall k | true
      ensures (k in Assign(once, d, f) <==> k in once)
      ensures k in once ==> Assign(once, d, f)[k] == once[k]
    {
      AssignAt(o, d, f, k);
      AssignAt(once, d, f, k);
    }
  }

  /** The entries of a dict in order, as a loop `for k, v in d.items()` sees them. */
  lemma AssignStep(o: Obj, d: Dict, f: KeyFilter, i: nat)
    requires i < |d|
    ensures Assign(o, d[..i + 1], f) ==
      if Admits(f, d[i].0) then Assign(o, d[..i], f)[d[i].0 := d[i].1] else Assign(o, d[..i], f)
  {
    assert d[..i + 1][..i] == d[..i];
  }

  /**
   * Which entries an allow-list loop accepts: the keys in `plain` with any
   * value, and the keys in `refs` only with a string value naming one of the
   * ids stored for that key (the loop looks the id up and raises when absent).
   */
  datatype Allow = Allow(plain: set<string>, refs: map<string, set<Id>>)

  predicate Accepts(a: Allow, k: string, v: Value) {
    k in a.plain || (k in a.refs && v.VStr? && v.s in a.refs[k])
  }

  /**
   * The index of the first entry an allow-list loop rejects (|d| when none
   * is): the loop has applied exactly the entries before it when it raises.
   */
  function FirstRejected(d: Dict, a: Allow): (j: nat)
    ensures j <= |d|
    ensures forall i :: 0 <= i < j ==> Accepts(a, d[i].0, d[i].1)
    ensures j < |d| ==> !Accepts(a, d[j].0, d[j].1)
    decreases |d|
  {
    if d == [] then 0
    else if !Accepts(a, d[0].0, d[0].1) then 0
    else 1 + FirstRejected(d[1..], a)
  }

  /** The value `d.get(k)` finds comes from an entry of d under k. */
  lemma {:induction false} LookupIn(d: Dict, k: string)
    requires Lookup(d, k).Some?
    ensures exists i :: 0 <= i < |d| && d[i] == (k, Lookup(d, k).value)
    decreases |d|
  {
    if d[|d| - 1].0 != k {
      var front := d[..|d| - 1];
      LookupIn(front, k);
      var i :| 0 <= i < |front| && front[i] == (k, Lookup(front, k).value);
      assert d[i] == front[i];
    }
  }

  /**
   * What an allow-list loop that accepted its first j entries leaves under a
   * key: a key neither allow-list names keeps its old value (or stays absent),
   * and a reference key holds either its old value or a string naming one of
   * the ids allowed for it.
   */
  lemma AcceptedAt(o: Obj, d: Dict, a: Allow, j: nat, k: string)
    requires j <= |d| && forall i :: 0 <= i < j ==> Accepts(a, d[i].0, d[i].1)
    ensures k !in a.plain && k !in a.refs ==>
      (k in Assign(o, d[..j], AllKeys) <==> k in o) && (k in o ==> Assign(o, d[..j], AllKeys)[k] == o[k])
    ensures k !in a.plain && k in a.refs && k in Assign(o, d[..j], AllKeys) ==>
      (k in o && Assign(o, d[..j], AllKeys)[k] == o[k])
      || (Assign(o, d[..j], AllKeys)[k].VStr? && Assign(o, d[..j], AllKeys)[k].s in a.refs[k])
  {
    AssignAt(o, d[..j], AllKeys, k);
    if Lookup(d[..j], k).Some? {
      LookupIn(d[..j], k);
      var i :| 0 <= i < |d[..j]| && d[..j][i] == (k, Lookup(d[..j], k).value);
      assert d[i] == d[..j][i];
    }
  }

  /** `str(v)` as far as error messages quote a value. */
  function Show(v: Value): string {
    match v
    case VStr(s) => s
    case VNone => "None"
    case VBool(b) => if b then "True" else "False"
    case _ => "<value>"
  }

  /** The keys of the entries before index j. */
  lemma PrefixKeys(d: Dict, j: nat, k: string)
    requires j <= |d|
    requires k in Keys(d[..j])
    ensures exists i :: 0 <= i < j && d[i].0 == k
  {
    var i :| 0 <= i < |d[..j]| && d[..j][i].0 == k;
    assert d[i].0 == k;
  }

  /**
   * Python's binding of `f(**kw)` to a signature with the given required
   * parameters and optional ones with defaults: TypeError on an unexpected
   * keyword or a missing required one, and otherwise the argument map.
   */
  function BindArgs(kw: Dict, required: set<string>, optional: map<string, Value>): (r: Result<map<string, Value>>)
    ensures r.Ok? <==> Keys(kw) <= required + optional.Keys && required <= Keys(kw)
    ensures r.Ok? ==> r.value.Keys == required + optional.Keys
    ensures r.Ok? ==> forall p :: p in r.value ==> r.value[p] == GetOr(kw, p, if p in optional then optional[p] else VNone)
  {
    if !(Keys(kw) <= required + optional.Keys) then Err(TypeError("got an unexpected keyword argument"))
    else if !(required <= Keys(kw)) then Err(TypeError("missing a required argument"))
    else Ok(map p | p in required + optional.Keys :: GetOr(kw, p, if p in optional then optional[p] else VNone))
  }

  /** `[x.id for x in items]`, raising AttributeError on an element that is no model instance. */
  function IdsOf(items: seq<Value>): (r: Result<seq<Value>>)
    ensures r.Ok? <==> forall i :: 0 <= i < |items| ==> items[i].VRef?
    ensures r.Ok? ==> |r.value| == |items| && forall i :: 0 <= i < |items| ==> r.value[i] == VStr(items[i].id)
    decreases |items|
  {
    if items == [] then Ok([])
    else if !items[0].VRef? then Err(AttributeError("id"))
    else
      match IdsOf(items[1..])
      case Err(e) => Err(e)
      case Ok(rest) => Ok([VStr(items[0].id)] + rest)
  }

  /** `o.k.append(v)`: AttributeError when there is no such list attribute. */
  function Append(o: Obj, k: string, v: Value): (r: Result<Obj>)
    ensures r.Ok? <==> k in o && o[k].VList?
    ensures r.Ok? ==> r.value == o[k := VList(o[k].items + [v])]
  {
    if k in o && o[k].VList? then Ok(o[k := VList(o[k].items + [v])])
    else Err(AttributeError(k))
  }

  /**
   * Iterating `for x in v`: a list yields its items, a string its characters,
   * a dict its keys; anything else is not iterable.
   */
  function Iterate(v: Value): Option<seq<Value>> {
    match v
    case VList(items) => Some(items)
    case VStr(s) => Some(seq(|s|, i requires 0 <= i < |s| => VStr([s[i]])))
    case VDict(entries) => Some(seq(|entries|, i requires 0 <= i < |entries| => VStr(entries[i].0)))
    case _ => None
  }
}
