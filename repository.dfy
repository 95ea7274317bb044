/**
 * The persistence contract the facade relies on
 * (part4/app/persistence/repository.py): one store per model class, rows keyed
 * by their id, queried in insertion order.
 */
module Repository {
  import opened Common

  /** Every condition (name, value) holds of the row: it has the attribute, with that value. */
  predicate Matches(row: Obj, conds: Dict) {
    forall i :: 0 <= i < |conds| ==> conds[i].0 in row && row[conds[i].0] == conds[i].1
  }

  /** A single condition is one attribute test. */
  lemma MatchesOne(row: Obj, name: string, value: Value)
    ensures Matches(row, [(name, value)]) <==> name in row && row[name] == value
  {
    assert [(name, value)][0] == (name, value);
  }

  /** The id names a stored row satisfying the conditions. */
  predicate Hit(rows: map<Id, Obj>, conds: Dict, id: Id) {
    id in rows && Matches(rows[id], conds)
  }

  /** The ids of `ids`, in order, whose rows satisfy the conditions: a filtered query. */
  function Select(ids: seq<Id>, rows: map<Id, Obj>, conds: Dict): (r: seq<Id>)
    ensures forall x :: x in r <==> x in ids && Hit(rows, conds, x)
    decreases |ids|
  {
    if ids == [] then []
    else
      var rest := Select(ids[1..], rows, conds);
      if Hit(rows, conds, ids[0]) then [ids[0]] + rest else rest
  }

  /** The query is empty exactly when no id hits, and otherwise starts with the first id that does. */
  lemma {:induction false} SelectFirst(ids: seq<Id>, rows: map<Id, Obj>, conds: Dict)
    ensures Select(ids, rows, conds) == [] <==> forall i :: 0 <= i < |ids| ==> !Hit(rows, conds, ids[i])
    ensures Select(ids, rows, conds) != [] ==>
      exists i :: 0 <= i < |ids| && Select(ids, rows, conds)[0] == ids[i] && Hit(rows, conds, ids[i])
                  && forall j :: 0 <= j < i ==> !Hit(rows, conds, ids[j])
    decreases |ids|
  {
    if ids != [] {
      var tail := ids[1..];
      SelectFirst(tail, rows, conds);
      assert forall i :: 1 <= i < |ids| ==> ids[i] == tail[i - 1];
      var r := Select(ids, rows, conds);
      if !Hit(rows, conds, ids[0]) && r != [] {
        var i :| 0 <= i < |tail| && r[0] == tail[i] && Hit(rows, conds, tail[i])
                 && forall j :: 0 <= j < i ==> !Hit(rows, conds, tail[j]);
        assert ids[i + 1] == tail[i];
        assert forall j :: 1 <= j < i + 1 ==> ids[j] == tail[j - 1];
      }
    }
  }

  /** Filtering by one more condition refines the query: `query.filter(...)` composes. */
  lemma {:induction false} SelectStep(ids: seq<Id>, rows: map<Id, Obj>, conds: Dict, e: (string, Value))
    ensures Select(Select(ids, rows, conds), rows, [e]) == Select(ids, rows, conds + [e])
    decreases |ids|
  {
    if ids != [] {
      SelectStep(ids[1..], rows, conds, e);
      var x := ids[0];
      if x in rows {
        var row := rows[x];
        assert Matches(row, conds + [e]) <==> Matches(row, conds) && Matches(row, [e]) by {
          if Matches(row, conds) && Matches(row, [e]) {
            forall i | 0 <= i < |conds + [e]| ensures (conds + [e])[i].0 in row && row[(conds + [e])[i].0] == (conds + [e])[i].1 {
              if i == |conds| { assert [e][0] == e; }
            }
          }
          if Matches(row, conds + [e]) {
            assert (conds + [e])[|conds|] == e;
            forall i | 0 <= i < |conds| ensures conds[i].0 in row && row[conds[i].0] == conds[i].1 {
              assert (conds + [e])[i] == conds[i];
            }
          }
        }
      }
      if Hit(rows, conds, x) {
        assert ([x] + Select(ids[1..], rows, conds))[1..] == Select(ids[1..], rows, conds);
      }
    }
  }

  /** With no condition every stored id is selected. */
  lemma {:induction false} SelectNone(ids: seq<Id>, rows: map<Id, Obj>)
    requires forall x :: x in ids ==> x in rows
    ensures Select(ids, rows, []) == ids
    decreases |ids|
  {
    if ids != [] {
      SelectNone(ids[1..], rows);
    }
  }

  /** The sequence without the id. */
  function Without(ids: seq<Id>, x: Id): (r: seq<Id>)
    ensures forall y :: y in r <==> y in ids && y != x
    ensures |r| <= |ids|
    decreases |ids|
  {
    if ids == [] then [] else (if ids[0] == x then [] else [ids[0]]) + Without(ids[1..], x)
  }

  /** No id occurs twice. */
  predicate Distinct(ids: seq<Id>) {
    forall i, j :: 0 <= i < j < |ids| ==> ids[i] != ids[j]
  }

  lemma {:induction false} WithoutDistinct(ids: seq<Id>, x: Id)
    requires Distinct(ids)
    ensures Distinct(Without(ids, x))
    decreases |ids|
  {
    if ids != [] {
      var tail := ids[1..];
      assert forall i, j :: 0 <= i < j < |tail| ==> tail[i] == ids[i + 1] && tail[j] == ids[j + 1];
      WithoutDistinct(tail, x);
      var rest := Without(tail, x);
      var r := Without(ids, x);
      if ids[0] != x {
        assert ids[0] !in tail;
        assert r == [ids[0]] + rest;
        forall i, j | 0 <= i < j < |r| ensures r[i] != r[j] {
          assert r[j] == rest[j - 1] && rest[j - 1] in rest;
          if i > 0 {
            assert r[i] == rest[i - 1];
          }
        }
      } else {
        assert r == rest;
      }
    }
  }

  /** The rows of the given ids, in order. */
  function RowsOf(ids: seq<Id>, rows: map<Id, Obj>): (r: seq<Obj>)
    requires forall x :: x in ids ==> x in rows
    ensures |r| == |ids| && forall i :: 0 <= i < |ids| ==> r[i] == rows[ids[i]]
    decreases |ids|
  {
    if ids == [] then [] else [rows[ids[0]]] + RowsOf(ids[1..], rows)
  }

  class Repository {
    /** The stored rows, by id. */
    var rows: map<Id, Obj>
    /** The stored ids in insertion order: the order queries return rows in. */
    var order: seq<Id>

    /** Each stored id occurs once in the order, and the order lists exactly the stored ids. */
    predicate Valid()
      reads this
    {
      && Distinct(order)
      && (forall id :: id in order ==> id in rows)
      && (forall id :: id in rows ==> id in order)
    }

    constructor ()
      ensures rows == map[] && order == [] && Valid()
    {
      rows := map[];
      order := [];
    }

    /**
     * `add(obj)`: the object is stored under its id and returned; one without
     * a string id, or whose id is already stored, is refused with
     * RepositoryException and nothing changes.
     */
    method Add(obj: Obj) returns (r: Result<Obj>)
      requires Valid()
      modifies this
      ensures Valid()
      ensures r.Ok? <==> "id" in obj && obj["id"].VStr? && obj["id"].s !in old(rows)
      ensures r.Ok? ==> r.value == obj && rows == old(rows)[obj["id"].s := obj] && order == old(order) + [obj["id"].s]
      ensures r.Ok? ==> Get(obj["id"]) == Some(obj)
      ensures r.Err? ==> rows == old(rows) && order == old(order) && r.error.RepositoryException?
    {
      if !("id" in obj && obj["id"].VStr?) {
        return Err(RepositoryException("Error adding object: primary key is not set"));
      }
      var key := obj["id"].s;
      if key in rows {
        return Err(RepositoryException("Error adding object: duplicate key"));
      }
      rows := rows[key := obj];
      order := order + [key];
      return Ok(obj);
    }

    /** `get(obj_id)`: the stored row for a string id, and None for any other value or an absent id. */
    function Get(id: Value): (r: Option<Obj>)
      reads this
      ensures r.Some? <==> id.VStr? && id.s in rows
      ensures r.Some? ==> r.value == rows[id.s]
    {
      if id.VStr? && id.s in rows then Some(rows[id.s]) else None
    }

    /** `get_all()`: every stored row, in insertion order. */
    function GetAll(): (r: seq<Obj>)
      requires Valid()
      reads this
      ensures |r| == |order| && forall i :: 0 <= i < |order| ==> r[i] == rows[order[i]]
    {
      RowsOf(order, rows)
    }

    /** The first stored row, in insertion order, that satisfies every condition. */
    function First(conds: Dict): (r: Option<Obj>)
      requires Valid()
      reads this
      ensures r.None? <==> forall i :: 0 <= i < |order| ==> !Hit(rows, conds, order[i])
      ensures r.Some? ==> exists i :: 0 <= i < |order| && Hit(rows, conds, order[i]) && r.value == rows[order[i]]
                                      && forall j :: 0 <= j < i ==> !Hit(rows, conds, order[j])
    {
      SelectFirst(order, rows, conds);
      var s := Select(order, rows, conds);
      if s == [] then None else Some(rows[s[0]])
    }

    /** `get_by_attribute(name, value)`: the first row whose attribute `name` equals `value`, or None. */
    function GetByAttribute(name: string, value: Value): (r: Option<Obj>)
      requires Valid()
      reads this
      ensures r.None? <==> forall i :: 0 <= i < |order| ==> !(name in rows[order[i]] && rows[order[i]][name] == value)
      ensures r.Some? ==> name in r.value && r.value[name] == value
                          && exists i :: 0 <= i < |order| && r.value == rows[order[i]]
                                         && forall j :: 0 <= j < i ==> !(name in rows[order[j]] && rows[order[j]][name] == value)
    {
      var r := First([(name, value)]);
      assert forall row: Obj :: Matches(row, [(name, value)]) <==> name in row && row[name] == value by {
        forall row: Obj ensures Matches(row, [(name, value)]) <==> name in row && row[name] == value {
          MatchesOne(row, name, value);
        }
      }
      r
    }

    /**
     * `get_by_attributes(attributes)`: starting from the whole table, the
     * query is narrowed by one equality filter per entry, and its first row is
     * returned; with no entry that is the first stored row.
     */
    method GetByAttributes(attributes: Dict) returns (r: Option<Obj>)
      requires Valid()
      ensures r == First(attributes)
      ensures attributes == [] ==> r == (if order == [] then None else Some(rows[order[0]]))
    {
      var query := order;
      SelectNone(order, rows);
      assert attributes[..0] == [];
      var i := 0;
      while i < |attributes|
        invariant 0 <= i <= |attributes|
        invariant query == Select(order, rows, attributes[..i])
      {
        SelectStep(order, rows, attributes[..i], attributes[i]);
        assert attributes[..i + 1] == attributes[..i] + [attributes[i]];
        query := Select(query, rows, [attributes[i]]);
        i := i + 1;
      }
      assert attributes[..i] == attributes;
      r := if query == [] then None else Some(rows[query[0]]);
    }

    /**
     * `update(obj_id, data)`: None and no change for an absent id; otherwise
     * every key of `data` set on the row in order, other attributes and other
     * rows untouched, and the row returned.
     */
    method Update(id: Value, data: Dict) returns (r: Option<Obj>)
      requires Valid()
      modifies this
      ensures Valid() && order == old(order)
      ensures r.None? <==> old(Get(id)).None?
      ensures r.None? ==> rows == old(rows)
      ensures r.Some? ==> rows == old(rows)[id.s := Assign(old(rows)[id.s], data, AllKeys)] && r.value == rows[id.s]
    {
      var found := Get(id);
      if found.None? {
        return None;
      }
      var key := id.s;
      var i := 0;
      while i < |data|
        invariant 0 <= i <= |data|
        invariant key in rows && order == old(order)
        invariant rows == old(rows)[key := Assign(old(rows)[key], data[..i], AllKeys)]
      {
        var (k, v) := data[i];
        AssignStep(old(rows)[key], data, AllKeys, i);
        rows := rows[key := rows[key][k := v]];
        i := i + 1;
      }
      assert data[..i] == data;
      return Some(rows[key]);
    }

    /**
     * The guarded loop of the facade's update operations: the entries of `d`
     * are set on the row one by one, in order, while the allow-list accepts
     * them; the index of the first refused entry (|d| when none is) is
     * returned, with exactly the entries before it applied.
     */
    method SetWhileAccepted(key: Id, d: Dict, a: Allow) returns (j: nat)
      requires Valid() && key in rows
      modifies this
      ensures Valid() && order == old(order)
      ensures j == FirstRejected(d, a)
      ensures rows == old(rows)[key := Assign(old(rows)[key], d[..j], AllKeys)]
    {
      j := 0;
      while j < |d| && Accepts(a, d[j].0, d[j].1)
        invariant j <= FirstRejected(d, a)
        invariant order == old(order)
        invariant rows == old(rows)[key := Assign(old(rows)[key], d[..j], AllKeys)]
      {
        AssignStep(old(rows)[key], d, AllKeys, j);
        rows := rows[key := rows[key][d[j].0 := d[j].1]];
        j := j + 1;
      }
    }

    /** `delete(obj_id)`: true and the row removed exactly when the id was stored; otherwise false and no change. */
    method Delete(id: Value) returns (deleted: bool)
      requires Valid()
      modifies this
      ensures Valid()
      ensures deleted <==> old(Get(id)).Some?
      ensures deleted ==> rows == old(rows) - {id.s} && order == Without(old(order), id.s)
      ensures !deleted ==> rows == old(rows) && order == old(order)
      ensures Get(id).None?
    {
      var found := Get(id);
      if found.None? {
        return false;
      }
      WithoutDistinct(order, id.s);
      rows := rows - {id.s};
      order := Without(order, id.s);
      return true;
    }
  }
}
