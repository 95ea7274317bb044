/**
 * The in-memory amenity (part2/app/models/amenity.py): the constructor raises
 * on a bad name or description, while the setters return a message instead.
 */
module AmenityV2 {
  import opened Common
  import BaseModelV2

  /** A name this version accepts: a string of at most 128 characters (the empty one included). */
  predicate NameOk(v: Value) {
    v.VStr? && |v.s| <= 128
  }

  /** A description this version accepts: anything with a length of at most 255. */
  predicate DescriptionOk(v: Value) {
    Len(v).Some? && Len(v).value <= 255
  }

  /** The amenity's name and description are acceptable. */
  predicate Valid(o: Obj) {
    "name" in o && NameOk(o["name"]) && "description" in o && DescriptionOk(o["description"])
  }

  /** The attributes `Amenity(name, description)` leaves, or the error it raises. */
  function Build(name: Value, description: Value, freshId: Id, now: Time): (r: Result<Obj>)
    ensures r.Ok? <==> NameOk(name) && DescriptionOk(description)
    ensures r.Ok? ==> Valid(r.value) && r.value["name"] == name && r.value["description"] == description
    ensures !name.VStr? ==> r == Err(ValueError("Name must be a string."))
    ensures name.VStr? && |name.s| > 128 ==> r == Err(ValueError("Name must not exceed 128 characters."))
    ensures NameOk(name) && Len(description).Some? && !DescriptionOk(description) ==>
      r == Err(ValueError("Description must not exceed 255 characters."))
    ensures NameOk(name) && Len(description).None? ==> r.Err? && r.error.TypeError?
  {
    if !name.VStr? then Err(ValueError("Name must be a string."))
    else if |name.s| > 128 then Err(ValueError("Name must not exceed 128 characters."))
    else if Len(description).None? then Err(TypeError("object has no len()"))
    else if Len(description).value > 255 then Err(ValueError("Description must not exceed 255 characters."))
    else Ok(BaseModelV2.Fresh(freshId, now)["name" := name]["description" := description])
  }

  /** The empty name is accepted here; 128 characters pass and 129 do not. */
  lemma NameBoundaries(freshId: Id, now: Time)
    ensures Build(VStr(""), VStr(""), freshId, now).Ok?
    ensures Build(VStr(seq(128, _ => 'a')), VStr(""), freshId, now).Ok?
    ensures Build(VStr(seq(129, _ => 'a')), VStr(""), freshId, now).Err?
  {
  }

  /** The message `set_name` returns, or None when it stores the name. */
  function NameCheck(name: Value): (msg: Option<string>)
    ensures msg.None? <==> NameOk(name)
    ensures !name.VStr? ==> msg == Some("Name must be a string.")
    ensures name.VStr? && !NameOk(name) ==> msg == Some("Name must not exceed 128 characters.")
  {
    if !name.VStr? then Some("Name must be a string.")
    else if |name.s| > 128 then Some("Name must not exceed 128 characters.")
    else None
  }

  class Amenity {
    const base: BaseModelV2.BaseModel

    constructor Of(b: BaseModelV2.BaseModel)
      ensures base == b
    {
      base := b;
    }

    /** `Amenity(name, description)`. */
    static method New(name: Value, description: Value, freshId: Id, now: Time) returns (r: Result<Amenity>)
      ensures r.Ok? <==> Build(name, description, freshId, now).Ok?
      ensures r.Ok? ==> fresh(r.value) && fresh(r.value.base) && r.value.base.attrs == Build(name, description, freshId, now).value
      ensures r.Err? ==> r.error == Build(name, description, freshId, now).error
    {
      var b := new BaseModelV2.BaseModel(freshId, now);
      if !name.VStr? {
        return Err(ValueError("Name must be a string."));
      }
      if |name.s| > 128 {
        return Err(ValueError("Name must not exceed 128 characters."));
      }
      b.attrs := b.attrs["name" := name];
      var len := Len(description);
      if len.None? {
        return Err(TypeError("object has no len()"));
      }
      if len.value > 255 {
        return Err(ValueError("Description must not exceed 255 characters."));
      }
      b.attrs := b.attrs["description" := description];
      var a := new Amenity.Of(b);
      return Ok(a);
    }

    /** `set_name(name)`: stored and saved when acceptable, otherwise a message and no change. */
    method SetName(name: Value, now: Time) returns (msg: Option<string>)
      modifies base
      ensures msg == NameCheck(name)
      ensures msg.None? ==> base.attrs == old(base.attrs)["name" := name]["updated_at" := VTime(now)]
      ensures msg.Some? ==> base.attrs == old(base.attrs)
      ensures Valid(old(base.attrs)) ==> Valid(base.attrs)
    {
      msg := NameCheck(name);
      if msg.None? {
        base.attrs := base.attrs["name" := name];
        base.Save(now);
      }
    }

    /**
     * `set_description(description)`: stored and saved when at most 255 long;
     * a longer one returns a message and changes nothing, and a value without
     * a length raises TypeError.
     */
    method SetDescription(description: Value, now: Time) returns (r: Result<Option<string>>)
      modifies base
      ensures r.Err? <==> Len(description).None?
      ensures r.Err? ==> r.error.TypeError?
      ensures r == Ok(None) <==> DescriptionOk(description)
      ensures r.Ok? && r.value.Some? ==> r.value.value == "Description must not exceed 255 characters."
      ensures r == Ok(None) ==> base.attrs == old(base.attrs)["description" := description]["updated_at" := VTime(now)]
      ensures r != Ok(None) ==> base.attrs == old(base.attrs)
      ensures Valid(old(base.attrs)) ==> Valid(base.attrs)
    {
      var len := Len(description);
      if len.None? {
        return Err(TypeError("object has no len()"));
      }
      if len.value > 255 {
        return Ok(Some("Description must not exceed 255 characters."));
      }
      base.attrs := base.attrs["description" := description];
      base.Save(now);
      return Ok(None);
    }
  }
}
