/**
 * The database-era amenity (part3/app/models/amenity.py): a non-empty name of
 * at most 50 characters, enforced by raising, and a description stored as
 * given.
 */
module AmenityV3 {
  import opened Common
  import BaseModelV2
  import BaseModelV3

  /** A name `set_name` accepts: a non-empty string of at most 50 characters. */
  predicate NameOk(v: Value) {
    v.VStr? && 0 < |v.s| <= 50
  }

  /** The checks `set_name` makes, in order, each with its own message. */
  function NameCheck(name: Value): (r: Outcome)
    ensures r.Pass? <==> NameOk(name)
    ensures !name.VStr? ==> r == Fail(ValueError("Name must be a string."))
    ensures name == VStr("") ==> r == Fail(ValueError("Name must not be empty."))
    ensures name.VStr? && |name.s| > 50 ==> r == Fail(ValueError("Name must not exceed 50 characters."))
  {
    if !name.VStr? then Fail(ValueError("Name must be a string."))
    else if name.s == "" then Fail(ValueError("Name must not be empty."))
    else if |name.s| > 50 then Fail(ValueError("Name must not exceed 50 characters."))
    else Pass
  }

  /** 50 characters pass, 51 do not, and neither does 123 or the empty string. */
  lemma NameBoundaries()
    ensures NameCheck(VStr(seq(50, _ => 'a'))).Pass?
    ensures NameCheck(VStr(seq(51, _ => 'a'))).Fail?
    ensures NameCheck(VInt(123)).Fail? && NameCheck(VStr("")).Fail?
  {
  }

  /** The attributes `Amenity(name, description)` leaves, or the error it raises. */
  function Build(name: Value, description: Value, freshId: Id, now: Time): (r: Result<Obj>)
    ensures r.Ok? <==> NameOk(name)
    ensures r.Err? ==> r == Err(NameCheck(name).error)
    ensures r.Ok? ==> r.value.Keys == {"id", "created_at", "updated_at", "name", "description"}
    ensures r.Ok? ==> r.value["name"] == name && r.value["description"] == description
                      && r.value["id"] == VStr(freshId) && r.value["updated_at"] == VTime(now)
  {
    match NameCheck(name)
    case Fail(e) => Err(e)
    case Pass => Ok(BaseModelV2.Fresh(freshId, now)["name" := name]["updated_at" := VTime(now)]["description" := description])
  }

  class Amenity {
    const base: BaseModelV3.BaseModel

    constructor Of(b: BaseModelV3.BaseModel)
      ensures base == b
    {
      base := b;
    }

    /** `Amenity(name, description)`: a fresh base object, the name through `set_name`, the description as given. */
    static method New(name: Value, description: Value, freshId: Id, now: Time) returns (r: Result<Amenity>)
      ensures r.Ok? <==> Build(name, description, freshId, now).Ok?
      ensures r.Ok? ==> fresh(r.value) && fresh(r.value.base) && r.value.base.attrs == Build(name, description, freshId, now).value
      ensures r.Err? ==> r.error == Build(name, description, freshId, now).error
    {
      var b := BaseModelV3.BaseModel.New([], freshId, now, _ => None);
      var a := new Amenity.Of(b.value);
      var named := a.SetName(name, now);
      if named.Fail? {
        return Err(named.error);
      }
      a.base.attrs := a.base.attrs["description" := description];
      return Ok(a);
    }

    /**
     * `set_name(name)`: a non-empty string of at most 50 characters is stored
     * and `updated_at` advanced; anything else raises with nothing changed.
     */
    method SetName(name: Value, now: Time) returns (r: Outcome)
      modifies base
      ensures r == NameCheck(name)
      ensures r.Pass? ==> base.attrs == old(base.attrs)["name" := name]["updated_at" := VTime(now)]
      ensures r.Fail? ==> base.attrs == old(base.attrs)
      ensures r.Pass? || ("name" in old(base.attrs) && NameOk(old(base.attrs)["name"])) ==>
        "name" in base.attrs && NameOk(base.attrs["name"])
    {
      r := NameCheck(name);
      if r.Fail? {
        return;
      }
      base.attrs := base.attrs["name" := name];
      base.Save(now);
    }
  }
}
