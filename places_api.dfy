/**
 * The place endpoints (part4/app/api/v1/places.py): a place is always
 * created for the caller, whatever owner the payload names, a lookup answers
 * 404 for an unknown id, and only a place's owner may change it. The
 * caller's identity, which the access token carries, is an input.
 */
module PlacesApi {
  import opened Common
  import FacadeV3
  import opened Http

  /**
   * `PlaceList.post`: the payload's `owner_id` is overwritten with the
   * caller's id, then the place is created: 201 when it is stored, 400 for
   * the ValueError the facade raises (an unknown owner or amenity) and 500
   * for any other failure; nothing is stored unless the reply is 201, and a
   * stored place is owned by the caller.
   */
  method Post(f: FacadeV3.Facade, data: Dict, current: Id, freshId: Id, now: Time) returns (status: int)
    requires f.Valid()
    modifies f.places
    ensures f.Valid()
    ensures var p := FacadeV3.PlacePayload(SetKey(data, "owner_id", VStr(current)), f.users.rows, f.amenities.rows, freshId, now);
      && (status == 201 <==> p.Ok? && freshId !in old(f.places.rows))
      && (status == 201 ==> f.places.rows == old(f.places.rows)[freshId := p.value] && p.value["owner_id"] == VStr(current))
      && (status != 201 ==> f.places.rows == old(f.places.rows) && (status == 400 || status == 500))
      && (p.Err? ==> status == ValueErrorStatus(p.error))
    ensures current !in f.users.rows ==> status == 400
  {
    var d := SetKey(data, "owner_id", VStr(current));
    ghost var p := FacadeV3.PlacePayload(d, f.users.rows, f.amenities.rows, freshId, now);
    FacadeV3.PlacePayloadOwner(d, f.users.rows, f.amenities.rows, freshId, now);
    if p.Ok? {
      FacadeV3.PlacePayloadAt(d, f.users.rows, f.amenities.rows, freshId, now);
    }
    var created := f.CreatePlace(d, freshId, now);
    if created.Err? {
      return ValueErrorStatus(created.error);
    }
    return 201;
  }

  /** `PlaceResource.get`: 200 for a stored place and 404 otherwise. */
  function GetStatus(f: FacadeV3.Facade, placeId: Value): (s: int)
    reads f.places
    ensures s == 200 <==> placeId.VStr? && placeId.s in f.places.rows
    ensures s == 404 <==> !(placeId.VStr? && placeId.s in f.places.rows)
  {
    if f.places.Get(placeId).Some? then 200 else 404
  }

  /**
   * The checks `put` makes: 404 for an unknown place, 403 unless the caller
   * owns it, and None to go on. A place without an owner column makes the
   * test raise, which the handler turns into 500.
   */
  function OwnerGuard(f: FacadeV3.Facade, placeId: Value, current: Id): (s: Option<int>)
    reads f.places
    ensures s == Some(404) <==> f.places.Get(placeId).None?
    ensures s.None? <==>
      var place := f.places.Get(placeId);
      place.Some? && "owner_id" in place.value && place.value["owner_id"] == VStr(current)
    ensures s == Some(500) <==>
      var place := f.places.Get(placeId);
      place.Some? && "owner_id" !in place.value
    ensures s == Some(403) <==>
      var place := f.places.Get(placeId);
      place.Some? && "owner_id" in place.value && place.value["owner_id"] != VStr(current)
    ensures s.Some? ==> s.value in {403, 404, 500}
  {
    var place := f.places.Get(placeId);
    if place.None? then Some(404)
    else if "owner_id" !in place.value then Some(500)
    else if place.value["owner_id"] != VStr(current) then Some(403)
    else None
  }

  /**
   * `PlaceResource.put`: only the owner gets past the checks; the update then
   * applies the payload's entries in order, and 200 means all were accepted
   * while 400 means one was refused after the ones before it were applied.
   * The places change only on the owner's request.
   */
  method Put(f: FacadeV3.Facade, placeId: Value, data: Dict, current: Id) returns (status: int)
    requires f.Valid()
    modifies f.places
    ensures f.Valid()
    ensures old(OwnerGuard(f, placeId, current)).Some? ==>
      status == old(OwnerGuard(f, placeId, current)).value && f.places.rows == old(f.places.rows)
    ensures old(OwnerGuard(f, placeId, current)).None? ==>
      var j := FirstRejected(data, FacadeV3.PlaceAllow(f.users.rows));
      && (status == 200 <==> j == |data|)
      && (status != 200 ==> status == 400)
      && f.places.rows == old(f.places.rows)[placeId.s := Assign(old(f.places.rows)[placeId.s], data[..j], AllKeys)]
    ensures f.places.rows != old(f.places.rows) ==> old(OwnerGuard(f, placeId, current)).None?
  {
    var guard := OwnerGuard(f, placeId, current);
    if guard.Some? {
      return guard.value;
    }
    var updated := f.UpdatePlace(placeId, VDict(data));
    if updated.Err? {
      return StatusOf(updated.error);
    }
    assert data[..|data|] == data;
    return 200;
  }
}
