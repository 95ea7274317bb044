/**
 * The database-era place (part4/app/models/place.py). The owner is a
 * relationship, kept as its foreign-key column `owner_id`; the setters are
 * the ones of the in-memory place and share its checks.
 */
module PlaceV4 {
  import opened Common
  import BaseModelV2
  import BaseModelV3
  import PlaceV2

  /** The attributes `Place(title, description, price, latitude, longitude, owner)` leaves, or its error. */
  function Build(title: Value, description: Value, price: Value, latitude: Value, longitude: Value, owner: Value,
                 freshId: Id, now: Time): (r: Result<Obj>)
    ensures r.Ok? <==> IsInstance(owner, UserCls)
    ensures r.Ok? ==> && "id" in r.value && r.value["id"] == VStr(freshId)
                      && "owner_id" in r.value && r.value["owner_id"] == VStr(owner.id)
                      && "amenities" in r.value && r.value["amenities"] == VList([])
                      && "reviews" in r.value && r.value["reviews"] == VList([])
  {
    if !IsInstance(owner, UserCls) then Err(ValueError("Owner must be an instance of User."))
    else Ok(BaseModelV2.Fresh(freshId, now)["title" := title]["description" := description]["price" := price]
              ["latitude" := latitude]["longitude" := longitude]["owner_id" := VStr(owner.id)]
              ["reviews" := VList([])]["amenities" := VList([])])
  }

  /** The keys of `to_dict()`: the reviews are not listed. */
  const DictKeys: set<string> := {"id", "title", "description", "price", "latitude", "longitude", "owner_id",
                                  "amenities", "created_at", "updated_at", "__class__"}

  /** The attributes `to_dict` reads, with an amenity list of model instances and datetime stamps. */
  predicate Renderable(o: Obj) {
    && "id" in o && "title" in o && "description" in o && "price" in o && "latitude" in o && "longitude" in o
    && "owner_id" in o && "amenities" in o && o["amenities"].VList? && IdsOf(o["amenities"].items).Ok?
    && BaseModelV3.HasStamp(o, "created_at") && BaseModelV3.HasStamp(o, "updated_at")
  }

  /**
   * `to_dict()`: the place's fields, its owner's id, the ids of its amenities
   * in list order, ISO timestamps and the class name.
   */
  function ToDict(o: Obj, iso: Time -> string): (r: Result<Obj>)
    ensures r.Ok? <==> Renderable(o)
    ensures r.Ok? ==> r.value.Keys == DictKeys
    ensures r.Ok? ==> r.value["created_at"] == VStr(iso(o["created_at"].t)) && r.value["updated_at"] == VStr(iso(o["updated_at"].t))
                      && r.value["__class__"] == VStr("Place")
    ensures r.Ok? ==> forall k :: k in {"id", "title", "description", "price", "latitude", "longitude", "owner_id"} ==> r.value[k] == o[k]
    ensures r.Ok? ==> r.value["amenities"].VList? && |r.value["amenities"].items| == |o["amenities"].items|
                      && forall i :: 0 <= i < |o["amenities"].items| ==> r.value["amenities"].items[i] == VStr(o["amenities"].items[i].id)
  {
    if !Renderable(o) then Err(AttributeError("to_dict"))
    else
      Ok(map["id" := o["id"], "title" := o["title"], "description" := o["description"], "price" := o["price"],
             "latitude" := o["latitude"], "longitude" := o["longitude"], "owner_id" := o["owner_id"],
             "amenities" := VList(IdsOf(o["amenities"].items).value),
             "created_at" := VStr(iso(o["created_at"].t)), "updated_at" := VStr(iso(o["updated_at"].t)),
             "__class__" := VStr("Place")])
  }

  /**
   * A freshly built place starts with empty review and amenity lists, and its
   * `to_dict()` reports the owner's id and no amenity.
   */
  lemma BuildToDict(title: Value, description: Value, price: Value, latitude: Value, longitude: Value, owner: Value,
                    freshId: Id, now: Time, iso: Time -> string)
    ensures Build(title, description, price, latitude, longitude, owner, freshId, now).Ok? ==>
      var o := Build(title, description, price, latitude, longitude, owner, freshId, now).value;
      && o["reviews"] == VList([])
      && ToDict(o, iso).Ok? && ToDict(o, iso).value["owner_id"] == VStr(owner.id)
      && ToDict(o, iso).value["amenities"] == VList([])
  {
  }

  /**
   * The constructor stores its arguments unchecked: the fields of a built
   * place are valid exactly when the arguments are.
   */
  lemma BuildFieldsValid(title: Value, description: Value, price: Value, latitude: Value, longitude: Value, owner: Value,
                         freshId: Id, now: Time)
    ensures Build(title, description, price, latitude, longitude, owner, freshId, now).Ok? ==>
      var o := Build(title, description, price, latitude, longitude, owner, freshId, now).value;
      PlaceV2.FieldsValid(o) <==> (PlaceV2.TitleOk(title) && description.VStr? && PlaceV2.PriceOk(price) && PlaceV2.LatitudeOk(latitude) && PlaceV2.LongitudeOk(longitude))
  {
  }

  class Place {
    const base: BaseModelV3.BaseModel

    constructor Of(b: BaseModelV3.BaseModel)
      ensures base == b
    {
      base := b;
    }

    /** `Place(title, description, price, latitude, longitude, owner)`. */
    static method New(title: Value, description: Value, price: Value, latitude: Value, longitude: Value, owner: Value,
                      freshId: Id, now: Time) returns (r: Result<Place>)
      ensures r.Ok? <==> Build(title, description, price, latitude, longitude, owner, freshId, now).Ok?
      ensures r.Ok? ==> fresh(r.value) && fresh(r.value.base)
                        && r.value.base.attrs == Build(title, description, price, latitude, longitude, owner, freshId, now).value
      ensures r.Err? ==> r.error == Build(title, description, price, latitude, longitude, owner, freshId, now).error
    {
      var b := BaseModelV3.BaseModel.New([], freshId, now, _ => None);
      if !IsInstance(owner, UserCls) {
        return Err(ValueError("Owner must be an instance of User."));
      }
      var base := b.value;
      base.attrs := base.attrs["title" := title]["description" := description]["price" := price]
        ["latitude" := latitude]["longitude" := longitude]["owner_id" := VStr(owner.id)]
        ["reviews" := VList([])]["amenities" := VList([])];
      var p := new Place.Of(base);
      return Ok(p);
    }

    /** `add_review(review)`: appended at the end; the amenity list is untouched. */
    method AddReview(review: Value) returns (r: Outcome)
      modifies base
      ensures r.Pass? <==> Append(old(base.attrs), "reviews", review).Ok?
      ensures r.Pass? ==> base.attrs == Append(old(base.attrs), "reviews", review).value
      ensures r.Fail? ==> base.attrs == old(base.attrs)
    {
      var appended := Append(base.attrs, "reviews", review);
      if appended.Err? {
        return Fail(appended.error);
      }
      base.attrs := appended.value;
      return Pass;
    }

    /** `add_amenity(amenity)`: appended at the end; the review list is untouched. */
    method AddAmenity(amenity: Value) returns (r: Outcome)
      modifies base
      ensures r.Pass? <==> Append(old(base.attrs), "amenities", amenity).Ok?
      ensures r.Pass? ==> base.attrs == Append(old(base.attrs), "amenities", amenity).value
      ensures r.Fail? ==> base.attrs == old(base.attrs)
    {
      var appended := Append(base.attrs, "amenities", amenity);
      if appended.Err? {
        return Fail(appended.error);
      }
      base.attrs := appended.value;
      return Pass;
    }

    /** `set_title(title)`: stored when acceptable, otherwise a message and no change. */
    method SetTitle(title: Value) returns (msg: Option<string>)
      modifies base
      ensures msg == PlaceV2.TitleCheck(title)
      ensures msg.None? ==> base.attrs == old(base.attrs)["title" := title]
      ensures msg.Some? ==> base.attrs == old(base.attrs)
      ensures PlaceV2.FieldsValid(old(base.attrs)) ==> PlaceV2.FieldsValid(base.attrs)
    {
      msg := PlaceV2.TitleCheck(title);
      if msg.None? {
        base.attrs := base.attrs["title" := title];
      }
    }

    /** `set_description(description)`: stored when a string, otherwise a message and no change. */
    method SetDescription(description: Value) returns (msg: Option<string>)
      modifies base
      ensures msg == PlaceV2.DescriptionCheck(description)
      ensures msg.None? ==> base.attrs == old(base.attrs)["description" := description]
      ensures msg.Some? ==> base.attrs == old(base.attrs)
      ensures PlaceV2.FieldsValid(old(base.attrs)) ==> PlaceV2.FieldsValid(base.attrs)
    {
      msg := PlaceV2.DescriptionCheck(description);
      if msg.None? {
        base.attrs := base.attrs["description" := description];
      }
    }

    /** `set_price(price)`: stored when positive, otherwise a message and no change. */
    method SetPrice(price: Value) returns (msg: Option<string>)
      modifies base
      ensures msg == PlaceV2.PriceCheck(price)
      ensures msg.None? ==> base.attrs == old(base.attrs)["price" := price]
      ensures msg.Some? ==> base.attrs == old(base.attrs)
      ensures PlaceV2.FieldsValid(old(base.attrs)) ==> PlaceV2.FieldsValid(base.attrs)
    {
      msg := PlaceV2.PriceCheck(price);
      if msg.None? {
        base.attrs := base.attrs["price" := price];
      }
    }

    /** `set_latitude(latitude)`: stored when in range, otherwise a message and no change. */
    method SetLatitude(latitude: Value) returns (msg: Option<string>)
      modifies base
      ensures msg == PlaceV2.LatitudeCheck(latitude)
      ensures msg.None? ==> base.attrs == old(base.attrs)["latitude" := latitude]
      ensures msg.Some? ==> base.attrs == old(base.attrs)
      ensures PlaceV2.FieldsValid(old(base.attrs)) ==> PlaceV2.FieldsValid(base.attrs)
    {
      msg := PlaceV2.LatitudeCheck(latitude);
      if msg.None? {
        base.attrs := base.attrs["latitude" := latitude];
      }
    }

    /** `set_longitude(longitude)`: stored when in range, otherwise a message and no change. */
    method SetLongitude(longitude: Value) returns (msg: Option<string>)
      modifies base
      ensures msg == PlaceV2.LongitudeCheck(longitude)
      ensures msg.None? ==> base.attrs == old(base.attrs)["longitude" := longitude]
      ensures msg.Some? ==> base.attrs == old(base.attrs)
      ensures PlaceV2.FieldsValid(old(base.attrs)) ==> PlaceV2.FieldsValid(base.attrs)
    {
      msg := PlaceV2.LongitudeCheck(longitude);
      if msg.None? {
        base.attrs := base.attrs["longitude" := longitude];
      }
    }
  }
}
