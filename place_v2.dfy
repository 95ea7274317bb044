/**
 * The in-memory place (part2/app/models/place.py): its setters refuse a bad
 * value by returning a message instead of raising, and leave the field as it
 * was; `reviews` and `amenities` grow by appending.
 */
module PlaceV2 {
  import opened Common
  import BaseModelV2

  /** A title `set_title` accepts: a string of at most 100 characters. */
  predicate TitleOk(v: Value) {
    v.VStr? && |v.s| <= 100
  }

  /** A price `set_price` accepts: a number above zero. */
  predicate PriceOk(v: Value) {
    IsNumber(v) && Num(v) > 0.0
  }

  /** A latitude `set_latitude` accepts: a number in [-90, 90]. */
  predicate LatitudeOk(v: Value) {
    IsNumber(v) && -90.0 <= Num(v) <= 90.0
  }

  /** A longitude `set_longitude` accepts: a number in [-180, 180]. */
  predicate LongitudeOk(v: Value) {
    IsNumber(v) && -180.0 <= Num(v) <= 180.0
  }

  /** The message `set_title` returns, or None when it stores the title. */
  function TitleCheck(title: Value): (msg: Option<string>)
    ensures msg.None? <==> TitleOk(title)
    ensures !title.VStr? ==> msg == Some("The title must be a string.")
    ensures title.VStr? && |title.s| > 100 ==> msg == Some("The title is too long.")
  {
    if !title.VStr? then Some("The title must be a string.")
    else if |title.s| > 100 then Some("The title is too long.")
    else None
  }

  /** The message `set_description` returns, or None when it stores the description. */
  function DescriptionCheck(description: Value): (msg: Option<string>)
    ensures msg.None? <==> description.VStr?
    ensures msg.Some? ==> msg.value == "The description must be a string."
  {
    if !description.VStr? then Some("The description must be a string.") else None
  }

  /** The message `set_price` returns, or None when it stores the price. */
  function PriceCheck(price: Value): (msg: Option<string>)
    ensures msg.None? <==> PriceOk(price)
    ensures !IsNumber(price) ==> msg == Some("The price must be a number.")
    ensures IsNumber(price) && Num(price) <= 0.0 ==> msg == Some("The price must be positive and not zero.")
  {
    if !IsNumber(price) then Some("The price must be a number.")
    else if Num(price) <= 0.0 then Some("The price must be positive and not zero.")
    else None
  }

  /** The message `set_latitude` returns, or None when it stores the latitude. */
  function LatitudeCheck(latitude: Value): (msg: Option<string>)
    ensures msg.None? <==> LatitudeOk(latitude)
    ensures !IsNumber(latitude) ==> msg == Some("The latitude must be a number.")
    ensures IsNumber(latitude) && !LatitudeOk(latitude) ==> msg == Some("Latitude is outside the range.")
  {
    if !IsNumber(latitude) then Some("The latitude must be a number.")
    else if Num(latitude) < -90.0 || Num(latitude) > 90.0 then Some("Latitude is outside the range.")
    else None
  }

  /** The message `set_longitude` returns, or None when it stores the longitude. */
  function LongitudeCheck(longitude: Value): (msg: Option<string>)
    ensures msg.None? <==> LongitudeOk(longitude)
    ensures !IsNumber(longitude) ==> msg == Some("The longitude must be a number.")
    ensures IsNumber(longitude) && !LongitudeOk(longitude) ==> msg == Some("Longitude is outside the range.")
  {
    if !IsNumber(longitude) then Some("The longitude must be a number.")
    else if Num(longitude) < -180.0 || Num(longitude) > 180.0 then Some("Longitude is outside the range.")
    else None
  }

  /** The bounds are inclusive and the price bound strict. */
  lemma CheckBoundaries()
    ensures TitleCheck(VStr(seq(100, _ => 'a'))).None? && TitleCheck(VStr(seq(101, _ => 'a'))).Some?
    ensures PriceCheck(VReal(0.01)).None? && PriceCheck(VInt(0)).Some? && PriceCheck(VInt(-5)).Some?
    ensures LatitudeCheck(VInt(-90)).None? && LatitudeCheck(VInt(90)).None? && LatitudeCheck(VReal(90.5)).Some?
    ensures LongitudeCheck(VInt(-180)).None? && LongitudeCheck(VInt(180)).None? && LongitudeCheck(VReal(-180.5)).Some?
    ensures LatitudeCheck(VNone) == Some("The latitude must be a number.")
  {
  }

  /** Every field a setter guards holds an acceptable value. */
  predicate FieldsValid(o: Obj) {
    && "title" in o && TitleOk(o["title"])
    && "description" in o && o["description"].VStr?
    && "price" in o && PriceOk(o["price"])
    && "latitude" in o && LatitudeOk(o["latitude"])
    && "longitude" in o && LongitudeOk(o["longitude"])
  }

  /** The attributes `Place(title, description, price, latitude, longitude, owner)` leaves, or its error. */
  function Build(title: Value, description: Value, price: Value, latitude: Value, longitude: Value, owner: Value,
                 freshId: Id, now: Time): Result<Obj>
  {
    if !IsInstance(owner, UserCls) then Err(ValueError("Owner must be an instance of User."))
    else Ok(BaseModelV2.Fresh(freshId, now)["title" := title]["description" := description]["price" := price]
              ["latitude" := latitude]["longitude" := longitude]["owner" := owner]
              ["reviews" := VList([])]["amenities" := VList([])])
  }

  /**
   * A place is built exactly when the owner is a User (None is refused), with
   * empty review and amenity lists and the other arguments stored as given.
   */
  lemma BuildAt(title: Value, description: Value, price: Value, latitude: Value, longitude: Value, owner: Value,
                freshId: Id, now: Time)
    ensures Build(title, description, price, latitude, longitude, owner, freshId, now).Ok? <==> IsInstance(owner, UserCls)
    ensures owner == VNone ==>
      Build(title, description, price, latitude, longitude, owner, freshId, now) == Err(ValueError("Owner must be an instance of User."))
    ensures Build(title, description, price, latitude, longitude, owner, freshId, now).Ok? ==>
      var o := Build(title, description, price, latitude, longitude, owner, freshId, now).value;
      && o["reviews"] == VList([]) && o["amenities"] == VList([]) && o["owner"] == owner
      && o["title"] == title && o["description"] == description && o["price"] == price && o["latitude"] == latitude && o["longitude"] == longitude
  {
  }

  /**
   * The constructor does not go through the setters: the fields of a built
   * place are valid exactly when the arguments are.
   */
  lemma BuildFieldsValid(title: Value, description: Value, price: Value, latitude: Value, longitude: Value, owner: Value,
                         freshId: Id, now: Time)
    ensures Build(title, description, price, latitude, longitude, owner, freshId, now).Ok? ==>
      var o := Build(title, description, price, latitude, longitude, owner, freshId, now).value;
      FieldsValid(o) <==> (TitleOk(title) && description.VStr? && PriceOk(price) && LatitudeOk(latitude) && LongitudeOk(longitude))
  {
  }

  class Place {
    const base: BaseModelV2.BaseModel

    constructor Of(b: BaseModelV2.BaseModel)
      ensures base == b
    {
      base := b;
    }

    /** `Place(title, description, price, latitude, longitude, owner)`. */
    static method New(title: Value, description: Value, price: Value, latitude: Value, longitude: Value, owner: Value,
                      freshId: Id, now: Time) returns (r: Result<Place>)
      ensures r.Ok? <==> Build(title, description, price, latitude, longitude, owner, freshId, now).Ok?
      ensures r.Ok? ==> fresh(r.value) && fresh(r.value.base)
                        && r.value.base.attrs == Build(title, description, price, latitude, longitude, owner, freshId, now).value
      ensures r.Err? ==> r.error == Build(title, description, price, latitude, longitude, owner, freshId, now).error
    {
      var b := new BaseModelV2.BaseModel(freshId, now);
      if !IsInstance(owner, UserCls) {
        return Err(ValueError("Owner must be an instance of User."));
      }
      b.attrs := b.attrs["title" := title]["description" := description]["price" := price]
        ["latitude" := latitude]["longitude" := longitude]["owner" := owner]
        ["reviews" := VList([])]["amenities" := VList([])];
      var p := new Place.Of(b);
      return Ok(p);
    }

    /** `add_review(review)`: appended at the end; the amenity list is untouched. */
    method AddReview(review: Value) returns (r: Outcome)
      modifies base
      ensures r.Pass? <==> Append(old(base.attrs), "reviews", review).Ok?
      ensures r.Pass? ==> base.attrs == Append(old(base.attrs), "reviews", review).value
      ensures r.Fail? ==> base.attrs == old(base.attrs)
    {
      var appended := Append(base.attrs, "reviews", review);
      if appended.Err? {
        return Fail(appended.error);
      }
      base.attrs := appended.value;
      return Pass;
    }

    /** `add_amenity(amenity)`: appended at the end; the review list is untouched. */
    method AddAmenity(amenity: Value) returns (r: Outcome)
      modifies base
      ensures r.Pass? <==> Append(old(base.attrs), "amenities", amenity).Ok?
      ensures r.Pass? ==> base.attrs == Append(old(base.attrs), "amenities", amenity).value
      ensures r.Fail? ==> base.attrs == old(base.attrs)
    {
      var appended := Append(base.attrs, "amenities", amenity);
      if appended.Err? {
        return Fail(appended.error);
      }
      base.attrs := appended.value;
      return Pass;
    }

    /** `set_title(title)`: stored when acceptable, otherwise a message and no change. */
    method SetTitle(title: Value) returns (msg: Option<string>)
      modifies base
      ensures msg == TitleCheck(title)
      ensures msg.None? ==> base.attrs == old(base.attrs)["title" := title]
      ensures msg.Some? ==> base.attrs == old(base.attrs)
      ensures FieldsValid(old(base.attrs)) ==> FieldsValid(base.attrs)
    {
      msg := TitleCheck(title);
      if msg.None? {
        base.attrs := base.attrs["title" := title];
      }
    }

    /** `set_description(description)`: stored when a string, otherwise a message and no change. */
    method SetDescription(description: Value) returns (msg: Option<string>)
      modifies base
      ensures msg == DescriptionCheck(description)
      ensures msg.None? ==> base.attrs == old(base.attrs)["description" := description]
      ensures msg.Some? ==> base.attrs == old(base.attrs)
      ensures FieldsValid(old(base.attrs)) ==> FieldsValid(base.attrs)
    {
      msg := DescriptionCheck(description);
      if msg.None? {
        base.attrs := base.attrs["description" := description];
      }
    }

    /** `set_price(price)`: stored when positive, otherwise a message and no change. */
    method SetPrice(price: Value) returns (msg: Option<string>)
      modifies base
      ensures msg == PriceCheck(price)
      ensures msg.None? ==> base.attrs == old(base.attrs)["price" := price]
      ensures msg.Some? ==> base.attrs == old(base.attrs)
      ensures FieldsValid(old(base.attrs)) ==> FieldsValid(base.attrs)
    {
      msg := PriceCheck(price);
      if msg.None? {
        base.attrs := base.attrs["price" := price];
      }
    }

    /** `set_latitude(latitude)`: stored when in range, otherwise a message and no change. */
    method SetLatitude(latitude: Value) returns (msg: Option<string>)
      modifies base
      ensures msg == LatitudeCheck(latitude)
      ensures msg.None? ==> base.attrs == old(base.attrs)["latitude" := latitude]
      ensures msg.Some? ==> base.attrs == old(base.attrs)
      ensures FieldsValid(old(base.attrs)) ==> FieldsValid(base.attrs)
    {
      msg := LatitudeCheck(latitude);
      if msg.None? {
        base.attrs := base.attrs["latitude" := latitude];
      }
    }

    /** `set_longitude(longitude)`: stored when in range, otherwise a message and no change. */
    method SetLongitude(longitude: Value) returns (msg: Option<string>)
      modifies base
      ensures msg == LongitudeCheck(longitude)
      ensures msg.None? ==> base.attrs == old(base.attrs)["longitude" := longitude]
      ensures msg.Some? ==> base.attrs == old(base.attrs)
      ensures FieldsValid(old(base.attrs)) ==> FieldsValid(base.attrs)
    {
      msg := LongitudeCheck(longitude);
      if msg.None? {
        base.attrs := base.attrs["longitude" := longitude];
      }
    }
  }
}
