/**
 * The in-memory review (part2/app/models/review.py): a text, a rating kept
 * in 1..5 by its setter, and references to the reviewed place and its author.
 */
module ReviewV2 {
  import opened Common
  import BaseModelV2

  /** The check `set_text` makes: only a string is accepted. */
  function TextCheck(text: Value): (r: Outcome)
    ensures r.Pass? <==> text.VStr?
    ensures r.Fail? ==> r.error == ValueError("The text must be a string.")
  {
    if text.VStr? then Pass else Fail(ValueError("The text must be a string."))
  }

  /** A rating `set_rating` accepts: a number from 1 to 5 inclusive. */
  predicate RatingInRange(rating: Value) {
    IsNumber(rating) && 1.0 <= Num(rating) <= 5.0
  }

  /**
   * The checks `set_rating` makes, in order: a non-number and a number outside
   * 1..5 are refused with their own messages.
   */
  function RatingCheck(rating: Value): (r: Outcome)
    ensures r.Pass? <==> RatingInRange(rating)
    ensures !IsNumber(rating) ==> r == Fail(ValueError("The rating must be an integer or float."))
    ensures IsNumber(rating) && !RatingInRange(rating) ==> r == Fail(ValueError("Rating must be between 1 and 5."))
  {
    if !IsNumber(rating) then Fail(ValueError("The rating must be an integer or float."))
    else if Num(rating) < 1.0 || Num(rating) > 5.0 then Fail(ValueError("Rating must be between 1 and 5."))
    else Pass
  }

  /** The bounds are inclusive: 1 and 5 pass, 0, 6 and 5.5 do not, nor does a string. */
  lemma RatingBoundaries()
    ensures RatingCheck(VInt(1)).Pass? && RatingCheck(VInt(5)).Pass? && RatingCheck(VReal(4.5)).Pass?
    ensures RatingCheck(VInt(0)).Fail? && RatingCheck(VInt(6)).Fail? && RatingCheck(VReal(5.5)).Fail?
    ensures RatingCheck(VStr("5")) == Fail(ValueError("The rating must be an integer or float."))
  {
  }

  /** A review whose rating attribute is in range. */
  predicate RatingValid(o: Obj) {
    "rating" in o && RatingInRange(o["rating"])
  }

  /** The attributes `Review(text, rating, place, user)` leaves, or the error it raises. */
  function Build(text: Value, rating: Value, place: Value, user: Value, freshId: Id, now: Time): Result<Obj> {
    if !IsInstance(user, UserCls) then Err(ValueError("User must be an instance of User."))
    else if !IsInstance(place, PlaceCls) then Err(ValueError("Place must be an instance of Place."))
    else Ok(BaseModelV2.Fresh(freshId, now)["text" := text]["rating" := rating]["place" := place]["user" := user])
  }

  /**
   * `to_dict()`: id, text, rating, the ids of the referenced user and place,
   * ISO timestamps and the class name; AttributeError when an attribute it
   * reads is missing or is no model instance.
   */
  function ToDict(o: Obj, iso: Time -> string): (r: Result<Obj>)
    ensures r.Ok? <==> "id" in o && "text" in o && "rating" in o && "user" in o && o["user"].VRef?
                       && "place" in o && o["place"].VRef? && "created_at" in o && o["created_at"].VTime?
                       && "updated_at" in o && o["updated_at"].VTime?
    ensures r.Ok? ==> r.value.Keys == {"id", "text", "rating", "user_id", "place_id", "created_at", "updated_at", "__class__"}
    ensures r.Ok? ==> r.value["created_at"] == VStr(iso(o["created_at"].t)) && r.value["updated_at"] == VStr(iso(o["updated_at"].t))
                      && r.value["__class__"] == VStr("Review")
    ensures r.Ok? ==> r.value["user_id"] == VStr(o["user"].id) && r.value["place_id"] == VStr(o["place"].id)
    ensures r.Ok? ==> r.value["id"] == o["id"] && r.value["text"] == o["text"] && r.value["rating"] == o["rating"]
  {
    if !("id" in o && "text" in o && "rating" in o) then Err(AttributeError("to_dict"))
    else if !("user" in o && o["user"].VRef?) then Err(AttributeError("user"))
    else if !("place" in o && o["place"].VRef?) then Err(AttributeError("place"))
    else if !("created_at" in o && o["created_at"].VTime? && "updated_at" in o && o["updated_at"].VTime?) then
      Err(AttributeError("isoformat"))
    else
      Ok(map["id" := o["id"], "text" := o["text"], "rating" := o["rating"],
             "user_id" := VStr(o["user"].id), "place_id" := VStr(o["place"].id),
             "created_at" := VStr(iso(o["created_at"].t)), "updated_at" := VStr(iso(o["updated_at"].t)),
             "__class__" := VStr("Review")])
  }

  /**
   * A review is built exactly when its user and place are model instances of
   * the right classes, whatever the text and rating (no range check here), and
   * its `to_dict()` then reports the ids of that user and place and the given
   * text and rating.
   */
  lemma BuildToDict(text: Value, rating: Value, place: Value, user: Value, freshId: Id, now: Time, iso: Time -> string)
    ensures Build(text, rating, place, user, freshId, now).Ok? <==> IsInstance(user, UserCls) && IsInstance(place, PlaceCls)
    ensures Build(text, rating, place, user, freshId, now).Ok? ==>
      var d := ToDict(Build(text, rating, place, user, freshId, now).value, iso);
      && d.Ok? && d.value["user_id"] == VStr(user.id) && d.value["place_id"] == VStr(place.id)
      && d.value["text"] == text && d.value["rating"] == rating && d.value["__class__"] == VStr("Review")
      && d.value["id"] == VStr(freshId)
  {
  }

  class Review {
    const base: BaseModelV2.BaseModel

    constructor Of(b: BaseModelV2.BaseModel)
      ensures base == b
    {
      base := b;
    }

    /** `Review(text, rating, place, user)`: a fresh base object, then the instance checks. */
    static method New(text: Value, rating: Value, place: Value, user: Value, freshId: Id, now: Time) returns (r: Result<Review>)
      ensures r.Ok? <==> Build(text, rating, place, user, freshId, now).Ok?
      ensures r.Ok? ==> fresh(r.value) && fresh(r.value.base)
                        && r.value.base.attrs == Build(text, rating, place, user, freshId, now).value
      ensures r.Err? ==> r.error == Build(text, rating, place, user, freshId, now).error
    {
      var b := new BaseModelV2.BaseModel(freshId, now);
      if !IsInstance(user, UserCls) {
        return Err(ValueError("User must be an instance of User."));
      }
      if !IsInstance(place, PlaceCls) {
        return Err(ValueError("Place must be an instance of Place."));
      }
      b.attrs := b.attrs["text" := text]["rating" := rating]["place" := place]["user" := user];
      var v := new Review.Of(b);
      return Ok(v);
    }

    /** `set_text(text)`: a string is stored and saved; anything else raises with nothing changed. */
    method SetText(text: Value, now: Time) returns (r: Outcome)
      modifies base
      ensures r == TextCheck(text)
      ensures r.Pass? ==> base.attrs == old(base.attrs)["text" := text]["updated_at" := VTime(now)]
      ensures r.Fail? ==> base.attrs == old(base.attrs)
    {
      r := TextCheck(text);
      if r.Fail? {
        return;
      }
      base.attrs := base.attrs["text" := text];
      base.Save(now);
    }

    /**
     * `set_rating(rating)`: a rating in 1..5 is stored and saved; any other
     * raises with the rating unchanged. Afterwards the rating is valid if it
     * was before or the call succeeded.
     */
    method SetRating(rating: Value, now: Time) returns (r: Outcome)
      modifies base
      ensures r == RatingCheck(rating)
      ensures r.Pass? ==> base.attrs == old(base.attrs)["rating" := rating]["updated_at" := VTime(now)]
      ensures r.Fail? ==> base.attrs == old(base.attrs)
      ensures r.Pass? || RatingValid(old(base.attrs)) ==> RatingValid(base.attrs)
    {
      r := RatingCheck(rating);
      if r.Fail? {
        return;
      }
      base.attrs := base.attrs["rating" := rating];
      base.Save(now);
    }
  }
}
