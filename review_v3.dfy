/**
 * The database-era review (part3/app/models/review.py). The author and the
 * reviewed place are relationships; the model keeps each as its foreign-key
 * column (`user_id`, `place_id`), the id of the referenced row.
 */
module ReviewV3 {
  import opened Common
  import BaseModelV2
  import BaseModelV3
  import ReviewV2

  /** The attributes `Review(text, rating, place, user)` leaves, or the error it raises. */
  function Build(text: Value, rating: Value, place: Value, user: Value, freshId: Id, now: Time): Result<Obj> {
    if !IsInstance(user, UserCls) then Err(ValueError("User must be an instance of User."))
    else if !IsInstance(place, PlaceCls) then Err(ValueError("Place must be an instance of Place."))
    else Ok(BaseModelV2.Fresh(freshId, now)["text" := text]["rating" := rating]
              ["place_id" := VStr(place.id)]["user_id" := VStr(user.id)])
  }

  /** The keys of `to_dict()`. */
  const DictKeys: set<string> := {"id", "text", "rating", "user_id", "place_id", "created_at", "updated_at", "__class__"}

  /**
   * `to_dict()`: id, text, rating, the ids of the referenced user and place,
   * ISO timestamps and the class name.
   */
  function ToDict(o: Obj, iso: Time -> string): (r: Result<Obj>)
    ensures r.Ok? <==> "id" in o && "text" in o && "rating" in o && "user_id" in o && "place_id" in o
                       && BaseModelV3.HasStamp(o, "created_at") && BaseModelV3.HasStamp(o, "updated_at")
    ensures r.Ok? ==> r.value.Keys == DictKeys
    ensures r.Ok? ==> r.value["created_at"] == VStr(iso(o["created_at"].t)) && r.value["updated_at"] == VStr(iso(o["updated_at"].t))
                      && r.value["__class__"] == VStr("Review")
    ensures r.Ok? ==> forall k :: k in {"id", "text", "rating", "user_id", "place_id"} ==> r.value[k] == o[k]
  {
    if !("id" in o && "text" in o && "rating" in o && "user_id" in o && "place_id" in o) then Err(AttributeError("to_dict"))
    else if !(BaseModelV3.HasStamp(o, "created_at") && BaseModelV3.HasStamp(o, "updated_at")) then Err(AttributeError("isoformat"))
    else
      Ok(map["id" := o["id"], "text" := o["text"], "rating" := o["rating"],
             "user_id" := o["user_id"], "place_id" := o["place_id"],
             "created_at" := VStr(iso(o["created_at"].t)), "updated_at" := VStr(iso(o["updated_at"].t)),
             "__class__" := VStr("Review")])
  }

  /**
   * A review is built exactly when its user and place are instances of the
   * right classes, whatever the rating (the constructor does not range-check
   * it), and its `to_dict()` then reports the ids of that user and place.
   */
  lemma BuildToDict(text: Value, rating: Value, place: Value, user: Value, freshId: Id, now: Time, iso: Time -> string)
    ensures Build(text, rating, place, user, freshId, now).Ok? <==> IsInstance(user, UserCls) && IsInstance(place, PlaceCls)
    ensures Build(text, rating, place, user, freshId, now).Ok? ==>
      var d := ToDict(Build(text, rating, place, user, freshId, now).value, iso);
      && d.Ok? && d.value["user_id"] == VStr(user.id) && d.value["place_id"] == VStr(place.id)
      && d.value["text"] == text && d.value["rating"] == rating && d.value["id"] == VStr(freshId)
      && d.value["__class__"] == VStr("Review")
  {
  }

  /** A rating of 9 is stored as given: only `set_rating` checks the range. */
  lemma ConstructorSkipsRatingCheck(user: Id, place: Id, freshId: Id, now: Time)
    ensures Build(VStr("ok"), VInt(9), VRef(PlaceCls, place), VRef(UserCls, user), freshId, now).Ok?
    ensures !ReviewV2.RatingValid(Build(VStr("ok"), VInt(9), VRef(PlaceCls, place), VRef(UserCls, user), freshId, now).value)
  {
  }

  class Review {
    const base: BaseModelV3.BaseModel

    constructor Of(b: BaseModelV3.BaseModel)
      ensures base == b
    {
      base := b;
    }

    /** `Review(text, rating, place, user)`: a fresh base object, then the instance checks. */
    static method New(text: Value, rating: Value, place: Value, user: Value, freshId: Id, now: Time) returns (r: Result<Review>)
      ensures r.Ok? <==> Build(text, rating, place, user, freshId, now).Ok?
      ensures r.Ok? ==> fresh(r.value) && fresh(r.value.base)
                        && r.value.base.attrs == Build(text, rating, place, user, freshId, now).value
      ensures r.Err? ==> r.error == Build(text, rating, place, user, freshId, now).error
    {
      var b := BaseModelV3.BaseModel.New([], freshId, now, _ => None);
      if !IsInstance(user, UserCls) {
        return Err(ValueError("User must be an instance of User."));
      }
      if !IsInstance(place, PlaceCls) {
        return Err(ValueError("Place must be an instance of Place."));
      }
      var base := b.value;
      base.attrs := base.attrs["text" := text]["rating" := rating]["place_id" := VStr(place.id)]["user_id" := VStr(user.id)];
      var v := new Review.Of(base);
      return Ok(v);
    }

    /** `set_text(text)`: a string is stored and saved; anything else raises with nothing changed. */
    method SetText(text: Value, now: Time) returns (r: Outcome)
      modifies base
      ensures r == ReviewV2.TextCheck(text)
      ensures r.Pass? ==> base.attrs == old(base.attrs)["text" := text]["updated_at" := VTime(now)]
      ensures r.Fail? ==> base.attrs == old(base.attrs)
    {
      r := ReviewV2.TextCheck(text);
      if r.Fail? {
        return;
      }
      base.attrs := base.attrs["text" := text];
      base.Save(now);
    }

    /**
     * `set_rating(rating)`: a rating in 1..5 is stored and `updated_at`
     * advanced; any other raises with the rating unchanged.
     */
    method SetRating(rating: Value, now: Time) returns (r: Outcome)
      modifies base
      ensures r == ReviewV2.RatingCheck(rating)
      ensures r.Pass? ==> base.attrs == old(base.attrs)["rating" := rating]["updated_at" := VTime(now)]
      ensures r.Fail? ==> base.attrs == old(base.attrs)
      ensures r.Pass? || ReviewV2.RatingValid(old(base.attrs)) ==> ReviewV2.RatingValid(base.attrs)
    {
      r := ReviewV2.RatingCheck(rating);
      if r.Fail? {
        return;
      }
      base.attrs := base.attrs["rating" := rating];
      base.Save(now);
    }

    /**
     * `update_review(review_data)`: a non-dict raises; otherwise each key that
     * is already an attribute is set in order, the first one that is not
     * raises with the keys before it left applied, and `save()` runs only when
     * every key was accepted.
     */
    method UpdateReview(reviewData: Value, now: Time) returns (r: Outcome)
      modifies base
      ensures !reviewData.VDict? ==> r == Fail(ValueError("review_data must be a dictionary")) && base.attrs == old(base.attrs)
      ensures reviewData.VDict? ==>
        var d := reviewData.entries;
        var j := FirstRejected(d, Allow(old(base.attrs).Keys, map[]));
        && (r.Pass? <==> j == |d|)
        && (r.Pass? ==> base.attrs == Assign(old(base.attrs), d, AllKeys)["updated_at" := VTime(now)])
        && (r.Fail? ==> r.error == ValueError("Invalid attribute '" + d[j].0 + "' for Review")
                        && base.attrs == Assign(old(base.attrs), d[..j], AllKeys))
    {
      if !reviewData.VDict? {
        return Fail(ValueError("review_data must be a dictionary"));
      }
      var d := reviewData.entries;
      ghost var a := Allow(old(base.attrs).Keys, map[]);
      var i := 0;
      while i < |d|
        invariant 0 <= i <= |d|
        invariant i <= FirstRejected(d, a)
        invariant base.attrs == Assign(old(base.attrs), d[..i], AllKeys)
        invariant base.attrs.Keys == old(base.attrs).Keys
      {
        var (k, v) := d[i];
        if k !in base.attrs {
          return Fail(ValueError("Invalid attribute '" + k + "' for Review"));
        }
        AssignStep(old(base.attrs), d, AllKeys, i);
        base.attrs := base.attrs[k := v];
        i := i + 1;
      }
      assert d[..i] == d;
      base.Save(now);
      return Pass;
    }
  }
}
