/**
 * The review endpoints (part4/app/api/v1/reviews.py): the checks each handler
 * makes before calling the facade, and the status code every path ends in.
 * The caller's identity, which the access token carries, is an input.
 */
module ReviewsApi {
  import opened Common
  import Repository
  import FacadeV3
  import opened Http

  /** Two reviews by the same user of the same place. */
  predicate SamePair(x: Obj, y: Obj) {
    && "user_id" in x && "user_id" in y && x["user_id"] == y["user_id"]
    && "place_id" in x && "place_id" in y && x["place_id"] == y["place_id"]
  }

  /** At most one stored review for each (user, place) pair. */
  ghost predicate OneReviewPerPair(rows: map<Id, Obj>) {
    forall a, b :: a in rows && b in rows && SamePair(rows[a], rows[b]) ==> a == b
  }

  /** A review shares its pair with no stored one, so storing it under a new id keeps the pairs unique. */
  lemma AddKeepsPairsUnique(rows: map<Id, Obj>, key: Id, row: Obj)
    requires OneReviewPerPair(rows) && key !in rows
    requires forall id :: id in rows ==> !SamePair(rows[id], row)
    ensures OneReviewPerPair(rows[key := row])
  {
    var rows' := rows[key := row];
    forall a, b | a in rows' && b in rows' && SamePair(rows'[a], rows'[b])
      ensures a == b
    {
      if a == key && b != key {
        assert SamePair(rows[b], row);
      }
    }
  }

  /** Removing reviews keeps the pairs unique. */
  lemma RemoveKeepsPairsUnique(rows: map<Id, Obj>, gone: set<Id>)
    requires OneReviewPerPair(rows)
    ensures OneReviewPerPair(rows - gone)
  {
  }

  // ----- ReviewList.post -----

  /**
   * The checks `post` makes before creating: 404 when the payload's
   * `place_id` names no place, 403 when the caller owns that place or has
   * already reviewed it, and None to go on. A place without an owner column
   * makes the owner test raise, which the handler turns into 500.
   */
  function PostGuard(f: FacadeV3.Facade, data: Dict, current: Id): (s: Option<int>)
    reads f.places, f.reviews
    ensures s == Some(404) <==> f.places.Get(GetOr(data, "place_id", VNone)).None?
    ensures s.None? <==>
      var place := f.places.Get(GetOr(data, "place_id", VNone));
      && place.Some? && "owner_id" in place.value && place.value["owner_id"] != VStr(current)
      && !f.HasReview(current, GetOr(data, "place_id", VNone).s)
    ensures s == Some(500) <==>
      var place := f.places.Get(GetOr(data, "place_id", VNone));
      place.Some? && "owner_id" !in place.value
    ensures s == Some(403) <==>
      var place := f.places.Get(GetOr(data, "place_id", VNone));
      && place.Some? && "owner_id" in place.value
      && (place.value["owner_id"] == VStr(current) || f.HasReview(current, GetOr(data, "place_id", VNone).s))
    ensures s.Some? ==> s.value in {403, 404, 500}
  {
    var placeId := GetOr(data, "place_id", VNone);
    var place := f.places.Get(placeId);
    if place.None? then Some(404)
    else if "owner_id" !in place.value then Some(500)
    else if place.value["owner_id"] == VStr(current) then Some(403)
    else if f.HasReview(current, placeId.s) then Some(403)
    else None
  }

  /**
   * `ReviewList.post` as written: once the checks pass, the review is created
   * from the payload as it stands, `user_id` included; 201 when it is stored
   * and 400 for the ValueError the facade raises otherwise.
   */
  method Post(f: FacadeV3.Facade, data: Dict, current: Id, freshId: Id, now: Time) returns (status: int)
    requires f.Valid()
    modifies f.reviews
    ensures f.Valid()
    ensures old(PostGuard(f, data, current)).Some? ==>
      status == old(PostGuard(f, data, current)).value && f.reviews.rows == old(f.reviews.rows)
    ensures old(PostGuard(f, data, current)).None? ==>
      var p := FacadeV3.ReviewPayload(data, f.users.rows, f.places.rows, freshId, now);
      && (status == 201 <==> p.Ok? && freshId !in old(f.reviews.rows))
      && (status == 201 ==> f.reviews.rows == old(f.reviews.rows)[freshId := p.value])
      && (status != 201 ==> status == 400 && f.reviews.rows == old(f.reviews.rows))
  {
    var guard := PostGuard(f, data, current);
    if guard.Some? {
      return guard.value;
    }
    var created := f.CreateReview(data, freshId, now);
    if created.Err? {
      return StatusOf(created.error);
    }
    return 201;
  }

  /**
   * The checks look at the caller's own reviews, but the review is filed
   * under the payload's `user_id`: a caller who has not reviewed a place
   * passes them with a payload naming another user who has, and the stored
   * reviews then hold two by that user of that place.
   */
  lemma PostFilesSecondReview(f: FacadeV3.Facade, data: Dict, current: Id, other: Id, freshId: Id, now: Time)
    requires f.Valid()
    requires PostGuard(f, data, current).None?
    requires Lookup(data, "user_id") == Some(VStr(other)) && "text" in Keys(data) && "rating" in Keys(data)
    requires f.HasReview(other, GetOr(data, "place_id", VNone).s)
    requires freshId !in f.reviews.rows
    ensures FacadeV3.ReviewPayload(data, f.users.rows, f.places.rows, freshId, now).Ok?
    ensures !OneReviewPerPair(f.reviews.rows[freshId := FacadeV3.ReviewPayload(data, f.users.rows, f.places.rows, freshId, now).value])
  {
    var placeId := GetOr(data, "place_id", VNone);
    var id :| id in f.reviews.rows && "user_id" in f.reviews.rows[id] && f.reviews.rows[id]["user_id"] == VStr(other)
              && "place_id" in f.reviews.rows[id] && f.reviews.rows[id]["place_id"] == VStr(placeId.s);
    assert FacadeV3.RefersTo(VStr(other), f.users.rows);
    assert Lookup(data, "place_id") == Some(placeId);
    FacadeV3.ReviewPayloadAt(data, f.users.rows, f.places.rows, freshId, now);
    var row := FacadeV3.ReviewPayload(data, f.users.rows, f.places.rows, freshId, now).value;
    var rows' := f.reviews.rows[freshId := row];
    assert SamePair(rows'[id], rows'[freshId]);
  }

  /**
   * `ReviewList.post` with the review filed under the caller's identity,
   * whatever `user_id` the payload holds: the same checks and statuses, and
   * the stored reviews keep at most one per (user, place).
   */
  method PostAsCaller(f: FacadeV3.Facade, data: Dict, current: Id, freshId: Id, now: Time) returns (status: int)
    requires f.Valid()
    modifies f.reviews
    ensures f.Valid()
    ensures old(PostGuard(f, data, current)).Some? ==>
      status == old(PostGuard(f, data, current)).value && f.reviews.rows == old(f.reviews.rows)
    ensures old(PostGuard(f, data, current)).None? ==>
      var p := FacadeV3.ReviewPayload(SetKey(data, "user_id", VStr(current)), f.users.rows, f.places.rows, freshId, now);
      && (status == 201 <==> p.Ok? && freshId !in old(f.reviews.rows))
      && (status != 201 ==> status == 400)
    ensures status == 201 ==> freshId in f.reviews.rows && f.reviews.rows[freshId]["user_id"] == VStr(current)
                              && f.reviews.rows == old(f.reviews.rows)[freshId := f.reviews.rows[freshId]]
    ensures status != 201 ==> f.reviews.rows == old(f.reviews.rows)
    ensures OneReviewPerPair(old(f.reviews.rows)) ==> OneReviewPerPair(f.reviews.rows)
  {
    var d := SetKey(data, "user_id", VStr(current));
    assert GetOr(d, "place_id", VNone) == GetOr(data, "place_id", VNone);
    ghost var before := f.reviews.rows;
    status := Post(f, d, current, freshId, now);
    if status == 201 {
      FacadeV3.ReviewPayloadAt(d, f.users.rows, f.places.rows, freshId, now);
      ghost var row := FacadeV3.ReviewPayload(d, f.users.rows, f.places.rows, freshId, now).value;
      ghost var placeId := GetOr(d, "place_id", VNone);
      assert Lookup(d, "place_id") == Some(placeId);
      assert row["user_id"] == VStr(current) && row["place_id"] == VStr(placeId.s);
      if OneReviewPerPair(before) {
        assert forall id :: id in before ==> !SamePair(before[id], row);
        AddKeepsPairsUnique(before, freshId, row);
      }
    }
  }

  // ----- ReviewResource.put / ReviewResource.delete -----

  /**
   * The checks `put` and `delete` make: 404 for an unknown review, 403 unless
   * the caller wrote it, and None to go on. A review without an author column
   * makes the test raise, which the handler turns into 500.
   */
  function AuthorGuard(f: FacadeV3.Facade, reviewId: Value, current: Id): (s: Option<int>)
    reads f.reviews
    ensures s == Some(404) <==> f.reviews.Get(reviewId).None?
    ensures s.None? <==>
      var review := f.reviews.Get(reviewId);
      review.Some? && "user_id" in review.value && review.value["user_id"] == VStr(current)
    ensures s == Some(500) <==>
      var review := f.reviews.Get(reviewId);
      review.Some? && "user_id" !in review.value
    ensures s == Some(403) <==>
      var review := f.reviews.Get(reviewId);
      review.Some? && "user_id" in review.value && review.value["user_id"] != VStr(current)
    ensures s.Some? ==> s.value in {403, 404, 500}
  {
    var review := f.reviews.Get(reviewId);
    if review.None? then Some(404)
    else if "user_id" !in review.value then Some(500)
    else if review.value["user_id"] != VStr(current) then Some(403)
    else None
  }

  /**
   * `ReviewResource.put`: only the author gets past the checks; the update
   * then applies the payload's entries in order, and 200 means all were
   * accepted while 400 means one was refused after the ones before it were
   * applied.
   */
  method Put(f: FacadeV3.Facade, reviewId: Value, data: Dict, current: Id) returns (status: int)
    requires f.Valid()
    modifies f.reviews
    ensures f.Valid()
    ensures old(AuthorGuard(f, reviewId, current)).Some? ==>
      status == old(AuthorGuard(f, reviewId, current)).value && f.reviews.rows == old(f.reviews.rows)
    ensures old(AuthorGuard(f, reviewId, current)).None? ==>
      var j := FirstRejected(data, FacadeV3.ReviewAllow(f.users.rows, f.places.rows));
      && (status == 200 <==> j == |data|)
      && (status != 200 ==> status == 400)
      && f.reviews.rows == old(f.reviews.rows)[reviewId.s := Assign(old(f.reviews.rows)[reviewId.s], data[..j], AllKeys)]
    ensures f.reviews.rows != old(f.reviews.rows) ==> old(AuthorGuard(f, reviewId, current)).None?
  {
    var guard := AuthorGuard(f, reviewId, current);
    if guard.Some? {
      return guard.value;
    }
    ghost var before := f.reviews.rows;
    ghost var j := FirstRejected(data, FacadeV3.ReviewAllow(f.users.rows, f.places.rows));
    var updated := f.UpdateReview(reviewId, VDict(data));
    assert f.reviews.rows == before[reviewId.s := Assign(before[reviewId.s], data[..j], AllKeys)] by {
      if j == |data| {
        assert data[..j] == data;
      }
    }
    if updated.Err? {
      return StatusOf(updated.error);
    }
    return 200;
  }

  /**
   * `ReviewResource.delete`: only the author gets past the checks, and the
   * review is then removed with 200; the pairs stay unique.
   */
  method Delete(f: FacadeV3.Facade, reviewId: Value, current: Id) returns (status: int)
    requires f.Valid()
    modifies f.reviews
    ensures f.Valid()
    ensures old(AuthorGuard(f, reviewId, current)).Some? ==>
      status == old(AuthorGuard(f, reviewId, current)).value && f.reviews.rows == old(f.reviews.rows)
    ensures old(AuthorGuard(f, reviewId, current)).None? ==>
      status == 200 && f.reviews.rows == old(f.reviews.rows) - {reviewId.s}
    ensures OneReviewPerPair(old(f.reviews.rows)) ==> OneReviewPerPair(f.reviews.rows)
  {
    var guard := AuthorGuard(f, reviewId, current);
    if guard.Some? {
      return guard.value;
    }
    ghost var before := f.reviews.rows;
    var deleted := f.DeleteReview(reviewId);
    if OneReviewPerPair(before) {
      RemoveKeepsPairsUnique(before, {reviewId.s});
    }
    if deleted {
      return 200;
    }
    return 404;
  }

  // ----- PlaceReviewList.get -----

  /**
   * `PlaceReviewList.get`: 200 exactly when some stored review names the
   * place, and 404 otherwise, so a place that exists but has no review is
   * reported as not found.
   */
  function PlaceReviewsStatus(f: FacadeV3.Facade, placeId: Value): (s: int)
    requires f.reviews.Valid()
    reads f.reviews
    ensures s == 200 <==> exists id :: id in f.reviews.rows && "place_id" in f.reviews.rows[id] && f.reviews.rows[id]["place_id"] == placeId
    ensures s == 404 <==> !exists id :: id in f.reviews.rows && "place_id" in f.reviews.rows[id] && f.reviews.rows[id]["place_id"] == placeId
  {
    var found := f.GetReviewsByPlace(placeId);
    PlaceReviewsFound(f.reviews.order, f.reviews.rows, placeId);
    if found != [] then 200 else 404
  }

  /** The place query is empty exactly when no stored review names the place. */
  lemma PlaceReviewsFound(ids: seq<Id>, rows: map<Id, Obj>, placeId: Value)
    requires forall id :: id in ids ==> id in rows
    requires forall id :: id in rows ==> id in ids
    ensures Repository.Select(ids, rows, [("place_id", placeId)]) == [] <==>
      !exists id :: id in rows && "place_id" in rows[id] && rows[id]["place_id"] == placeId
  {
    Repository.SelectFirst(ids, rows, [("place_id", placeId)]);
    forall id | id in rows
      ensures Repository.Hit(rows, [("place_id", placeId)], id) <==> "place_id" in rows[id] && rows[id]["place_id"] == placeId
    {
      Repository.MatchesOne(rows[id], "place_id", placeId);
    }
  }
}
