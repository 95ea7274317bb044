/**
 * The database-era service facade (part3/app/services/facade.py): users,
 * places, amenities and reviews kept in four repositories, with the
 * referential checks made before a place or a review is stored and the
 * allow-lists applied on update.
 */
module FacadeV3 {
  import opened Common
  import Repository
  import UserV3
  import PlaceV4
  import ReviewV3
  import AmenityV3

  /** The value is a string naming a stored row. */
  predicate RefersTo(v: Value, rows: map<Id, Obj>) {
    v.VStr? && v.s in rows
  }

  /** What `repository.get(v)` hands to a constructor: the model instance, or None. */
  function Fetch(v: Value, rows: map<Id, Obj>, c: Cls): (r: Value)
    ensures IsInstance(r, c) <==> RefersTo(v, rows)
    ensures IsInstance(r, c) ==> r.id == v.s
  {
    if RefersTo(v, rows) then VRef(c, v.s) else VNone
  }

  /**
   * Every place names its owner among the users, and every review names its
   * author among the users and its place among the places.
   */
  ghost predicate RefsIntact(userRows: map<Id, Obj>, placeRows: map<Id, Obj>, reviewRows: map<Id, Obj>) {
    && (forall p :: p in placeRows ==> "owner_id" in placeRows[p] && RefersTo(placeRows[p]["owner_id"], userRows))
    && (forall v :: v in reviewRows ==>
          && "user_id" in reviewRows[v] && RefersTo(reviewRows[v]["user_id"], userRows)
          && "place_id" in reviewRows[v] && RefersTo(reviewRows[v]["place_id"], placeRows))
  }

  /** No two users share an e-mail address. */
  ghost predicate EmailsUnique(userRows: map<Id, Obj>) {
    forall a, b :: (a in userRows && b in userRows && "email" in userRows[a] && "email" in userRows[b]
                    && userRows[a]["email"] == userRows[b]["email"]) ==> a == b
  }

  // ----- create_place -----

  /** The place fields `update_place` sets directly. */
  const PlaceFields: set<string> := {"title", "description", "price", "latitude", "longitude"}

  /** The parameters of `Place.__init__`. */
  const PlaceParams: set<string> := PlaceFields + {"owner"}

  /** The error `create_place` raises for an amenity id naming no stored amenity. */
  function AmenityMissing(id: Value): Error {
    ValueError("Amenity with ID '" + Show(id) + "' not found")
  }

  /**
   * The loop over the listed amenity ids: a reference per id, in order, or
   * the error for the first id that names no stored amenity.
   */
  function Attach(ids: seq<Value>, amenityRows: map<Id, Obj>): (r: Result<seq<Value>>)
    ensures r.Ok? <==> forall i :: 0 <= i < |ids| ==> RefersTo(ids[i], amenityRows)
    ensures r.Ok? ==> |r.value| == |ids| && forall i :: 0 <= i < |ids| ==> r.value[i] == VRef(AmenityCls, ids[i].s)
    decreases |ids|
  {
    if ids == [] then Ok([])
    else
      var front := ids[..|ids| - 1];
      var last := ids[|ids| - 1];
      assert forall i :: 0 <= i < |front| ==> front[i] == ids[i];
      match Attach(front, amenityRows)
      case Err(e) => Err(e)
      case Ok(refs) =>
        if RefersTo(last, amenityRows) then Ok(refs + [VRef(AmenityCls, last.s)])
        else Err(AmenityMissing(last))
  }

  /** The loop raises for the first id naming no stored amenity, whatever follows it. */
  lemma {:induction false} AttachMissing(ids: seq<Value>, amenityRows: map<Id, Obj>, j: nat)
    requires j < |ids| && !RefersTo(ids[j], amenityRows)
    requires forall i :: 0 <= i < j ==> RefersTo(ids[i], amenityRows)
    ensures Attach(ids, amenityRows) == Err(AmenityMissing(ids[j]))
    decreases |ids|
  {
    var front := ids[..|ids| - 1];
    assert forall i :: 0 <= i < |front| ==> front[i] == ids[i];
    if j < |front| {
      AttachMissing(front, amenityRows, j);
    } else {
      assert Attach(front, amenityRows).Ok?;
    }
  }

  /**
   * The place `create_place(place_data)` builds before storing it, or the
   * error it raises: the owner must exist; `amenities` and `owner_id` are
   * taken out of a copy of the payload and `owner` put in; the copy is bound
   * to the constructor's parameters; then every listed amenity must exist.
   */
  function PlacePayload(placeData: Dict, userRows: map<Id, Obj>, amenityRows: map<Id, Obj>, freshId: Id, now: Time): Result<Obj> {
    var ownerId := GetOr(placeData, "owner_id", VNone);
    if !RefersTo(ownerId, userRows) then Err(ValueError("Owner not found"))
    else
      match PlaceBuilt(placeData, ownerId, freshId, now)
      case Err(e) => Err(e)
      case Ok(o) =>
        match AmenityRefs(GetOr(placeData, "amenities", VList([])), amenityRows)
        case Err(e) => Err(e)
        case Ok(refs) => Ok(o["amenities" := VList(refs)])
  }

  /** `for amenity_id in amenity_ids`: the references the loop adds, or its error. */
  function AmenityRefs(amenityIds: Value, amenityRows: map<Id, Obj>): Result<seq<Value>> {
    match Iterate(amenityIds)
    case None => Err(TypeError("object is not iterable"))
    case Some(ids) => Attach(ids, amenityRows)
  }

  /** The copy of the payload `create_place` passes on: `amenities` popped, `owner_id` deleted, `owner` set. */
  function PlaceCopy(placeData: Dict, ownerId: Value): (r: Dict)
    requires ownerId.VStr?
    ensures Keys(r) == Keys(placeData) - {"amenities", "owner_id"} + {"owner"}
    ensures Lookup(r, "owner") == Some(VRef(UserCls, ownerId.s))
  {
    SetKey(RemoveKey(RemoveKey(placeData, "amenities"), "owner_id"), "owner", VRef(UserCls, ownerId.s))
  }

  /** The payload copy bound to `Place(...)`. */
  function PlaceBuilt(placeData: Dict, ownerId: Value, freshId: Id, now: Time): (r: Result<Obj>)
    requires ownerId.VStr?
    ensures r.Ok? ==> && "id" in r.value && r.value["id"] == VStr(freshId)
                      && "owner_id" in r.value && r.value["owner_id"] == ownerId
                      && "amenities" in r.value && r.value["amenities"] == VList([])
  {
    var copy := PlaceCopy(placeData, ownerId);
    match BindArgs(copy, PlaceParams, map[])
    case Err(e) => Err(e)
    case Ok(args) =>
      assert "owner" in args && args["owner"] == VRef(UserCls, ownerId.s) by {
        assert "owner" in PlaceParams;
        assert Lookup(copy, "owner") == Some(VRef(UserCls, ownerId.s));
      }
      PlaceV4.Build(args["title"], args["description"], args["price"], args["latitude"], args["longitude"],
                    args["owner"], freshId, now)
  }

  /** An owner id naming no user makes `create_place` raise "Owner not found", whatever else the payload holds. */
  lemma PlacePayloadOwner(placeData: Dict, userRows: map<Id, Obj>, amenityRows: map<Id, Obj>, freshId: Id, now: Time)
    ensures PlacePayload(placeData, userRows, amenityRows, freshId, now).Ok? ==>
      RefersTo(GetOr(placeData, "owner_id", VNone), userRows)
    ensures !RefersTo(GetOr(placeData, "owner_id", VNone), userRows) ==>
      PlacePayload(placeData, userRows, amenityRows, freshId, now) == Err(ValueError("Owner not found"))
  {
  }

  /**
   * A built place has the fresh id, is owned by the named user, and carries
   * exactly the listed amenities, in order, each a stored one; an unlisted
   * amenity list gives none.
   */
  lemma PlacePayloadAt(placeData: Dict, userRows: map<Id, Obj>, amenityRows: map<Id, Obj>, freshId: Id, now: Time)
    requires PlacePayload(placeData, userRows, amenityRows, freshId, now).Ok?
    ensures var o := PlacePayload(placeData, userRows, amenityRows, freshId, now).value;
      var ids := Iterate(GetOr(placeData, "amenities", VList([]))).value;
      && o["id"] == VStr(freshId)
      && o["owner_id"] == GetOr(placeData, "owner_id", VNone) && RefersTo(o["owner_id"], userRows)
      && o["amenities"].VList? && |o["amenities"].items| == |ids|
      && (forall i :: 0 <= i < |ids| ==> RefersTo(ids[i], amenityRows) && o["amenities"].items[i] == VRef(AmenityCls, ids[i].s))
      && ("amenities" !in Keys(placeData) ==> o["amenities"] == VList([]))
  {
  }

  /**
   * An amenity id that names no stored amenity makes `create_place` raise,
   * naming the first such id, once the owner and the constructor are fine.
   */
  lemma PlacePayloadMissingAmenity(placeData: Dict, userRows: map<Id, Obj>, amenityRows: map<Id, Obj>, freshId: Id, now: Time,
                                   ids: seq<Value>, j: nat)
    requires RefersTo(GetOr(placeData, "owner_id", VNone), userRows)
    requires Iterate(GetOr(placeData, "amenities", VList([]))) == Some(ids)
    requires j < |ids| && !RefersTo(ids[j], amenityRows) && forall i :: 0 <= i < j ==> RefersTo(ids[i], amenityRows)
    ensures PlacePayload(placeData, userRows, amenityRows, freshId, now).Err?
    ensures PlaceBuilt(placeData, GetOr(placeData, "owner_id", VNone), freshId, now).Ok? ==>
      PlacePayload(placeData, userRows, amenityRows, freshId, now) == Err(AmenityMissing(ids[j]))
  {
    AttachMissing(ids, amenityRows, j);
  }

  // ----- create_review -----

  /**
   * The review `create_review(review_data)` builds before storing it, or the
   * error it raises: a missing key is reported as "Missing required field",
   * and a failed construction (an unknown user or place) as "Error while
   * creating review".
   */
  function ReviewPayload(data: Dict, userRows: map<Id, Obj>, placeRows: map<Id, Obj>, freshId: Id, now: Time): Result<Obj> {
    if "place_id" !in Keys(data) then Err(ValueError("Missing required field: " + Message(KeyError("place_id"))))
    else if "user_id" !in Keys(data) then Err(ValueError("Missing required field: " + Message(KeyError("user_id"))))
    else if "text" !in Keys(data) then Err(ValueError("Missing required field: " + Message(KeyError("text"))))
    else if "rating" !in Keys(data) then Err(ValueError("Missing required field: " + Message(KeyError("rating"))))
    else
      var place := Fetch(Lookup(data, "place_id").value, placeRows, PlaceCls);
      var user := Fetch(Lookup(data, "user_id").value, userRows, UserCls);
      match ReviewV3.Build(Lookup(data, "text").value, Lookup(data, "rating").value, place, user, freshId, now)
      case Err(e) => Err(ValueError("Error while creating review: " + Message(e)))
      case Ok(o) => Ok(o)
  }

  /**
   * A review is built exactly when the payload has the four keys and names a
   * stored place and a stored user; it then carries those ids, the payload's
   * text and rating, and the fresh id. Every failure is a ValueError.
   */
  lemma ReviewPayloadAt(data: Dict, userRows: map<Id, Obj>, placeRows: map<Id, Obj>, freshId: Id, now: Time)
    ensures ReviewPayload(data, userRows, placeRows, freshId, now).Ok? <==>
      && {"place_id", "user_id", "text", "rating"} <= Keys(data)
      && RefersTo(Lookup(data, "place_id").value, placeRows) && RefersTo(Lookup(data, "user_id").value, userRows)
    ensures ReviewPayload(data, userRows, placeRows, freshId, now).Ok? ==>
      var o := ReviewPayload(data, userRows, placeRows, freshId, now).value;
      && o["place_id"] == Lookup(data, "place_id").value && o["user_id"] == Lookup(data, "user_id").value
      && o["text"] == Lookup(data, "text").value && o["rating"] == Lookup(data, "rating").value
      && o["id"] == VStr(freshId)
    ensures ReviewPayload(data, userRows, placeRows, freshId, now).Err? ==>
      ReviewPayload(data, userRows, placeRows, freshId, now).error.ValueError?
  {
  }

  // ----- update_place / update_review -----

  /** What `update_place` accepts: the plain fields, and `owner_id` naming a stored user. */
  function PlaceAllow(userRows: map<Id, Obj>): Allow {
    Allow(PlaceFields, map["owner_id" := userRows.Keys])
  }

  /** The error `update_place` raises for an entry it refuses. */
  function PlaceRejection(k: string, v: Value): Error {
    if k == "owner_id" then ValueError("Owner with ID '" + Show(v) + "' not found")
    else ValueError("Invalid attribute '" + k + "' for Place")
  }

  /** What `update_review` accepts: text, rating, and `user_id`/`place_id` naming stored rows. */
  function ReviewAllow(userRows: map<Id, Obj>, placeRows: map<Id, Obj>): Allow {
    Allow({"text", "rating"}, map["user_id" := userRows.Keys, "place_id" := placeRows.Keys])
  }

  /** The error `update_review` raises for an entry it refuses. */
  function ReviewRejection(k: string, v: Value): Error {
    if k == "user_id" then ValueError("User with ID '" + Show(v) + "' not found")
    else if k == "place_id" then ValueError("Place with ID '" + Show(v) + "' not found")
    else ValueError("Invalid attribute '" + k + "' for Review")
  }

  /**
   * An update of a place that applied its first j (accepted) entries leaves
   * the id, the timestamps and every attribute outside the allow-list as they
   * were, and the owner a stored user.
   */
  lemma PlaceUpdateAt(row: Obj, d: Dict, userRows: map<Id, Obj>, j: nat, k: string)
    requires j <= FirstRejected(d, PlaceAllow(userRows))
    requires "owner_id" in row && RefersTo(row["owner_id"], userRows)
    ensures k !in PlaceFields && k != "owner_id" ==>
      (k in Assign(row, d[..j], AllKeys) <==> k in row) && (k in row ==> Assign(row, d[..j], AllKeys)[k] == row[k])
    ensures "owner_id" in Assign(row, d[..j], AllKeys) && RefersTo(Assign(row, d[..j], AllKeys)["owner_id"], userRows)
  {
    AssignKeys(row, d[..j], AllKeys);
    AcceptedAt(row, d, PlaceAllow(userRows), j, k);
    AcceptedAt(row, d, PlaceAllow(userRows), j, "owner_id");
  }

  /**
   * An update of a review that applied its first j (accepted) entries leaves
   * every attribute outside the allow-list as it was, and its author and
   * place stored rows.
   */
  lemma ReviewUpdateAt(row: Obj, d: Dict, userRows: map<Id, Obj>, placeRows: map<Id, Obj>, j: nat, k: string)
    requires j <= FirstRejected(d, ReviewAllow(userRows, placeRows))
    requires "user_id" in row && RefersTo(row["user_id"], userRows)
    requires "place_id" in row && RefersTo(row["place_id"], placeRows)
    ensures k !in {"text", "rating", "user_id", "place_id"} ==>
      (k in Assign(row, d[..j], AllKeys) <==> k in row) && (k in row ==> Assign(row, d[..j], AllKeys)[k] == row[k])
    ensures "user_id" in Assign(row, d[..j], AllKeys) && RefersTo(Assign(row, d[..j], AllKeys)["user_id"], userRows)
    ensures "place_id" in Assign(row, d[..j], AllKeys) && RefersTo(Assign(row, d[..j], AllKeys)["place_id"], placeRows)
  {
    AssignKeys(row, d[..j], AllKeys);
    AcceptedAt(row, d, ReviewAllow(userRows, placeRows), j, k);
    AcceptedAt(row, d, ReviewAllow(userRows, placeRows), j, "user_id");
    AcceptedAt(row, d, ReviewAllow(userRows, placeRows), j, "place_id");
  }

  // ----- get_reviews_by_place -----

  /** `[review for review in reviews if review.place.id == place_id]`. */
  function OfPlace(reviews: seq<Obj>, placeId: Value): seq<Obj>
    decreases |reviews|
  {
    if reviews == [] then []
    else (if "place_id" in reviews[0] && reviews[0]["place_id"] == placeId then [reviews[0]] else [])
         + OfPlace(reviews[1..], placeId)
  }

  /**
   * Filtering the stored reviews by place is the query selecting the ids
   * whose `place_id` is the argument, in store order.
   */
  lemma {:induction false} OfPlaceSelects(ids: seq<Id>, rows: map<Id, Obj>, placeId: Value)
    requires forall x :: x in ids ==> x in rows
    ensures OfPlace(Repository.RowsOf(ids, rows), placeId)
            == Repository.RowsOf(Repository.Select(ids, rows, [("place_id", placeId)]), rows)
    decreases |ids|
  {
    if ids != [] {
      var conds := [("place_id", placeId)];
      var all := Repository.RowsOf(ids, rows);
      assert all[1..] == Repository.RowsOf(ids[1..], rows);
      OfPlaceSelects(ids[1..], rows, placeId);
      Repository.MatchesOne(rows[ids[0]], "place_id", placeId);
      var rest := Repository.Select(ids[1..], rows, conds);
      if Repository.Hit(rows, conds, ids[0]) {
        assert Repository.RowsOf([ids[0]] + rest, rows) == [rows[ids[0]]] + Repository.RowsOf(rest, rows) by {
          assert ([ids[0]] + rest)[1..] == rest;
        }
      }
    }
  }

  /** Users that stay stored keep every reference to them intact. */
  lemma RefsUsersKept(u: map<Id, Obj>, u': map<Id, Obj>, p: map<Id, Obj>, r: map<Id, Obj>)
    requires RefsIntact(u, p, r) && u.Keys <= u'.Keys
    ensures RefsIntact(u', p, r)
  {
  }

  /** Storing a place whose owner is a stored user keeps the references intact. */
  lemma RefsPlaceSet(u: map<Id, Obj>, p: map<Id, Obj>, r: map<Id, Obj>, key: Id, row: Obj)
    requires RefsIntact(u, p, r)
    requires "owner_id" in row && RefersTo(row["owner_id"], u)
    ensures RefsIntact(u, p[key := row], r)
  {
  }

  /** Storing a review whose author and place are stored keeps the references intact. */
  lemma RefsReviewSet(u: map<Id, Obj>, p: map<Id, Obj>, r: map<Id, Obj>, key: Id, row: Obj)
    requires RefsIntact(u, p, r)
    requires "user_id" in row && RefersTo(row["user_id"], u)
    requires "place_id" in row && RefersTo(row["place_id"], p)
    ensures RefsIntact(u, p, r[key := row])
  {
  }

  /** A guarded place update keeps the references intact, whether it completes or raises part-way. */
  lemma PlaceUpdateKeepsRefs(u: map<Id, Obj>, p: map<Id, Obj>, r: map<Id, Obj>, key: Id, d: Dict, j: nat)
    requires RefsIntact(u, p, r) && key in p && j <= FirstRejected(d, PlaceAllow(u))
    ensures RefsIntact(u, p[key := Assign(p[key], d[..j], AllKeys)], r)
  {
    PlaceUpdateAt(p[key], d, u, j, "id");
    RefsPlaceSet(u, p, r, key, Assign(p[key], d[..j], AllKeys));
  }

  /** A guarded review update keeps the references intact, whether it completes or raises part-way. */
  lemma ReviewUpdateKeepsRefs(u: map<Id, Obj>, p: map<Id, Obj>, r: map<Id, Obj>, key: Id, d: Dict, j: nat)
    requires RefsIntact(u, p, r) && key in r && j <= FirstRejected(d, ReviewAllow(u, p))
    ensures RefsIntact(u, p, r[key := Assign(r[key], d[..j], AllKeys)])
  {
    ReviewUpdateAt(r[key], d, u, p, j, "id");
    RefsReviewSet(u, p, r, key, Assign(r[key], d[..j], AllKeys));
  }

  class Facade {
    const users: Repository.Repository
    const places: Repository.Repository
    const reviews: Repository.Repository
    const amenities: Repository.Repository

    /** Four separate, well-formed stores whose references are intact. */
    ghost predicate Valid()
      reads users, places, reviews, amenities
    {
      && users != places && users != reviews && users != amenities
      && places != reviews && places != amenities && reviews != amenities
      && users.Valid() && places.Valid() && reviews.Valid() && amenities.Valid()
      && RefsIntact(users.rows, places.rows, reviews.rows)
    }

    /** `HBnBFacade()`: four empty repositories. */
    constructor ()
      ensures Valid()
      ensures users.rows == map[] && places.rows == map[] && reviews.rows == map[] && amenities.rows == map[]
    {
      users := new Repository.Repository();
      places := new Repository.Repository();
      reviews := new Repository.Repository();
      amenities := new Repository.Repository();
    }

    /** `create_user(user_data)`: the user constructed and added, or the error raised and no change. */
    method CreateUser(h: UserV3.Hasher, userData: Dict, freshId: Id, now: Time, parseIso: string -> Option<Time>) returns (r: Result<Obj>)
      requires Valid()
      modifies users
      ensures Valid()
      ensures var b := UserV3.Build(h, userData, freshId, now, parseIso);
        && (b.Err? ==> r == b)
        && (r.Ok? ==> r == b && "id" in r.value && r.value["id"].VStr? && r.value["id"].s !in old(users.rows)
                      && users.rows == old(users.rows)[r.value["id"].s := r.value])
        && (b.Ok? && r.Err? ==> r.error.RepositoryException?
                                && !("id" in b.value && b.value["id"].VStr? && b.value["id"].s !in old(users.rows)))
      ensures r.Err? ==> users.rows == old(users.rows)
    {
      var user := UserV3.User.New(h, userData, freshId, now, parseIso);
      if user.Err? {
        return Err(user.error);
      }
      ghost var before := users.rows;
      r := users.Add(user.value.base.attrs);
      RefsUsersKept(before, users.rows, places.rows, reviews.rows);
    }

    /** `get_user(user_id)`. */
    function GetUser(userId: Value): Option<Obj>
      reads users
    {
      users.Get(userId)
    }

    /** `get_user_by_email(email)`: the first stored user with that address, and None when no user has it. */
    function GetUserByEmail(email: Value): (r: Option<Obj>)
      requires users.Valid()
      reads users
      ensures r.Some? ==> "email" in r.value && r.value["email"] == email && r.value in users.rows.Values
      ensures r.Some? ==> exists i :: 0 <= i < |users.order| && r.value == users.rows[users.order[i]]
                            && forall j :: 0 <= j < i ==> !("email" in users.rows[users.order[j]] && users.rows[users.order[j]]["email"] == email)
      ensures r.None? <==> forall id :: id in users.rows ==> !("email" in users.rows[id] && users.rows[id]["email"] == email)
    {
      users.GetByAttribute("email", email)
    }

    /**
     * `update_user(user_id, user_data)`: None and no change for an unknown id;
     * otherwise every key set on the stored user verbatim, with no validation,
     * and the user returned. The `setattr` loop on the stored object and the
     * repository update that follows are the same assignment, made twice.
     */
    method UpdateUser(userId: Value, userData: Dict) returns (r: Option<Obj>)
      requires Valid()
      modifies users
      ensures Valid() && users.order == old(users.order)
      ensures r.None? <==> old(users.Get(userId)).None?
      ensures r.None? ==> users.rows == old(users.rows)
      ensures r.Some? ==> users.rows == old(users.rows)[userId.s := Assign(old(users.rows)[userId.s], userData, AllKeys)]
                          && r.value == users.rows[userId.s]
      ensures r.Some? ==> forall k :: k in Keys(userData) ==> k in r.value && r.value[k] == Lookup(userData, k).value
    {
      var user := users.Get(userId);
      if user.None? {
        return None;
      }
      ghost var before := users.rows;
      var key := userId.s;
      var _ := users.Update(userId, userData);
      AssignTwice(before[key], userData, AllKeys);
      var _ := users.Update(userId, userData);
      RefsUsersKept(before, users.rows, places.rows, reviews.rows);
      forall k | k in Keys(userData) ensures k in users.rows[key] && users.rows[key][k] == Lookup(userData, k).value {
        AssignAt(before[key], userData, AllKeys, k);
      }
      return Some(users.rows[key]);
    }

    /**
     * `authenticate_user(email, password)`: the first user with that address
     * when its password checks, None when there is no such user or the
     * password does not check, and the checker's error when it raises.
     */
    function AuthenticateUser(h: UserV3.Hasher, email: Value, password: string): (r: Result<Option<Obj>>)
      requires users.Valid()
      reads users
      ensures r == Ok(None) <==> GetUserByEmail(email).None? || UserV3.CheckPassword(h, GetUserByEmail(email).value, password) == Ok(false)
      ensures r.Ok? && r.value.Some? <==> GetUserByEmail(email).Some? && UserV3.CheckPassword(h, GetUserByEmail(email).value, password) == Ok(true)
      ensures r.Ok? && r.value.Some? ==> r.value == GetUserByEmail(email)
      ensures r.Err? <==> GetUserByEmail(email).Some? && UserV3.CheckPassword(h, GetUserByEmail(email).value, password).Err?
      ensures r.Err? ==> r.error == UserV3.CheckPassword(h, GetUserByEmail(email).value, password).error
    {
      var user := users.GetByAttribute("email", email);
      if user.None? then Ok(None)
      else match UserV3.CheckPassword(h, user.value, password)
        case Err(e) => Err(e)
        case Ok(matches) => if matches then Ok(user) else Ok(None)
    }

    /** With a sound hasher, a stored user whose digest is of the given password logs in as the first user with the address. */
    lemma AuthenticateOwnPassword(h: UserV3.Hasher, email: Value, password: string)
      requires users.Valid() && UserV3.Sound(h)
      requires GetUserByEmail(email).Some? && "password" in GetUserByEmail(email).value
      requires GetUserByEmail(email).value["password"] == VStr(h.hash(password))
      ensures AuthenticateUser(h, email, password) == Ok(GetUserByEmail(email))
    {
    }

    /** The loop of `create_place` over the listed amenity ids: each one looked up and added to the new place. */
    method AttachAmenities(place: PlaceV4.Place, amenityIds: Value) returns (r: Outcome)
      requires "amenities" in place.base.attrs && place.base.attrs["amenities"] == VList([])
      modifies place.base
      ensures var a := AmenityRefs(amenityIds, amenities.rows);
        && (r.Pass? <==> a.Ok?) && (a.Err? ==> r == Fail(a.error))
        && (r.Pass? ==> place.base.attrs == old(place.base.attrs)["amenities" := VList(a.value)])
    {
      var iterated := Iterate(amenityIds);
      if iterated.None? {
        return Fail(TypeError("object is not iterable"));
      }
      var ids := iterated.value;
      ghost var built := place.base.attrs;
      ghost var refs: seq<Value> := [];
      var i := 0;
      while i < |ids|
        invariant 0 <= i <= |ids| && |refs| == i
        invariant forall k :: 0 <= k < i ==> RefersTo(ids[k], amenities.rows) && refs[k] == VRef(AmenityCls, ids[k].s)
        invariant place.base.attrs == built["amenities" := VList(refs)]
      {
        var amenityId := ids[i];
        var amenity := amenities.Get(amenityId);
        if amenity.None? {
          AttachMissing(ids, amenities.rows, i);
          return Fail(AmenityMissing(amenityId));
        }
        var added := place.AddAmenity(VRef(AmenityCls, amenityId.s));
        assert added.Pass?;
        refs := refs + [VRef(AmenityCls, amenityId.s)];
        i := i + 1;
      }
      assert Attach(ids, amenities.rows).value == refs;
      return Pass;
    }

    /** `Place(**place_data)` on the prepared copy of the payload. */
    static method ConstructPlace(placeData: Dict, ownerId: Value, freshId: Id, now: Time) returns (r: Result<PlaceV4.Place>)
      requires ownerId.VStr?
      ensures var b := PlaceBuilt(placeData, ownerId, freshId, now);
        && (r.Ok? <==> b.Ok?) && (r.Ok? ==> fresh(r.value.base) && r.value.base.attrs == b.value)
        && (r.Err? ==> r.error == b.error)
    {
      var copy := PlaceCopy(placeData, ownerId);
      var args := BindArgs(copy, PlaceParams, map[]);
      if args.Err? {
        return Err(args.error);
      }
      var a := args.value;
      r := PlaceV4.Place.New(a["title"], a["description"], a["price"], a["latitude"], a["longitude"], a["owner"], freshId, now);
    }

    /**
     * The part of `create_place(place_data)` before the place is stored: the
     * owner lookup, the constructor call and the amenity loop, giving the new
     * place built by `PlacePayload` or the error raised.
     */
    method NewPlace(placeData: Dict, freshId: Id, now: Time) returns (r: Result<PlaceV4.Place>)
      ensures var p := PlacePayload(placeData, users.rows, amenities.rows, freshId, now);
        && (r.Ok? <==> p.Ok?) && (r.Ok? ==> fresh(r.value.base) && r.value.base.attrs == p.value)
        && (r.Err? ==> r.error == p.error)
    {
      var ownerId := GetOr(placeData, "owner_id", VNone);
      var owner := users.Get(ownerId);
      if owner.None? {
        return Err(ValueError("Owner not found"));
      }
      var amenityIds := GetOr(placeData, "amenities", VList([]));
      var place := ConstructPlace(placeData, ownerId, freshId, now);
      if place.Err? {
        return Err(place.error);
      }
      var attached := AttachAmenities(place.value, amenityIds);
      if attached.Fail? {
        return Err(attached.error);
      }
      return Ok(place.value);
    }

    /**
     * `create_place(place_data)`: the place built by `PlacePayload` and added
     * to the place store, or the error raised and no place added.
     */
    method CreatePlace(placeData: Dict, freshId: Id, now: Time) returns (r: Result<Obj>)
      requires Valid()
      modifies places
      ensures Valid()
      ensures var p := PlacePayload(placeData, old(users.rows), old(amenities.rows), freshId, now);
        && (p.Err? ==> r == p)
        && (r.Ok? <==> p.Ok? && freshId !in old(places.rows))
        && (r.Ok? ==> r.value == p.value && places.rows == old(places.rows)[freshId := p.value]
                      && places.order == old(places.order) + [freshId])
      ensures r.Err? ==> places.rows == old(places.rows) && places.order == old(places.order)
    {
      var place := NewPlace(placeData, freshId, now);
      if place.Err? {
        return Err(place.error);
      }
      PlacePayloadAt(placeData, users.rows, amenities.rows, freshId, now);
      ghost var before := places.rows;
      r := places.Add(place.value.base.attrs);
      if r.Ok? {
        RefsPlaceSet(users.rows, before, reviews.rows, freshId, r.value);
      }
    }

    /**
     * The loop of `update_place` over a stored place: its entries set in
     * order while the allow-list accepts them, and the repository update when
     * all are accepted; the index of the first refused entry is returned.
     */
    method ApplyPlaceData(key: Id, d: Dict) returns (j: nat)
      requires places.Valid() && key in places.rows && users != places && users != reviews && places != reviews
      modifies places
      ensures places.Valid() && places.order == old(places.order)
      ensures j == FirstRejected(d, PlaceAllow(users.rows))
      ensures places.rows == old(places.rows)[key := Assign(old(places.rows)[key], d[..j], AllKeys)]
    {
      j := places.SetWhileAccepted(key, d, PlaceAllow(users.rows));
      if j == |d| {
        assert d[..j] == d;
        AssignTwice(old(places.rows)[key], d, AllKeys);
        var _ := places.Update(VStr(key), d);
      }
    }

    /**
     * `update_place(place_id, place_data)`: None and no change for an unknown
     * id; a non-dict raises; otherwise the entries are applied in order to the
     * stored place until one is refused (a key outside the allow-list, or an
     * `owner_id` naming no user), which raises with the entries before it left
     * applied; when all are accepted the repository update re-applies them and
     * the place is returned.
     */
    method UpdatePlace(placeId: Value, placeData: Value) returns (r: Result<Option<Obj>>)
      requires Valid()
      modifies places
      ensures Valid() && places.order == old(places.order)
      ensures old(places.Get(placeId)).None? ==> r == Ok(None) && places.rows == old(places.rows)
      ensures old(places.Get(placeId)).Some? && !placeData.VDict? ==>
        r == Err(ValueError("place_data must be a dictionary")) && places.rows == old(places.rows)
      ensures old(places.Get(placeId)).Some? && placeData.VDict? ==>
        var d := placeData.entries;
        var j := FirstRejected(d, PlaceAllow(old(users.rows)));
        var row := old(places.rows)[placeId.s];
        && (r.Ok? <==> j == |d|)
        && (r.Ok? ==> places.rows == old(places.rows)[placeId.s := Assign(row, d, AllKeys)]
                      && r.value == Some(places.rows[placeId.s]))
        && (r.Err? ==> places.rows == old(places.rows)[placeId.s := Assign(row, d[..j], AllKeys)]
                       && r.error == PlaceRejection(d[j].0, d[j].1))
    {
      var place := places.Get(placeId);
      if place.None? {
        return Ok(None);
      }
      if !placeData.VDict? {
        return Err(ValueError("place_data must be a dictionary"));
      }
      var key := placeId.s;
      var d := placeData.entries;
      ghost var before := places.rows;
      var j := ApplyPlaceData(key, d);
      PlaceUpdateKeepsRefs(users.rows, before, reviews.rows, key, d, j);
      if j < |d| {
        return Err(PlaceRejection(d[j].0, d[j].1));
      }
      assert d[..j] == d;
      return Ok(Some(places.rows[key]));
    }

    /**
     * `create_amenity(amenity_data)`: a non-dict raises; otherwise the payload
     * is bound to `Amenity(name, description=None)` and the amenity added.
     */
    method CreateAmenity(amenityData: Value, freshId: Id, now: Time) returns (r: Result<Obj>)
      requires Valid()
      modifies amenities
      ensures Valid()
      ensures !amenityData.VDict? ==> r == Err(ValueError("amenity_data must be a dictionary"))
      ensures amenityData.VDict? ==>
        var args := BindArgs(amenityData.entries, {"name"}, map["description" := VNone]);
        && (args.Err? ==> r == Err(args.error))
        && (args.Ok? ==> var b := AmenityV3.Build(args.value["name"], args.value["description"], freshId, now);
              && (b.Err? ==> r == Err(b.error))
              && (r.Ok? <==> b.Ok? && freshId !in old(amenities.rows))
              && (r.Ok? ==> r.value == b.value && amenities.rows == old(amenities.rows)[freshId := b.value]))
      ensures r.Err? ==> amenities.rows == old(amenities.rows)
    {
      if !amenityData.VDict? {
        return Err(ValueError("amenity_data must be a dictionary"));
      }
      var args := BindArgs(amenityData.entries, {"name"}, map["description" := VNone]);
      if args.Err? {
        return Err(args.error);
      }
      var amenity := AmenityV3.Amenity.New(args.value["name"], args.value["description"], freshId, now);
      if amenity.Err? {
        return Err(amenity.error);
      }
      r := amenities.Add(amenity.value.base.attrs);
    }

    /**
     * `update_amenity(amenity_id, amenity_data)`: None for an unknown id; a
     * non-dict raises; otherwise each key that is already an attribute is set
     * in order and the first that is not raises with the keys before it left
     * applied. There is no repository update and no `save()`.
     */
    method UpdateAmenity(amenityId: Value, amenityData: Value) returns (r: Result<Option<Obj>>)
      requires Valid()
      modifies amenities
      ensures Valid() && amenities.order == old(amenities.order)
      ensures old(amenities.Get(amenityId)).None? ==> r == Ok(None) && amenities.rows == old(amenities.rows)
      ensures old(amenities.Get(amenityId)).Some? && !amenityData.VDict? ==>
        r == Err(ValueError("amenity_data must be a dictionary")) && amenities.rows == old(amenities.rows)
      ensures old(amenities.Get(amenityId)).Some? && amenityData.VDict? ==>
        var d := amenityData.entries;
        var row := old(amenities.rows)[amenityId.s];
        var j := FirstRejected(d, Allow(row.Keys, map[]));
        && (r.Ok? <==> j == |d|)
        && (r.Ok? ==> amenities.rows == old(amenities.rows)[amenityId.s := Assign(row, d, AllKeys)]
                      && r.value == Some(amenities.rows[amenityId.s]))
        && (r.Err? ==> amenities.rows == old(amenities.rows)[amenityId.s := Assign(row, d[..j], AllKeys)]
                       && r.error == ValueError("Invalid attribute '" + d[j].0 + "' for Amenity"))
    {
      var amenity := amenities.Get(amenityId);
      if amenity.None? {
        return Ok(None);
      }
      if !amenityData.VDict? {
        return Err(ValueError("amenity_data must be a dictionary"));
      }
      var key := amenityId.s;
      var d := amenityData.entries;
      var j := amenities.SetWhileAccepted(key, d, Allow(amenities.rows[key].Keys, map[]));
      if j < |d| {
        return Err(ValueError("Invalid attribute '" + d[j].0 + "' for Amenity"));
      }
      assert d[..j] == d;
      return Ok(Some(amenities.rows[key]));
    }

    /**
     * `delete_amenity(amenity_id)`: true exactly when it was stored. The
     * database also drops the `place_amenity` links to it; places' amenity
     * lists are not touched here.
     */
    method DeleteAmenity(amenityId: Value) returns (deleted: bool)
      requires Valid()
      modifies amenities
      ensures Valid()
      ensures deleted <==> old(amenities.Get(amenityId)).Some?
      ensures amenities.Get(amenityId).None?
      ensures deleted ==> amenities.rows == old(amenities.rows) - {amenityId.s}
      ensures !deleted ==> amenities.rows == old(amenities.rows)
    {
      deleted := amenities.Delete(amenityId);
    }

    /**
     * The part of `create_review(review_data)` before the review is stored:
     * the lookups and the constructor call, giving the new review built by
     * `ReviewPayload` or the error raised.
     */
    method NewReview(reviewData: Dict, freshId: Id, now: Time) returns (r: Result<ReviewV3.Review>)
      ensures var p := ReviewPayload(reviewData, users.rows, places.rows, freshId, now);
        && (r.Ok? <==> p.Ok?) && (r.Ok? ==> r.value.base.attrs == p.value)
        && (r.Err? ==> r.error == p.error)
    {
      if "place_id" !in Keys(reviewData) {
        return Err(ValueError("Missing required field: " + Message(KeyError("place_id"))));
      }
      var place := places.Get(Lookup(reviewData, "place_id").value);
      if "user_id" !in Keys(reviewData) {
        return Err(ValueError("Missing required field: " + Message(KeyError("user_id"))));
      }
      var user := users.Get(Lookup(reviewData, "user_id").value);
      if "text" !in Keys(reviewData) {
        return Err(ValueError("Missing required field: " + Message(KeyError("text"))));
      }
      if "rating" !in Keys(reviewData) {
        return Err(ValueError("Missing required field: " + Message(KeyError("rating"))));
      }
      var placeRef := if place.Some? then VRef(PlaceCls, Lookup(reviewData, "place_id").value.s) else VNone;
      var userRef := if user.Some? then VRef(UserCls, Lookup(reviewData, "user_id").value.s) else VNone;
      assert placeRef == Fetch(Lookup(reviewData, "place_id").value, places.rows, PlaceCls);
      assert userRef == Fetch(Lookup(reviewData, "user_id").value, users.rows, UserCls);
      var review := ReviewV3.Review.New(Lookup(reviewData, "text").value, Lookup(reviewData, "rating").value,
                                        placeRef, userRef, freshId, now);
      if review.Err? {
        return Err(ValueError("Error while creating review: " + Message(review.error)));
      }
      return Ok(review.value);
    }

    /**
     * `create_review(review_data)`: the review built by `ReviewPayload` and
     * added, or a ValueError and no review added.
     */
    method CreateReview(reviewData: Dict, freshId: Id, now: Time) returns (r: Result<Obj>)
      requires Valid()
      modifies reviews
      ensures Valid()
      ensures var p := ReviewPayload(reviewData, old(users.rows), old(places.rows), freshId, now);
        && (p.Err? ==> r == p)
        && (r.Ok? <==> p.Ok? && freshId !in old(reviews.rows))
        && (r.Ok? ==> r.value == p.value && reviews.rows == old(reviews.rows)[freshId := p.value])
      ensures r.Err? ==> reviews.rows == old(reviews.rows) && r.error.ValueError?
    {
      var review := NewReview(reviewData, freshId, now);
      ReviewPayloadAt(reviewData, users.rows, places.rows, freshId, now);
      if review.Err? {
        return Err(review.error);
      }
      ghost var before := reviews.rows;
      var added := reviews.Add(review.value.base.attrs);
      if added.Err? {
        return Err(ValueError("Error while creating review: " + Message(added.error)));
      }
      RefsReviewSet(users.rows, places.rows, before, freshId, added.value);
      return added;
    }

    /**
     * The loop of `update_review` over a stored review: its entries set in
     * order while the allow-list accepts them, and the repository update when
     * all are accepted; the index of the first refused entry is returned.
     */
    method ApplyReviewData(key: Id, d: Dict) returns (j: nat)
      requires reviews.Valid() && key in reviews.rows && users != places && users != reviews && places != reviews
      modifies reviews
      ensures reviews.Valid() && reviews.order == old(reviews.order)
      ensures j == FirstRejected(d, ReviewAllow(users.rows, places.rows))
      ensures reviews.rows == old(reviews.rows)[key := Assign(old(reviews.rows)[key], d[..j], AllKeys)]
    {
      j := reviews.SetWhileAccepted(key, d, ReviewAllow(users.rows, places.rows));
      if j == |d| {
        assert d[..j] == d;
        AssignTwice(old(reviews.rows)[key], d, AllKeys);
        var _ := reviews.Update(VStr(key), d);
      }
    }

    /**
     * `update_review(review_id, review_data)`: None for an unknown id; a
     * non-dict raises; otherwise the entries are applied in order until one is
     * refused (a key outside the allow-list, or a `user_id`/`place_id` naming
     * no stored row), which raises with the entries before it left applied;
     * when all are accepted the repository update re-applies them.
     */
    method UpdateReview(reviewId: Value, reviewData: Value) returns (r: Result<Option<Obj>>)
      requires Valid()
      modifies reviews
      ensures Valid() && reviews.order == old(reviews.order)
      ensures old(reviews.Get(reviewId)).None? ==> r == Ok(None) && reviews.rows == old(reviews.rows)
      ensures old(reviews.Get(reviewId)).Some? && !reviewData.VDict? ==>
        r == Err(ValueError("review_data must be a dictionary")) && reviews.rows == old(reviews.rows)
      ensures old(reviews.Get(reviewId)).Some? && reviewData.VDict? ==>
        var d := reviewData.entries;
        var j := FirstRejected(d, ReviewAllow(old(users.rows), old(places.rows)));
        var row := old(reviews.rows)[reviewId.s];
        && (r.Ok? <==> j == |d|)
        && (r.Ok? ==> reviews.rows == old(reviews.rows)[reviewId.s := Assign(row, d, AllKeys)]
                      && r.value == Some(reviews.rows[reviewId.s]))
        && (r.Err? ==> reviews.rows == old(reviews.rows)[reviewId.s := Assign(row, d[..j], AllKeys)]
                       && r.error == ReviewRejection(d[j].0, d[j].1))
    {
      var review := reviews.Get(reviewId);
      if review.None? {
        return Ok(None);
      }
      if !reviewData.VDict? {
        return Err(ValueError("review_data must be a dictionary"));
      }
      var key := reviewId.s;
      var d := reviewData.entries;
      ghost var before := reviews.rows;
      var j := ApplyReviewData(key, d);
      ReviewUpdateKeepsRefs(users.rows, places.rows, before, key, d, j);
      if j < |d| {
        return Err(ReviewRejection(d[j].0, d[j].1));
      }
      assert d[..j] == d;
      return Ok(Some(reviews.rows[key]));
    }

    /** `delete_review(review_id)`: true exactly when it was stored, and afterwards it is not. */
    method DeleteReview(reviewId: Value) returns (deleted: bool)
      requires Valid()
      modifies reviews
      ensures Valid()
      ensures deleted <==> old(reviews.Get(reviewId)).Some?
      ensures reviews.Get(reviewId).None?
      ensures deleted ==> reviews.rows == old(reviews.rows) - {reviewId.s}
      ensures !deleted ==> reviews.rows == old(reviews.rows)
    {
      deleted := reviews.Delete(reviewId);
    }

    /**
     * `get_reviews_by_place(place_id)`: the stored reviews of that place, in
     * store order: the query on `place_id`.
     */
    function GetReviewsByPlace(placeId: Value): (r: seq<Obj>)
      requires reviews.Valid()
      reads reviews
      ensures r == Repository.RowsOf(Repository.Select(reviews.order, reviews.rows, [("place_id", placeId)]), reviews.rows)
    {
      OfPlaceSelects(reviews.order, reviews.rows, placeId);
      OfPlace(reviews.GetAll(), placeId)
    }

    /** `get_review_by_user_and_place(user_id, place_id)` as the handlers use it: such a review is stored. */
    predicate HasReview(userId: Id, placeId: Id)
      reads reviews
    {
      exists id :: id in reviews.rows && "user_id" in reviews.rows[id] && reviews.rows[id]["user_id"] == VStr(userId)
                   && "place_id" in reviews.rows[id] && reviews.rows[id]["place_id"] == VStr(placeId)
    }
  }

  /**
   * A review is in `get_reviews_by_place(place_id)` exactly when it is a
   * stored review whose `place_id` is the argument.
   */
  lemma ReviewsOfPlace(ids: seq<Id>, rows: map<Id, Obj>, placeId: Value, x: Obj)
    requires forall y :: y in ids ==> y in rows
    ensures x in Repository.RowsOf(Repository.Select(ids, rows, [("place_id", placeId)]), rows) <==>
      exists id :: id in ids && rows[id] == x && "place_id" in x && x["place_id"] == placeId
  {
    var s := Repository.Select(ids, rows, [("place_id", placeId)]);
    var r := Repository.RowsOf(s, rows);
    if x in r {
      var i :| 0 <= i < |r| && r[i] == x;
      assert s[i] in s;
      Repository.MatchesOne(rows[s[i]], "place_id", placeId);
    }
    if exists id :: id in ids && rows[id] == x && "place_id" in x && x["place_id"] == placeId {
      var id :| id in ids && rows[id] == x && "place_id" in x && x["place_id"] == placeId;
      Repository.MatchesOne(rows[id], "place_id", placeId);
      assert id in s;
      var i :| 0 <= i < |s| && s[i] == id;
      assert r[i] == x;
    }
  }

}
