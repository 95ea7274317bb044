/**
 * The facade of the in-memory iteration (part2/app/services/facade.py): four
 * stores, of which only the user store is used; users are the plain
 * four-field record of part2/app/models/user.py, and fetching a place is a
 * stub.
 */
module FacadeV2 {
  import opened Common
  import Repository

  /** The parameters of `User(first_name, last_name, email, is_admin=False)`. */
  const UserRequired: set<string> := {"first_name", "last_name", "email"}
  const UserOptional: map<string, Value> := map["is_admin" := VBool(false)]
  const UserAttributes: set<string> := {"first_name", "last_name", "email", "is_admin"}

  /**
   * `User(**user_data)` on the plain record, filed under a fresh id: the four
   * attributes bound from the payload, `is_admin` false unless given, or the
   * TypeError of an unexpected or missing keyword (a payload carrying a
   * password or an id is refused).
   */
  function BuildUser(userData: Dict, freshId: Id): (r: Result<Obj>)
    ensures r.Ok? <==> Keys(userData) <= UserAttributes && UserRequired <= Keys(userData)
    ensures r.Err? ==> r.error.TypeError?
    ensures r.Ok? ==> r.value.Keys == UserAttributes + {"id"} && r.value["id"] == VStr(freshId)
    ensures r.Ok? ==> forall k :: k in Keys(userData) ==> r.value[k] == Lookup(userData, k).value
    ensures r.Ok? && "is_admin" !in Keys(userData) ==> r.value["is_admin"] == VBool(false)
  {
    assert UserRequired + UserOptional.Keys == UserAttributes;
    match BindArgs(userData, UserRequired, UserOptional)
    case Err(e) => Err(e)
    case Ok(args) => Ok(args["id" := VStr(freshId)])
  }

  /**
   * `authenticate_user(email, password)` as written: the record has no
   * `check_password`, so finding a user with that address raises
   * AttributeError, and the call never returns a user.
   */
  function AuthenticateAsWritten(users: map<Id, Obj>, order: seq<Id>, email: Value, password: string): (r: Result<Option<Obj>>)
    requires forall id :: id in order ==> id in users
    ensures r.Err? <==> exists i :: 0 <= i < |order| && "email" in users[order[i]] && users[order[i]]["email"] == email
    ensures r.Err? ==> r.error == AttributeError("check_password")
    ensures r.Ok? ==> r.value.None?
  {
    var found := Repository.Select(order, users, [("email", email)]);
    Repository.SelectFirst(order, users, [("email", email)]);
    if found == [] then Ok(None)
    else
      assert Repository.Hit(users, [("email", email)], found[0]);
      Repository.MatchesOne(users[found[0]], "email", email);
      Err(AttributeError("check_password"))
  }

  /** A registered address never authenticates: the lookup succeeds and the password check is missing. */
  lemma RegisteredUserCannotLogIn(users: map<Id, Obj>, order: seq<Id>, email: Value, password: string, i: nat)
    requires forall id :: id in order ==> id in users
    requires i < |order| && "email" in users[order[i]] && users[order[i]]["email"] == email
    ensures AuthenticateAsWritten(users, order, email, password) == Err(AttributeError("check_password"))
  {
  }

  class Facade {
    const users: Repository.Repository
    const places: Repository.Repository
    const reviews: Repository.Repository
    const amenities: Repository.Repository

    ghost predicate Valid()
      reads this, users
    {
      users.Valid()
    }

    /** `HBnBFacade()`: four empty stores. */
    constructor ()
      ensures Valid() && fresh(users) && fresh(places) && fresh(reviews) && fresh(amenities)
      ensures users.rows == map[] && places.rows == map[] && reviews.rows == map[] && amenities.rows == map[]
    {
      users := new Repository.Repository();
      places := new Repository.Repository();
      reviews := new Repository.Repository();
      amenities := new Repository.Repository();
    }

    /**
     * `create_user(user_data)`: the record built from the payload, added to
     * the user store and returned; a bad keyword set raises TypeError and
     * adds nothing.
     */
    method CreateUser(userData: Dict, freshId: Id) returns (r: Result<Obj>)
      requires Valid() && freshId !in users.rows
      modifies users
      ensures Valid()
      ensures r == BuildUser(userData, freshId)
      ensures r.Ok? ==> users.rows == old(users.rows)[freshId := r.value] && users.Get(VStr(freshId)) == Some(r.value)
      ensures r.Err? ==> users.rows == old(users.rows)
    {
      r := BuildUser(userData, freshId);
      if r.Err? {
        return;
      }
      var added := users.Add(r.value);
      assert added.Ok?;
    }

    /** `get_user(user_id)`: the stored user, or None. */
    function GetUser(userId: Value): (r: Option<Obj>)
      reads users
      ensures r.Some? <==> userId.VStr? && userId.s in users.rows
      ensures r.Some? ==> r.value == users.rows[userId.s]
    {
      users.Get(userId)
    }

    /** `get_all_users()`: every stored user, in store order. */
    function GetAllUsers(): (r: seq<Obj>)
      requires Valid()
      reads this, users
      ensures |r| == |users.order| && forall i :: 0 <= i < |r| ==> r[i] == users.rows[users.order[i]]
    {
      users.GetAll()
    }

    /** `get_user_by_email(email)`: the first user with that address, and None when no user has it. */
    function GetUserByEmail(email: Value): (r: Option<Obj>)
      requires Valid()
      reads this, users
      ensures r.Some? ==> "email" in r.value && r.value["email"] == email
      ensures r.Some? ==> exists i :: 0 <= i < |users.order| && r.value == users.rows[users.order[i]]
                            && forall j :: 0 <= j < i ==> !("email" in users.rows[users.order[j]] && users.rows[users.order[j]]["email"] == email)
      ensures r.None? <==> forall i :: 0 <= i < |users.order| ==>
                             !("email" in users.rows[users.order[i]] && users.rows[users.order[i]]["email"] == email)
    {
      users.GetByAttribute("email", email)
    }

    /**
     * `update_user(user_id, user_data)`: None and no change for an unknown id;
     * otherwise every key set on the stored record verbatim and the record
     * returned. The `setattr` loop and the store update that follows are the
     * same assignment, made twice.
     */
    method UpdateUser(userId: Value, userData: Dict) returns (r: Option<Obj>)
      requires Valid()
      modifies users
      ensures Valid() && users.order == old(users.order)
      ensures r.None? <==> old(users.Get(userId)).None?
      ensures r.None? ==> users.rows == old(users.rows)
      ensures r.Some? ==> users.rows == old(users.rows)[userId.s := Assign(old(users.rows)[userId.s], userData, AllKeys)]
                          && r.value == users.rows[userId.s]
      ensures r.Some? ==> forall k :: k in Keys(userData) ==> k in r.value && r.value[k] == Lookup(userData, k).value
      ensures r.Some? ==> forall k :: k in old(users.rows)[userId.s] && k !in Keys(userData) ==>
                            k in r.value && r.value[k] == old(users.rows)[userId.s][k]
    {
      var user := users.Get(userId);
      if user.None? {
        return None;
      }
      ghost var before := users.rows;
      var key := userId.s;
      var _ := users.Update(userId, userData);
      AssignTwice(before[key], userData, AllKeys);
      var _ := users.Update(userId, userData);
      forall k | k in Keys(userData) || k in before[key]
        ensures k in users.rows[key]
        ensures users.rows[key][k] == if k in Keys(userData) then Lookup(userData, k).value else before[key][k]
      {
        AssignAt(before[key], userData, AllKeys, k);
      }
      return Some(users.rows[key]);
    }

    /**
     * `authenticate_user(email, password)` with the password check the record
     * lacks supplied as `check`: the first user with that address when the
     * check passes, and None otherwise.
     */
    function Authenticate(email: Value, password: string, check: (Obj, string) -> bool): (r: Option<Obj>)
      requires Valid()
      reads this, users
      ensures r.Some? ==> r == GetUserByEmail(email) && "email" in r.value && r.value["email"] == email
                          && check(r.value, password)
      ensures r.None? <==> GetUserByEmail(email).None? || !check(GetUserByEmail(email).value, password)
    {
      var user := GetUserByEmail(email);
      if user.Some? && check(user.value, password) then user else None
    }

    /** `get_place(place_id)`: a placeholder that returns None for every id. */
    function GetPlace(placeId: Value): (r: Option<Obj>)
      ensures r.None?
    {
      None
    }
  }
}
