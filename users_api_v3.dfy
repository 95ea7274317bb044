/**
 * The user endpoints of the database iteration (part3/app/api/v1/users.py):
 * the registration check and short reply of the in-memory iteration, and
 * detailed views built field by field. Those views hold the same ten fields
 * as the user's `to_dict()`, so they are modelled by `UserV3.ToDict`, and no
 * reply ever shows the password. An exception that escapes a handler is a server error
 * (500) with no body.
 */
module UsersApiV3 {
  import opened Common
  import FacadeV3
  import UserV3
  import UsersApiV2
  import opened Http

  /**
   * The check `post` makes before creating: `user_data['email']` raises
   * KeyError (500) without an address, an address some stored user has gives
   * 400, and None lets the creation go ahead.
   */
  function PostGuard(f: FacadeV3.Facade, data: Dict): (s: Option<Reply>)
    requires f.users.Valid()
    reads f.users
    ensures "email" !in Keys(data) ==> s == Some(Reply(500, map[]))
    ensures "email" in Keys(data) ==>
      (s.None? <==> forall id :: id in f.users.rows ==>
                      !UsersApiV2.SameEmail(f.users.rows[id], map["email" := Lookup(data, "email").value]))
    ensures "email" in Keys(data) && s.Some? ==>
      s == Some(Reply(400, ErrorBody("Email already registered")))
  {
    if "email" !in Keys(data) then Some(Reply(500, map[]))
    else if f.GetUserByEmail(Lookup(data, "email").value).Some? then
      Some(Reply(400, ErrorBody("Email already registered")))
    else None
  }

  /**
   * `UserList.post`: a payload without an address, or with one already on
   * file, changes nothing; otherwise the user is constructed and stored, and
   * the reply is 201 with its id, names and address, or 500 when the
   * construction or the store refuses it. The addresses stay unique and the
   * reply never shows the password.
   */
  method Post(f: FacadeV3.Facade, h: UserV3.Hasher, data: Dict, freshId: Id, now: Time, parseIso: string -> Option<Time>) returns (r: Reply)
    requires f.Valid()
    modifies f.users
    ensures f.Valid()
    ensures old(PostGuard(f, data)).Some? ==> r == old(PostGuard(f, data)).value && f.users.rows == old(f.users.rows)
    ensures old(PostGuard(f, data)).None? ==>
      var b := UserV3.Build(h, data, freshId, now, parseIso);
      && (r.status == 201 <==> b.Ok? && "id" in b.value && b.value["id"].VStr? && b.value["id"].s !in old(f.users.rows))
      && (r.status == 201 ==> b.Ok? && "id" in b.value && b.value["id"].VStr?
                              && f.users.rows == old(f.users.rows)[b.value["id"].s := b.value]
                              && UsersApiV2.Summary(b.value) == Ok(r.body))
      && (r.status != 201 ==> r == Reply(500, map[]))
      && (f.users.rows != old(f.users.rows) ==> b.Ok? && "id" in b.value && b.value["id"].VStr?
                                                && f.users.rows == old(f.users.rows)[b.value["id"].s := b.value])
    ensures "password" !in r.body
    ensures UsersApiV2.EmailsUnique(old(f.users.rows)) ==> UsersApiV2.EmailsUnique(f.users.rows)
  {
    var guard := PostGuard(f, data);
    if guard.Some? {
      return guard.value;
    }
    ghost var before := f.users.rows;
    var user := f.CreateUser(h, data, freshId, now, parseIso);
    if user.Err? {
      return Reply(500, map[]);
    }
    UserV3.BuildKeepsEmail(h, data, freshId, now, parseIso);
    UserV3.BuildValue(h, data, freshId, now, parseIso);
    if UsersApiV2.EmailsUnique(before) {
      UsersApiV2.AddKeepsEmailsUnique(before, user.value["id"].s, user.value);
    }
    var summary := UsersApiV2.Summary(user.value);
    if summary.Err? {
      return Reply(500, map[]);
    }
    return Reply(201, summary.value);
  }

  /** The detailed view a handler builds inline, with the fields of `to_dict()`; 500 when building it raises. */
  function Detail(user: Obj, iso: Time -> string): (r: Reply)
    ensures r.status == 200 <==> UserV3.ToDict(user, iso).Ok?
    ensures r.status == 200 ==> r.body == UserV3.ToDict(user, iso).value && r.body.Keys == UserV3.DictKeys
    ensures r.status != 200 ==> r == Reply(500, map[])
    ensures "password" !in r.body
  {
    match UserV3.ToDict(user, iso)
    case Err(_) => Reply(500, map[])
    case Ok(d) => Reply(200, d)
  }

  /** `UserList.get`: the detailed view of every stored user, in store order. */
  function List(f: FacadeV3.Facade, iso: Time -> string): (r: Result<seq<Obj>>)
    requires f.users.Valid()
    reads f.users
    ensures r.Ok? <==> forall i :: 0 <= i < |f.users.order| ==> UserV3.ToDict(f.users.rows[f.users.order[i]], iso).Ok?
    ensures r.Ok? ==> |r.value| == |f.users.order|
                      && forall i :: 0 <= i < |r.value| ==> UserV3.ToDict(f.users.rows[f.users.order[i]], iso) == Ok(r.value[i])
    ensures r.Err? ==> exists i :: 0 <= i < |f.users.order| && UserV3.ToDict(f.users.rows[f.users.order[i]], iso) == Err(r.error)
                                   && forall j :: 0 <= j < i ==> UserV3.ToDict(f.users.rows[f.users.order[j]], iso).Ok?
  {
    var users := f.users.GetAll();
    var view := user => UserV3.ToDict(user, iso);
    ListViews(users, view, f.users.order, f.users.rows, iso);
    ViewAll(users, view)
  }

  /** Viewing the fetched rows is viewing each stored user, in store order, with `to_dict()`. */
  lemma ListViews(users: seq<Obj>, view: Obj -> Result<Obj>, ids: seq<Id>, rows: map<Id, Obj>, iso: Time -> string)
    requires |users| == |ids| && forall i :: 0 <= i < |ids| ==> ids[i] in rows && users[i] == rows[ids[i]]
    requires forall o :: view(o) == UserV3.ToDict(o, iso)
    ensures var r := ViewAll(users, view);
      && (r.Ok? <==> forall i :: 0 <= i < |ids| ==> UserV3.ToDict(rows[ids[i]], iso).Ok?)
      && (r.Ok? ==> |r.value| == |ids| && forall i :: 0 <= i < |r.value| ==> UserV3.ToDict(rows[ids[i]], iso) == Ok(r.value[i]))
      && (r.Err? ==> exists i :: 0 <= i < |ids| && UserV3.ToDict(rows[ids[i]], iso) == Err(r.error)
                                && forall j :: 0 <= j < i ==> UserV3.ToDict(rows[ids[j]], iso).Ok?)
  {
    var r := ViewAll(users, view);
    if r.Err? {
      var i :| 0 <= i < |users| && view(users[i]) == Err(r.error) && forall j :: 0 <= j < i ==> view(users[j]).Ok?;
      assert UserV3.ToDict(rows[ids[i]], iso) == Err(r.error);
    }
  }

  /** No user in the list reply shows a password. */
  lemma ListHidesPasswords(f: FacadeV3.Facade, iso: Time -> string)
    requires f.users.Valid()
    ensures List(f, iso).Ok? ==> forall i :: 0 <= i < |List(f, iso).value| ==> "password" !in List(f, iso).value[i]
  {
    if List(f, iso).Ok? {
      forall i | 0 <= i < |List(f, iso).value|
        ensures "password" !in List(f, iso).value[i]
      {
        assert UserV3.ToDict(f.users.rows[f.users.order[i]], iso) == Ok(List(f, iso).value[i]);
      }
    }
  }

  /** `UserResource.get`: 404 for an unknown id, otherwise the user's detailed view. */
  function Get(f: FacadeV3.Facade, userId: Value, iso: Time -> string): (r: Reply)
    reads f.users
    ensures r.status == 404 <==> f.GetUser(userId).None?
    ensures r.status != 404 ==> r == Detail(f.GetUser(userId).value, iso)
    ensures "password" !in r.body
  {
    var user := f.GetUser(userId);
    if user.None? then Reply(404, ErrorBody("User not found"))
    else Detail(user.value, iso)
  }

  /**
   * `UserResource.put`: 404 and no change for an unknown id; otherwise every
   * key of the payload set on the user verbatim and the user's detailed view.
   */
  method Put(f: FacadeV3.Facade, userId: Value, data: Dict, iso: Time -> string) returns (r: Reply)
    requires f.Valid()
    modifies f.users
    ensures f.Valid()
    ensures r.status == 404 <==> old(f.GetUser(userId)).None?
    ensures r.status == 404 ==> f.users.rows == old(f.users.rows)
    ensures r.status != 404 ==>
      && f.users.rows == old(f.users.rows)[userId.s := Assign(old(f.users.rows)[userId.s], data, AllKeys)]
      && r == Detail(f.users.rows[userId.s], iso)
    ensures "password" !in r.body
  {
    var updated := f.UpdateUser(userId, data);
    if updated.None? {
      return Reply(404, ErrorBody("User not found"));
    }
    return Detail(updated.value, iso);
  }

  /**
   * The update schema requires a password, and the facade stores it as
   * given: after such an update the stored password is the plain text. With
   * bcrypt's digest format that value is no digest of any password, and
   * checking any password against it raises ValueError, so the user can no
   * longer log in.
   */
  lemma PutStoresPlainPassword(h: UserV3.Hasher, row: Obj, data: Dict, p: string)
    requires Lookup(data, "password") == Some(VStr(p))
    ensures "password" in Assign(row, data, AllKeys) && Assign(row, data, AllKeys)["password"] == VStr(p)
    ensures UserV3.Tagged(h) && !("$2b$" <= p) ==>
      && (forall q :: Assign(row, data, AllKeys)["password"] != VStr(h.hash(q)))
      && (forall c :: UserV3.CheckPassword(h, Assign(row, data, AllKeys), c) == Err(ValueError("Invalid salt")))
  {
    AssignAt(row, data, AllKeys, "password");
  }
}
