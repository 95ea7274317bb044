/**
 * The user endpoints of the in-memory iteration (part2/app/api/v1/users.py):
 * a registration that refuses an address already on file, lookups that
 * answer 404 for an unknown id, and replies that show a user as id, names
 * and address only. An exception that escapes a handler is a server error
 * (500) with no body.
 */
module UsersApiV2 {
  import opened Common
  import FacadeV2
  import opened Http

  /** The keys of the short user view. */
  const SummaryKeys: set<string> := {"id", "first_name", "last_name", "email"}

  /**
   * `{'id': user.id, 'first_name': ..., 'last_name': ..., 'email': ...}`:
   * those four attributes and nothing else, AttributeError when one is missing.
   */
  function Summary(user: Obj): (r: Result<Obj>)
    ensures r.Ok? <==> SummaryKeys <= user.Keys
    ensures r.Ok? ==> r.value.Keys == SummaryKeys && forall k :: k in SummaryKeys ==> r.value[k] == user[k]
  {
    if !(SummaryKeys <= user.Keys) then Err(AttributeError("user"))
    else Ok(map["id" := user["id"], "first_name" := user["first_name"], "last_name" := user["last_name"],
                "email" := user["email"]])
  }

  /** A summary never shows the password. */
  lemma SummaryHidesPassword(user: Obj)
    ensures Summary(user).Ok? ==> "password" !in Summary(user).value
  {
  }

  /** No two stored users share an address. */
  ghost predicate EmailsUnique(rows: map<Id, Obj>) {
    forall a, b :: a in rows && b in rows && SameEmail(rows[a], rows[b]) ==> a == b
  }

  predicate SameEmail(x: Obj, y: Obj) {
    "email" in x && "email" in y && x["email"] == y["email"]
  }

  /** A user whose address no stored user has can be added under a new id with the addresses still unique. */
  lemma AddKeepsEmailsUnique(rows: map<Id, Obj>, key: Id, row: Obj)
    requires EmailsUnique(rows) && key !in rows
    requires forall id :: id in rows ==> !SameEmail(rows[id], row)
    ensures EmailsUnique(rows[key := row])
  {
    var rows' := rows[key := row];
    forall a, b | a in rows' && b in rows' && SameEmail(rows'[a], rows'[b])
      ensures a == b
    {
      if a == key && b != key {
        assert SameEmail(rows[b], row);
      }
    }
  }

  /**
   * The check `post` makes before creating: `user_data['email']` raises
   * KeyError (500) without an address, an address some stored user has gives
   * 400, and None lets the creation go ahead.
   */
  function PostGuard(f: FacadeV2.Facade, data: Dict): (s: Option<Reply>)
    requires f.Valid()
    reads f, f.users
    ensures "email" !in Keys(data) ==> s == Some(Reply(500, map[]))
    ensures "email" in Keys(data) ==>
      (s.None? <==> forall id :: id in f.users.rows ==> !SameEmail(f.users.rows[id], map["email" := Lookup(data, "email").value]))
    ensures "email" in Keys(data) && s.Some? ==> s == Some(Reply(400, ErrorBody("Email already registered")))
  {
    if "email" !in Keys(data) then Some(Reply(500, map[]))
    else if f.GetUserByEmail(Lookup(data, "email").value).Some? then Some(Reply(400, ErrorBody("Email already registered")))
    else None
  }

  /**
   * `UserList.post`: a payload without an address, or with one already on
   * file, changes nothing; otherwise the user is created and the reply is
   * 201 with its summary, or 500 when the record refuses the keywords. The
   * addresses stay unique and no reply shows a password.
   */
  method Post(f: FacadeV2.Facade, data: Dict, freshId: Id) returns (r: Reply)
    requires f.Valid() && freshId !in f.users.rows
    modifies f.users
    ensures f.Valid()
    ensures old(PostGuard(f, data)).Some? ==>
      r == old(PostGuard(f, data)).value && f.users.rows == old(f.users.rows)
    ensures old(PostGuard(f, data)).None? ==>
      var b := FacadeV2.BuildUser(data, freshId);
      && (r.status == 201 <==> b.Ok?)
      && (b.Ok? ==> f.users.rows == old(f.users.rows)[freshId := b.value] && r.body == Summary(b.value).value)
      && (b.Err? ==> r == Reply(500, map[]) && f.users.rows == old(f.users.rows))
    ensures "password" !in r.body
    ensures EmailsUnique(old(f.users.rows)) ==> EmailsUnique(f.users.rows)
  {
    var guard := PostGuard(f, data);
    if guard.Some? {
      return guard.value;
    }
    ghost var before := f.users.rows;
    var user := f.CreateUser(data, freshId);
    if user.Err? {
      return Reply(500, map[]);
    }
    if EmailsUnique(before) {
      AddKeepsEmailsUnique(before, freshId, user.value);
    }
    var summary := Summary(user.value);
    return Reply(201, summary.value);
  }

  /** `UserList.get`: the summary of every stored user, in store order. */
  function List(f: FacadeV2.Facade): (r: Result<seq<Obj>>)
    requires f.Valid()
    reads f, f.users
    ensures r.Ok? ==> |r.value| == |f.users.order|
                      && forall i :: 0 <= i < |r.value| ==> Summary(f.users.rows[f.users.order[i]]) == Ok(r.value[i])
    ensures r.Ok? ==> forall i :: 0 <= i < |r.value| ==> "password" !in r.value[i]
    ensures r.Err? <==> exists i :: 0 <= i < |f.users.order| && Summary(f.users.rows[f.users.order[i]]).Err?
  {
    ViewAll(f.GetAllUsers(), Summary)
  }

  /** `UserResource.get`: 404 for an unknown id, otherwise 200 with the summary. */
  function Get(f: FacadeV2.Facade, userId: Value): (r: Reply)
    reads f, f.users
    ensures r.status == 404 <==> f.GetUser(userId).None?
    ensures r.status == 200 ==> Summary(f.GetUser(userId).value) == Ok(r.body)
    ensures r.status != 404 ==> (r.status == 200 <==> Summary(f.GetUser(userId).value).Ok?)
                                && (r.status != 200 ==> r == Reply(500, map[]))
    ensures r.status in {200, 404, 500}
    ensures "password" !in r.body
  {
    var user := f.GetUser(userId);
    if user.None? then Reply(404, ErrorBody("User not found"))
    else
      match Summary(user.value)
      case Err(_) => Reply(500, map[])
      case Ok(s) => Reply(200, s)
  }

  /**
   * `UserResource.put`: 404 and no change for an unknown id; otherwise every
   * key of the payload set on the user, unchecked, and 200 with its summary.
   */
  method Put(f: FacadeV2.Facade, userId: Value, data: Dict) returns (r: Reply)
    requires f.Valid()
    modifies f.users
    ensures f.Valid()
    ensures r.status == 404 <==> old(f.GetUser(userId)).None?
    ensures r.status == 404 ==> f.users.rows == old(f.users.rows)
    ensures r.status != 404 ==>
      f.users.rows == old(f.users.rows)[userId.s := Assign(old(f.users.rows)[userId.s], data, AllKeys)]
    ensures r.status == 200 ==> Summary(f.users.rows[userId.s]) == Ok(r.body)
    ensures r.status != 404 ==> (r.status == 200 <==> Summary(f.users.rows[userId.s]).Ok?)
                                && (r.status != 200 ==> r == Reply(500, map[]))
    ensures "password" !in r.body
  {
    var updated := f.UpdateUser(userId, data);
    if updated.None? {
      return Reply(404, ErrorBody("User not found"));
    }
    var summary := Summary(updated.value);
    if summary.Err? {
      return Reply(500, map[]);
    }
    return Reply(200, summary.value);
  }
}
