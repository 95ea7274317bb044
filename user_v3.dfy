/**
 * The database-era user (part3/app/models/user.py): e-mail and name
 * validation, a hashed password, the owner flag and the owned and rented
 * place lists, and the password-free `to_dict`.
 */
module UserV3 {
  import opened Common
  import BaseModelV3

  /**
   * The part of `re.match(r"[^@]+@[^@]+\.[^@]+", s)` that decides a match: a
   * non-empty '@'-free prefix, an '@', a non-empty '@'-free run followed by a
   * '.', and at least one character after it that is not '@' (`re.match` is
   * anchored at the start only, so anything may follow).
   */
  ghost predicate EmailPattern(s: string) {
    exists i, j :: 0 < i < |s| && s[i] == '@' && '@' !in s[..i] && DotAt(s, i, j)
  }

  /** A '.' at j closes a non-empty '@'-free run after the '@' at i and is followed by a non-'@'. */
  ghost predicate DotAt(s: string, i: nat, j: nat) {
    i + 1 < j && j + 1 < |s| && s[j] == '.' && s[j + 1] != '@' && '@' !in s[i + 1..j]
  }

  /** The index of the first '@' at or after k, or |s| when there is none. */
  function FirstAt(s: string, k: nat): (r: nat)
    requires k <= |s|
    ensures k <= r <= |s|
    ensures r < |s| ==> s[r] == '@'
    ensures forall p :: k <= p < r ==> s[p] != '@'
    decreases |s| - k
  {
    if k == |s| || s[k] == '@' then k else FirstAt(s, k + 1)
  }

  /** Scan from k for a '.' that completes the domain after the '@' at i, stopping at the next '@'. */
  function DomainFrom(s: string, i: nat, k: nat): bool
    requires i < k <= |s|
    decreases |s| - k
  {
    if k == |s| || s[k] == '@' then false
    else if s[k] == '.' && i + 1 < k && k + 1 < |s| && s[k + 1] != '@' then true
    else DomainFrom(s, i, k + 1)
  }

  lemma {:induction false} DomainFromSpec(s: string, i: nat, k: nat)
    requires i < k <= |s|
    requires '@' !in s[i + 1..k]
    ensures DomainFrom(s, i, k) <==> exists j :: k <= j && DotAt(s, i, j)
    decreases |s| - k
  {
    if k == |s| {
    } else if s[k] == '@' {
      forall j | k <= j && i + 1 < j && j + 1 < |s| && s[j] == '.'
        ensures '@' in s[i + 1..j]
      {
        assert s[i + 1..j][k - i - 1] == '@';
      }
    } else if s[k] == '.' && i + 1 < k && k + 1 < |s| && s[k + 1] != '@' {
      assert DotAt(s, i, k);
    } else {
      assert s[i + 1..k + 1] == s[i + 1..k] + [s[k]];
      DomainFromSpec(s, i, k + 1);
      assert !DotAt(s, i, k);
    }
  }

  /** The compiled matcher; it decides exactly `EmailPattern`. */
  function MatchesEmail(s: string): (b: bool)
    ensures b <==> EmailPattern(s)
  {
    var i := FirstAt(s, 0);
    assert '@' !in s[..i];
    if 0 < i < |s| then
      assert s[i + 1..i + 1] == [];
      DomainFromSpec(s, i, i + 1);
      if DomainFrom(s, i, i + 1) then true
      else
        assert !EmailPattern(s) by {
          forall i', j | 0 < i' < |s| && s[i'] == '@' && '@' !in s[..i'] && DotAt(s, i', j)
            ensures false
          {
          }
        }
        false
    else
      assert !EmailPattern(s) by {
        forall i': nat, j: nat | 0 < i' < |s| && s[i'] == '@' && '@' !in s[..i'] && DotAt(s, i', j)
          ensures false
        {
        }
      }
      false
  }

  /**
   * `validate_email(email)`: the address unchanged when it matches, ValueError
   * "Invalid email address" for a string that does not, and TypeError for a
   * non-string (`re.match` of None).
   */
  function ValidateEmail(email: Value): (r: Result<Value>)
    ensures r.Ok? <==> email.VStr? && EmailPattern(email.s)
    ensures r.Ok? ==> r.value == email
    ensures email.VStr? && !EmailPattern(email.s) ==> r == Err(ValueError("Invalid email address"))
    ensures !email.VStr? ==> r.Err? && r.error.TypeError?
  {
    if !email.VStr? then Err(TypeError("expected string or bytes-like object"))
    else if MatchesEmail(email.s) then Ok(email)
    else Err(ValueError("Invalid email address"))
  }

  /** A string without '@' is no address: 'invalid-email' is rejected. */
  lemma InvalidEmailRejected()
    ensures ValidateEmail(VStr("invalid-email")) == Err(ValueError("Invalid email address"))
  {
    var s := "invalid-email";
    forall i | 0 <= i < |s| ensures s[i] != '@' { }
  }

  /** 'test@example.com' is accepted. */
  lemma SampleEmailAccepted()
    ensures ValidateEmail(VStr("test@example.com")) == Ok(VStr("test@example.com"))
  {
    var s := "test@example.com";
    assert s[..4] == "test" && s[5..12] == "example";
    assert DotAt(s, 4, 12);
  }

  /** The message a rejected name raises. */
  function NameError(fieldName: string): Error {
    ValueError(fieldName + " must be less than 50 characters")
  }

  /**
   * `validate_name(name, field_name)`: the name unchanged when it is truthy
   * and at most 50 long; ValueError for an empty or longer one, TypeError
   * when `len` does not apply. For a string: exactly 1 to 50 characters pass.
   */
  function ValidateName(name: Value, fieldName: string): (r: Result<Value>)
    ensures r.Ok? <==> Truthy(name) && Len(name).Some? && Len(name).value <= 50
    ensures r.Ok? ==> r.value == name
    ensures name.VStr? ==> (r.Ok? <==> 0 < |name.s| <= 50)
    ensures name.VStr? && r.Err? ==> r.error == NameError(fieldName)
    ensures !Truthy(name) ==> r == Err(NameError(fieldName))
    ensures Truthy(name) && Len(name).None? ==> r.Err? && r.error.TypeError?
    ensures Truthy(name) && Len(name).Some? && Len(name).value > 50 ==> r == Err(NameError(fieldName))
  {
    if !Truthy(name) then Err(NameError(fieldName))
    else if Len(name).None? then Err(TypeError("object has no len()"))
    else if Len(name).value > 50 then Err(NameError(fieldName))
    else Ok(name)
  }

  /**
   * flask_bcrypt, which is not part of this model, as a pair of functions:
   * `generate_password_hash` and `check_password_hash`. The checker either
   * answers or raises (bcrypt raises ValueError on a value that is not a digest).
   */
  datatype Hasher = Hasher(hash: string -> string, check: (string, string) -> Result<bool>)

  /** What bcrypt promises and the model relies on: a password checks against its own digest. */
  ghost predicate Sound(h: Hasher) {
    forall p :: h.check(h.hash(p), p) == Ok(true)
  }

  /**
   * bcrypt's digest format: every digest starts with the "$2b$" version tag,
   * and checking against a value without that tag raises ValueError.
   */
  ghost predicate Tagged(h: Hasher) {
    && (forall p :: "$2b$" <= h.hash(p))
    && (forall s, c :: !("$2b$" <= s) ==> h.check(s, c) == Err(ValueError("Invalid salt")))
  }

  /** The `password` attribute `set_password(password)` stores, or the error it raises. */
  function Digest(h: Hasher, password: Value): (r: Result<Value>)
    ensures r.Ok? <==> Truthy(password) && password.VStr?
    ensures r.Ok? ==> r.value == VStr(h.hash(password.s))
    ensures !Truthy(password) ==> r == Err(ValueError("Password is required"))
  {
    if !Truthy(password) then Err(ValueError("Password is required"))
    else if !password.VStr? then Err(TypeError("Password must be a string"))
    else Ok(VStr(h.hash(password.s)))
  }

  /**
   * `check_password(password)` of a user with attributes o: the checker's
   * answer for the stored value, and TypeError when no string is stored.
   */
  function CheckPassword(h: Hasher, o: Obj, password: string): Result<bool> {
    if "password" !in o || !o["password"].VStr? then Err(TypeError("password must be a string"))
    else h.check(o["password"].s, password)
  }

  /** The attributes `User(**kw)` leaves on the object, or the error it raises. */
  function Build(h: Hasher, kw: Dict, freshId: Id, now: Time, parseIso: string -> Option<Time>): Result<Obj> {
    match BaseModelV3.InitStamped(kw, freshId, now, parseIso)
    case Err(e) => Err(e)
    case Ok(o) =>
      match ValidateEmail(GetOr(kw, "email", VNone))
      case Err(e) => Err(e)
      case Ok(email) =>
        match Digest(h, GetOr(kw, "password", VNone))
        case Err(e) => Err(e)
        case Ok(digest) =>
          match ValidateName(GetOr(kw, "first_name", VStr("")), "First Name")
          case Err(e) => Err(e)
          case Ok(first) =>
            match ValidateName(GetOr(kw, "last_name", VStr("")), "Last Name")
            case Err(e) => Err(e)
            case Ok(last) =>
              Ok(o["email" := email]["password" := digest]["first_name" := first]["last_name" := last]
                  ["is_admin" := GetOr(kw, "is_admin", VBool(false))]
                  ["is_owner" := GetOr(kw, "is_owner", VBool(false))]
                  ["owned_places" := VList([])]["rented_places" := VList([])])
  }

  /**
   * A constructed user holds a matching address and the digest of the given
   * password, so with a sound hasher that password checks.
   */
  lemma BuildAt(h: Hasher, kw: Dict, freshId: Id, now: Time, parseIso: string -> Option<Time>)
    ensures Build(h, kw, freshId, now, parseIso).Ok? ==>
      var o := Build(h, kw, freshId, now, parseIso).value;
      && o["email"].VStr? && EmailPattern(o["email"].s)
      && GetOr(kw, "password", VNone).VStr? && o["password"] == VStr(h.hash(GetOr(kw, "password", VNone).s))
      && (Sound(h) ==> CheckPassword(h, o, GetOr(kw, "password", VNone).s) == Ok(true))
  {
    BuildValue(h, kw, freshId, now, parseIso);
  }

  /** A constructed user keeps the payload's address exactly as given. */
  lemma BuildKeepsEmail(h: Hasher, kw: Dict, freshId: Id, now: Time, parseIso: string -> Option<Time>)
    ensures Build(h, kw, freshId, now, parseIso).Ok? ==>
      && "email" in Keys(kw) && "email" in Build(h, kw, freshId, now, parseIso).value
      && Build(h, kw, freshId, now, parseIso).value["email"] == Lookup(kw, "email").value
  {
    BuildValue(h, kw, freshId, now, parseIso);
  }

  /** A constructed user's first and last names are non-empty strings of at most 50 characters. */
  lemma BuildNames(h: Hasher, kw: Dict, freshId: Id, now: Time, parseIso: string -> Option<Time>)
    ensures Build(h, kw, freshId, now, parseIso).Ok? ==>
      var o := Build(h, kw, freshId, now, parseIso).value;
      && Truthy(o["first_name"]) && Len(o["first_name"]).Some? && Len(o["first_name"]).value <= 50
      && Truthy(o["last_name"]) && Len(o["last_name"]).Some? && Len(o["last_name"]).value <= 50
  {
    BuildValue(h, kw, freshId, now, parseIso);
  }

  /** A constructed user is neither admin nor owner unless told so, and owns and rents nothing. */
  lemma BuildDefaults(h: Hasher, kw: Dict, freshId: Id, now: Time, parseIso: string -> Option<Time>)
    ensures Build(h, kw, freshId, now, parseIso).Ok? ==>
      var o := Build(h, kw, freshId, now, parseIso).value;
      && ("is_admin" !in Keys(kw) ==> o["is_admin"] == VBool(false))
      && ("is_owner" !in Keys(kw) ==> o["is_owner"] == VBool(false))
      && o["owned_places"] == VList([]) && o["rented_places"] == VList([])
  {
    BuildValue(h, kw, freshId, now, parseIso);
  }

  /** A constructed user carries both timestamps, whatever the payload held. */
  lemma BuildStamps(h: Hasher, kw: Dict, freshId: Id, now: Time, parseIso: string -> Option<Time>)
    ensures Build(h, kw, freshId, now, parseIso).Ok? ==>
      var o := Build(h, kw, freshId, now, parseIso).value;
      BaseModelV3.HasStamp(o, "created_at") && BaseModelV3.HasStamp(o, "updated_at")
  {
    BuildValue(h, kw, freshId, now, parseIso);
  }

  /** A well-formed payload with an empty or missing password is refused with "Password is required". */
  lemma BuildNeedsPassword(h: Hasher, kw: Dict, freshId: Id, now: Time, parseIso: string -> Option<Time>)
    requires BaseModelV3.InitStamped(kw, freshId, now, parseIso).Ok?
    requires ValidateEmail(GetOr(kw, "email", VNone)).Ok?
    requires !Truthy(GetOr(kw, "password", VNone))
    ensures Build(h, kw, freshId, now, parseIso) == Err(ValueError("Password is required"))
  {
  }

  /** The attributes a successful construction leaves, spelled out. */
  lemma BuildValue(h: Hasher, kw: Dict, freshId: Id, now: Time, parseIso: string -> Option<Time>)
    ensures Build(h, kw, freshId, now, parseIso).Ok? ==>
      && BaseModelV3.InitStamped(kw, freshId, now, parseIso).Ok?
      && ValidateEmail(GetOr(kw, "email", VNone)).Ok?
      && Digest(h, GetOr(kw, "password", VNone)).Ok?
      && ValidateName(GetOr(kw, "first_name", VStr("")), "First Name").Ok?
      && ValidateName(GetOr(kw, "last_name", VStr("")), "Last Name").Ok?
      && Build(h, kw, freshId, now, parseIso).value ==
         BaseModelV3.InitStamped(kw, freshId, now, parseIso).value
           ["email" := ValidateEmail(GetOr(kw, "email", VNone)).value]
           ["password" := Digest(h, GetOr(kw, "password", VNone)).value]
           ["first_name" := ValidateName(GetOr(kw, "first_name", VStr("")), "First Name").value]
           ["last_name" := ValidateName(GetOr(kw, "last_name", VStr("")), "Last Name").value]
           ["is_admin" := GetOr(kw, "is_admin", VBool(false))]
           ["is_owner" := GetOr(kw, "is_owner", VBool(false))]
           ["owned_places" := VList([])]["rented_places" := VList([])]
  {
  }


  /** A non-empty owned list belongs to an owner. */
  predicate OwnsOnlyAsOwner(o: Obj) {
    "owned_places" in o && o["owned_places"].VList? && o["owned_places"].items != [] ==>
      "is_owner" in o && Truthy(o["is_owner"])
  }

  /** The keys of `to_dict()`: no password among them. */
  const DictKeys: set<string> := {"id", "email", "first_name", "last_name", "is_admin", "is_owner",
                                  "owned_places", "rented_places", "created_at", "updated_at"}

  /** The attributes `to_dict` reads, with place lists of model instances and datetime stamps. */
  predicate Renderable(o: Obj) {
    && "id" in o && "email" in o && "first_name" in o && "last_name" in o && "is_admin" in o && "is_owner" in o
    && "owned_places" in o && o["owned_places"].VList? && IdsOf(o["owned_places"].items).Ok?
    && "rented_places" in o && o["rented_places"].VList? && IdsOf(o["rented_places"].items).Ok?
    && BaseModelV3.HasStamp(o, "created_at") && BaseModelV3.HasStamp(o, "updated_at")
  }

  /**
   * `to_dict()`: the listed attributes, place lists as their ids in list
   * order, ISO timestamps, and never the password; AttributeError (or
   * TypeError) when an attribute it reads is missing or of the wrong kind.
   */
  function ToDict(o: Obj, iso: Time -> string): (r: Result<Obj>)
    ensures r.Ok? <==> Renderable(o)
    ensures r.Ok? ==> r.value.Keys == DictKeys && "password" !in r.value
    ensures r.Ok? ==> forall k :: k in {"id", "email", "first_name", "last_name", "is_admin", "is_owner"} ==> r.value[k] == o[k]
    ensures r.Ok? ==> forall k :: k in {"owned_places", "rented_places"} ==>
      r.value[k].VList? && |r.value[k].items| == |o[k].items| &&
      forall i :: 0 <= i < |o[k].items| ==> r.value[k].items[i] == VStr(o[k].items[i].id)
    ensures r.Ok? ==> r.value["created_at"] == VStr(iso(o["created_at"].t)) && r.value["updated_at"] == VStr(iso(o["updated_at"].t))
  {
    if !Renderable(o) then Err(AttributeError("to_dict"))
    else
      Ok(map["id" := o["id"], "email" := o["email"], "first_name" := o["first_name"],
             "last_name" := o["last_name"], "is_admin" := o["is_admin"], "is_owner" := o["is_owner"],
             "owned_places" := VList(IdsOf(o["owned_places"].items).value),
             "rented_places" := VList(IdsOf(o["rented_places"].items).value),
             "created_at" := VStr(iso(o["created_at"].t)), "updated_at" := VStr(iso(o["updated_at"].t))])
  }

  class User {
    const base: BaseModelV3.BaseModel

    constructor Of(b: BaseModelV3.BaseModel)
      ensures base == b
    {
      base := b;
    }

    /** `User(**kw)`: the base constructor, then the validations and defaults in order. */
    static method New(h: Hasher, kw: Dict, freshId: Id, now: Time, parseIso: string -> Option<Time>) returns (r: Result<User>)
      ensures r.Ok? <==> Build(h, kw, freshId, now, parseIso).Ok?
      ensures r.Ok? ==> fresh(r.value) && fresh(r.value.base) && r.value.base.attrs == Build(h, kw, freshId, now, parseIso).value
      ensures r.Err? ==> r.error == Build(h, kw, freshId, now, parseIso).error
    {
      var b := BaseModelV3.BaseModel.New(kw, freshId, now, parseIso);
      if b.Err? {
        return Err(b.error);
      }
      var u := new User.Of(b.value);
      var email := ValidateEmail(GetOr(kw, "email", VNone));
      if email.Err? {
        return Err(email.error);
      }
      u.base.attrs := u.base.attrs["email" := email.value];
      var hashed := u.SetPassword(h, GetOr(kw, "password", VNone));
      if hashed.Fail? {
        return Err(hashed.error);
      }
      var first := ValidateName(GetOr(kw, "first_name", VStr("")), "First Name");
      if first.Err? {
        return Err(first.error);
      }
      u.base.attrs := u.base.attrs["first_name" := first.value];
      var last := ValidateName(GetOr(kw, "last_name", VStr("")), "Last Name");
      if last.Err? {
        return Err(last.error);
      }
      u.base.attrs := u.base.attrs["last_name" := last.value]
        ["is_admin" := GetOr(kw, "is_admin", VBool(false))]
        ["is_owner" := GetOr(kw, "is_owner", VBool(false))]
        ["owned_places" := VList([])]["rented_places" := VList([])];
      return Ok(u);
    }

    /** `set_password(password)`: the digest stored, or the error raised with nothing changed. */
    method SetPassword(h: Hasher, password: Value) returns (r: Outcome)
      modifies base
      ensures r.Pass? <==> Digest(h, password).Ok?
      ensures r.Pass? ==> base.attrs == old(base.attrs)["password" := Digest(h, password).value]
      ensures r.Fail? ==> r.error == Digest(h, password).error && base.attrs == old(base.attrs)
    {
      var d := Digest(h, password);
      if d.Err? {
        return Fail(d.error);
      }
      base.attrs := base.attrs["password" := d.value];
      return Pass;
    }

    /** `become_owner()`. */
    method BecomeOwner()
      modifies base
      ensures base.attrs == old(base.attrs)["is_owner" := VBool(true)]
      ensures OwnsOnlyAsOwner(base.attrs)
    {
      base.attrs := base.attrs["is_owner" := VBool(true)];
    }

    /**
     * `add_owned_place(place)`: appended only for an owner; anyone else gets
     * ValueError and an unchanged list. Keeps `OwnsOnlyAsOwner`.
     */
    method AddOwnedPlace(place: Value) returns (r: Outcome)
      modifies base
      ensures r.Pass? <==> "is_owner" in old(base.attrs) && Truthy(old(base.attrs)["is_owner"])
                           && Append(old(base.attrs), "owned_places", place).Ok?
      ensures r.Pass? ==> base.attrs == Append(old(base.attrs), "owned_places", place).value
      ensures r.Fail? ==> base.attrs == old(base.attrs)
      ensures "is_owner" in old(base.attrs) && !Truthy(old(base.attrs)["is_owner"]) ==>
        r == Fail(ValueError("User must be an owner to add owned places"))
      ensures OwnsOnlyAsOwner(old(base.attrs)) ==> OwnsOnlyAsOwner(base.attrs)
    {
      var owner := Attr(base.attrs, "is_owner");
      if owner.Err? {
        return Fail(owner.error);
      }
      if !Truthy(owner.value) {
        return Fail(ValueError("User must be an owner to add owned places"));
      }
      var appended := Append(base.attrs, "owned_places", place);
      if appended.Err? {
        return Fail(appended.error);
      }
      base.attrs := appended.value;
      return Pass;
    }

    /** `rent_place(place)`: appended with no condition. Keeps `OwnsOnlyAsOwner`. */
    method RentPlace(place: Value) returns (r: Outcome)
      modifies base
      ensures r.Pass? <==> Append(old(base.attrs), "rented_places", place).Ok?
      ensures r.Pass? ==> base.attrs == Append(old(base.attrs), "rented_places", place).value
      ensures r.Fail? ==> base.attrs == old(base.attrs)
      ensures OwnsOnlyAsOwner(old(base.attrs)) ==> OwnsOnlyAsOwner(base.attrs)
    {
      var appended := Append(base.attrs, "rented_places", place);
      if appended.Err? {
        return Fail(appended.error);
      }
      base.attrs := appended.value;
      return Pass;
    }
  }
}
