# HBnB core, modelled in Dafny

HBnB is a small holiday-rental back end in three successive iterations:

- **part2** keeps plain Python objects in in-memory stores.
- **part3** maps the same entities onto database tables.
- **part4** adds the place, review and amenity endpoints, behind token-based identity.

This project models the core of all three:

- the entity classes: `BaseModel`, `User`, `Place`, `Review` and `Amenity`, in each version that differs;
- the repository the facade stores them in;
- the two facades (`HBnBFacade`);
- the REST handlers for users, places and reviews.

It proves what these promise:

- validation bounds;
- what a constructor stores and what it refuses;
- round trips through `to_dict`;
- which attributes an update loop touches and which it leaves alone;
- that stored references stay intact;
- the HTTP status each handler returns in each case.

## How the Python runtime is represented

- **Values.** A Python value is `Common.Value`: None, bool, int, float (as `real`), str, a datetime (as a clock reading), a list, a dict, or a reference to a model instance (its class and its id).
- **Objects.** An object's attribute namespace is `Obj = map<string, Value>`. A caller's dict is an ordered `Dict` of entries; `Lookup` finds the last entry under a key.
- **Exceptions.** Raised exceptions are `Result`/`Outcome` values carrying `Common.Error`.
- **`setattr` loops.** Every `for key, value in d.items(): setattr(obj, key, value)` loop is `Common.Assign`. Every loop that raises at the first refused key is specified by `Common.FirstRejected`.
- **Environment as parameters.** Each of these is a parameter:
  - the clock: `now`;
  - `uuid.uuid4()`: `freshId`;
  - `isoformat` and `fromisoformat`: `iso` and `parseIso`;
  - the caller's token identity: `current`.
- **bcrypt.** `generate_password_hash` and `check_password_hash` are the parameter `UserV3.Hasher`: a digest function and a checker that answers or raises.
  - `UserV3.Sound` is what the model relies on: a password checks against its own digest.
  - `UserV3.Tagged` is bcrypt's digest format, assumed only where stated: every digest starts with `$2b$`, and checking against a value without that tag raises ValueError.
- **The database.** Each table is a `Repository.Repository` object. Its `rows` map ids to objects, and its `order` is the insertion order that queries return rows in.
- **Foreign keys.** A row's foreign key is a string column (`owner_id`, `user_id`, `place_id`).
- **Entity classes.** Each is a Dafny `class` holding its base object. The `static method New` is its constructor. A pure `Build` function says what that constructor leaves, and the facades use it.

## Model

| member | source | states |
|---|---|---|
| Common.AssignAt | part4/app/persistence/repository.py:61-62 | after a `setattr` loop, a key holds the dict's last value for it when the loop admits it, and otherwise keeps its old value or stays absent |
| Common.AssignTwice | part3/app/services/facade.py:48-50 | running the same `setattr` loop a second time, as `update_user` does through the repository, changes nothing more |
| Common.FirstRejected | part3/app/services/facade.py:99-109 | the index at which an allow-list loop raises: every entry before it is accepted, and the entry at it is refused |
| Common.AcceptedAt | part3/app/services/facade.py:99-109 | after a loop that accepted its first j entries, a key outside the allow-list is untouched, and a reference key holds its old value or an allowed id |
| Common.BindArgs | part2/app/models/user.py:4-8 | `f(**kw)` binds exactly when every keyword is a parameter and every required one is given (otherwise TypeError); each parameter takes the keyword's value or its default |
| Common.SetKey | part4/app/api/v1/places.py:70 | `d[k] = v`: afterwards k maps to v, and every other key keeps its lookup |
| Common.RemoveKey | part3/app/services/facade.py:69-70 | `d.pop(k)`: k is gone, and every other key keeps its lookup |
| Common.IdsOf | part3/app/models/user.py:85-86 | `[p.id for p in items]` succeeds exactly when every item is a model instance; it then holds their ids in order |
| Repository.SelectFirst | part4/app/persistence/repository.py:82-87 | the filtered query is empty exactly when no row matches; otherwise it starts with the first matching row in store order |
| Repository.SelectStep | part4/app/persistence/repository.py:89-93 | narrowing a query by one more `filter` equals querying with the extended condition list |
| Repository.SelectNone | part4/app/persistence/repository.py:90 | the unfiltered query returns every stored id |
| Repository.WithoutDistinct | part4/app/persistence/repository.py:70-80 | removing an id from the store order keeps every id distinct |
| Repository.RowsOf | part4/app/persistence/repository.py:54-55 | the rows of the given ids, one per id, in order |
| Repository.Repository.constructor | part4/app/persistence/repository.py:37-40 | a new store is empty and valid |
| Repository.Repository.Add | part4/app/persistence/repository.py:42-49 | stores the object under its id exactly when it has a string id not yet stored, appending the id to the order; otherwise RepositoryException and no change |
| Repository.Repository.Get | part4/app/persistence/repository.py:51-52 | the row for a stored string id, and None for anything else |
| Repository.Repository.GetAll | part4/app/persistence/repository.py:54-55 | every stored row, in insertion order |
| Repository.Repository.First | part4/app/persistence/repository.py:82-87 | None exactly when no row matches the conditions; otherwise the first match in store order |
| Repository.Repository.GetByAttribute | part4/app/persistence/repository.py:82-87 | None exactly when no row has that attribute value; otherwise a row that has it, with no earlier row having it |
| Repository.Repository.GetByAttributes | part4/app/persistence/repository.py:89-93 | the loop of `filter` calls gives the first row matching every condition, and the first stored row when there is no condition |
| Repository.Repository.Update | part4/app/persistence/repository.py:57-68 | None and no change for an unknown id; otherwise the row after the `setattr` loop, with the other rows and the order unchanged |
| Repository.Repository.SetWhileAccepted | part3/app/services/facade.py:99-109 | applies entries in order up to the first refused one, and returns its index (`FirstRejected`) |
| Repository.Repository.Delete | part4/app/persistence/repository.py:70-80 | true and the row removed exactly when the id was stored; otherwise false and no change; afterwards the id is absent |
| BaseModelV2.Fresh | part2/app/models/BaseModel.py:21-23 | a new object has the fresh id and both timestamps at the clock reading |
| BaseModelV2.BaseModel.constructor | part2/app/models/BaseModel.py:15-23 | `BaseModel()` holds exactly id, created_at and updated_at |
| BaseModelV2.BaseModel.Save | part2/app/models/BaseModel.py:25-31 | only `updated_at` changes, to the clock reading |
| BaseModelV2.BaseModel.Update | part2/app/models/BaseModel.py:33-45 | keys the object already has are set in order, other keys are ignored, then `save()` |
| BaseModelV2.UpdateAt | part2/app/models/BaseModel.py:33-45 | the attribute names are unchanged, existing keys of `data` get their values, the rest keep theirs, and `updated_at` is the clock reading even when no key matched |
| BaseModelV3.InitStamped | part3/app/models/BaseModel.py:26-40 | the corrected constructor: like the original, but with missing timestamps defaulted to the clock, so the result always carries both |
| BaseModelV3.KwargsLeaveNoStamps | part3/app/models/BaseModel.py:27-36 | as written, a keyword construction without timestamps leaves none, so `to_dict` raises AttributeError |
| BaseModelV3.StampedRenders | part3/app/models/BaseModel.py:46-52 | every object `InitStamped` builds renders with `to_dict` |
| BaseModelV3.CopyKwargsErr | part3/app/models/BaseModel.py:28-31 | an unparsable timestamp among the first entries is the error of the whole keyword loop |
| BaseModelV3.CopyKwargsAt | part3/app/models/BaseModel.py:28-33 | the keyword loop succeeds exactly when every timestamp entry parses; it then holds each key except `__class__` at its last (parsed) value, and nothing else |
| BaseModelV3.InitAt | part3/app/models/BaseModel.py:26-40 | `BaseModel(**kw)`: with keywords, built exactly when every copied value converts, the keys copied and a fresh id only when `id` is absent; without keywords, a fresh object |
| BaseModelV3.ToDict | part3/app/models/BaseModel.py:46-52 | the attributes, `id` included, copied unchanged, plus `__class__` and both timestamps rendered; AttributeError when a timestamp is missing |
| BaseModelV3.ToDictRoundTrip | part3/app/models/BaseModel.py:26-52 | when the parser inverts the formatter, `BaseModel(**o.to_dict())` restores o |
| BaseModelV3.BaseModel.New | part3/app/models/BaseModel.py:26-40 | the constructed object is the one `InitStamped` describes, or its error |
| BaseModelV3.BaseModel.Save | part3/app/models/BaseModel.py:42-44 | only `updated_at` changes, to the clock reading |
| BaseModelV3.BaseModel.Update | part3/app/models/BaseModel.py:54-60 | every key except id, the timestamps and `__class__` is copied in order, then `save()` |
| BaseModelV3.UpdateAt | part3/app/models/BaseModel.py:54-60 | id, created_at and `__class__` survive any `data`, updated_at is the clock reading, other keys of `data` get their values, and the rest are untouched |
| UserV3.DomainFromSpec | part3/app/models/user.py:105 | the domain scan finds a '.' closing a non-empty '@'-free run exactly when one exists |
| UserV3.MatchesEmail | part3/app/models/user.py:105 | the matcher accepts exactly the strings the email pattern matches |
| UserV3.ValidateEmail | part3/app/models/user.py:93-107 | an address that matches is returned unchanged; a non-matching string gives ValueError "Invalid email address"; a non-string gives TypeError |
| UserV3.InvalidEmailRejected | part3/app/models/user.py:105-106 | 'invalid-email' is refused |
| UserV3.SampleEmailAccepted | part3/app/models/user.py:105-107 | 'test@example.com' is accepted |
| UserV3.ValidateName | part3/app/models/user.py:110-126 | a string passes exactly when it has 1 to 50 characters; otherwise ValueError, or TypeError where `len` does not apply |
| UserV3.Digest | part3/app/models/user.py:128-133 | a truthy string password is stored as the hasher's digest of it; an empty or missing one gives "Password is required" |
| UserV3.BuildAt | part3/app/models/user.py:21-31 | a constructed user holds a matching string address and the digest of the given password, which checks against that password under a sound hasher |
| UserV3.BuildKeepsEmail | part3/app/models/user.py:30 | a constructed user keeps the payload's address exactly |
| UserV3.BuildNames | part3/app/models/user.py:32-35 | both names of a constructed user are non-empty and at most 50 characters long |
| UserV3.BuildDefaults | part3/app/models/user.py:36-39 | is_admin and is_owner default to false, and the owned and rented lists start empty |
| UserV3.BuildStamps | part3/app/models/user.py:21-28 | corrected: a constructed user carries both timestamps |
| UserV3.BuildNeedsPassword | part3/app/models/user.py:128-133 | a payload that is otherwise acceptable but has an empty or missing password is refused with "Password is required" |
| UserV3.ToDict | part3/app/models/user.py:71-90 | the listed attributes, place lists as ids in order, ISO timestamps, and never the password |
| UserV3.User.New | part3/app/models/user.py:21-39 | corrected: the user the constructor leaves is `Build`'s, or its error |
| UserV3.User.SetPassword | part3/app/models/user.py:128-133 | stores the digest, or raises with nothing changed |
| UserV3.User.BecomeOwner | part3/app/models/user.py:45-47 | is_owner becomes true and nothing else changes |
| UserV3.User.AddOwnedPlace | part3/app/models/user.py:49-61 | appends for an owner only; anyone else gets ValueError and an unchanged list; keeps "only owners own places" |
| UserV3.User.RentPlace | part3/app/models/user.py:63-69 | appends unconditionally and keeps "only owners own places" |
| AmenityV3.NameCheck | part3/app/models/amenity.py:28-38 | passes exactly for a non-empty string of at most 50 characters, with the message of the first failing check |
| AmenityV3.NameBoundaries | part3/app/models/amenity.py:33-38 | 50 characters pass; 51, the empty string and 123 do not |
| AmenityV3.Build | part3/app/models/amenity.py:19-25 | built exactly when the name passes `set_name`; it then holds the name and the description as given |
| AmenityV3.Amenity.New | part3/app/models/amenity.py:19-25 | the constructed amenity is `Build`'s, or its error |
| AmenityV3.Amenity.SetName | part3/app/models/amenity.py:28-42 | an acceptable name is stored and updated_at advanced; otherwise it raises and nothing changes |
| AmenityV2.Build | part2/app/models/amenity.py:17-44 | built exactly when the name is a string of at most 128 characters and the description at most 255 long; each failing check raises its own ValueError, and a description without a length raises TypeError |
| AmenityV2.NameBoundaries | part2/app/models/amenity.py:32-38 | the empty name is accepted; 128 characters pass and 129 do not |
| AmenityV2.NameCheck | part2/app/models/amenity.py:59-64 | `set_name`'s message: None exactly for a string of at most 128 characters |
| AmenityV2.Amenity.New | part2/app/models/amenity.py:17-44 | the constructed amenity is `Build`'s, or its error |
| AmenityV2.Amenity.SetName | part2/app/models/amenity.py:46-68 | stores and saves an acceptable name; otherwise returns the message and changes nothing |
| AmenityV2.Amenity.SetDescription | part2/app/models/amenity.py:70-86 | stores and saves a description of at most 255; a longer one returns the message; one without a length raises TypeError |
| ReviewV2.TextCheck | part2/app/models/review.py:55-56 | only a string passes |
| ReviewV2.RatingCheck | part2/app/models/review.py:69-72 | passes exactly for a number in 1..5, with each refusal's own message |
| ReviewV2.RatingBoundaries | part2/app/models/review.py:71-72 | 1 and 5 pass; 0, 6, 5.5 and a string do not |
| ReviewV2.ToDict | part2/app/models/review.py:32-44 | id, text, rating, the user's and the place's ids, the ISO renderings of both timestamps and `__class__` "Review"; AttributeError when a reference is missing |
| ReviewV2.BuildToDict | part2/app/models/review.py:7-44 | built exactly when user and place are instances of the right classes, whatever the rating; `to_dict` then reports their ids |
| ReviewV2.Review.New | part2/app/models/review.py:7-30 | the constructed review is `Build`'s, or its error |
| ReviewV2.Review.SetText | part2/app/models/review.py:46-58 | a string is stored and saved; anything else raises and changes nothing |
| ReviewV2.Review.SetRating | part2/app/models/review.py:60-74 | a rating in 1..5 is stored and saved; anything else raises and changes nothing; the rating stays valid |
| ReviewV3.ToDict | part3/app/models/review.py:56-68 | id, text, rating, the user's and the place's ids, the ISO renderings of both timestamps and `__class__` "Review" |
| ReviewV3.BuildToDict | part3/app/models/review.py:31-68 | built exactly when user and place are instances of the right classes; `to_dict` reports their ids and the given text and rating |
| ReviewV3.ConstructorSkipsRatingCheck | part3/app/models/review.py:51-54 | a rating of 9 is stored as given: only `set_rating` checks the range |
| ReviewV3.Review.New | part3/app/models/review.py:31-54 | the constructed review is `Build`'s, or its error |
| ReviewV3.Review.SetText | part3/app/models/review.py:70-82 | a string is stored and saved; anything else raises and changes nothing |
| ReviewV3.Review.SetRating | part3/app/models/review.py:84-98 | a rating in 1..5 is stored and saved; anything else raises and changes nothing |
| ReviewV3.Review.UpdateReview | part3/app/models/review.py:100-119 | a non-dict raises; keys that are attributes are set in order up to the first that is not, which raises; `save()` runs only when every key was accepted |
| PlaceV2.TitleCheck | part2/app/models/place.py:74-82 | None exactly for a string of at most 100 characters; otherwise its message |
| PlaceV2.DescriptionCheck | part2/app/models/place.py:84-88 | None exactly for a string |
| PlaceV2.PriceCheck | part2/app/models/place.py:90-98 | None exactly for a number above zero |
| PlaceV2.LatitudeCheck | part2/app/models/place.py:100-108 | None exactly for a number in [-90, 90] |
| PlaceV2.LongitudeCheck | part2/app/models/place.py:110-118 | None exactly for a number in [-180, 180] |
| PlaceV2.CheckBoundaries | part2/app/models/place.py:95-116 | the range bounds are inclusive and the price bound is strict |
| PlaceV2.BuildAt | part2/app/models/place.py:29-64 | built exactly when the owner is a User (None is refused); empty review and amenity lists; title, description, price, latitude, longitude and owner stored as given |
| PlaceV2.BuildFieldsValid | part2/app/models/place.py:57-61 | the constructor bypasses the setters: a built place's fields are valid exactly when its arguments are |
| PlaceV2.Place.New | part2/app/models/place.py:29-64 | the constructed place is `Build`'s, or its error |
| PlaceV2.Place.AddReview | part2/app/models/place.py:66-68 | appends to the reviews and leaves the amenities alone |
| PlaceV2.Place.AddAmenity | part2/app/models/place.py:70-72 | appends to the amenities and leaves the reviews alone |
| PlaceV2.Place.SetTitle | part2/app/models/place.py:74-82 | stores an acceptable title; otherwise returns the message and changes nothing |
| PlaceV2.Place.SetDescription | part2/app/models/place.py:84-88 | stores a string; otherwise returns the message and changes nothing |
| PlaceV2.Place.SetPrice | part2/app/models/place.py:90-98 | stores a positive price; otherwise returns the message and changes nothing |
| PlaceV2.Place.SetLatitude | part2/app/models/place.py:100-108 | stores a latitude in range; otherwise returns the message and changes nothing |
| PlaceV2.Place.SetLongitude | part2/app/models/place.py:110-118 | stores a longitude in range; otherwise returns the message and changes nothing |
| PlaceV4.Build | part4/app/models/place.py:41-69 | built exactly when the owner is a User; it then holds the fresh id, the owner's id, and empty review and amenity lists |
| PlaceV4.ToDict | part4/app/models/place.py:71-86 | the fields, the owner's id, amenity ids in order, the ISO renderings of both timestamps and `__class__` "Place" |
| PlaceV4.BuildToDict | part4/app/models/place.py:41-86 | a built place renders with the owner's id and no amenities |
| PlaceV4.BuildFieldsValid | part4/app/models/place.py:62-66 | a built place's fields are valid exactly when its arguments are |
| PlaceV4.Place.New | part4/app/models/place.py:41-69 | the constructed place is `Build`'s, or its error |
| PlaceV4.Place.AddReview | part4/app/models/place.py:88-90 | appends to the reviews and leaves the amenities alone |
| PlaceV4.Place.AddAmenity | part4/app/models/place.py:92-94 | appends to the amenities and leaves the reviews alone |
| PlaceV4.Place.SetTitle | part4/app/models/place.py:96-104 | stores an acceptable title; otherwise returns the message and changes nothing |
| PlaceV4.Place.SetDescription | part4/app/models/place.py:106-110 | stores a string; otherwise returns the message and changes nothing |
| PlaceV4.Place.SetPrice | part4/app/models/place.py:112-120 | stores a positive price; otherwise returns the message and changes nothing |
| PlaceV4.Place.SetLatitude | part4/app/models/place.py:122-130 | stores a latitude in range; otherwise returns the message and changes nothing |
| PlaceV4.Place.SetLongitude | part4/app/models/place.py:132-140 | stores a longitude in range; otherwise returns the message and changes nothing |
| FacadeV2.BuildUser | part2/app/models/user.py:3-8 | `User(**data)` succeeds exactly when the keys are among the four parameters and include the three required ones (otherwise TypeError); given values are kept and is_admin defaults to false |
| FacadeV2.AuthenticateAsWritten | part2/app/services/facade.py:96-99 | as written: AttributeError exactly when some user has the address, and otherwise None; it never returns a user |
| FacadeV2.RegisteredUserCannotLogIn | part2/app/services/facade.py:96-99 | a registered address always ends in AttributeError |
| FacadeV2.Facade.constructor | part2/app/services/facade.py:13-20 | four empty stores |
| FacadeV2.Facade.CreateUser | part2/app/services/facade.py:22-33 | the user `BuildUser` gives is stored under the fresh id; an error stores nothing |
| FacadeV2.Facade.GetUser | part2/app/services/facade.py:35-44 | the stored user for a known id, and None otherwise |
| FacadeV2.Facade.GetAllUsers | part2/app/services/facade.py:46-52 | every stored user, in store order |
| FacadeV2.Facade.GetUserByEmail | part2/app/services/facade.py:54-63 | the first stored user with that address in store order, and None exactly when no user has it |
| FacadeV2.Facade.UpdateUser | part2/app/services/facade.py:65-83 | None and no change for an unknown id; otherwise every given key is set verbatim, other attributes are kept, and the user is returned |
| FacadeV2.Facade.Authenticate | part2/app/services/facade.py:85-99 | corrected: the user with that address exactly when the supplied password check passes, and None otherwise |
| FacadeV2.Facade.GetPlace | part2/app/services/facade.py:101-105 | the placeholder returns None for every id |
| FacadeV3.Fetch | part3/app/services/facade.py:189-190 | `repository.get(v)` gives an instance exactly when v names a stored row, and it carries that id |
| FacadeV3.Attach | part3/app/services/facade.py:74-79 | the amenity loop succeeds exactly when every id is stored, adding one reference per id in order |
| FacadeV3.AttachMissing | part3/app/services/facade.py:74-79 | the first unknown amenity id is the one the error names, whatever follows it |
| FacadeV3.PlaceCopy | part3/app/services/facade.py:68-71 | the copy drops `amenities` and `owner_id` and holds `owner` as a reference to the owner |
| FacadeV3.PlaceBuilt | part3/app/services/facade.py:73 | a place built from the copy has the fresh id |
| FacadeV3.PlacePayloadOwner | part3/app/services/facade.py:63-66 | a built place is owned by a stored user; an owner id naming no user gives "Owner not found" |
| FacadeV3.PlacePayloadAt | part3/app/services/facade.py:61-82 | a built place has the fresh id and the named owner, and lists exactly the given amenities in order, each one stored |
| FacadeV3.PlacePayloadMissingAmenity | part3/app/services/facade.py:74-79 | an unknown amenity id makes `create_place` fail, naming the first such id |
| FacadeV3.ReviewPayloadAt | part3/app/services/facade.py:185-203 | a review is built exactly when the four keys are present and name a stored user and place; it then carries them; every failure is a ValueError |
| FacadeV3.PlaceUpdateAt | part3/app/services/facade.py:99-109 | a partial place update leaves keys outside the allow-list alone and keeps the owner a stored user |
| FacadeV3.ReviewUpdateAt | part3/app/services/facade.py:220-236 | a partial review update leaves keys outside the allow-list alone and keeps the author and place stored rows |
| FacadeV3.OfPlaceSelects | part3/app/services/facade.py:245-250 | the comprehension over all reviews equals the query on `place_id`, in store order |
| FacadeV3.RefsUsersKept | part3/app/services/facade.py:44-52 | user updates that keep every user stored keep all references intact |
| FacadeV3.RefsPlaceSet | part3/app/services/facade.py:81 | storing a place owned by a stored user keeps references intact |
| FacadeV3.RefsReviewSet | part3/app/services/facade.py:198 | storing a review whose author and place are stored keeps references intact |
| FacadeV3.PlaceUpdateKeepsRefs | part3/app/services/facade.py:92-112 | a place update keeps references intact, whether it completes or raises part-way |
| FacadeV3.ReviewUpdateKeepsRefs | part3/app/services/facade.py:213-239 | a review update keeps references intact, whether it completes or raises part-way |
| FacadeV3.Facade.constructor | part3/app/services/facade.py:14-24 | four empty, valid stores |
| FacadeV3.Facade.CreateUser | part3/app/services/facade.py:26-30 | the user `UserV3.Build` gives is added; on an error nothing is stored |
| FacadeV3.Facade.GetUserByEmail | part3/app/services/facade.py:40-42 | the first stored user with that address in store order, and None exactly when no user has it |
| FacadeV3.Facade.UpdateUser | part3/app/services/facade.py:44-52 | None and no change for an unknown id; otherwise every key is set verbatim and the user returned |
| FacadeV3.Facade.AuthenticateUser | part3/app/services/facade.py:54-59 | the first user with that address exactly when its password checks; None when no user has the address or the password does not check; the checker's error when it raises |
| FacadeV3.Facade.AuthenticateOwnPassword | part3/app/services/facade.py:54-59 | under a sound hasher, the first user with the address logs in with the password its digest was made from |
| FacadeV3.Facade.AttachAmenities | part3/app/services/facade.py:74-79 | the place gains exactly the references `Attach` gives, or the loop raises |
| FacadeV3.Facade.ConstructPlace | part3/app/services/facade.py:73 | the constructed place is `PlaceBuilt`'s, or its error |
| FacadeV3.Facade.NewPlace | part3/app/services/facade.py:61-80 | the place is the one `PlacePayload` describes, or its error |
| FacadeV3.Facade.CreatePlace | part3/app/services/facade.py:61-82 | stores the `PlacePayload` place; on an error nothing is stored; references stay intact |
| FacadeV3.Facade.ApplyPlaceData | part3/app/services/facade.py:99-110 | entries are applied up to the first one `PlaceAllow` refuses, and that index is returned |
| FacadeV3.Facade.UpdatePlace | part3/app/services/facade.py:92-112 | None for an unknown id; a non-dict raises; otherwise entries apply to the session's object until the first refused one, which raises with the earlier ones applied |
| FacadeV3.Facade.CreateAmenity | part3/app/services/facade.py:114-124 | a non-dict raises; otherwise the amenity `Amenity(**data)` builds is added, and an error stores nothing |
| FacadeV3.Facade.UpdateAmenity | part3/app/services/facade.py:144-173 | None for an unknown id; a non-dict raises; existing attributes of the session's object are set in order up to the first unknown key, which raises |
| FacadeV3.Facade.DeleteAmenity | part3/app/services/facade.py:175-183 | true exactly when it was stored; afterwards it is absent |
| FacadeV3.Facade.NewReview | part3/app/services/facade.py:187-197 | the review is the one `ReviewPayload` describes, or its error |
| FacadeV3.Facade.CreateReview | part3/app/services/facade.py:185-203 | stores the `ReviewPayload` review; otherwise a ValueError and nothing stored |
| FacadeV3.Facade.ApplyReviewData | part3/app/services/facade.py:220-237 | entries are applied up to the first one `ReviewAllow` refuses, and that index is returned |
| FacadeV3.Facade.UpdateReview | part3/app/services/facade.py:213-239 | None for an unknown id; a non-dict raises; otherwise entries apply to the session's object until the first refused one, which raises with the earlier ones applied |
| FacadeV3.Facade.DeleteReview | part3/app/services/facade.py:241-243 | true exactly when it was stored; afterwards it is absent |
| FacadeV3.Facade.GetReviewsByPlace | part3/app/services/facade.py:245-250 | the reviews whose `place_id` is the argument, in store order |
| FacadeV3.ReviewsOfPlace | part3/app/services/facade.py:245-250 | a review is in the result exactly when it is stored with that `place_id` |
| Http.StatusOf | part4/app/api/v1/reviews.py:152-162 | KeyError and ValueError give 400; any other exception gives 500 |
| Http.ValueErrorStatus | part4/app/api/v1/places.py:73-78 | ValueError gives 400; anything else gives 500 |
| Http.ViewAll | part3/app/api/v1/users.py:71-78 | a list comprehension succeeds exactly when every element's view does, and then holds the views in order |
| ReviewsApi.AddKeepsPairsUnique | part4/app/api/v1/reviews.py:75-79 | adding a review whose (user, place) pair is not yet stored keeps one review per pair |
| ReviewsApi.RemoveKeepsPairsUnique | part4/app/api/v1/reviews.py:180-181 | deleting reviews keeps one review per pair |
| ReviewsApi.PostGuard | part4/app/api/v1/reviews.py:68-77 | 404 exactly for an unknown place; 500 exactly when its owner column is missing; 403 exactly when the caller owns it or has reviewed it; otherwise go on |
| ReviewsApi.Post | part4/app/api/v1/reviews.py:61-94 | as written: after the checks, 201 exactly when the payload's review is stored under the fresh id, and otherwise 400 with no change |
| ReviewsApi.PostFilesSecondReview | part4/app/api/v1/reviews.py:73-79 | as written, a payload naming another user who already reviewed the place is accepted and breaks one review per pair |
| ReviewsApi.PostAsCaller | part4/app/api/v1/reviews.py:61-94 | corrected: once the checks pass, 201 exactly when the payload with `user_id` set to the caller builds a review and the fresh id is unused, 400 otherwise; the review is filed under the caller, and one review per pair is kept |
| ReviewsApi.AuthorGuard | part4/app/api/v1/reviews.py:137-142 | 404 exactly for an unknown review; 500 exactly when its author column is missing; 403 exactly when someone else wrote it; otherwise go on |
| ReviewsApi.Put | part4/app/api/v1/reviews.py:130-162 | only the author changes a review: 200 exactly when every entry is accepted, otherwise 400 with the accepted prefix applied to the session's object |
| ReviewsApi.Delete | part4/app/api/v1/reviews.py:168-186 | only the author deletes: 200 and the review removed; one review per pair is kept |
| ReviewsApi.PlaceReviewsStatus | part4/app/api/v1/reviews.py:192-204 | 200 exactly when some stored review names the place, and 404 otherwise, even for a stored place with no reviews |
| ReviewsApi.PlaceReviewsFound | part4/app/api/v1/reviews.py:195-201 | the place query is empty exactly when no stored review names the place |
| PlacesApi.Post | part4/app/api/v1/places.py:63-78 | the place is always owned by the caller; 201 exactly when it is stored; otherwise 400 or 500 and no change; an unknown caller gets 400 |
| PlacesApi.GetStatus | part4/app/api/v1/places.py:95-109 | 200 for a stored place and 404 otherwise |
| PlacesApi.OwnerGuard | part4/app/api/v1/places.py:124-130 | 404 exactly for an unknown place; 500 exactly when its owner column is missing; 403 exactly when someone else owns it; otherwise go on |
| PlacesApi.Put | part4/app/api/v1/places.py:117-146 | only the owner changes a place: 200 exactly when every entry is accepted, otherwise 400 with the accepted prefix applied to the session's object |
| UsersApiV2.Summary | part2/app/api/v1/users.py:57-58 | exactly id, names and address, copied from the user; AttributeError when one is missing |
| UsersApiV2.SummaryHidesPassword | part2/app/api/v1/users.py:57-58 | a summary never shows a password |
| UsersApiV2.AddKeepsEmailsUnique | part2/app/api/v1/users.py:50-54 | adding a user whose address is not on file keeps addresses unique |
| UsersApiV2.PostGuard | part2/app/api/v1/users.py:49-52 | a missing address gives 500; an address already on file gives 400 "Email already registered"; otherwise go on |
| UsersApiV2.Post | part2/app/api/v1/users.py:33-58 | a new address gives 201 and the summary of the stored user; a refusal changes nothing; addresses stay unique; no password shown |
| UsersApiV2.List | part2/app/api/v1/users.py:60-75 | the summary of every user, in store order, with no password |
| UsersApiV2.Get | part2/app/api/v1/users.py:88-109 | 404 exactly for an unknown id; otherwise 200 with the user's summary exactly when it has the four attributes, else 500 |
| UsersApiV2.Put | part2/app/api/v1/users.py:115-138 | 404 and no change for an unknown id; otherwise every key is set on the user, and 200 with its summary exactly when it has the four attributes, else 500 |
| UsersApiV3.PostGuard | part3/app/api/v1/users.py:51-54 | a missing address gives 500; an address already on file gives 400; otherwise go on |
| UsersApiV3.Post | part3/app/api/v1/users.py:44-60 | for a new address, 201 exactly when the user is built with a string id not yet stored, with the stored user's id, names and address; a refusal gives 500 and changes nothing; addresses stay unique; no password shown |
| UsersApiV3.Detail | part3/app/api/v1/users.py:101-112 | 200 with the user's detailed view, or 500 when it cannot be rendered; never the password |
| UsersApiV3.List | part3/app/api/v1/users.py:62-78 | the detailed view of every user, in store order, or the error of the first stored user that cannot be rendered |
| UsersApiV3.ListHidesPasswords | part3/app/api/v1/users.py:71-78 | no listed user shows a password |
| UsersApiV3.Get | part3/app/api/v1/users.py:89-112 | 404 exactly for an unknown id; otherwise the user's detailed view |
| UsersApiV3.Put | part3/app/api/v1/users.py:118-143 | 404 and no change for an unknown id; otherwise every key is set verbatim and the detailed view returned |
| UsersApiV3.PutStoresPlainPassword | part3/app/api/v1/users.py:124-126 | an update carrying password p stores the plain p; with bcrypt's digest format that is no digest of any password, and checking any password against it raises ValueError |

## Left out

- **part2 in-memory store.** `InMemoryRepository` is not part of this model. The part2 facade is given the same store contract as the part3 table (`Repository.Repository`).
- **part2 user ids.** The part2 `User` record has no id. `FacadeV2.BuildUser` files it under the fresh id and records that id as its `id`.
- **part4 facade.** The part4 facade is not part of this model. The part4 handlers are routed through the part3 facade (`FacadeV3`).
  - `get_review_by_user_and_place` is modelled as `FacadeV3.Facade.HasReview`: some stored review has that author and place.
- **part3 place model.** part3/app/models/place.py is not part of this model. The part3 facade builds the part4 `Place`, which composes the part3 `BaseModel`.
- **Reply bodies of the place and review handlers.** These are not modelled: only the status and the change to the stores are.
  - A `to_dict` that raises after a successful create or update would turn the reply into 500. The model gives the status before rendering.
- **Plain listing handlers.** `ReviewResource.get`, `ReviewList.get` and `PlaceList.get` are not modelled. They are plain lookups and lists, covered by `Repository.Repository.Get`, `Repository.Repository.GetAll` and `Http.ViewAll`.
- **ReviewsApi.Put: one review per pair.** This handler does not preserve one review per (user, place). A PUT may set `user_id` or `place_id` to another stored row, as `update_review` allows. The property is proved only for `ReviewsApi.PostAsCaller` and `ReviewsApi.Delete`.
- **UsersApiV2.Put and UsersApiV3.Put: email uniqueness.** These handlers do not preserve unique addresses: an update may set an address another user already has, because the source makes no check.
- **The web framework.** Request-schema validation (`validate=True`), JWT decoding, bcrypt's algorithm and SQLAlchemy sessions are not modelled.
  - Payloads are taken as given dicts, and the caller's identity is a parameter.
  - Commits and rollbacks are atomic map updates. A database error is the RepositoryException of `Repository.Repository.Add`.
  - Column constraints (length, nullability, uniqueness) are not enforced by the model.
- **`hasattr` on a class.** `hasattr(obj, key)` is modelled as "the object has that attribute". Methods and class attributes that `hasattr` would also see are not.
- **Query order.** `query.all()` and `.first()` return rows in insertion order. A database may return rows in any order.
- **Primary keys.** Changing an object's `id` through an update loop does not move its row: the row stays under its old key.
- **`str(v)`.** `str` of values other than strings, None and booleans is a placeholder (`Common.Show`). Only the messages that quote such values are affected.
- **Logging.** The `print` and logging calls are left out; they affect no result.
- **`__repr__` and `__str__`.** These are left out: they are display only.
- **Split methods.** Several source methods are modelled by more than one member. The loop of one method is its own member, for example `FacadeV3.Facade.AttachAmenities` and `FacadeV3.Facade.ApplyPlaceData`. Its rows in the table cite the lines of that loop.
- **Password checking.** The model does not promise that only the right password checks. bcrypt truncates passwords at 72 bytes, so two passwords with a common 72-byte prefix check against each other's digests.
- **Amenity deletion.** `place_amenity` (part4/app/models/place.py:39) is the association table linking places to amenities. Deleting an amenity also deletes its `place_amenity` rows. `FacadeV3.Facade.DeleteAmenity` removes only the amenity row, so the amenity lists of places keep their references to it.
- **`get_by_attribute` on a name that is not a column.** `getattr(self.model, attr_name)` (part4/app/persistence/repository.py:85) raises AttributeError for such a name. `Repository.Repository.GetByAttribute` returns None instead, because no row has that attribute.
- UserV3.Build, UserV3.User.New, UserV3.BuildStamps: follow the corrected constructor `BaseModelV3.InitStamped`, so a keyword construction without timestamps gets both at the clock reading. As written, it would leave none; see Findings.
- **`BaseModelV3.BaseModel.New` follows the corrected constructor.** The rest of the model builds objects through `InitStamped`. The constructor as written is `BaseModelV3.Init`; see Findings.
- FacadeV3.Facade.UpdateAmenity: its changes are written into the stored row, but `update_amenity` never calls `repository.update`, so the program never commits them and they are lost when the request's session ends.
- FacadeV3.Facade.UpdatePlace: on a refused entry the accepted prefix stays in the stored row, but the raise comes before `repository.update`, the only commit on this path, so the database never receives that prefix.
- FacadeV3.Facade.UpdateReview: on a refused entry the accepted prefix stays in the stored row, but the raise comes before `repository.update`, so the database never receives that prefix.
- PlacesApi.Put: the 400 reply keeps the accepted prefix in the stored row, as `FacadeV3.Facade.UpdatePlace` does; the program never commits it.
- ReviewsApi.Put: the 400 reply keeps the accepted prefix in the stored row, as `FacadeV3.Facade.UpdateReview` does; the program never commits it.
- PlaceV2.PriceCheck, PlaceV2.LatitudeCheck, PlaceV2.LongitudeCheck: floats are `real`, which has no NaN. In the program `float('nan')` passes every one of these comparisons and is stored.
- PlaceV2.Place.SetPrice, PlaceV2.Place.SetLatitude, PlaceV2.Place.SetLongitude: NaN is not modelled; the program stores it, so "the field stays valid" holds only for non-NaN values.
- PlaceV4.Place.SetPrice, PlaceV4.Place.SetLatitude, PlaceV4.Place.SetLongitude: NaN is not modelled; the program stores it.
- PlaceV2.BuildFieldsValid, PlaceV4.BuildFieldsValid: the validity these state is over `real`, without NaN.
- ReviewV2.RatingCheck, ReviewV2.Review.SetRating: NaN is not modelled; in the program a NaN rating passes `rating < 1 or rating > 5` and is stored.
- ReviewV3.Review.SetRating: NaN is not modelled; in the program a NaN rating passes the range check and is stored.

## Findings

| source | as written | input that shows it | evidently intended | confidence | as-written member | corrected member |
|---|---|---|---|---|---|---|
| part3/app/models/BaseModel.py:27-36 | the keyword path copies the keywords and sets only a missing `id`; it never sets `created_at`/`updated_at` | `User(email='a@b.co', password='x', first_name='A', last_name='B')` (any keyword construction without timestamps): `to_dict()` then raises AttributeError on `created_at` | a keyword construction without timestamps stamps the object with the current time, as the no-keyword path does | not executed | BaseModelV3.KwargsLeaveNoStamps | BaseModelV3.StampedRenders |
| part4/app/api/v1/reviews.py:73-79 | the self-review and duplicate checks use the caller's identity, but `create_review(data)` files the review under the payload's `user_id` | a caller who has not reviewed place P posts `user_id` = U, where U already reviewed P: the checks pass and a second review by U of P is stored | the review is filed under the caller, so each (user, place) has at most one review | not executed | ReviewsApi.PostFilesSecondReview | ReviewsApi.PostAsCaller |
| part2/app/services/facade.py:96-99 | `authenticate_user` calls `user.check_password`, which the part2 `User` record does not define | any registered address: `get_by_attribute` finds the user, then AttributeError is raised, so no user can authenticate | the user is returned when the password check passes | not executed | FacadeV2.AuthenticateAsWritten | FacadeV2.Facade.Authenticate |
