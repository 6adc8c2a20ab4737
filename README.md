# AirBnB clone v3: REST API over the file storage engine

This project models the `/api/v1` REST handlers of the AirBnB clone and the
file storage engine beneath them.

The store is the class `FileStorage.Storage`. It holds three fields:

- `objects`: the in-memory table keyed by `Key(kind, id)`, the composite
  `"<Class>.<id>"` key;
- `file`: the last snapshot written by `save()`;
- `links`: the Place–Amenity relation behind `place.amenities`.

Every handler is a module-level method that takes the store as its first
parameter, `s: Storage`. It takes the request body as an
optional decoded JSON value (`None` when it is absent or does not parse). It
takes the new object's id and the current time as parameters. It returns a
`Response`: 200, 201, 400 with its message, 404, or 500 for an exception the
handler does not catch.

Each handler's outcome is stated by a predicate over the table before and
after (`Removed`, `Created`, `Replaced`, `Linked`, `Unlinked`). What the file
holds afterwards is stated separately by `Persisted`: the file is the snapshot
of the new table when the handler saved, and unchanged otherwise.

The shared request steps are each modelled once:

- `Views.ReadBody`: Python's truth test on the body.
- `Creating.Screen`: the ordered tests of a create handler (parent lookup,
  "Not a JSON", "Missing <field>", referenced object lookup).
- `Objects.Instantiate`: construction from keyword arguments, including the
  User password hook.
- `Updating.Merge`: the pop-then-overlay merge of an update.

Each route module then instantiates these steps with its own constants and
proves the properties its routes promise. These include:

- the order of the error responses;
- which fields a created object carries;
- which fields an update can never change;
- that passwords are stored only as digests;
- the per-class counts;
- that linking is idempotent.

The code's own oddities are modelled as written:

- `GET /places/<id>` looks the id up among Cities.
- `POST /cities/<city_id>/places` demands a Place whose id is the City id.
- Unlinking an Amenity from a Place deletes the Amenity object itself
  (places_amenities.py:82); nothing in the handler touches the relation. The
  model keeps links as a persistent relation (see "## Left out"), so in the
  model the link pair stays behind after an unlink.
- `users.py`, `places_reviews.py` and `places_amenities.py` are modelled,
  although the views package never imports them, so their routes are not
  registered.

## Model

| member | source | states |
|---|---|---|
| Values.Truthy | api/v1/views/states.py:88 | Python's truth test behind `if not params`: null, false, 0, "", [] and {} are falsy |
| Values.GetOr | api/v1/views/states.py:90 | `params.get(name, None)`: the stored value when present, null otherwise |
| Kinds.KindNamed | tests/test_models/test_engine/test_file_storage.py:22-23 | a class name resolves only to the kind that has that name |
| Kinds.KindNamedName | tests/test_models/test_engine/test_file_storage.py:22-23 | every kind's name resolves back to that kind |
| Kinds.AllKindsComplete | tests/test_models/test_engine/test_file_storage.py:22-23 | the seven classes of the test table are all the kinds |
| Kinds.KeyString | tests/test_models/test_engine/test_file_storage.py:91 | the composite key `"<Class>.<id>"` an object is tracked under |
| Kinds.FirstDot | tests/test_models/test_engine/test_file_storage.py:91 | finds the first '.' of a composite key, or reports there is none |
| Kinds.FirstDotAfter | tests/test_models/test_engine/test_file_storage.py:91 | in `name + "." + id` with a dot-free class name, the first dot follows the name |
| Kinds.ParseKeyString | tests/test_models/test_engine/test_file_storage.py:91 | splitting `"<Class>.<id>"` at its first dot recovers the class and the id |
| Kinds.KeyStringInjective | tests/test_models/test_engine/test_file_storage.py:91 | two different (class, id) pairs never share a composite key |
| UserModel.Assigned | models/user.py:32-45 | assigning `password` stores the digest of a string and raises for a non-string; every other attribute is stored unchanged |
| UserModel.Lookup | models/user.py:22-26 | in file mode an unset email, password, first_name or last_name reads as the class default "" |
| UserModel.UserObject.constructor | models/user.py:22-30 | a fresh User holds id and timestamps, and its four file-mode fields read as "" |
| UserModel.UserObject.SetAttr | models/user.py:32-45 | setattr succeeds exactly when the value is not a non-string password, stores the digest for a password, and changes nothing when it raises |
| UserModel.RehashOfDigest | models/user.py:43-45 | assigning a stored digest again hashes the digest |
| UserModel.SamePlaintextSameDigest | models/user.py:43-45 | two users, or one user twice, given the same plaintext store the same digest (the hook is deterministic) |
| Objects.ToDict | api/v1/views/states.py:54 | `obj.to_dict()`: the object's attributes plus its `__class__` name |
| Objects.Hooked | models/user.py:43-45 | the constructor's attribute assignments: a User's password goes through the hook, and the construction fails when the hook raises |
| Objects.Instantiate | api/v1/views/states.py:93-94 | `Kind(**params)` then `save()` fails exactly for a User whose password is not a string, and otherwise yields an object well formed for its key |
| Objects.InstantiateFields | api/v1/views/states.py:93-94 | the object's attributes are the mapping's entries minus `__class__` plus id and both timestamps; plain fields are kept, a User password is hashed, id is the given string or fresh, created_at is the given stamp or now, updated_at is now |
| Objects.Touched | api/v1/views/places_amenities.py:83 | `place_obj.save()` sets updated_at to now, changes nothing else and keeps the object well formed |
| FileStorage.OfKind | api/v1/views/states.py:31 | `all(cls)`: the tracked entries whose class is cls |
| FileStorage.Snapshot | tests/test_models/test_engine/test_file_storage.py:98-115 | what `save()` writes: every tracked object's dict form under its composite key |
| FileStorage.SnapshotExact | tests/test_models/test_engine/test_file_storage.py:98-115 | the saved file holds each tracked object's dict form under its composite key, and every file key parses back to a tracked object's key |
| FileStorage.SnapshotSize | tests/test_models/test_engine/test_file_storage.py:98-115 | the saved file has exactly one entry per tracked object |
| FileStorage.KeyStringsSize | tests/test_models/test_engine/test_file_storage.py:91 | a set of keys has exactly as many composite keys as members |
| FileStorage.AllKeyStringsInjective | tests/test_models/test_engine/test_file_storage.py:91 | composite keys are injective over all keys |
| FileStorage.CountSplit | tests/test_models/test_engine/test_file_storage.py:251-266 | over distinct classes, the objects of those classes number the sum of their per-class counts |
| FileStorage.CountSumOfAllKinds | tests/test_models/test_engine/test_file_storage.py:251-266 | the sum of count(cls) over all classes, written out per class |
| FileStorage.CountIsSumOfKinds | tests/test_models/test_engine/test_file_storage.py:251-266 | count() equals the sum of count(cls) over the seven classes |
| FileStorage.OneOfEachKind | tests/test_models/test_engine/test_file_storage.py:251-376 | with one object of each of the six model classes, count() is 6 and every count(cls) is 1, which differs from count() |
| FileStorage.Storage.constructor | tests/test_models/test_engine/test_file_storage.py:74-79 | the engine at process start: it tracks nothing and has written nothing (the table is shared by every instance; see "## Left out") |
| FileStorage.Storage.All | tests/test_models/test_engine/test_file_storage.py:74-79 | all() is the tracked table itself |
| FileStorage.Storage.AllOf | api/v1/views/states.py:31 | all(cls) is exactly the entries of that class |
| FileStorage.Storage.New | tests/test_models/test_engine/test_file_storage.py:82-95 | new(obj) tracks obj under its composite key, leaves every other entry alone, and keeps the table well formed |
| FileStorage.Storage.Save | tests/test_models/test_engine/test_file_storage.py:98-115 | save() writes the snapshot of the current table |
| FileStorage.Storage.Get | tests/test_models/test_engine/test_file_storage.py:143-218 | get(cls, id) is the tracked object under that key, or None on a miss |
| FileStorage.Storage.Delete | api/v1/views/states.py:72-74 | delete(obj) removes exactly that key |
| FileStorage.Storage.Count | tests/test_models/test_engine/test_file_storage.py:251-266 | count() is the number of tracked objects |
| FileStorage.Storage.CountOf | tests/test_models/test_engine/test_file_storage.py:269-376 | count(cls) is the number of tracked objects of that class |
| FileStorage.NewAddsOne | tests/test_models/test_engine/test_file_storage.py:82-95 | tracking a new key adds exactly one entry and keeps the others |
| FileStorage.PutCounts | tests/test_models/test_engine/test_file_storage.py:269-376 | tracking an object makes its class one larger under a new key and leaves it the same size under a taken key; every other class is unchanged |
| FileStorage.DropCounts | api/v1/views/states.py:72-74 | deleting a tracked object makes its class one smaller and leaves every other class unchanged |
| FileStorage.SaveThenGet | tests/test_models/test_engine/test_file_storage.py:173-218 | an object saved is returned by get with the same dict form, and an id never saved is a miss |
| Views.ReadBody | api/v1/views/states.py:87-89 | an absent body or any falsy JSON value is "Not a JSON"; exactly the non-empty objects reach the field tests; any other truthy value raises on `.get`/`.pop` |
| Views.Children | api/v1/views/cities.py:41 | the `state.cities`, `city.places` and `place.reviews` getters: the objects of the child class whose foreign key names the parent |
| Views.AmenitiesOf | api/v1/views/places_amenities.py:46 | the `place.amenities` getter: the stored Amenities linked to the Place |
| Views.Persisted | api/v1/views/states.py:74-126 | the file after a handler: the snapshot of the new table when it called `storage.save()` or `obj.save()` (states.py:74, :94, :126; places_amenities.py:83), the old file otherwise |
| Views.Removed | api/v1/views/states.py:69-75 | the outcome of a delete handler: 404 with nothing changed, or the entry removed and 200 `{}` |
| Views.DictForms | api/v1/views/states.py:31-36 | the list holds one dict form per entry, and every entry's dict form appears in it |
| Views.ChildOf | api/v1/views/cities.py:41 | an object whose foreign key names the parent is among the parent's children |
| Views.ListChildren | api/v1/views/cities.py:37-46 | 404 when the parent is missing, otherwise 200 listing the parent's children |
| Views.ListKind | api/v1/views/states.py:31-36 | 200 listing every object of the class, one item each |
| Views.Retrieve | api/v1/views/states.py:51-54 | 200 with the dict form when the object is tracked, 404 otherwise |
| Views.Remove | api/v1/views/states.py:69-75 | 404 and nothing changes, or exactly that entry is removed, the file is rewritten, and the answer is 200 `{}` |
| Views.RemovedCounts | api/v1/views/states.py:69-75 | a successful delete leaves its class one smaller, every other class and every other entry unchanged |
| Creating.Insert | api/v1/views/states.py:93-95 | a raising constructor answers 500 and changes nothing; otherwise the new object is tracked under its key, saved, and returned with 201 |
| Creating.Inserted | api/v1/views/states.py:93-95 | the outcome of `Kind(**params); save()` answered with 201: a raising constructor is a 500 with the table unchanged, otherwise the new object is stored under its class and id and the response is its dict form |
| Creating.InsertedStored | api/v1/views/states.py:93-95 | a 201 stores a well-formed object whose dict form is the response, keeps the client's plain fields, and keeps every other entry |
| Creating.InsertedCounts | api/v1/views/states.py:93-95 | a 201 under a fresh id adds one object to its class; under a taken id it replaces it; other classes are unchanged |
| Creating.Passes | api/v1/views/places.py:110-118 | one field test: `if not params.get(f)` for a presence test, `storage.get(cls, params.get(f))` for a reference test |
| Creating.Failure | api/v1/views/places.py:110-118 | the response of a failed test: 400 "Missing <field>" for a presence test, 404 for a reference test |
| Creating.Created | api/v1/views/cities.py:100-113 | the outcome of a create handler: a rejection changes nothing; an accepted body is built with the forced fields on top and stored |
| Creating.FirstFailure | api/v1/views/places.py:110-118 | no failure exactly when every test passes; a failure is a 400 or a 404 |
| Creating.FirstFailureIsFirst | api/v1/views/places.py:110-118 | the reported failure is that of a failing test every earlier test of which passed |
| Creating.FirstFailureAt | api/v1/views/places.py:110-118 | when test i fails and all before it pass, the response is test i's |
| Creating.Screen | api/v1/views/cities.py:100-108 | a create request is accepted exactly when the parent exists, the body is a non-empty object, and every field test passes; a rejection is a 400, 404 or 500 |
| Creating.ScreenFailsAt | api/v1/views/places.py:102-118 | with the parent present and an object body, the first failing field test decides the response |
| Creating.Create | api/v1/views/cities.py:100-113 | handler steps in source order, meeting `Created` and saving only on 201 |
| Creating.CreatedRejected | api/v1/views/cities.py:100-113 | every answer other than 201 leaves the table unchanged, and a 201 means the request was accepted |
| Creating.CreatedStored | api/v1/views/cities.py:100-113 | a 201: the parent exists; every test passed before and still passes after; forced fields are stored as forced and the other plain fields as sent; every other entry is kept |
| Creating.CreatedHookRaises | api/v1/views/users.py:95-96 | an accepted User body whose password is not a string is a 500 that changes nothing |
| Creating.CreatedHashed | api/v1/views/users.py:95-97 | a created User stores the digest of the password it was sent |
| Creating.CreatedRequired | api/v1/views/states.py:90-94 | a field that a presence test required was truthy and is stored as sent |
| Creating.CreatedChild | api/v1/views/cities.py:110-113 | a forced foreign key is stored as forced, so the new object is among that parent's children |
| Updating.Merge | api/v1/views/states.py:117-122 | protected keys are dropped from the body and the rest overlay the stored dict form, key by key |
| Updating.Replaced | api/v1/views/states.py:110-128 | the outcome of an update handler: 404, then "Not a JSON", then 500 for a non-object body or a raising hook, else the rebuilt object under the same key and 200 |
| Updating.Rebuilt | api/v1/views/states.py:117-123 | `Kind(**updated_obj)`: the object rebuilt from the stored dict form overlaid with the body minus its protected keys, under the stored id; None when the password hook raises |
| Updating.RebuiltKeepsId | api/v1/views/states.py:117-123 | the rebuilt object keeps the stored id whatever the body says, and is well formed for the same key |
| Updating.Swap | api/v1/views/states.py:125-126 | `obj.delete(); new_obj.save()` puts the new object under the old key and rewrites the file |
| Updating.Replace | api/v1/views/states.py:110-128 | handler steps in source order, meeting `Replaced` and saving only on 200 |
| Updating.ReplacedTable | api/v1/views/states.py:110-128 | a 200 keeps the table's keys, every class's count, and every other entry |
| Updating.RebuiltFields | api/v1/views/states.py:117-123 | a rebuilt object keeps id and created_at, stamps updated_at; protected fields keep their values, sent fields take the body's, untouched fields are kept |
| Updating.ReplacedRecord | api/v1/views/states.py:110-128 | a 200 stores the rebuilt object under the same key and answers with its dict form |
| Updating.ReplacedKeeps | api/v1/views/cities.py:135-138 | a protected field keeps its presence and its value across an update |
| StatesView.ListStates | api/v1/views/states.py:31-36 | 200 listing every State |
| StatesView.RetrieveState | api/v1/views/states.py:51-54 | 200 with the State's dict form, or 404 |
| StatesView.DeleteState | api/v1/views/states.py:69-75 | 404 and nothing changes, or the State is removed, the file rewritten, 200 `{}` |
| StatesView.CreateState | api/v1/views/states.py:87-95 | "Not a JSON", then "Missing name", then 201 with the new State, saved only on 201 |
| StatesView.UpdateState | api/v1/views/states.py:110-128 | 404, "Not a JSON", or the State rebuilt from the merged dict and saved, 200 |
| StatesView.CreateStateOrder | api/v1/views/states.py:87-91 | a non-JSON body is "Not a JSON"; with an object body a falsy name is "Missing name"; accepted exactly when the body has a truthy name |
| StatesView.CreateStateNamed | api/v1/views/states.py:90-95 | a created State carries the truthy name sent, and the response is its dict form |
| StatesView.UpdateStateKeepsIdentity | api/v1/views/states.py:117-128 | an update keeps id and created_at, sets updated_at to now, and keeps the number of States |
| CitiesView.ListCities | api/v1/views/cities.py:37-46 | 404 for a missing State, otherwise 200 listing the Cities whose state_id is that State's |
| CitiesView.RetrieveCity | api/v1/views/cities.py:61-64 | 200 with the City's dict form, or 404 |
| CitiesView.DeleteCity | api/v1/views/cities.py:79-84 | 404 and nothing changes, or the City is removed, the file rewritten, 200 `{}` |
| CitiesView.CreateCity | api/v1/views/cities.py:100-113 | the State, then the body, then the name; 201 with state_id forced to the path's |
| CitiesView.UpdateCity | api/v1/views/cities.py:128-147 | 404, "Not a JSON", or the City rebuilt with id, state_id and timestamps protected, 200 |
| CitiesView.CreateCityOrder | api/v1/views/cities.py:100-108 | a missing State is 404 before the body is read; then "Not a JSON"; then "Missing name"; accepted exactly when all three tests pass |
| CitiesView.CreateCityParent | api/v1/views/cities.py:110-113 | a created City's state_id is the path's whatever the body said, so it is listed among that State's Cities; its name is the one sent |
| CitiesView.UpdateCityKeepsParent | api/v1/views/cities.py:135-147 | an update never changes a City's id or state_id, and keeps the number of Cities |
| AmenitiesView.ListAmenities | api/v1/views/amenities.py:31-36 | 200 listing every Amenity |
| AmenitiesView.RetrieveAmenity | api/v1/views/amenities.py:51-54 | 200 with the Amenity's dict form, or 404 |
| AmenitiesView.DeleteAmenity | api/v1/views/amenities.py:69-75 | 404 and nothing changes, or the Amenity is removed, the file rewritten, 200 `{}` |
| AmenitiesView.CreateAmenity | api/v1/views/amenities.py:87-95 | "Not a JSON", then "Missing name", then 201 with the new Amenity |
| AmenitiesView.UpdateAmenity | api/v1/views/amenities.py:110-128 | 404, "Not a JSON", or the Amenity rebuilt from the merged dict, 200 |
| AmenitiesView.CreateAmenityOrder | api/v1/views/amenities.py:87-91 | a non-JSON body is "Not a JSON"; a falsy name is "Missing name"; accepted exactly when the name is truthy |
| AmenitiesView.CreateAmenityNamed | api/v1/views/amenities.py:90-95 | a created Amenity carries the truthy name sent, and the response is its dict form |
| AmenitiesView.UpdateAmenityKeepsIdentity | api/v1/views/amenities.py:117-128 | an update keeps id and created_at, sets updated_at to now, and keeps the number of Amenities |
| UsersView.ListUsers | api/v1/views/users.py:31-36 | 200 listing every User |
| UsersView.RetrieveUser | api/v1/views/users.py:51-54 | 200 with the User's dict form, or 404 |
| UsersView.DeleteUser | api/v1/views/users.py:69-75 | 404 and nothing changes, or the User is removed, the file rewritten, 200 `{}` |
| UsersView.CreateUser | api/v1/views/users.py:87-97 | "Not a JSON", "Missing email", "Missing password", a 500 from the hook, or 201 |
| UsersView.UpdateUser | api/v1/views/users.py:112-131 | 404, "Not a JSON", a 500 from the hook, or the User rebuilt with email protected, 200 |
| UsersView.CreateUserOrder | api/v1/views/users.py:87-93 | "Not a JSON", then "Missing email", then "Missing password"; accepted exactly when email and password are both truthy |
| UsersView.CreateUserHookRaises | api/v1/views/users.py:95-96 | an accepted body whose password is not a string makes the hook raise: 500, and nothing changes |
| UsersView.CreateUserHashed | api/v1/views/users.py:90-97 | a created User holds the email sent and the digest of the password, never the password itself |
| UsersView.RebuiltPassword | api/v1/views/users.py:124-126 | in an update, a sent string password is stored as its digest and a non-string one raises; without one, the stored digest is hashed again |
| UsersView.UpdateUserKeepsEmail | api/v1/views/users.py:119-131 | an update never changes a User's email |
| UsersView.UpdateUserPassword | api/v1/views/users.py:119-131 | an update's password outcome: a 500 that changes nothing for a non-string, the digest of a sent string, or the stored digest hashed again |
| PlacesView.ListPlaces | api/v1/views/places.py:37-46 | 404 for a missing City, otherwise 200 listing the Places whose city_id is that City's |
| PlacesView.RetrievePlace | api/v1/views/places.py:61-64 | looks the id up among Cities: 200 with that City's dict form, or 404 |
| PlacesView.DeletePlace | api/v1/views/places.py:79-84 | 404 and nothing changes, or the Place is removed, the file rewritten, 200 `{}` |
| PlacesView.CreatePlace | api/v1/views/places.py:102-123 | a Place with the path's id, the body, user_id, the User, the name; 201 with city_id forced |
| PlacesView.UpdatePlace | api/v1/views/places.py:138-157 | 404, "Not a JSON", or the Place rebuilt with id, city_id, user_id and timestamps protected, 200 |
| PlacesView.CreatePlaceOrder | api/v1/views/places.py:102-118 | 404 unless a Place has the path's id; then "Not a JSON", "Missing user_id", 404 for an unknown User, "Missing name"; accepted exactly when all pass |
| PlacesView.CreatePlaceParent | api/v1/views/places.py:102-123 | a 201 needs a Place with the path's id; the new Place's city_id is the path's, so it is listed among those children |
| PlacesView.CreatePlaceAuthor | api/v1/views/places.py:110-123 | a created Place names a User that is still stored, and stores the user_id and truthy name sent |
| PlacesView.UpdatePlaceKeepsOwner | api/v1/views/places.py:145-157 | an update never changes a Place's id, city_id or user_id, and keeps the number of Places |
| PlacesReviewsView.ListReviews | api/v1/views/places_reviews.py:38-47 | 404 for a missing Place, otherwise 200 listing the Reviews whose place_id is that Place's |
| PlacesReviewsView.RetrieveReview | api/v1/views/places_reviews.py:62-65 | 200 with the Review's dict form, or 404 |
| PlacesReviewsView.DeleteReview | api/v1/views/places_reviews.py:80-85 | 404 and nothing changes, or the Review is removed, the file rewritten, 200 `{}` |
| PlacesReviewsView.CreateReview | api/v1/views/places_reviews.py:103-124 | the Place, the body, user_id, the User, the text; 201 with place_id forced |
| PlacesReviewsView.UpdateReview | api/v1/views/places_reviews.py:139-159 | 404, "Not a JSON", or the Review rebuilt with id, user_id, place_id and timestamps protected, 200 |
| PlacesReviewsView.CreateReviewOrder | api/v1/views/places_reviews.py:103-119 | 404 for a missing Place; then "Not a JSON", "Missing user_id", 404 for an unknown User, "Missing text"; accepted exactly when all pass |
| PlacesReviewsView.CreateReviewParent | api/v1/views/places_reviews.py:103-124 | a created Review's place_id is the path's, so it is listed among that Place's Reviews |
| PlacesReviewsView.CreateReviewAuthor | api/v1/views/places_reviews.py:111-124 | a created Review names a User that is still stored, and stores the user_id and truthy text sent |
| PlacesReviewsView.UpdateReviewKeepsOwner | api/v1/views/places_reviews.py:146-159 | an update never changes a Review's id, place_id or user_id, and keeps the number of Reviews |
| PlacesAmenitiesView.ListAmenitiesInPlace | api/v1/views/places_amenities.py:42-51 | 404 for a missing Place, otherwise 200 listing the stored Amenities linked to it |
| PlacesAmenitiesView.Linked | api/v1/views/places_amenities.py:104-117 | the outcome of the link handler: 404s for a missing Place or Amenity, 200 unchanged when already linked, else the link added, the Place touched, 201 |
| PlacesAmenitiesView.Unlinked | api/v1/views/places_amenities.py:71-84 | the outcome of the unlink handler: 404s, else the Amenity untracked, the Place touched, 200 `{}` |
| PlacesAmenitiesView.LinkAmenityToPlace | api/v1/views/places_amenities.py:104-117 | 404 for a missing Place, then for a missing Amenity; 200 without change when already linked; otherwise the link is added, the Place touched and saved, 201 |
| PlacesAmenitiesView.DeleteAndTouch | api/v1/views/places_amenities.py:82-83 | deletes one object, stores the touched Place under its key and rewrites the file |
| PlacesAmenitiesView.DeleteAmenityOfPlace | api/v1/views/places_amenities.py:71-84 | 404 for a missing Place, a missing Amenity or an Amenity not linked; otherwise the Amenity object is deleted, the Place touched and saved, 200 `{}`; links unchanged |
| PlacesAmenitiesView.LinkIdempotent | api/v1/views/places_amenities.py:112-117 | linking an already linked Amenity again answers 200 with the same dict form and changes nothing |
| PlacesAmenitiesView.LinkedListed | api/v1/views/places_amenities.py:112-116 | a successful link adds exactly that Amenity to the Place's amenities, leaves other Places' amenities alone, and creates no object |
| PlacesAmenitiesView.UnlinkDeletesAmenity | api/v1/views/places_amenities.py:79-82 | an unlink deletes the Amenity everywhere: gone from the store and from every Place, its class one smaller; the link pair stays in the modelled relation |
| PlacesAmenitiesView.UnlinkTouchesPlace | api/v1/views/places_amenities.py:79-83 | an unlink saves the Place with updated_at now, and its amenities lose exactly the unlinked one |
| PlacesAmenitiesView.RelinkAfterUnlink | api/v1/views/places_amenities.py:82-110 | after the unlink's `amenity_obj.delete()` (line 82), the link handler's Amenity lookup (lines 108-110) answers 404 for the same Amenity |

## Left out

- base_model.py, the other model classes and models/engine/file_storage.py are not part of this model. The model assumes the following of them:
  - construction from keyword arguments as `Objects.Instantiate` states (`__class__` dropped, a string id kept, a non-empty created_at kept, updated_at set by `save()`);
  - `to_dict()` as the attributes plus `__class__`, password included. A consequence of this assumption, not of any code shown: an update of a User whose body has no password rebuilds the User from a dict holding the stored digest, so the digest goes through the hook again (`UsersView.RebuiltPassword`, `UsersView.UpdateUserPassword`);
  - `get`, `new`, `save` and `count` as their tests pin them down, and `delete` as the view code uses it (`obj.delete()` then `storage.save()`, states.py:72-74): it untracks exactly that object.
- Timestamps are opaque non-empty strings. Parsing and formatting them is not modelled. A created_at sent by a client is kept when it is a non-empty string.
- Id generation (uuid4) and the clock are parameters of the handlers (`freshId`, `now`).
- Objects.IdFor: a client id that is not a string is treated as absent, so the object gets the fresh id.
- Creating.Passes: a truthy user_id that is not a string is taken as naming no User (404). The engine's `get` with a non-string id is not part of this model.
- JSON files: reading and writing file.json, `reload()` and `close()` are out. `FileStorage.Storage.Save` records the snapshot of the table as the file's content.
- The database engine, SQLAlchemy columns and relationships, and test_db_storage.py are left out.
- The MD5 algorithm is left out. `UserModel.Hash` is an arbitrary fixed function, so only determinism is used.
- Flask plumbing is left out (the app, the blueprint, the `close_db` teardown, threading). So is the status route in index.py.
- The order of listed items is left out. `Views.Lists` states the list's length and contents, not its order.
- Relationship getters (`state.cities`, `city.places`, `place.reviews`) are modelled by foreign-key equality over the table. `place.amenities` is modelled by the `links` relation, filtered to the stored Amenities.
- PlacesAmenitiesView.ListAmenitiesInPlace: in file mode the source puts the objects themselves, not their dict forms, into the response. That would not serialise, and the model lists dict forms.
- PlacesAmenitiesView.LinkAmenityToPlace: the append to `place_obj.amenities` is modelled as a persistent link, as the relation does in database mode.
- The places.py handlers carry City names in the source (`list_cities`, `retrieve_city`, and so on). They are modelled under Place names; their behaviour is as written.
- The pep8 and docstring tests are left out.
- FileStorage.Storage.constructor: `__objects` is a class attribute shared by every FileStorage instance, and the tests rebind it on the class. The model's `Storage` stands for that one shared table. Its constructor describes the engine at process start, with nothing tracked yet; the aliasing between several FileStorage instances is not modelled.
- Values.Val: the JSON value domain is narrower than Python's decoder. Numbers are one `real`, so the decoder's int/float distinction (`1` against `1.0`) is lost, and NaN and Infinity, which `json.loads` accepts, are not representable.
- UserModel.Assigned: strings are Dafny strings, which cannot hold a lone surrogate. Python's decoder accepts one (`"\ud800"`), and `bytes(value, 'utf-8')` at models/user.py:44 then raises, giving a 500. So the model holds every string password hashable, and `Creating.CreatedHookRaises` covers only non-string passwords.
