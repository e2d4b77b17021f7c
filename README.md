# HBnB core: entities, user repository, user service and login

This project models the core of a small vacation-rental CRUD backend in Dafny:

- the entity records of `part2`, which are `BaseModel`, `User`, `Place`, `Review` and `Amenity`;
- their `to_dict` serialisations;
- the in-memory `UserRepository` and the `UserService` in front of it;
- the persisted `User` of `part3`;
- the `login` decision of `part3`.

Every entity embeds the `BaseModel.Base` record: an id and two timestamps. This record replaces the `BaseModel` parent class.

- `Users.User` and `Places.Place` are classes, because the source updates their fields and lists in place.
- `Amenities.Amenity` is a class with constant fields. `add_amenity`'s `not in` test compares objects, not ids, so amenities need object identity.
- `Reviews.Review` is an immutable record.
- `UserRepositories.UserRepository` holds the `users` table as a `map` and keeps the dictionary's insertion order in `order`.
- `Auth.Login` is a pure function of three inputs: the request body, the e-mail lookup and the password verifier.

Sources of nondeterminism and foreign code become parameters:

- `freshId` is the `uuid4()` string. It is non-empty.
- `now` is a reading of `datetime.utcnow()` from a monotone integer clock.
- `iso` renders a timestamp, in place of `datetime.isoformat`.
- `hash` and `verify` stand for bcrypt.
- `lookup` stands for `User.query.filter_by(email=...).first()`.

Three behaviours of the code are kept as written:

- `create` silently overwrites an entry with the same id. It does not reject it.
- `create_user` stores the password as given, not hashed (the comment at part2/user.py:12 leaves hashing to later), and checks no e-mail uniqueness.
- A review rating is accepted without a 1..5 check (the comment at part2/review.py:15 leaves validation optional).

## Model

| member | source | states |
|---|---|---|
| `Common.DictGet` | part2/user_service.py:17-18 | `data.get(key, default)`: the stored value when the key is present, the default otherwise |
| `BaseModel.Init` | part2/base_model.py:10-13 | the id is always non-empty. A truthy supplied id is kept, and None or "" is replaced by the fresh id. Each timestamp is the supplied one if given, else the clock reading |
| `BaseModel.Touch` | part2/base_model.py:15-17 | save sets `updated_at` to the clock reading and keeps `id` and `created_at` |
| `BaseModel.BaseDict` | part2/base_model.py:19-25 | the map has exactly the keys `id`, `created_at`, `updated_at`. The timestamps are rendered through isoformat |
| `BaseModel.InitKeepsGivenFields` | part2/base_model.py:10-13 | constructing from an entity's own fields gives that entity back, whatever the id and clock oracles return |
| `BaseModel.TouchChangesOnlyUpdatedAt` | part2/base_model.py:15-25 | after save, the serialised record differs only in its `updated_at` entry |
| `BaseModel.TouchLastWins` | part2/base_model.py:15-17 | two saves leave the record as the second save alone would |
| `Reviews.NewReview` | part2/review.py:10-15 | user id, place id and text are stored unchanged. The rating defaults to 0, and any rating is stored without a range check |
| `Reviews.ReviewDict` | part2/review.py:17-25 | exactly the base keys plus `user_id`, `place_id`, `text`, `rating`, each with its field's value |
| `Reviews.ReviewIds` | part2/user.py:26 | the review ids, one per review, in the same order |
| `Reviews.ReviewIdsAppend` | part2/user.py:17-26 | appending a review appends its id to the serialised `reviews` list |
| `Reviews.DefaultRatingIsZero` | part2/review.py:10 | a review built without a rating has rating 0, and its serialisation shows 0 |
| `Amenities.Amenity.constructor` | part2/amenity.py:7-9 | the base fields are defaulted as in `BaseModel.__init__`, and `name` is stored unchanged |
| `Amenities.Amenity.ToDict` | part2/amenity.py:11-16 | the base entries unchanged plus `name` equal to the field. Exactly four keys |
| `Amenities.AmenityIds` | part2/place.py:35 | the amenity ids, one per amenity, in insertion order |
| `Users.User.constructor` | part2/user.py:9-15 | email, password and names are stored as given. The names default to "", and `reviews` starts empty |
| `Users.User.Save` | part2/base_model.py:15-17 | in-place save: only `updated_at` changes, to the clock reading |
| `Users.User.AddReview` | part2/user.py:17-18 | the review is appended at the end and earlier entries are kept. Duplicates are allowed |
| `Users.User.ToDict` | part2/user.py:20-28 | the base keys plus `email`, `first_name`, `last_name`, `reviews`. No password key ever appears. `reviews` is the id list in order |
| `Places.WithAmenity` | part2/place.py:23-25 | the list is unchanged when that very object is already present, and otherwise the object is appended at the end. Either way the result contains it, keeps the old list as a prefix and grows by at most one |
| `Places.WithAmenityIdempotent` | part2/place.py:23-25 | adding the same amenity twice equals adding it once |
| `Places.WithAmenityKeepsDistinct` | part2/place.py:23-25 | a duplicate-free amenity list stays duplicate-free |
| `Places.SameIdDistinctObjectsBothAdded` | part2/place.py:24 | membership is by identity: two different objects with equal ids are both appended |
| `Places.Place.constructor` | part2/place.py:11-18 | fields are stored as given. `description` defaults to "" and `price` to 0.0. Both lists start empty, hence duplicate-free |
| `Places.Place.AddReview` | part2/place.py:20-21 | the review is always appended. Amenities are untouched |
| `Places.Place.AddAmenity` | part2/place.py:23-25 | appends only if that very object is absent. The list is unchanged if it is present, and stays duplicate-free |
| `Places.Place.ToDict` | part2/place.py:27-37 | the base keys plus `owner_id`, `name`, `description`, `price` (echoed unchanged), `reviews` and `amenities`. The last two are id lists in insertion order |
| `UserRepositories.Patch` | part2/user_repository.py:17-26 | each of the four whitelisted fields is set to the patch value exactly when its key is present. Id, `created_at` and reviews are kept, and `updated_at` is the clock reading |
| `UserRepositories.PatchIgnoresOtherKeys` | part2/user_repository.py:17-25 | keys outside `email`, `first_name`, `last_name`, `password` have no effect |
| `UserRepositories.EmptyPatchOnlyTouches` | part2/user_repository.py:17-26 | an empty patch still refreshes `updated_at` and changes nothing else |
| `UserRepositories.PatchChangesOnlyPatchedFields` | part2/user_repository.py:18-25 | a whitelisted field whose key is absent from the patch keeps its value |
| `UserRepositories.PatchIdempotent` | part2/user_repository.py:17-26 | applying the same patch twice at the same time equals applying it once |
| `UserRepositories.UserRepository.constructor` | part2/user_repository.py:4-5 | a new repository is empty |
| `UserRepositories.UserRepository.GetById` | part2/user_repository.py:11-12 | returns None exactly when the id is not stored, else the stored user |
| `UserRepositories.UserRepository.Create` | part2/user_repository.py:7-9 | stores the user under its id and overwrites any previous entry. Other entries are unchanged, and afterwards `GetById(id)` returns the user |
| `UserRepositories.UserRepository.ListAll` | part2/user_repository.py:14-15 | one entry per stored id, in insertion order. Every stored user appears, and the length is the number of stored ids |
| `UserRepositories.UserRepository.Update` | part2/user_repository.py:17-27 | the user's new state is `Patch` of its old state. The table is not touched, and the same object is returned |
| `UserServices.FirstMissing` | part2/user_service.py:9-12 | None exactly when every required field is present. Otherwise it is the first absent field in list order |
| `UserServices.UserService.constructor` | part2/user_service.py:5-6 | the service starts over a fresh, empty repository |
| `UserServices.UserService.CreateUser` | part2/user_service.py:8-20 | a missing email is reported before a missing password, and the repository is unchanged on error. On success the stored user has a fresh id, the credentials verbatim and names defaulting to "", and the store grows by one for an unused id, which is appended to the insertion order (a reused id keeps its place) |
| `UserServices.UserService.GetUser` | part2/user_service.py:22-23 | exactly the repository's `get_by_id` result |
| `UserServices.UserService.ListUsers` | part2/user_service.py:25-26 | exactly the repository's `list_all` result, one entry per stored user |
| `UserServices.UserService.UpdateUser` | part2/user_service.py:28-32 | for an unknown id, returns None and modifies nothing. Otherwise returns the stored user after the repository's partial update |
| `UserServices.DuplicateEmailsAccepted` | part2/user_service.py:8-20 | e-mail uniqueness is not checked: two users with the same e-mail are both created and both stored |
| `AuthUsers.User.constructor` | part3/user.py:8-12 | the id is a fresh uuid when none is given, `is_admin` defaults to false, and no hash is set yet |
| `AuthUsers.User.SetPassword` | part3/user.py:15-16 | only `password_hash` changes, and it becomes `hash(password)` |
| `AuthUsers.User.CheckPassword` | part3/user.py:18-19 | accepts exactly when the verifier accepts the stored hash and the given password |
| `AuthUsers.User.ToDict` | part3/user.py:21-29 | exactly `id`, `email`, `first_name`, `last_name`, `is_admin`, never a password or hash key |
| `AuthUsers.CheckPasswordDependsOnlyOnHash` | part3/user.py:18-19 | two users with equal hashes accept the same passwords |
| `AuthUsers.CheckAcceptsSetPassword` | part3/user.py:15-19 | a password just set is accepted when the verifier accepts every hash of its own password |
| `Auth.Login` | part3/auth.py:6-26 | status is 400, 401 or 200. 400 exactly when the body or a key is missing. 200 exactly when a user is found and the password verifies, with token identity = user id and `is_admin` = the user's flag |
| `Auth.BadRequestIgnoresLookup` | part3/auth.py:9-10 | a body without credentials gets the same 400 whatever the lookup and the verifier would say |
| `Auth.UnknownEmailLooksLikeWrongPassword` | part3/auth.py:12-15 | the unknown-email and wrong-password responses are identical |
| `Auth.LoginSucceedsAfterSetPassword` | part3/auth.py:12-26 | a user whose hash came from the presented password gets 200 and a token naming that user with its admin flag |

## Left out

- The HTTP layer is left out. That covers part2/user_endpoints.py and the Flask app factory in part3/__init__.py. The endpoints only route requests, marshal responses and turn None into 404.
- The login request body is modelled as an optional JSON object of strings. A non-object JSON body such as a bare string is not modelled.
- JWT creation and signing are left out. `Login` returns the claims that would be signed.
- bcrypt is left out. `hash` and `verify` are oracle parameters, and the salt's randomness is folded into `hash`.
- SQLAlchemy is left out. This covers the column types and lengths, the database's `unique` e-mail constraint, and the query. The query becomes the `lookup` parameter.
- The two `utcnow()` readings in `BaseModel.__init__` are modelled as one clock reading `now`.
- `save` is modelled only on `User`. It is the only `save` the core calls, and `Place`, `Amenity` and `Review` would inherit it unchanged.
- Python does not type field values. The model takes e-mails, names, text, ids and patch values as strings, and a price or rating as a `Value`.
- `Amenity` and `Review` fields are constants. No code reassigns them.
- `AuthUsers.User.CheckPassword`: it returns false for a user with no hash. bcrypt would raise instead, but a stored row always has a hash because the column is non-nullable.
- `AuthUsers.User.constructor`: it applies the column defaults when the object is built. SQLAlchemy applies them at insert.
