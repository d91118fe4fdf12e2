# User validation and domain layer of the RealWorld Express back end

This project models the user validation and domain layer of
node-express-realworld-example-app, a TypeScript back end for the RealWorld
("Conduit") API. It is modelled in Dafny, and properties of the model are
proved.

The layer takes untrusted JavaScript values: request bodies, MongoDB documents
and decoded JWT payloads. It refines them into typed records, or it reports
exactly what is wrong with them. It also covers the pure domain operations on
a user:
- password hashing and checking;
- the token payload;
- favourite and follow lists;
- the client view;
- user creation.

Files and modules:

- `values.dfy`: the modules `Fp` and `Values`.
  - `Fp` holds the fp-ts `Option` and `Either`.
  - `Values` holds the value a JavaScript `unknown` can hold.
    - `undefined` and `null` are cases of it.
    - Booleans are a case; numbers are a case, as reals.
    - Strings and arrays are cases.
    - A plain object is a case, as a map from key to value.
    - An `ObjectId` instance is a case, as its hex string.
    - Any other class instance is a case.
  - `Values` also holds the third-party validators. These are `isEmail`, `isURL` and `ObjectId.isValid`, passed in as a record of predicates.
- `types.dfy` (`Types`): the refiners of `src/types.ts`.
- `authenticated_handler.dfy` (`AuthenticatedHandler`): three parts of the request guard.
  - Extracting the bearer token.
  - Re-validating the JWT payload.
  - The decision the guard takes for a request.
- `user_model.dfy` (`UserModel`): the `User` entity and its operations, from `src/users/user.model.ts`.
- `parsing.dfy` (`Parsing`): `parseUser` and `parseCreateUserPayload`. It holds:
  - an independent reference definition of which fields fail and with which message;
  - the stored form of a user.
- `users_repository.dfy` (`UsersRepository`): what `findById` makes of the MongoDB query's outcome, and the query's filter.
- `legacy_user.dfy` (`LegacyUser`): the older `src/models/User.ts` module.

Every operation of the layer returns a new value; nothing is updated in place. So the whole model is functions, predicates and lemmas.

Randomness, clocks and cryptography are parameters:
- The fresh salt, the generated ID and the token expiry are inputs.
- The PBKDF2 hash, `jwt.sign` and `jwt.verify` are function-typed parameters.

## Model

| member | source | states |
|---|---|---|
| Types.AsArray | src/types.ts:10-11 | some exactly for an array, and then its elements unchanged |
| Types.ArrayOf | src/types.ts:13-15 | some exactly when the refiner accepts every element; then the same length, each result the refiner's value for its element |
| Types.AsNumber | src/types.ts:17-18 | some exactly for a number, and then that number |
| Types.AsString | src/types.ts:20-21 | some exactly for a string, and then that string |
| Types.AsStringExamples | src/types.spec.ts:6-19 | a string gives itself; null, an object, an array, a number and a class instance give none |
| Types.UnknownObject | src/types.ts:23-26 | some exactly for a plain object (not null, not an array, not a class instance), and then its entries |
| Types.EmailOf | src/types.ts:30-34 | some exactly for a string `isEmail` accepts, returned unchanged |
| Types.UrlOf | src/types.ts:38-42 | some exactly for a string `isURL` accepts, returned unchanged |
| Types.MongoIdOf | src/types.ts:46-57 | a valid ID string gives itself, an `ObjectId` instance gives its string, and nothing else gives an ID |
| AuthenticatedHandler.Split | src/routes/authenticatedHandler.ts:27-38 | `split(" ")` gives at least one piece and no piece contains a space |
| AuthenticatedHandler.JoinSplit | src/routes/authenticatedHandler.ts:27-38 | joining the pieces with single spaces gives the header back, so splitting loses nothing |
| AuthenticatedHandler.SplitAfterWord | src/routes/authenticatedHandler.ts:27-38 | the first cut falls at the first space |
| AuthenticatedHandler.SplitWord | src/routes/authenticatedHandler.ts:27-38 | a piece without spaces is not cut |
| AuthenticatedHandler.SchemeHeaderGivesToken | src/routes/authenticatedHandler.ts:27-38 | `Token <t>` and `Bearer <t>` give the piece after the scheme, all of `t` when it has no space |
| AuthenticatedHandler.OtherHeadersGiveNull | src/routes/authenticatedHandler.ts:27-38 | a missing header, and a header with another first piece, give null |
| AuthenticatedHandler.BareSchemeGivesUndefined | src/routes/authenticatedHandler.ts:27-38 | a scheme with no second piece gives undefined |
| AuthenticatedHandler.GetTokenFromHeader | src/routes/authenticatedHandler.ts:27-38 | a missing or empty header gives null; anything else than null needs a first space-separated piece that is exactly `Token` or `Bearer`; then undefined when there is no second piece, else the second piece, which holds no space |
| AuthenticatedHandler.ParseToJwtPayload | src/routes/authenticatedHandler.ts:43-81 | a string or non-plain object is "not an object"; otherwise the first failure among id, username, exp in that order, each with its own message; success exactly when all three pass, giving the three validated claims |
| AuthenticatedHandler.DecodedClaimsParse | src/routes/authenticatedHandler.ts:43-81 | decoded claims `{id, username, exp, iat}` with a valid id parse back to exactly `{id, username, exp}` |
| AuthenticatedHandler.IsTruthy | src/routes/authenticatedHandler.ts:96 | null, undefined and the empty token are falsy; every non-empty token is truthy |
| AuthenticatedHandler.HandleRequest | src/routes/authenticatedHandler.ts:90-107 | 401 exactly when the token is null, undefined or empty; the wrapped handler runs exactly with a payload that parsed; nothing is sent when the payload fails to parse |
| AuthenticatedHandler.SignedRequestReachesHandler | src/routes/authenticatedHandler.ts:90-107 | a `Token`/`Bearer` request whose token decodes to well-formed claims reaches the handler with exactly those claims |
| UserModel.HashPassword | src/users/user.model.ts:32-36 | the credentials keep the given salt, and the hash is the password hashed with that salt |
| UserModel.IsValidPassword | src/users/user.model.ts:38-39 | a password is accepted exactly when hashing it with the stored salt reproduces the stored credentials |
| UserModel.PasswordCheckAgreesWithHashing | src/users/user.model.ts:38-39 | credentials from `hashPassword(pw)` accept `pw`, and accept another password exactly when it hashes the same; so with an injective hash, only `pw` |
| UserModel.JwtClaims | src/users/user.model.ts:51-73 | the signed payload is exactly the user's `_id`, username and the expiry |
| UserModel.GenerateJwt | src/users/user.model.ts:51-73 | the token is the signature, under the secret, of exactly `{id: _id, username, exp}` |
| UserModel.TokenCarriesOnlyIdAndUsername | src/users/user.model.ts:51-73 | the token depends on no user field other than id and username |
| UserModel.IssuedTokenAuthenticates | src/users/user.model.ts:51-73 | a token issued for a user, once verified, gets through the request guard with that user's id, username and expiry |
| UserModel.RemoveAll | src/users/user.model.ts:80-83 | the filtered list no longer holds the id, and is unchanged when the id was absent |
| UserModel.RemoveAllCounts | src/users/user.model.ts:80-83 | every other id is kept as often as before; the length drops by the number of occurrences removed |
| UserModel.RemoveAllAppend | src/users/user.model.ts:93-96 | filtering distributes over concatenation, so kept ids keep their order |
| UserModel.Favorite | src/users/user.model.ts:75-78 | the id is appended to favourites and no other field changes |
| UserModel.Unfavorite | src/users/user.model.ts:80-83 | every occurrence of the id leaves favourites and no other field changes |
| UserModel.IsFavorite | src/users/user.model.ts:85-86 | true exactly when some position of favourites holds the id |
| UserModel.FavoriteMembership | src/users/user.model.ts:85-86 | `isFavorite` holds after `favorite`, fails after `unfavorite`, and is unchanged for every other id |
| UserModel.UnfavoriteAfterFavorite | src/users/user.model.ts:75-83 | `favorite` adds one copy even of a present id; `unfavorite` after it equals `unfavorite` alone and restores the user exactly when the id was absent |
| UserModel.Follow | src/users/user.model.ts:88-91 | the id is appended to following and no other field changes |
| UserModel.Unfollow | src/users/user.model.ts:93-96 | every occurrence of the id leaves following and no other field changes |
| UserModel.IsFollowing | src/users/user.model.ts:98-99 | true exactly when some position of following holds the id |
| UserModel.FollowMembership | src/users/user.model.ts:98-99 | `isFollowing` holds after `follow`, fails after `unfollow`, is unchanged for every other id, and favourites are untouched |
| UserModel.UnfollowAfterFollow | src/users/user.model.ts:88-96 | `follow` adds one copy even of a present id; `unfollow` after it equals `unfollow` alone and restores the user exactly when the id was absent |
| UserModel.ToAuthDto | src/users/user.model.ts:109-120 | the view carries username, email, bio and image as stored, and a token signed over the user's claims |
| UserModel.AuthDtoHidesPrivateFields | src/users/user.model.ts:101-120 | users that differ only in hash, salt, favourites or following get the same view |
| UserModel.CreateUser | src/users/user.model.ts:135-153 | the new user has the generated id, the payload's username and email, no bio or image, empty lists, and credentials hashed from the payload's password |
| UserModel.CreatedUserAcceptsPassword | src/users/user.model.ts:135-153 | a created user accepts the password it was created with |
| Parsing.ParseId | src/users/parsing.ts:28-32 | success exactly when `mongoId` accepts, else the single error `_id: Not a valid ID` |
| Parsing.ParseString | src/users/parsing.ts:34-38 | success exactly for a string, else the single error naming the given field |
| Parsing.ParseBio | src/users/parsing.ts:41-44 | undefined is none, a string is some, anything else (null included) is `bio: Not a string` |
| Parsing.ParseEmail | src/users/parsing.ts:60-64 | success exactly for a string `isEmail` accepts, else `email: Not a valid email` |
| Parsing.ParseImage | src/users/parsing.ts:66-71 | undefined is none, a URL string is some, anything else is `image: Not a valid URL` |
| Parsing.ParseArrayOfIds | src/users/parsing.ts:73-80 | success exactly for an array of IDs, element by element, else the single error naming the field |
| Parsing.ExpectedErrorsUnion | src/users/parsing.ts:26 | merging the reference errors of two sets of fields gives the reference errors of their union |
| Parsing.ParseUser | src/users/parsing.ts:85-108 | `NotAnObject` exactly for a non-plain-object; on success each of the nine fields is the validated value read from its key |
| Parsing.OwnFieldError | src/users/parsing.ts:28-83 | a field parser whose failures match the reference rule contributes exactly the reference error of its field |
| Parsing.IdFieldErrorIsOwn | src/users/parsing.ts:28-32 | the `_id` parser contributes exactly the reference error for `_id` |
| Parsing.UsernameFieldErrorIsOwn | src/users/parsing.ts:34-40 | the username parser contributes exactly the reference error for `username` |
| Parsing.EmailFieldErrorIsOwn | src/users/parsing.ts:60-64 | the email parser contributes exactly the reference error for `email` |
| Parsing.BioFieldErrorIsOwn | src/users/parsing.ts:41-44 | the bio parser contributes exactly the reference error for `bio` |
| Parsing.ImageFieldErrorIsOwn | src/users/parsing.ts:66-71 | the image parser contributes exactly the reference error for `image` |
| Parsing.FavoritesFieldErrorIsOwn | src/users/parsing.ts:73-82 | the favourites parser contributes exactly the reference error for `favorites` |
| Parsing.FollowingFieldErrorIsOwn | src/users/parsing.ts:73-83 | the following parser contributes exactly the reference error for `following` |
| Parsing.HashFieldErrorIsOwn | src/users/parsing.ts:46-51 | the hash parser contributes exactly the reference error for `hash` |
| Parsing.SaltFieldErrorIsOwn | src/users/parsing.ts:53-58 | the salt parser contributes exactly the reference error for `salt` |
| Parsing.AccumulatedUserErrors | src/users/parsing.ts:90-100 | every merged entry names one of the nine user fields and carries that field's fixed message |
| Parsing.AccumulatedUserErrorsExact | src/users/parsing.ts:90-100 | the merged errors of the nine parsers are exactly the reference errors |
| Parsing.MergeNine | src/users/parsing.ts:90-100 | merging the nine single-field reference maps in `parseUser`'s order gives the reference map over all nine fields |
| Parsing.AccumulatedUserErrorsEmpty | src/users/parsing.ts:90-100 | the merged errors are empty exactly when all nine parsers succeed |
| Parsing.ParseUserReportsExactlyFailingFields | src/users/parsing.ts:85-108 | on a plain object, `parseUser` fails exactly when some field fails, and then reports precisely the failing fields with their messages |
| Parsing.ParseUserRejectsNullAndReportsAllNine | src/users/parsing.spec.ts:32-61 | null is `NotAnObject`; `{bio: null, image: 2}` reports all nine fields |
| Parsing.ParseUserOfEmptyRecord | src/users/parsing.ts:85-108 | an empty record reports the seven required fields and not the optional bio and image |
| Parsing.OnlyUsernameMissing | src/users/parsing.ts:85-108 | dropping `username` from a record whose fields all parse leaves exactly the username error |
| Parsing.ParseUserIgnoresOtherKeys | src/users/parsing.ts:90-100 | keys other than the nine do not affect the result |
| Parsing.StoredIdsParse | src/users/parsing.ts:73-80 | a stored ID list, as strings or as `ObjectId` instances, parses back to the same IDs |
| Parsing.ParseUserRoundTrip | src/users/parsing.ts:85-108 | a stored user the validators accept parses back to exactly that user |
| Parsing.ParseCreateUserPayload | src/users/parsing.ts:129-163 | `NotAnObject` exactly for a non-plain-object; a `user` entry that is not a plain object is reported as such; on success the three validated fields |
| Parsing.AccumulatedPayloadErrors | src/users/parsing.ts:145-149 | every merged entry names username, email or password and carries that field's fixed message |
| Parsing.ParseCreateUserPayloadReportsExactlyFailingFields | src/users/parsing.ts:144-161 | under a plain `user` record, failure exactly when a field fails, and then precisely the failing fields under `user` |
| Parsing.ParseCreateUserPayloadRoundTrip | src/users/parsing.ts:129-163 | a request built from a payload parses back to it exactly when its email is valid |
| Parsing.ParseCreateUserPayloadOfEmptyUser | src/users/parsing.spec.ts:65-85 | `{user: {}}` reports username, email and password |
| Parsing.CreatedUserIsStorable | src/users/user.model.ts:135-153 | a user created from an accepted payload passes `parseUser` once stored and accepts its password |
| UsersRepository.FindById | src/users/users.repository.ts:29-44 | a failing query is a repository error carrying what was thrown; null is "no user" and only null is; any other document gives what `parseUser` gives |
| UsersRepository.FindByIdReturnsStoredUser | src/users/users.repository.ts:29-44 | a stored user's document is returned as that user, with `ObjectId`s turned into strings |
| UsersRepository.FindByIdReportsMissingUsername | src/users/users.repository.spec.ts:65-94 | a stored document without `username` is reported as that single field error |
| UsersRepository.FirstMatch | src/users/users.repository.ts:23-27 | the position of the first document matching the filter, or none when no document matches |
| UsersRepository.FindOne | src/users/users.repository.ts:23-27 | null exactly when no document matches the filter, else a matching document of the collection |
| UsersRepository.StoredKeys | src/users/users.repository.ts:21 | a stored document holds only the nine user keys, and no `id` key |
| UsersRepository.FindUserAsWrittenFindsNoStoredUser | src/users/users.repository.ts:23-27 | with the filter on `id`, no stored user is ever found |
| UsersRepository.FindUserFindsStoredUser | src/users/users.repository.ts:29-44 | with the filter on `_id`, looking up a stored user's ID returns that user |
| LegacyUser.MongoIdOf | src/models/User.ts:45-49 | some exactly for a string `ObjectId.isValid` accepts, returned unchanged |
| LegacyUser.MongoIdOfDiffersOnlyOnInstances | src/models/User.ts:45-49 | agrees with the current refiner except on `ObjectId` instances, which only the current one accepts |
| LegacyUser.Upgrade | src/models/User.ts:15-25 | a legacy record is the current one with bio and image present |
| LegacyUser.IsValidPassword | src/models/User.ts:66-67 | a password is accepted exactly when hashing it with the stored salt reproduces the stored credentials |
| LegacyUser.LegacyPasswordCheck | src/models/User.ts:60-67 | credentials from `hashPassword(pw)` accept `pw`, accept another password exactly when it hashes the same, and the legacy check agrees with the current one |
| LegacyUser.GenerateJwt | src/models/User.ts:74-99 | the legacy token is the token the current module issues for the same user with bio and image present |
| LegacyUser.LegacyTokenAuthenticates | src/models/User.ts:74-99 | the legacy token is the current module's token for the same user, and it passes the guard with that user's claims |

## Findings

| source | as written | input that shows it | evidently intended | confidence | as-written member | corrected member |
|---|---|---|---|---|---|---|
| src/users/users.repository.ts:25 | `findOne` filters on the field `id`, but users are stored under `_id` (the `Document` type at line 21) | any collection of stored users; `findById` of any stored user's ID | filter `{ _id: new ObjectId(id) }` | not executed; high, as stored documents carry no `id` key | UsersRepository.FindUserAsWrittenFindsNoStoredUser | UsersRepository.FindUserFindsStoredUser |

## Left out

- Cryptography is left out. `salt()` draws random bytes and `hash` runs PBKDF2. The salt is an input, and the hash is an uninterpreted `HashFunction`. Nothing is assumed of the hash except where a lemma states injectivity as a hypothesis.
- `jwt.sign` and `jwt.verify` are parameters. A `verify` that throws is not modelled: a bad signature or an expired token throws, and the throw escapes the handler. `verify` is a total function from token to decoded value.
- The expiry date is left out. The expiry is taken as an input. The 60-day calendar arithmetic on `Date` is not modelled, and neither is the division of milliseconds by 1000.
- Numbers are modelled as reals. A JavaScript number's floating-point nature is not modelled. Only `typeof input === "number"` matters to the layer.
- `generateMongoId` is left out: the new ID is an input to `CreateUser`.
- The secret and its environment check are left out.
- Express, passport and MongoDB wiring are left out. `users.http.ts`, `auth.ts` and `application.ts` are not part of this model.
- `findOne` throwing is left out as a mechanism. Its outcome is the input `QueryOutcome`.
- `new ObjectId(id)` throwing is not modelled. Its `id` has the branded type `MongoId`, which only `mongoId` produces: a string `ObjectId.isValid` accepts, or an instance's `toString()`. So the constructor has no reason to throw. Whether a throw there would become a repository error depends on the fp-ts version, so the model does not rely on it.
- `lodash.isplainobject` is not a predicate in this model. It is encoded by the `Value` datatype: `Obj` is exactly a plain object.
- Request headers are only the `authorization` entry. An absent header is `None`, a present one is its string.
- In `HandleRequest`, when the payload does not parse, the guard sends no response. The model states this as `NoResponse`, as the source does.
- `isEmail`, `isURL` and `ObjectId.isValid` are uninterpreted predicates. Their grammars are not modelled.
- Legacy `email`, `url` and `hashPassword` are not modelled separately. In `src/models/User.ts` they have the same definitions as `Types.EmailOf`, `Types.UrlOf` and `UserModel.HashPassword`, and are covered by those members.
- Legacy `hash` and `salt` are left out, for the reasons given above.
- The commented-out mongoose schema and methods in `src/models/User.ts` and `src/users/user.model.ts` are left out.
