/** `src/users/user.model.ts`: the `User` entity, its credentials, the token
    issued for it, the favourite/follow lists and user creation. Every
    operation returns a new value; nothing is updated in place. */
module UserModel {
  import opened Fp
  import opened Values
  import opened Types
  import opened AuthenticatedHandler

  type Salt = string
  type Hash = string

  /** `hash(input, salt)`: PBKDF2 (10000 rounds, 512 bytes, SHA-512) in hex, uninterpreted. */
  type HashFunction = (string, Salt) -> Hash

  /** `jwt.sign(payload, secret)`, uninterpreted. */
  type Signer = (JwtPayload, string) -> string

  datatype User = User(
    id: MongoId,
    username: string,
    email: Email,
    bio: Option<string>,
    image: Option<Url>,
    favorites: seq<MongoId>,
    following: seq<MongoId>,
    hash: Hash,
    salt: Salt)

  // ---------------------------------------------------------------------
  // Credentials

  datatype Credentials = Credentials(hash: Hash, salt: Salt)

  /** `hashPassword`, with the fresh random salt passed in. */
  function HashPassword(pw: string, salt: Salt, hashFn: HashFunction): (c: Credentials)
    ensures c.salt == salt
    ensures c.hash == hashFn(pw, c.salt)
  {
    Credentials(hashFn(pw, salt), salt)
  }

  /** `isValidPassword`: re-hash with the stored salt and compare. */
  predicate IsValidPassword(pw: string, u: User, hashFn: HashFunction)
    ensures IsValidPassword(pw, u, hashFn) <==> HashPassword(pw, u.salt, hashFn) == Credentials(u.hash, u.salt)
  {
    hashFn(pw, u.salt) == u.hash
  }

  /** A user whose credentials came from `HashPassword(pw, ...)` accepts `pw`,
      and accepts another password only if it hashes the same under that salt;
      so when the hash is injective for that salt, exactly `pw` is accepted. */
  lemma PasswordCheckAgreesWithHashing(pw: string, other: string, salt: Salt, hashFn: HashFunction, u: User)
    requires Credentials(u.hash, u.salt) == HashPassword(pw, salt, hashFn)
    ensures IsValidPassword(pw, u, hashFn)
    ensures IsValidPassword(other, u, hashFn) <==> hashFn(other, salt) == hashFn(pw, salt)
    ensures (forall a, b :: hashFn(a, salt) == hashFn(b, salt) ==> a == b) ==>
      (IsValidPassword(other, u, hashFn) <==> other == pw)
  {
  }

  // ---------------------------------------------------------------------
  // Tokens

  /** The payload `generateJWT` signs: exactly `{id: _id, username, exp}`,
      with `exp` the injected expiry in epoch seconds. */
  function JwtClaims(u: User, exp: real): (p: JwtPayload)
    ensures p.id == u.id && p.username == u.username && p.exp == exp
  {
    JwtPayload(u.id, u.username, exp)
  }

  /** `generateJWT`, with the clock's expiry and the signer passed in. */
  function GenerateJwt(u: User, exp: real, secret: string, sign: Signer): (token: string)
    ensures token == sign(JwtPayload(u.id, u.username, exp), secret)
  {
    sign(JwtClaims(u, exp), secret)
  }

  /** The token depends on the user's id and username only: two users that
      agree on those get the same token. */
  lemma TokenCarriesOnlyIdAndUsername(u1: User, u2: User, exp: real, secret: string, sign: Signer)
    requires u1.id == u2.id && u1.username == u2.username
    ensures GenerateJwt(u1, exp, secret, sign) == GenerateJwt(u2, exp, secret, sign)
  {
  }

  /** Verifying an issued token with the same secret (modelled as `verify`
      giving back what was signed plus `iat`) hands the guard the user's id,
      username and expiry. */
  lemma IssuedTokenAuthenticates(
    v: Validators, u: User, exp: real, iat: real, secret: string, sign: Signer,
    scheme: string, verify: string -> Value)
    requires v.isValidObjectId(u.id)
    requires scheme == "Token" || scheme == "Bearer"
    requires GenerateJwt(u, exp, secret, sign) != "" && ' ' !in GenerateJwt(u, exp, secret, sign)
    requires verify(GenerateJwt(u, exp, secret, sign)) == DecodedClaims(JwtClaims(u, exp), iat)
    ensures HandleRequest(v, Some(scheme + " " + GenerateJwt(u, exp, secret, sign)), verify)
      == Invoke(JwtPayload(u.id, u.username, exp))
  {
    SignedRequestReachesHandler(v, scheme, GenerateJwt(u, exp, secret, sign), verify, JwtClaims(u, exp), iat);
  }

  // ---------------------------------------------------------------------
  // Favorites and following

  /** `Array.prototype.filter(x => x !== id)`: drop every occurrence of `id`. */
  function RemoveAll(s: seq<MongoId>, id: MongoId): (r: seq<MongoId>)
    ensures id !in r
    ensures id !in s ==> r == s
  {
    if s == [] then []
    else (if s[0] == id then [] else [s[0]]) + RemoveAll(s[1..], id)
  }

  /** What the filter keeps: every other id as often as before, and `id` never;
      so the length drops by the number of occurrences of `id`. */
  lemma {:induction false} RemoveAllCounts(s: seq<MongoId>, id: MongoId)
    ensures forall other :: other != id ==> multiset(RemoveAll(s, id))[other] == multiset(s)[other]
    ensures |RemoveAll(s, id)| == |s| - multiset(s)[id]
  {
    if s != [] {
      RemoveAllCounts(s[1..], id);
      assert s == [s[0]] + s[1..];
      var head := if s[0] == id then [] else [s[0]];
      assert multiset(RemoveAll(s, id)) == multiset(head) + multiset(RemoveAll(s[1..], id));
    }
  }

  /** Filtering distributes over concatenation, so the elements kept stay in
      their original relative order. */
  lemma {:induction false} RemoveAllAppend(s: seq<MongoId>, t: seq<MongoId>, id: MongoId)
    ensures RemoveAll(s + t, id) == RemoveAll(s, id) + RemoveAll(t, id)
  {
    if s != [] {
      var head := if s[0] == id then [] else [s[0]];
      assert (s + t)[0] == s[0] && (s + t)[1..] == s[1..] + t;
      assert RemoveAll(s + t, id) == head + RemoveAll(s[1..] + t, id);
      RemoveAllAppend(s[1..], t, id);
      assert RemoveAll(s, id) == head + RemoveAll(s[1..], id);
    } else {
      assert s + t == t;
    }
  }

  /** `favorite`: append `id` to favorites (even if it is already there). */
  function Favorite(u: User, id: MongoId): (r: User)
    ensures r.favorites == u.favorites + [id]
    ensures |r.favorites| == |u.favorites| + 1
    ensures r.(favorites := u.favorites) == u
  {
    u.(favorites := u.favorites + [id])
  }

  /** `unfavorite`: remove every occurrence of `id` from favorites. */
  function Unfavorite(u: User, id: MongoId): (r: User)
    ensures r.favorites == RemoveAll(u.favorites, id)
    ensures r.(favorites := u.favorites) == u
  {
    u.(favorites := RemoveAll(u.favorites, id))
  }

  /** `isFavorite`: `favorites.some(fav => fav === id)`. */
  predicate IsFavorite(u: User, id: MongoId)
    ensures IsFavorite(u, id) <==> exists i :: 0 <= i < |u.favorites| && u.favorites[i] == id
  {
    id in u.favorites
  }

  /** `isFavorite` after the two updates: `id` is in after `favorite`, out after
      `unfavorite`, and every other id is as it was. */
  lemma FavoriteMembership(u: User, id: MongoId, other: MongoId)
    ensures IsFavorite(Favorite(u, id), id)
    ensures !IsFavorite(Unfavorite(u, id), id)
    ensures other != id ==> (IsFavorite(Favorite(u, id), other) <==> IsFavorite(u, other))
    ensures other != id ==> (IsFavorite(Unfavorite(u, id), other) <==> IsFavorite(u, other))
  {
    RemoveAllCounts(u.favorites, id);
    if other != id {
      assert other in Unfavorite(u, id).favorites <==> multiset(Unfavorite(u, id).favorites)[other] > 0;
    }
  }

  /** `favorite` does not deduplicate: favouring an id already present leaves it
      there twice, so `unfavorite` afterwards gives back the original user
      exactly when the id was not already a favourite. */
  lemma UnfavoriteAfterFavorite(u: User, id: MongoId)
    ensures multiset(Favorite(u, id).favorites)[id] == multiset(u.favorites)[id] + 1
    ensures Unfavorite(Favorite(u, id), id) == Unfavorite(u, id)
    ensures Unfavorite(Favorite(u, id), id) == u <==> id !in u.favorites
  {
    RemoveAllAppend(u.favorites, [id], id);
    assert RemoveAll([id], id) == [];
    if id in u.favorites {
      RemoveAllCounts(u.favorites, id);
      assert |RemoveAll(u.favorites, id)| < |u.favorites|;
    }
  }

  /** `follow`: append `id` to following (even if it is already there). */
  function Follow(u: User, id: MongoId): (r: User)
    ensures r.following == u.following + [id]
    ensures |r.following| == |u.following| + 1
    ensures r.(following := u.following) == u
  {
    u.(following := u.following + [id])
  }

  /** `unfollow`: remove every occurrence of `id` from following. */
  function Unfollow(u: User, id: MongoId): (r: User)
    ensures r.following == RemoveAll(u.following, id)
    ensures r.(following := u.following) == u
  {
    u.(following := RemoveAll(u.following, id))
  }

  /** `isFollowing`: `following.some(f => f === id)`. */
  predicate IsFollowing(u: User, id: MongoId)
    ensures IsFollowing(u, id) <==> exists i :: 0 <= i < |u.following| && u.following[i] == id
  {
    id in u.following
  }

  /** `isFollowing` after the two updates; favourites are never touched. */
  lemma FollowMembership(u: User, id: MongoId, other: MongoId)
    ensures IsFollowing(Follow(u, id), id)
    ensures !IsFollowing(Unfollow(u, id), id)
    ensures other != id ==> (IsFollowing(Follow(u, id), other) <==> IsFollowing(u, other))
    ensures other != id ==> (IsFollowing(Unfollow(u, id), other) <==> IsFollowing(u, other))
    ensures Follow(u, id).favorites == u.favorites && Unfollow(u, id).favorites == u.favorites
  {
    RemoveAllCounts(u.following, id);
    if other != id {
      assert other in Unfollow(u, id).following <==> multiset(Unfollow(u, id).following)[other] > 0;
    }
  }

  /** Following twice keeps two copies; `unfollow` undoes `follow` exactly when
      the id was not already followed. */
  lemma UnfollowAfterFollow(u: User, id: MongoId)
    ensures multiset(Follow(u, id).following)[id] == multiset(u.following)[id] + 1
    ensures Unfollow(Follow(u, id), id) == Unfollow(u, id)
    ensures Unfollow(Follow(u, id), id) == u <==> id !in u.following
  {
    RemoveAllAppend(u.following, [id], id);
    assert RemoveAll([id], id) == [];
    if id in u.following {
      RemoveAllCounts(u.following, id);
      assert |RemoveAll(u.following, id)| < |u.following|;
    }
  }

  // ---------------------------------------------------------------------
  // The view returned to a client

  /** `AuthDTO`; an absent bio or image is `undefined`, here `None`. */
  datatype AuthDto = AuthDto(username: string, email: string, token: string, bio: Option<string>, image: Option<string>)

  /** `toAuthDTO`: the public fields and a freshly issued token. */
  function ToAuthDto(u: User, exp: real, secret: string, sign: Signer): (r: AuthDto)
    ensures r.username == u.username && r.email == u.email
    ensures r.bio == u.bio && r.image == u.image
    ensures r.token == sign(JwtPayload(u.id, u.username, exp), secret)
  {
    AuthDto(u.username, u.email, GenerateJwt(u, exp, secret, sign), u.bio, u.image)
  }

  /** The view never reveals hash, salt, favourites or following: users that
      differ only in those get the same view. */
  lemma AuthDtoHidesPrivateFields(u1: User, u2: User, exp: real, secret: string, sign: Signer)
    requires u1.id == u2.id && u1.username == u2.username && u1.email == u2.email
    requires u1.bio == u2.bio && u1.image == u2.image
    ensures ToAuthDto(u1, exp, secret, sign) == ToAuthDto(u2, exp, secret, sign)
  {
  }

  // ---------------------------------------------------------------------
  // Creating a user

  datatype NewUserFields = NewUserFields(username: string, email: Email, password: string)

  /** `CreateUserPayload`: the fields nested under `user`. */
  datatype CreateUserPayload = CreateUserPayload(user: NewUserFields)

  /** `createUser`, with the generated id and the random salt passed in. */
  function CreateUser(input: CreateUserPayload, newId: MongoId, salt: Salt, hashFn: HashFunction): (u: User)
    ensures u.id == newId
    ensures u.username == input.user.username && u.email == input.user.email
    ensures u.bio == None && u.image == None
    ensures u.favorites == [] && u.following == []
    ensures Credentials(u.hash, u.salt) == HashPassword(input.user.password, salt, hashFn)
  {
    var credentials := HashPassword(input.user.password, salt, hashFn);
    User(newId, input.user.username, input.user.email, None, None, [], [], credentials.hash, credentials.salt)
  }

  /** A created user accepts the password it was created with. */
  lemma CreatedUserAcceptsPassword(input: CreateUserPayload, newId: MongoId, salt: Salt, hashFn: HashFunction)
    ensures IsValidPassword(input.user.password, CreateUser(input, newId, salt, hashFn), hashFn)
  {
    var u := CreateUser(input, newId, salt, hashFn);
    PasswordCheckAgreesWithHashing(input.user.password, input.user.password, salt, hashFn, u);
  }
}
