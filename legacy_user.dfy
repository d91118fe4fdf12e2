/** `src/models/User.ts`, the older user module kept beside `src/users`: its
    own `User` record (bio and image required), an ID refiner without the
    `ObjectId` fallback, the password check and the token payload. */
module LegacyUser {
  import opened Fp
  import opened Values
  import opened Types
  import opened AuthenticatedHandler
  import UserModel

  /** The legacy record: `bio` and `image` are plain fields, never absent. */
  datatype LegacyUser = LegacyUser(
    id: MongoId,
    username: string,
    email: Email,
    bio: string,
    image: Url,
    favorites: seq<MongoId>,
    following: seq<MongoId>,
    hash: UserModel.Hash,
    salt: UserModel.Salt)

  /** The legacy `mongoId`: only a string `ObjectId.isValid` accepts. */
  function MongoIdOf(v: Validators, input: Value): (r: Option<MongoId>)
    ensures r.Some? <==> input.Str? && v.isValidObjectId(input.s)
    ensures r.Some? ==> input == Str(r.value)
  {
    match AsString(input)
    case None => None
    case Some(str) => if v.isValidObjectId(str) then Some(str) else None
  }

  /** The legacy refiner agrees with the current one everywhere except on an
      `ObjectId` instance, which only the current one accepts. */
  lemma MongoIdOfDiffersOnlyOnInstances(v: Validators, input: Value)
    ensures !input.ObjectIdInstance? ==> MongoIdOf(v, input) == Types.MongoIdOf(v, input)
    ensures input.ObjectIdInstance? ==>
      MongoIdOf(v, input) == None && Types.MongoIdOf(v, input) == Some(input.hex)
  {
  }

  /** The legacy record seen as the current one: bio and image present. */
  function Upgrade(u: LegacyUser): (r: UserModel.User)
    ensures r.bio == Some(u.bio) && r.image == Some(u.image)
    ensures r.(bio := None, image := None)
      == UserModel.User(u.id, u.username, u.email, None, None, u.favorites, u.following, u.hash, u.salt)
  {
    UserModel.User(u.id, u.username, u.email, Some(u.bio), Some(u.image), u.favorites, u.following, u.hash, u.salt)
  }

  /** The legacy `isValidPassword`: re-hash with the stored salt and compare. */
  predicate IsValidPassword(pw: string, u: LegacyUser, hashFn: UserModel.HashFunction)
    ensures IsValidPassword(pw, u, hashFn)
      <==> UserModel.HashPassword(pw, u.salt, hashFn) == UserModel.Credentials(u.hash, u.salt)
  {
    hashFn(pw, u.salt) == u.hash
  }

  /** Credentials from `hashPassword(pw)` accept `pw`, accept another password
      exactly when it hashes the same under that salt, and the legacy check
      is the current check on the same credentials. */
  lemma LegacyPasswordCheck(
    pw: string, other: string, salt: UserModel.Salt, hashFn: UserModel.HashFunction, u: LegacyUser)
    requires UserModel.Credentials(u.hash, u.salt) == UserModel.HashPassword(pw, salt, hashFn)
    ensures IsValidPassword(pw, u, hashFn)
    ensures IsValidPassword(other, u, hashFn) <==> hashFn(other, salt) == hashFn(pw, salt)
    ensures IsValidPassword(other, u, hashFn) <==> UserModel.IsValidPassword(other, Upgrade(u), hashFn)
  {
    assert u.salt == salt && u.hash == hashFn(pw, salt);
    assert Upgrade(u).salt == u.salt && Upgrade(u).hash == u.hash;
  }

  /** The legacy `generateJWT`, with the expiry and the signer passed in. */
  function GenerateJwt(u: LegacyUser, exp: real, secret: string, sign: UserModel.Signer): (token: string)
    ensures token == UserModel.GenerateJwt(Upgrade(u), exp, secret, sign)
  {
    sign(JwtPayload(u.id, u.username, exp), secret)
  }

  /** The legacy token is the token the current module issues for the same
      user, and it gets through the request guard with that user's claims. */
  lemma LegacyTokenAuthenticates(
    v: Validators, u: LegacyUser, exp: real, iat: real, secret: string, sign: UserModel.Signer,
    scheme: string, verify: string -> Value)
    requires v.isValidObjectId(u.id)
    requires scheme == "Token" || scheme == "Bearer"
    requires GenerateJwt(u, exp, secret, sign) != "" && ' ' !in GenerateJwt(u, exp, secret, sign)
    requires verify(GenerateJwt(u, exp, secret, sign)) == DecodedClaims(JwtPayload(u.id, u.username, exp), iat)
    ensures GenerateJwt(u, exp, secret, sign) == UserModel.GenerateJwt(Upgrade(u), exp, secret, sign)
    ensures HandleRequest(v, Some(scheme + " " + GenerateJwt(u, exp, secret, sign)), verify)
      == Invoke(JwtPayload(u.id, u.username, exp))
  {
    assert UserModel.JwtClaims(Upgrade(u), exp) == JwtPayload(u.id, u.username, exp);
    UserModel.IssuedTokenAuthenticates(v, Upgrade(u), exp, iat, secret, sign, scheme, verify);
  }
}
