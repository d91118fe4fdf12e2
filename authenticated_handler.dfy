/** `src/routes/authenticatedHandler.ts`: extracting the bearer token from
    the Authorization header, re-validating the decoded JWT payload, and the
    decision the request guard takes. */
module AuthenticatedHandler {
  import opened Fp
  import opened Values
  import opened Types

  /** The claims a token carries (the `iat` claim added by the signer is not part of it). */
  datatype JwtPayload = JwtPayload(id: MongoId, username: string, exp: real)

  datatype JwtParsingError = JwtParsingError(error: string)

  const NotAnObjectMessage := "JWT payload was not an object"
  const IdMessage := "JWT payload id property was not a valid Mongo ID"
  const UsernameMessage := "JWT payload username property was not a string"
  const ExpMessage := "JWT payload exp property was not a number"

  // ---------------------------------------------------------------------
  // String.prototype.split(" ")

  /** JavaScript's `s.split(" ")`: cut at every single space, keeping the
      empty pieces between consecutive spaces. */
  function Split(s: string): (parts: seq<string>)
    ensures |parts| >= 1
    ensures forall i :: 0 <= i < |parts| ==> ' ' !in parts[i]
  {
    if s == [] then [""]
    else
      var rest := Split(s[1..]);
      if s[0] == ' ' then [""] + rest
      else [[s[0]] + rest[0]] + rest[1..]
  }

  /** `parts.join(" ")`, the inverse of Split. */
  function Join(parts: seq<string>): string
    requires |parts| >= 1
  {
    if |parts| == 1 then parts[0] else parts[0] + " " + Join(parts[1..])
  }

  /** Splitting loses nothing: joining the pieces gives the header back. */
  lemma {:induction false} JoinSplit(s: string)
    ensures Join(Split(s)) == s
  {
    if s != [] {
      var rest := Split(s[1..]);
      JoinSplit(s[1..]);
      if s[0] == ' ' {
        assert ([""] + rest)[1..] == rest;
        assert Join(Split(s)) == "" + " " + Join(rest);
      } else {
        var parts := [[s[0]] + rest[0]] + rest[1..];
        assert parts[1..] == rest[1..];
        if |rest| == 1 {
          assert Join(parts) == [s[0]] + rest[0];
        } else {
          assert Join(parts) == [s[0]] + rest[0] + " " + Join(rest[1..]);
        }
        assert Join(parts) == [s[0]] + s[1..];
      }
    }
  }

  /** A piece without spaces is not cut. */
  lemma {:induction false} SplitWord(w: string)
    requires ' ' !in w
    ensures Split(w) == [w]
  {
    if w != [] {
      SplitWord(w[1..]);
      assert [w[0]] + w[1..] == w;
    }
  }

  /** The first cut falls at the first space. */
  lemma {:induction false} SplitAfterWord(w: string, rest: string)
    requires ' ' !in w
    ensures Split(w + " " + rest) == [w] + Split(rest)
  {
    var s := w + " " + rest;
    if w == [] {
      assert s[0] == ' ' && s[1..] == rest;
    } else {
      assert s[0] == w[0] && s[1..] == w[1..] + " " + rest;
      SplitAfterWord(w[1..], rest);
      assert [w[0]] + w[1..] == w;
    }
  }

  // ---------------------------------------------------------------------
  // getTokenFromHeader

  /** What `getTokenFromHeader` returns: `null`, `undefined` (the scheme is
      accepted but there is no second piece), or the second piece. */
  datatype TokenLookup = NullToken | UndefinedToken | TokenSegment(token: string)

  /** `getTokenFromHeader`: if the header is present, non-empty and its first
      space-separated piece is exactly "Token" or "Bearer", the second piece. */
  function GetTokenFromHeader(authorization: Option<string>): (r: TokenLookup)
    ensures authorization == None || authorization == Some("") ==> r == NullToken
    ensures r != NullToken ==>
      authorization.Some? && (Split(authorization.value)[0] == "Token" || Split(authorization.value)[0] == "Bearer")
    ensures r == UndefinedToken ==> |Split(authorization.value)| == 1
    ensures r.TokenSegment? ==> |Split(authorization.value)| > 1 && r.token == Split(authorization.value)[1]
    ensures r.TokenSegment? ==> ' ' !in r.token
  {
    match authorization
    case None => NullToken
    case Some(header) =>
      if header == "" then NullToken
      else
        var parts := Split(header);
        if parts[0] == "Token" || parts[0] == "Bearer" then
          if |parts| > 1 then TokenSegment(parts[1]) else UndefinedToken
        else NullToken
  }

  /** `"Token <t>"` and `"Bearer <t>"` give the piece after the scheme (the
      whole of `t` when `t` has no space, else its first piece). */
  lemma SchemeHeaderGivesToken(scheme: string, rest: string)
    requires scheme == "Token" || scheme == "Bearer"
    ensures GetTokenFromHeader(Some(scheme + " " + rest)) == TokenSegment(Split(rest)[0])
    ensures ' ' !in rest ==> GetTokenFromHeader(Some(scheme + " " + rest)) == TokenSegment(rest)
  {
    SplitAfterWord(scheme, rest);
    if ' ' !in rest {
      SplitWord(rest);
    }
  }

  /** Any other first piece, a missing header and an empty header give null. */
  lemma OtherHeadersGiveNull(scheme: string, rest: string)
    requires ' ' !in scheme && scheme != "Token" && scheme != "Bearer"
    ensures GetTokenFromHeader(Some(scheme + " " + rest)) == NullToken
    ensures GetTokenFromHeader(Some(scheme)) == NullToken
    ensures GetTokenFromHeader(None) == NullToken
  {
    SplitAfterWord(scheme, rest);
    SplitWord(scheme);
  }

  /** A bare scheme with nothing after it gives undefined. */
  lemma BareSchemeGivesUndefined(scheme: string)
    requires scheme == "Token" || scheme == "Bearer"
    ensures GetTokenFromHeader(Some(scheme)) == UndefinedToken
  {
    SplitWord(scheme);
  }

  // ---------------------------------------------------------------------
  // parseToJWTPayload

  /** `parseToJWTPayload`: a string or a non-plain object is "not an object";
      otherwise id, username and exp are checked in that order and the first
      failure alone is reported. */
  function ParseToJwtPayload(v: Validators, input: Value): (r: Either<JwtParsingError, JwtPayload>)
    ensures !input.Obj? ==> r == Left(JwtParsingError(NotAnObjectMessage))
    ensures input.Obj? && MongoIdOf(v, Get(input.fields, "id")).None? ==>
      r == Left(JwtParsingError(IdMessage))
    ensures (input.Obj? && MongoIdOf(v, Get(input.fields, "id")).Some?
             && !Get(input.fields, "username").Str?) ==>
      r == Left(JwtParsingError(UsernameMessage))
    ensures (input.Obj? && MongoIdOf(v, Get(input.fields, "id")).Some?
             && Get(input.fields, "username").Str? && !Get(input.fields, "exp").Num?) ==>
      r == Left(JwtParsingError(ExpMessage))
    ensures (input.Obj? && MongoIdOf(v, Get(input.fields, "id")).Some?
             && Get(input.fields, "username").Str? && Get(input.fields, "exp").Num?) ==>
      r.Right?
    ensures r.Right? ==>
      (input.Obj?
       && MongoIdOf(v, Get(input.fields, "id")) == Some(r.right.id)
       && Get(input.fields, "username") == Str(r.right.username)
       && Get(input.fields, "exp") == Num(r.right.exp))
  {
    if input.Str? then
      Left(JwtParsingError(NotAnObjectMessage))
    else
      match UnknownObject(input)
      case None => Left(JwtParsingError(NotAnObjectMessage))
      case Some(obj) =>
        var id := MongoIdOf(v, Get(obj, "id"));
        var username := AsString(Get(obj, "username"));
        var exp := AsNumber(Get(obj, "exp"));
        if id.None? then Left(JwtParsingError(IdMessage))
        else if username.None? then Left(JwtParsingError(UsernameMessage))
        else if exp.None? then Left(JwtParsingError(ExpMessage))
        else Right(JwtPayload(id.value, username.value, exp.value))
  }

  /** The object `jwt.verify` decodes from a token signed over `p`: the three
      claims plus the issued-at claim the signer adds. */
  function DecodedClaims(p: JwtPayload, iat: real): Value
  {
    Obj(map["id" := Str(p.id), "username" := Str(p.username), "exp" := Num(p.exp), "iat" := Num(iat)])
  }

  /** Decoding what was signed gives the same claims back; `iat` is dropped. */
  lemma DecodedClaimsParse(v: Validators, p: JwtPayload, iat: real)
    requires v.isValidObjectId(p.id)
    ensures ParseToJwtPayload(v, DecodedClaims(p, iat)) == Right(p)
  {
    var m := DecodedClaims(p, iat).fields;
    assert Get(m, "id") == Str(p.id);
    assert Get(m, "username") == Str(p.username);
    assert Get(m, "exp") == Num(p.exp);
  }

  // ---------------------------------------------------------------------
  // createAuthenticatedHandler

  /** What the wrapping handler does with a request: answer 401, call the
      wrapped handler with the parsed payload, or do nothing at all. */
  datatype Decision = Respond401 | Invoke(payload: JwtPayload) | NoResponse

  /** `!token` in the handler: null, undefined and "" are falsy. */
  predicate IsTruthy(t: TokenLookup)
    ensures t == NullToken || t == UndefinedToken || t == TokenSegment("") ==> !IsTruthy(t)
    ensures t.TokenSegment? && t.token != "" ==> IsTruthy(t)
  {
    t.TokenSegment? && t.token != ""
  }

  /** The closure returned by `createAuthenticatedHandler`, with `jwt.verify`
      (signature and expiry checks included) passed in as `verify`. */
  function HandleRequest(v: Validators, authorization: Option<string>, verify: string -> Value): (d: Decision)
    ensures d.Respond401? <==> !IsTruthy(GetTokenFromHeader(authorization))
    ensures d.Invoke? ==>
      IsTruthy(GetTokenFromHeader(authorization))
      && ParseToJwtPayload(v, verify(GetTokenFromHeader(authorization).token)) == Right(d.payload)
    ensures d.NoResponse? <==>
      IsTruthy(GetTokenFromHeader(authorization))
      && ParseToJwtPayload(v, verify(GetTokenFromHeader(authorization).token)).Left?
  {
    var token := GetTokenFromHeader(authorization);
    if !IsTruthy(token) then Respond401
    else
      match ParseToJwtPayload(v, verify(token.token))
      case Left(_) => NoResponse
      case Right(payload) => Invoke(payload)
  }

  /** A request carrying `Token <t>` or `Bearer <t>`, where `t` decodes to
      well-formed claims, reaches the wrapped handler with exactly those claims. */
  lemma SignedRequestReachesHandler(
    v: Validators, scheme: string, t: string, verify: string -> Value, p: JwtPayload, iat: real)
    requires scheme == "Token" || scheme == "Bearer"
    requires t != "" && ' ' !in t
    requires verify(t) == DecodedClaims(p, iat) && v.isValidObjectId(p.id)
    ensures HandleRequest(v, Some(scheme + " " + t), verify) == Invoke(p)
  {
    SchemeHeaderGivesToken(scheme, t);
    DecodedClaimsParse(v, p, iat);
  }
}
