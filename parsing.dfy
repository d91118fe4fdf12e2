/** `src/users/parsing.ts`: the accumulating validators that turn an untrusted
    value into a `User` or a `CreateUserPayload`. Every field parser runs, and
    the per-field error maps are merged (`getValidation` over the object
    semigroup, i.e. `Object.assign`, which is Dafny's right-biased map `+`). */
module Parsing {
  import opened Fp
  import opened Values
  import opened Types
  import opened UserModel

  /** Field name to reason; each field parser contributes at most its own key. */
  type FieldErrors = map<string, string>

  datatype UserParsingError = NotAnObject | InvalidFields(errors: FieldErrors)

  const NotAValidId := "Not a valid ID"
  const NotAString := "Not a string"
  const NotAValidEmail := "Not a valid email"
  const NotAValidUrl := "Not a valid URL"
  const NotAnArrayOfIds := "Not an array of valid IDs"

  // ---------------------------------------------------------------------
  // The field parsers

  /** `parseId`. */
  function ParseId(v: Validators, input: Value): (r: Either<FieldErrors, MongoId>)
    ensures r.Right? <==> MongoIdOf(v, input).Some?
    ensures r.Right? ==> MongoIdOf(v, input) == Some(r.right)
    ensures r.Left? ==> r.left == map["_id" := NotAValidId]
  {
    match MongoIdOf(v, input)
    case None => Left(map["_id" := NotAValidId])
    case Some(id) => Right(id)
  }

  /** `parseString(fieldName)`; `parseUsername`, `parseHash`, `parseSalt` and
      the password parser are this with their own field name (the `Hash` and
      `Salt` casts change nothing). */
  function ParseString(fieldName: string, input: Value): (r: Either<FieldErrors, string>)
    ensures r.Right? <==> input.Str?
    ensures r.Right? ==> input == Str(r.right)
    ensures r.Left? ==> r.left == map[fieldName := NotAString]
  {
    match AsString(input)
    case None => Left(map[fieldName := NotAString])
    case Some(s) => Right(s)
  }

  /** `parseBio`: undefined (or absent) is no bio; any other non-string,
      null included, is an error. */
  function ParseBio(input: Value): (r: Either<FieldErrors, Option<string>>)
    ensures input.Undefined? ==> r == Right(None)
    ensures input.Str? ==> r == Right(Some(input.s))
    ensures !input.Undefined? && !input.Str? ==> r == Left(map["bio" := NotAString])
  {
    if input.Undefined? then Right(None)
    else
      match ParseString("bio", input)
      case Left(errors) => Left(errors)
      case Right(s) => Right(Some(s))
  }

  /** `parseEmail`. */
  function ParseEmail(v: Validators, input: Value): (r: Either<FieldErrors, Email>)
    ensures r.Right? <==> input.Str? && v.isEmail(input.s)
    ensures r.Right? ==> input == Str(r.right)
    ensures r.Left? ==> r.left == map["email" := NotAValidEmail]
  {
    match EmailOf(v, input)
    case None => Left(map["email" := NotAValidEmail])
    case Some(e) => Right(e)
  }

  /** `parseImage`: undefined (or absent) is no image; a URL string is
      wrapped; anything else, null included, is an error. */
  function ParseImage(v: Validators, input: Value): (r: Either<FieldErrors, Option<Url>>)
    ensures input.Undefined? ==> r == Right(None)
    ensures input.Str? && v.isUrl(input.s) ==> r == Right(Some(input.s))
    ensures !input.Undefined? && !(input.Str? && v.isUrl(input.s)) ==> r == Left(map["image" := NotAValidUrl])
  {
    if input.Undefined? then Right(None)
    else
      match UrlOf(v, input)
      case None => Left(map["image" := NotAValidUrl])
      case Some(url) => Right(Some(url))
  }

  /** `parseArrayOfIds(fieldName)`: one error for the whole field if the
      value is not an array or any element is not an ID. */
  function ParseArrayOfIds(v: Validators, fieldName: string, input: Value): (r: Either<FieldErrors, seq<MongoId>>)
    ensures r.Right? <==> input.Arr? && forall i :: 0 <= i < |input.elems| ==> MongoIdOf(v, input.elems[i]).Some?
    ensures r.Right? ==> |r.right| == |input.elems|
    ensures r.Right? ==> forall i :: 0 <= i < |input.elems| ==> MongoIdOf(v, input.elems[i]) == Some(r.right[i])
    ensures r.Left? ==> r.left == map[fieldName := NotAnArrayOfIds]
  {
    match AsArray(input)
    case None => Left(map[fieldName := NotAnArrayOfIds])
    case Some(elems) =>
      match ArrayOf(x => MongoIdOf(v, x), elems)
      case None => Left(map[fieldName := NotAnArrayOfIds])
      case Some(ids) => Right(ids)
  }

  // ---------------------------------------------------------------------
  // Reference: which fields fail and with what reason

  /** The rule for each field, stated on its own. */
  predicate FieldOk(v: Validators, name: string, x: Value)
  {
    if name == "_id" then MongoIdOf(v, x).Some?
    else if name == "email" then x.Str? && v.isEmail(x.s)
    else if name == "bio" then x.Undefined? || x.Str?
    else if name == "image" then x.Undefined? || (x.Str? && v.isUrl(x.s))
    else if name == "favorites" || name == "following" then
      x.Arr? && forall i :: 0 <= i < |x.elems| ==> MongoIdOf(v, x.elems[i]).Some?
    else x.Str?  // username, hash, salt, password
  }

  /** The reason reported for a field that fails. */
  function FieldMessage(name: string): string
  {
    if name == "_id" then NotAValidId
    else if name == "email" then NotAValidEmail
    else if name == "image" then NotAValidUrl
    else if name == "favorites" || name == "following" then NotAnArrayOfIds
    else NotAString
  }

  /** The errors an accumulating validator over `names` should report for the
      record `m`: an entry for exactly the failing fields. */
  function ExpectedErrors(v: Validators, names: set<string>, m: map<string, Value>): FieldErrors
  {
    map name | name in names && !FieldOk(v, name, Get(m, name)) :: FieldMessage(name)
  }

  lemma ExpectedErrorsUnion(v: Validators, a: set<string>, b: set<string>, m: map<string, Value>)
    ensures ExpectedErrors(v, a, m) + ExpectedErrors(v, b, m) == ExpectedErrors(v, a + b, m)
  {
  }

  const UserFieldNames: set<string> :=
    {"_id", "username", "email", "bio", "image", "favorites", "following", "hash", "salt"}

  // ---------------------------------------------------------------------
  // parseUser

  function ErrorsOf<T>(r: Either<FieldErrors, T>): FieldErrors
  {
    if r.Left? then r.left else map[]
  }

  /** Every entry of `errors` names one of `names` and carries that field's
      fixed message. */
  predicate Tagged(errors: FieldErrors, names: set<string>)
  {
    forall name | name in errors :: name in names && errors[name] == FieldMessage(name)
  }

  /** A single field's result, if it fails, is a well-tagged entry for that field. */
  lemma SingleTagged<T>(r: Either<FieldErrors, T>, name: string, names: set<string>)
    requires name in names
    requires r.Left? ==> r.left == map[name := FieldMessage(name)]
    ensures Tagged(ErrorsOf(r), names)
  {
  }

  /** Merging keeps entries well tagged. */
  lemma MergeTagged(a: FieldErrors, b: FieldErrors, names: set<string>)
    requires Tagged(a, names) && Tagged(b, names)
    ensures Tagged(a + b, names)
  {
  }

  lemma MergeNineTagged(e1: FieldErrors, e2: FieldErrors, e3: FieldErrors, e4: FieldErrors, e5: FieldErrors,
                        e6: FieldErrors, e7: FieldErrors, e8: FieldErrors, e9: FieldErrors, names: set<string>)
    requires Tagged(e1, names) && Tagged(e2, names) && Tagged(e3, names) && Tagged(e4, names)
    requires Tagged(e5, names) && Tagged(e6, names) && Tagged(e7, names) && Tagged(e8, names)
    requires Tagged(e9, names)
    ensures Tagged(e1 + e2 + e3 + e4 + e5 + e6 + e7 + e8 + e9, names)
  {
    MergeTagged(e1, e2, names);
    MergeTagged(e1 + e2, e3, names);
    MergeTagged(e1 + e2 + e3, e4, names);
    MergeTagged(e1 + e2 + e3 + e4, e5, names);
    MergeTagged(e1 + e2 + e3 + e4 + e5, e6, names);
    MergeTagged(e1 + e2 + e3 + e4 + e5 + e6, e7, names);
    MergeTagged(e1 + e2 + e3 + e4 + e5 + e6 + e7, e8, names);
    MergeTagged(e1 + e2 + e3 + e4 + e5 + e6 + e7 + e8, e9, names);
  }

  /** Each of the nine field parsers fails, if at all, with its own field's message. */
  lemma UserFieldResultsTagged(v: Validators, m: map<string, Value>)
    ensures Tagged(ErrorsOf(ParseId(v, Get(m, "_id"))), UserFieldNames)
    ensures Tagged(ErrorsOf(ParseString("username", Get(m, "username"))), UserFieldNames)
    ensures Tagged(ErrorsOf(ParseEmail(v, Get(m, "email"))), UserFieldNames)
    ensures Tagged(ErrorsOf(ParseBio(Get(m, "bio"))), UserFieldNames)
    ensures Tagged(ErrorsOf(ParseImage(v, Get(m, "image"))), UserFieldNames)
    ensures Tagged(ErrorsOf(ParseArrayOfIds(v, "favorites", Get(m, "favorites"))), UserFieldNames)
    ensures Tagged(ErrorsOf(ParseArrayOfIds(v, "following", Get(m, "following"))), UserFieldNames)
    ensures Tagged(ErrorsOf(ParseString("hash", Get(m, "hash"))), UserFieldNames)
    ensures Tagged(ErrorsOf(ParseString("salt", Get(m, "salt"))), UserFieldNames)
  {
    assert Tagged(ErrorsOf(ParseId(v, Get(m, "_id"))), UserFieldNames) by {
      SingleTagged(ParseId(v, Get(m, "_id")), "_id", UserFieldNames);
    }
    assert Tagged(ErrorsOf(ParseString("username", Get(m, "username"))), UserFieldNames) by {
      SingleTagged(ParseString("username", Get(m, "username")), "username", UserFieldNames);
    }
    assert Tagged(ErrorsOf(ParseEmail(v, Get(m, "email"))), UserFieldNames) by {
      SingleTagged(ParseEmail(v, Get(m, "email")), "email", UserFieldNames);
    }
    assert Tagged(ErrorsOf(ParseBio(Get(m, "bio"))), UserFieldNames) by {
      SingleTagged(ParseBio(Get(m, "bio")), "bio", UserFieldNames);
    }
    assert Tagged(ErrorsOf(ParseImage(v, Get(m, "image"))), UserFieldNames) by {
      SingleTagged(ParseImage(v, Get(m, "image")), "image", UserFieldNames);
    }
    assert Tagged(ErrorsOf(ParseArrayOfIds(v, "favorites", Get(m, "favorites"))), UserFieldNames) by {
      SingleTagged(ParseArrayOfIds(v, "favorites", Get(m, "favorites")), "favorites", UserFieldNames);
    }
    assert Tagged(ErrorsOf(ParseArrayOfIds(v, "following", Get(m, "following"))), UserFieldNames) by {
      SingleTagged(ParseArrayOfIds(v, "following", Get(m, "following")), "following", UserFieldNames);
    }
    assert Tagged(ErrorsOf(ParseString("hash", Get(m, "hash"))), UserFieldNames) by {
      SingleTagged(ParseString("hash", Get(m, "hash")), "hash", UserFieldNames);
    }
    SingleTagged(ParseString("salt", Get(m, "salt")), "salt", UserFieldNames);
  }

  /** The merge of all nine field results, in the order `parseUser` lists them. */
  function AccumulatedUserErrors(v: Validators, m: map<string, Value>): (errors: FieldErrors)
    ensures forall name | name in errors :: name in UserFieldNames && errors[name] == FieldMessage(name)
  {
    var e1 := ErrorsOf(ParseId(v, Get(m, "_id")));
    var e2 := ErrorsOf(ParseString("username", Get(m, "username")));
    var e3 := ErrorsOf(ParseEmail(v, Get(m, "email")));
    var e4 := ErrorsOf(ParseBio(Get(m, "bio")));
    var e5 := ErrorsOf(ParseImage(v, Get(m, "image")));
    var e6 := ErrorsOf(ParseArrayOfIds(v, "favorites", Get(m, "favorites")));
    var e7 := ErrorsOf(ParseArrayOfIds(v, "following", Get(m, "following")));
    var e8 := ErrorsOf(ParseString("hash", Get(m, "hash")));
    var e9 := ErrorsOf(ParseString("salt", Get(m, "salt")));
    UserFieldResultsTagged(v, m);
    MergeNineTagged(e1, e2, e3, e4, e5, e6, e7, e8, e9, UserFieldNames);
    e1 + e2 + e3 + e4 + e5 + e6 + e7 + e8 + e9
  }

  predicate AllUserFieldsParse(v: Validators, m: map<string, Value>)
  {
    && ParseId(v, Get(m, "_id")).Right?
    && ParseString("username", Get(m, "username")).Right?
    && ParseEmail(v, Get(m, "email")).Right?
    && ParseBio(Get(m, "bio")).Right?
    && ParseImage(v, Get(m, "image")).Right?
    && ParseArrayOfIds(v, "favorites", Get(m, "favorites")).Right?
    && ParseArrayOfIds(v, "following", Get(m, "following")).Right?
    && ParseString("hash", Get(m, "hash")).Right?
    && ParseString("salt", Get(m, "salt")).Right?
  }

  /** The value an optional field was read from: undefined for none, the string otherwise. */
  function OptionalValue(o: Option<string>): Value
  {
    if o.Some? then Str(o.value) else Undefined
  }

  /** `ids` is what `parseArrayOfIds` reads from `x`, element by element. */
  predicate IdsParsedFrom(v: Validators, x: Value, ids: seq<MongoId>)
  {
    x.Arr? && |x.elems| == |ids| && forall i :: 0 <= i < |ids| ==> MongoIdOf(v, x.elems[i]) == Some(ids[i])
  }

  /** `parseUser`: a non-plain-object is `NotAnObject` with no field errors;
      otherwise all nine fields are parsed and either all succeed, giving
      exactly those nine validated values (other keys are dropped), or their
      errors are merged into `InvalidFields`. */
  function ParseUser(v: Validators, input: Value): (r: Either<UserParsingError, User>)
    ensures r == Left(NotAnObject) <==> !input.Obj?
    ensures r.Left? && input.Obj? ==> r.left.InvalidFields?
    ensures r.Right? ==>
      var m := input.fields;
      && MongoIdOf(v, Get(m, "_id")) == Some(r.right.id)
      && Get(m, "username") == Str(r.right.username)
      && Get(m, "email") == Str(r.right.email) && v.isEmail(r.right.email)
      && Get(m, "bio") == OptionalValue(r.right.bio)
      && Get(m, "image") == OptionalValue(r.right.image)
      && (r.right.image.Some? ==> v.isUrl(r.right.image.value))
      && IdsParsedFrom(v, Get(m, "favorites"), r.right.favorites)
      && IdsParsedFrom(v, Get(m, "following"), r.right.following)
      && Get(m, "hash") == Str(r.right.hash)
      && Get(m, "salt") == Str(r.right.salt)
  {
    match UnknownObject(input)
    case None => Left(NotAnObject)
    case Some(m) =>
      if AllUserFieldsParse(v, m) then
        Right(User(
          ParseId(v, Get(m, "_id")).right,
          ParseString("username", Get(m, "username")).right,
          ParseEmail(v, Get(m, "email")).right,
          ParseBio(Get(m, "bio")).right,
          ParseImage(v, Get(m, "image")).right,
          ParseArrayOfIds(v, "favorites", Get(m, "favorites")).right,
          ParseArrayOfIds(v, "following", Get(m, "following")).right,
          ParseString("hash", Get(m, "hash")).right,
          ParseString("salt", Get(m, "salt")).right))
      else
        Left(InvalidFields(AccumulatedUserErrors(v, m)))
  }

  /** A field result whose error is the reference error of its field. */
  lemma OwnFieldError<T>(v: Validators, name: string, m: map<string, Value>, r: Either<FieldErrors, T>)
    requires r.Left? <==> !FieldOk(v, name, Get(m, name))
    requires r.Left? ==> r.left == map[name := FieldMessage(name)]
    ensures ErrorsOf(r) == ExpectedErrors(v, {name}, m)
  {
    if r.Left? {
      assert ExpectedErrors(v, {name}, m).Keys == {name};
    } else {
      assert ExpectedErrors(v, {name}, m).Keys == {};
    }
  }

  // Each field parser reports exactly its own field's reference error.

  lemma IdFieldErrorIsOwn(v: Validators, m: map<string, Value>)
    ensures ErrorsOf(ParseId(v, Get(m, "_id"))) == ExpectedErrors(v, {"_id"}, m)
  {
    OwnFieldError(v, "_id", m, ParseId(v, Get(m, "_id")));
  }

  lemma UsernameFieldErrorIsOwn(v: Validators, m: map<string, Value>)
    ensures ErrorsOf(ParseString("username", Get(m, "username"))) == ExpectedErrors(v, {"username"}, m)
  {
    OwnFieldError(v, "username", m, ParseString("username", Get(m, "username")));
  }

  lemma EmailFieldErrorIsOwn(v: Validators, m: map<string, Value>)
    ensures ErrorsOf(ParseEmail(v, Get(m, "email"))) == ExpectedErrors(v, {"email"}, m)
  {
    OwnFieldError(v, "email", m, ParseEmail(v, Get(m, "email")));
  }

  lemma BioFieldErrorIsOwn(v: Validators, m: map<string, Value>)
    ensures ErrorsOf(ParseBio(Get(m, "bio"))) == ExpectedErrors(v, {"bio"}, m)
  {
    OwnFieldError(v, "bio", m, ParseBio(Get(m, "bio")));
  }

  lemma ImageFieldErrorIsOwn(v: Validators, m: map<string, Value>)
    ensures ErrorsOf(ParseImage(v, Get(m, "image"))) == ExpectedErrors(v, {"image"}, m)
  {
    OwnFieldError(v, "image", m, ParseImage(v, Get(m, "image")));
  }

  lemma FavoritesFieldErrorIsOwn(v: Validators, m: map<string, Value>)
    ensures ErrorsOf(ParseArrayOfIds(v, "favorites", Get(m, "favorites"))) == ExpectedErrors(v, {"favorites"}, m)
  {
    OwnFieldError(v, "favorites", m, ParseArrayOfIds(v, "favorites", Get(m, "favorites")));
  }

  lemma FollowingFieldErrorIsOwn(v: Validators, m: map<string, Value>)
    ensures ErrorsOf(ParseArrayOfIds(v, "following", Get(m, "following"))) == ExpectedErrors(v, {"following"}, m)
  {
    OwnFieldError(v, "following", m, ParseArrayOfIds(v, "following", Get(m, "following")));
  }

  lemma HashFieldErrorIsOwn(v: Validators, m: map<string, Value>)
    ensures ErrorsOf(ParseString("hash", Get(m, "hash"))) == ExpectedErrors(v, {"hash"}, m)
  {
    OwnFieldError(v, "hash", m, ParseString("hash", Get(m, "hash")));
  }

  lemma SaltFieldErrorIsOwn(v: Validators, m: map<string, Value>)
    ensures ErrorsOf(ParseString("salt", Get(m, "salt"))) == ExpectedErrors(v, {"salt"}, m)
  {
    OwnFieldError(v, "salt", m, ParseString("salt", Get(m, "salt")));
  }

  /** One more field's reference errors extend the reference errors of the
      fields so far. */
  lemma ExtendExpected(v: Validators, m: map<string, Value>, names: set<string>, errors: FieldErrors, name: string, own: FieldErrors)
    requires errors == ExpectedErrors(v, names, m) && own == ExpectedErrors(v, {name}, m)
    ensures errors + own == ExpectedErrors(v, names + {name}, m)
  {
    ExpectedErrorsUnion(v, names, {name}, m);
  }

  /** The merged map is the reference map over the nine user fields. */
  lemma AccumulatedUserErrorsExact(v: Validators, m: map<string, Value>)
    ensures AccumulatedUserErrors(v, m) == ExpectedErrors(v, UserFieldNames, m)
  {
    var e1 := ErrorsOf(ParseId(v, Get(m, "_id")));
    var e2 := ErrorsOf(ParseString("username", Get(m, "username")));
    var e3 := ErrorsOf(ParseEmail(v, Get(m, "email")));
    var e4 := ErrorsOf(ParseBio(Get(m, "bio")));
    var e5 := ErrorsOf(ParseImage(v, Get(m, "image")));
    var e6 := ErrorsOf(ParseArrayOfIds(v, "favorites", Get(m, "favorites")));
    var e7 := ErrorsOf(ParseArrayOfIds(v, "following", Get(m, "following")));
    var e8 := ErrorsOf(ParseString("hash", Get(m, "hash")));
    var e9 := ErrorsOf(ParseString("salt", Get(m, "salt")));
    assert e1 == ExpectedErrors(v, {"_id"}, m) by { IdFieldErrorIsOwn(v, m); }
    assert e2 == ExpectedErrors(v, {"username"}, m) by { UsernameFieldErrorIsOwn(v, m); }
    assert e3 == ExpectedErrors(v, {"email"}, m) by { EmailFieldErrorIsOwn(v, m); }
    assert e4 == ExpectedErrors(v, {"bio"}, m) by { BioFieldErrorIsOwn(v, m); }
    assert e5 == ExpectedErrors(v, {"image"}, m) by { ImageFieldErrorIsOwn(v, m); }
    assert e6 == ExpectedErrors(v, {"favorites"}, m) by { FavoritesFieldErrorIsOwn(v, m); }
    assert e7 == ExpectedErrors(v, {"following"}, m) by { FollowingFieldErrorIsOwn(v, m); }
    assert e8 == ExpectedErrors(v, {"hash"}, m) by { HashFieldErrorIsOwn(v, m); }
    assert e9 == ExpectedErrors(v, {"salt"}, m) by { SaltFieldErrorIsOwn(v, m); }
    MergeNine(v, m, e1, e2, e3, e4, e5, e6, e7, e8, e9);
  }

  /** Merging the nine single-field reference maps, in `parseUser`'s order,
      gives the reference map over all nine fields. */
  lemma MergeNine(v: Validators, m: map<string, Value>,
                  e1: FieldErrors, e2: FieldErrors, e3: FieldErrors, e4: FieldErrors, e5: FieldErrors,
                  e6: FieldErrors, e7: FieldErrors, e8: FieldErrors, e9: FieldErrors)
    requires e1 == ExpectedErrors(v, {"_id"}, m) && e2 == ExpectedErrors(v, {"username"}, m)
    requires e3 == ExpectedErrors(v, {"email"}, m) && e4 == ExpectedErrors(v, {"bio"}, m)
    requires e5 == ExpectedErrors(v, {"image"}, m) && e6 == ExpectedErrors(v, {"favorites"}, m)
    requires e7 == ExpectedErrors(v, {"following"}, m) && e8 == ExpectedErrors(v, {"hash"}, m)
    requires e9 == ExpectedErrors(v, {"salt"}, m)
    ensures e1 + e2 + e3 + e4 + e5 + e6 + e7 + e8 + e9 == ExpectedErrors(v, UserFieldNames, m)
  {
    var names := {"_id"};
    var errors := e1;
    ExtendExpected(v, m, names, errors, "username", e2);
    names, errors := names + {"username"}, errors + e2;
    ExtendExpected(v, m, names, errors, "email", e3);
    names, errors := names + {"email"}, errors + e3;
    ExtendExpected(v, m, names, errors, "bio", e4);
    names, errors := names + {"bio"}, errors + e4;
    ExtendExpected(v, m, names, errors, "image", e5);
    names, errors := names + {"image"}, errors + e5;
    ExtendExpected(v, m, names, errors, "favorites", e6);
    names, errors := names + {"favorites"}, errors + e6;
    ExtendExpected(v, m, names, errors, "following", e7);
    names, errors := names + {"following"}, errors + e7;
    ExtendExpected(v, m, names, errors, "hash", e8);
    names, errors := names + {"hash"}, errors + e8;
    ExtendExpected(v, m, names, errors, "salt", e9);
    names, errors := names + {"salt"}, errors + e9;
    assert names == UserFieldNames;
  }

  /** The merged map is empty exactly when every field parser succeeded. */
  lemma AccumulatedUserErrorsEmpty(v: Validators, m: map<string, Value>)
    ensures AccumulatedUserErrors(v, m) == map[] <==> AllUserFieldsParse(v, m)
  {
    var errors := AccumulatedUserErrors(v, m);
    if ParseId(v, Get(m, "_id")).Left? {
      assert "_id" in errors;
    } else if ParseString("username", Get(m, "username")).Left? {
      assert "username" in errors;
    } else if ParseEmail(v, Get(m, "email")).Left? {
      assert "email" in errors;
    } else if ParseBio(Get(m, "bio")).Left? {
      assert "bio" in errors;
    } else if ParseImage(v, Get(m, "image")).Left? {
      assert "image" in errors;
    } else if ParseArrayOfIds(v, "favorites", Get(m, "favorites")).Left? {
      assert "favorites" in errors;
    } else if ParseArrayOfIds(v, "following", Get(m, "following")).Left? {
      assert "following" in errors;
    } else if ParseString("hash", Get(m, "hash")).Left? {
      assert "hash" in errors;
    } else if ParseString("salt", Get(m, "salt")).Left? {
      assert "salt" in errors;
    }
  }

  /** The accumulation loses nothing and adds nothing: `parseUser` on a record
      fails exactly when some field fails, and then reports precisely the
      failing fields, each with its fixed reason. */
  lemma ParseUserReportsExactlyFailingFields(v: Validators, m: map<string, Value>)
    ensures ParseUser(v, Obj(m)).Right? <==> ExpectedErrors(v, UserFieldNames, m) == map[]
    ensures ParseUser(v, Obj(m)).Left? ==>
      ParseUser(v, Obj(m)) == Left(InvalidFields(ExpectedErrors(v, UserFieldNames, m)))
  {
    AccumulatedUserErrorsExact(v, m);
    AccumulatedUserErrorsEmpty(v, m);
  }

  /** Merging one more single-field error is adding that entry. */
  lemma MergeOne(errors: FieldErrors, name: string, reason: string)
    ensures errors + map[name := reason] == errors[name := reason]
  {
  }

  /** The two cases of `src/users/parsing.spec.ts` for `parseUser` that fail:
      null, and a record holding only `bio: null, image: 2`. */
  lemma ParseUserRejectsNullAndReportsAllNine(v: Validators)
    ensures ParseUser(v, Null) == Left(NotAnObject)
    ensures ParseUser(v, Obj(map["bio" := Null, "image" := Num(2.0)])) == Left(InvalidFields(map[
      "_id" := NotAValidId, "username" := NotAString, "email" := NotAValidEmail,
      "bio" := NotAString, "image" := NotAValidUrl,
      "favorites" := NotAnArrayOfIds, "following" := NotAnArrayOfIds,
      "hash" := NotAString, "salt" := NotAString]))
  {
    var m := map["bio" := Null, "image" := Num(2.0)];
    assert Get(m, "_id") == Undefined && Get(m, "username") == Undefined && Get(m, "email") == Undefined;
    assert Get(m, "favorites") == Undefined && Get(m, "following") == Undefined;
    assert Get(m, "hash") == Undefined && Get(m, "salt") == Undefined;
    assert Get(m, "bio") == Null && Get(m, "image") == Num(2.0);
    MergeOne(map["_id" := NotAValidId], "username", NotAString);
    MergeOne(map["_id" := NotAValidId, "username" := NotAString], "email", NotAValidEmail);
    MergeOne(map["_id" := NotAValidId, "username" := NotAString, "email" := NotAValidEmail], "bio", NotAString);
    MergeOne(map["_id" := NotAValidId, "username" := NotAString, "email" := NotAValidEmail,
                 "bio" := NotAString], "image", NotAValidUrl);
    MergeOne(map["_id" := NotAValidId, "username" := NotAString, "email" := NotAValidEmail,
                 "bio" := NotAString, "image" := NotAValidUrl], "favorites", NotAnArrayOfIds);
    MergeOne(map["_id" := NotAValidId, "username" := NotAString, "email" := NotAValidEmail,
                 "bio" := NotAString, "image" := NotAValidUrl, "favorites" := NotAnArrayOfIds],
             "following", NotAnArrayOfIds);
    MergeOne(map["_id" := NotAValidId, "username" := NotAString, "email" := NotAValidEmail,
                 "bio" := NotAString, "image" := NotAValidUrl, "favorites" := NotAnArrayOfIds,
                 "following" := NotAnArrayOfIds], "hash", NotAString);
    MergeOne(map["_id" := NotAValidId, "username" := NotAString, "email" := NotAValidEmail,
                 "bio" := NotAString, "image" := NotAValidUrl, "favorites" := NotAnArrayOfIds,
                 "following" := NotAnArrayOfIds, "hash" := NotAString], "salt", NotAString);
  }

  /** An empty record: every required field is reported, the optional bio and
      image are not. */
  lemma ParseUserOfEmptyRecord(v: Validators)
    ensures ParseUser(v, Obj(map[])) == Left(InvalidFields(map[
      "_id" := NotAValidId, "username" := NotAString, "email" := NotAValidEmail,
      "favorites" := NotAnArrayOfIds, "following" := NotAnArrayOfIds,
      "hash" := NotAString, "salt" := NotAString]))
  {
    var m: map<string, Value> := map[];
    assert ErrorsOf(ParseBio(Get(m, "bio"))) == map[] && ErrorsOf(ParseImage(v, Get(m, "image"))) == map[];
    MergeOne(map["_id" := NotAValidId], "username", NotAString);
    MergeOne(map["_id" := NotAValidId, "username" := NotAString], "email", NotAValidEmail);
    var three := map["_id" := NotAValidId, "username" := NotAString, "email" := NotAValidEmail];
    assert three + map[] + map[] == three;
    MergeOne(three, "favorites", NotAnArrayOfIds);
    MergeOne(map["_id" := NotAValidId, "username" := NotAString, "email" := NotAValidEmail,
                 "favorites" := NotAnArrayOfIds], "following", NotAnArrayOfIds);
    MergeOne(map["_id" := NotAValidId, "username" := NotAString, "email" := NotAValidEmail,
                 "favorites" := NotAnArrayOfIds, "following" := NotAnArrayOfIds], "hash", NotAString);
    MergeOne(map["_id" := NotAValidId, "username" := NotAString, "email" := NotAValidEmail,
                 "favorites" := NotAnArrayOfIds, "following" := NotAnArrayOfIds, "hash" := NotAString],
             "salt", NotAString);
  }

  /** Removing `username` from a record whose fields all parse leaves that
      one error and no other. */
  lemma OnlyUsernameMissing(v: Validators, full: map<string, Value>)
    requires AllUserFieldsParse(v, full)
    ensures ParseUser(v, Obj(full - {"username"})) == Left(InvalidFields(map["username" := NotAString]))
  {
    var m := full - {"username"};
    assert Get(m, "username") == Undefined;
    assert Get(m, "_id") == Get(full, "_id") && Get(m, "email") == Get(full, "email");
    assert Get(m, "bio") == Get(full, "bio") && Get(m, "image") == Get(full, "image");
    assert Get(m, "favorites") == Get(full, "favorites") && Get(m, "following") == Get(full, "following");
    assert Get(m, "hash") == Get(full, "hash") && Get(m, "salt") == Get(full, "salt");
    var errors := AccumulatedUserErrors(v, m);
    assert errors == map[] + map["username" := NotAString] + map[] + map[] + map[] + map[] + map[] + map[] + map[];
    assert errors == map["username" := NotAString];
  }

  /** Keys other than the nine are ignored. */
  lemma ParseUserIgnoresOtherKeys(v: Validators, m: map<string, Value>, key: string, x: Value)
    requires key !in UserFieldNames
    ensures ParseUser(v, Obj(m[key := x])) == ParseUser(v, Obj(m))
  {
    var m' := m[key := x];
    assert forall name :: name in UserFieldNames ==> Get(m', name) == Get(m, name);
    assert Get(m', "_id") == Get(m, "_id") && Get(m', "username") == Get(m, "username");
    assert Get(m', "email") == Get(m, "email") && Get(m', "bio") == Get(m, "bio");
    assert Get(m', "image") == Get(m, "image") && Get(m', "favorites") == Get(m, "favorites");
    assert Get(m', "following") == Get(m, "following") && Get(m', "hash") == Get(m, "hash");
    assert Get(m', "salt") == Get(m, "salt");
  }

  // ---------------------------------------------------------------------
  // Stored documents

  /** An ID as stored: a string, or an `ObjectId` instance. */
  function IdValue(id: MongoId, asInstance: bool): Value
  {
    if asInstance then ObjectIdInstance(id) else Str(id)
  }

  function IdValues(ids: seq<MongoId>, asInstance: bool): (r: seq<Value>)
    ensures |r| == |ids|
  {
    seq(|ids|, i requires 0 <= i < |ids| => IdValue(ids[i], asInstance))
  }

  /** The record a user is stored as: bio and image only when present. */
  function UserDocument(u: User, idsAsInstances: bool): Value
  {
    var required := map[
      "_id" := IdValue(u.id, idsAsInstances),
      "username" := Str(u.username),
      "email" := Str(u.email),
      "favorites" := Arr(IdValues(u.favorites, idsAsInstances)),
      "following" := Arr(IdValues(u.following, idsAsInstances)),
      "hash" := Str(u.hash),
      "salt" := Str(u.salt)];
    var withBio := if u.bio.Some? then required["bio" := Str(u.bio.value)] else required;
    Obj(if u.image.Some? then withBio["image" := Str(u.image.value)] else withBio)
  }

  /** Every stored ID is an `ObjectId` instance or a string `ObjectId.isValid` accepts. */
  predicate IdsStorable(v: Validators, ids: seq<MongoId>, asInstance: bool)
  {
    asInstance || forall i :: 0 <= i < |ids| ==> v.isValidObjectId(ids[i])
  }

  /** A user the validators accept once stored. */
  predicate StorableUser(v: Validators, u: User, idsAsInstances: bool)
  {
    && (idsAsInstances || v.isValidObjectId(u.id))
    && v.isEmail(u.email)
    && (u.image.Some? ==> v.isUrl(u.image.value))
    && IdsStorable(v, u.favorites, idsAsInstances)
    && IdsStorable(v, u.following, idsAsInstances)
  }

  /** A stored ID list parses back to the same IDs (an instance gives its `toString()`). */
  lemma StoredIdsParse(v: Validators, name: string, ids: seq<MongoId>, asInstance: bool)
    requires IdsStorable(v, ids, asInstance)
    ensures ParseArrayOfIds(v, name, Arr(IdValues(ids, asInstance))) == Right(ids)
  {
    var elems := IdValues(ids, asInstance);
    forall i | 0 <= i < |elems|
      ensures MongoIdOf(v, elems[i]) == Some(ids[i])
    {
      assert elems[i] == IdValue(ids[i], asInstance);
    }
    var r := ParseArrayOfIds(v, name, Arr(elems));
    assert r.Right?;
    assert r.right == ids;
  }

  /** What each of the nine keys of a stored user holds. */
  lemma UserDocumentFields(u: User, idsAsInstances: bool)
    ensures var m := UserDocument(u, idsAsInstances).fields;
      && Get(m, "_id") == IdValue(u.id, idsAsInstances)
      && Get(m, "username") == Str(u.username)
      && Get(m, "email") == Str(u.email)
      && Get(m, "bio") == OptionalValue(u.bio)
      && Get(m, "image") == OptionalValue(u.image)
      && Get(m, "favorites") == Arr(IdValues(u.favorites, idsAsInstances))
      && Get(m, "following") == Arr(IdValues(u.following, idsAsInstances))
      && Get(m, "hash") == Str(u.hash)
      && Get(m, "salt") == Str(u.salt)
  {
  }

  /** The validator reconstructs a stored user exactly. */
  lemma ParseUserRoundTrip(v: Validators, u: User, idsAsInstances: bool)
    requires StorableUser(v, u, idsAsInstances)
    ensures ParseUser(v, UserDocument(u, idsAsInstances)) == Right(u)
  {
    var m := UserDocument(u, idsAsInstances).fields;
    UserDocumentFields(u, idsAsInstances);
    StoredIdsParse(v, "favorites", u.favorites, idsAsInstances);
    StoredIdsParse(v, "following", u.following, idsAsInstances);
    assert ParseId(v, Get(m, "_id")) == Right(u.id);
    assert ParseBio(Get(m, "bio")) == Right(u.bio);
    assert ParseImage(v, Get(m, "image")) == Right(u.image);
    assert AllUserFieldsParse(v, m);
  }

  // ---------------------------------------------------------------------
  // parseCreateUserPayload

  /** The `user` entry of `InvalidCreateUserPayloadFields`. */
  datatype PayloadUserErrors = UserNotAnObject | UserFieldErrors(errors: FieldErrors)

  datatype CreateUserPayloadParsingError =
    | PayloadNotAnObject
    | InvalidCreateUserPayloadFields(user: PayloadUserErrors)

  const NewUserFieldNames: set<string> := {"username", "email", "password"}

  /** The merge of the three field results under `user`. */
  function AccumulatedPayloadErrors(v: Validators, m: map<string, Value>): (errors: FieldErrors)
    ensures forall name | name in errors :: name in NewUserFieldNames && errors[name] == FieldMessage(name)
  {
    var e1 := ErrorsOf(ParseString("username", Get(m, "username")));
    var e2 := ErrorsOf(ParseEmail(v, Get(m, "email")));
    var e3 := ErrorsOf(ParseString("password", Get(m, "password")));
    SingleTagged(ParseString("username", Get(m, "username")), "username", NewUserFieldNames);
    SingleTagged(ParseEmail(v, Get(m, "email")), "email", NewUserFieldNames);
    SingleTagged(ParseString("password", Get(m, "password")), "password", NewUserFieldNames);
    MergeTagged(e1, e2, NewUserFieldNames);
    MergeTagged(e1 + e2, e3, NewUserFieldNames);
    e1 + e2 + e3
  }

  /** `parseCreateUserPayload`: the input must be a plain object, its `user`
      entry a plain object, and then username, email and password are
      validated with their errors merged under `user`. */
  function ParseCreateUserPayload(v: Validators, input: Value): (r: Either<CreateUserPayloadParsingError, CreateUserPayload>)
    ensures r == Left(PayloadNotAnObject) <==> !input.Obj?
    ensures input.Obj? && !Get(input.fields, "user").Obj? ==>
      r == Left(InvalidCreateUserPayloadFields(UserNotAnObject))
    ensures r.Right? ==>
      (input.Obj? && Get(input.fields, "user").Obj?
       && var m := Get(input.fields, "user").fields;
       && Get(m, "username") == Str(r.right.user.username)
       && Get(m, "email") == Str(r.right.user.email) && v.isEmail(r.right.user.email)
       && Get(m, "password") == Str(r.right.user.password))
  {
    match UnknownObject(input)
    case None => Left(PayloadNotAnObject)
    case Some(obj) =>
      match UnknownObject(Get(obj, "user"))
      case None => Left(InvalidCreateUserPayloadFields(UserNotAnObject))
      case Some(m) =>
        var username := ParseString("username", Get(m, "username"));
        var email := ParseEmail(v, Get(m, "email"));
        var password := ParseString("password", Get(m, "password"));
        if username.Right? && email.Right? && password.Right? then
          Right(CreateUserPayload(NewUserFields(username.right, email.right, password.right)))
        else
          Left(InvalidCreateUserPayloadFields(UserFieldErrors(AccumulatedPayloadErrors(v, m))))
  }

  /** Under a well-formed `user` record the payload validator, too, reports
      precisely the failing fields with their fixed reasons. */
  lemma ParseCreateUserPayloadReportsExactlyFailingFields(v: Validators, outer: map<string, Value>, m: map<string, Value>)
    requires Get(outer, "user") == Obj(m)
    ensures ParseCreateUserPayload(v, Obj(outer)).Right? <==> ExpectedErrors(v, NewUserFieldNames, m) == map[]
    ensures ParseCreateUserPayload(v, Obj(outer)).Left? ==>
      ParseCreateUserPayload(v, Obj(outer))
        == Left(InvalidCreateUserPayloadFields(UserFieldErrors(ExpectedErrors(v, NewUserFieldNames, m))))
  {
    UsernameFieldErrorIsOwn(v, m);
    EmailFieldErrorIsOwn(v, m);
    OwnFieldError(v, "password", m, ParseString("password", Get(m, "password")));
    ExpectedErrorsUnion(v, {"username"}, {"email"}, m);
    ExpectedErrorsUnion(v, {"username"} + {"email"}, {"password"}, m);
    assert {"username"} + {"email"} + {"password"} == NewUserFieldNames;
    var errors := AccumulatedPayloadErrors(v, m);
    if ParseString("username", Get(m, "username")).Left? {
      assert "username" in errors;
    } else if ParseEmail(v, Get(m, "email")).Left? {
      assert "email" in errors;
    } else if ParseString("password", Get(m, "password")).Left? {
      assert "password" in errors;
    }
  }

  /** The create-user request as it arrives: the fields nested under `user`. */
  function PayloadDocument(p: CreateUserPayload): Value
  {
    Obj(map["user" := Obj(map[
      "username" := Str(p.user.username),
      "email" := Str(p.user.email),
      "password" := Str(p.user.password)])])
  }

  /** A request built from a payload parses back to it exactly when its email is valid. */
  lemma ParseCreateUserPayloadRoundTrip(v: Validators, p: CreateUserPayload)
    ensures ParseCreateUserPayload(v, PayloadDocument(p)) == Right(p) <==> v.isEmail(p.user.email)
  {
    var m := Get(PayloadDocument(p).fields, "user").fields;
    assert Get(m, "username") == Str(p.user.username);
    assert Get(m, "email") == Str(p.user.email);
    assert Get(m, "password") == Str(p.user.password);
  }

  /** The failing case of `src/users/parsing.spec.ts`: `{user: {}}`. */
  lemma ParseCreateUserPayloadOfEmptyUser(v: Validators)
    ensures ParseCreateUserPayload(v, Obj(map["user" := Obj(map[])])) == Left(InvalidCreateUserPayloadFields(
      UserFieldErrors(map["username" := NotAString, "email" := NotAValidEmail, "password" := NotAString])))
  {
    assert Get(map["user" := Obj(map[])], "user") == Obj(map[]);
    MergeOne(map["username" := NotAString], "email", NotAValidEmail);
    MergeOne(map["username" := NotAString, "email" := NotAValidEmail], "password", NotAString);
  }

  /** Sign-up end to end: a user created from an accepted payload (with a
      valid new ID) passes `parseUser` once stored and accepts its password. */
  lemma CreatedUserIsStorable(
    v: Validators, input: Value, newId: MongoId, salt: Salt, hashFn: HashFunction)
    requires ParseCreateUserPayload(v, input).Right? && v.isValidObjectId(newId)
    ensures var u := CreateUser(ParseCreateUserPayload(v, input).right, newId, salt, hashFn);
      && ParseUser(v, UserDocument(u, false)) == Right(u)
      && IsValidPassword(ParseCreateUserPayload(v, input).right.user.password, u, hashFn)
  {
    var p := ParseCreateUserPayload(v, input).right;
    var u := CreateUser(p, newId, salt, hashFn);
    assert StorableUser(v, u, false);
    ParseUserRoundTrip(v, u, false);
    CreatedUserAcceptsPassword(p, newId, salt, hashFn);
  }
}
