/** `src/users/users.repository.ts`: what `findById` makes of the outcome of
    the MongoDB query, which it takes as input. The query's filter is modelled
    separately, over a list of stored documents, to show that as written it
    names a key the stored users do not have. */
module UsersRepository {
  import opened Fp
  import opened Values
  import opened Types
  import opened UserModel
  import opened Parsing

  /** The query either threw (carrying the thrown value) or resolved to a
      value: `null` when nothing matched, otherwise the stored document. */
  datatype QueryOutcome = QueryFailed(thrown: Value) | QueryResolved(result: Value)

  /** `RepositoryError | UserParsingError`. */
  datatype FindByIdError = RepositoryError(error: Value) | ParsingError(parsing: UserParsingError)

  /** `findById`: a failing query is a repository error carrying what was
      thrown; `null` is "no user"; any other result goes through `parseUser`,
      whose error is passed on unchanged. */
  function FindById(v: Validators, outcome: QueryOutcome): (r: Either<FindByIdError, Option<User>>)
    ensures outcome.QueryFailed? ==> r == Left(RepositoryError(outcome.thrown))
    ensures outcome == QueryResolved(Null) ==> r == Right(None)
    ensures outcome.QueryResolved? && outcome.result != Null ==>
      match ParseUser(v, outcome.result)
      case Left(e) => r == Left(ParsingError(e))
      case Right(u) => r == Right(Some(u))
    ensures r == Right(None) <==> outcome == QueryResolved(Null)
  {
    match outcome
    case QueryFailed(thrown) => Left(RepositoryError(thrown))
    case QueryResolved(result) =>
      if result == Null then Right(None)
      else
        match ParseUser(v, result)
        case Left(e) => Left(ParsingError(e))
        case Right(u) => Right(Some(u))
  }

  /** A stored user is found as itself; with `ObjectId` instances in the
      document, the IDs come back as their strings. */
  lemma FindByIdReturnsStoredUser(v: Validators, u: User, idsAsInstances: bool)
    requires StorableUser(v, u, idsAsInstances)
    ensures FindById(v, QueryResolved(UserDocument(u, idsAsInstances))) == Right(Some(u))
  {
    ParseUserRoundTrip(v, u, idsAsInstances);
  }

  /** The case of `src/users/users.repository.spec.ts`: a stored user whose
      document lacks `username` is reported as exactly that one field error. */
  lemma FindByIdReportsMissingUsername(v: Validators, u: User, idsAsInstances: bool)
    requires StorableUser(v, u, idsAsInstances)
    ensures FindById(v, QueryResolved(Obj(UserDocument(u, idsAsInstances).fields - {"username"})))
      == Left(ParsingError(InvalidFields(map["username" := NotAString])))
  {
    var full := UserDocument(u, idsAsInstances).fields;
    ParseUserRoundTrip(v, u, idsAsInstances);
    assert AllUserFieldsParse(v, full);
    OnlyUsernameMissing(v, full);
  }

  // ---------------------------------------------------------------------
  // The query: `collection.findOne({ id: new ObjectId(id) })`

  /** A stored document matches the filter `{ [key]: new ObjectId(id) }`
      when that field holds the `ObjectId` with the same value. */
  predicate Matches(document: Value, key: string, id: MongoId)
  {
    document.Obj? && Get(document.fields, key) == ObjectIdInstance(id)
  }

  /** The position of the first matching document, if any. */
  function FirstMatch(collection: seq<Value>, key: string, id: MongoId): (r: Option<nat>)
    ensures r.None? <==> forall i :: 0 <= i < |collection| ==> !Matches(collection[i], key, id)
    ensures r.Some? ==>
      && r.value < |collection|
      && Matches(collection[r.value], key, id)
      && forall j :: 0 <= j < r.value ==> !Matches(collection[j], key, id)
  {
    if collection == [] then None
    else if Matches(collection[0], key, id) then Some(0)
    else
      match FirstMatch(collection[1..], key, id)
      case None => None
      case Some(k) => Some(k + 1)
  }

  /** `findOne`: the first matching document in natural order, or `null`. */
  function FindOne(collection: seq<Value>, key: string, id: MongoId): (r: Value)
    ensures r == Null <==> forall i :: 0 <= i < |collection| ==> !Matches(collection[i], key, id)
    ensures r != Null ==> Matches(r, key, id) && r in collection
  {
    match FirstMatch(collection, key, id)
    case None => Null
    case Some(k) => collection[k]
  }

  /** `findById(id)` on a collection whose query resolves, as written: the
      filter names the field `id`. */
  function FindUserAsWritten(v: Validators, collection: seq<Value>, id: MongoId): Either<FindByIdError, Option<User>>
  {
    FindById(v, QueryResolved(FindOne(collection, "id", id)))
  }

  /** `findById(id)` with the filter on `_id`, the key users are stored under. */
  function FindUser(v: Validators, collection: seq<Value>, id: MongoId): Either<FindByIdError, Option<User>>
  {
    FindById(v, QueryResolved(FindOne(collection, "_id", id)))
  }

  /** The documents of a list of users, IDs stored as `ObjectId` instances. */
  function Documents(users: seq<User>): (docs: seq<Value>)
    ensures |docs| == |users|
    ensures forall i :: 0 <= i < |users| ==> docs[i] == UserDocument(users[i], true)
  {
    seq(|users|, i requires 0 <= i < |users| => UserDocument(users[i], true))
  }

  /** A stored user document has no `id` key, so the filter as written
      matches none of them: every lookup reports "no such user". */
  lemma FindUserAsWrittenFindsNoStoredUser(v: Validators, users: seq<User>, id: MongoId)
    ensures FindUserAsWritten(v, Documents(users), id) == Right(None)
  {
    var docs := Documents(users);
    forall i | 0 <= i < |docs|
      ensures !Matches(docs[i], "id", id)
    {
      StoredKeys(users[i]);
    }
  }

  /** A stored document holds only the user's own fields. */
  lemma StoredKeys(u: User)
    ensures UserDocument(u, true).fields.Keys <= UserFieldNames
    ensures "id" !in UserDocument(u, true).fields
  {
    assert "id" !in UserFieldNames;
  }

  /** With the filter on `_id`, a lookup of a stored user's ID returns that
      user, provided it is the first document with that ID. */
  lemma FindUserFindsStoredUser(v: Validators, users: seq<User>, k: nat)
    requires k < |users| && StorableUser(v, users[k], true)
    requires forall j :: 0 <= j < k ==> users[j].id != users[k].id
    ensures FindUser(v, Documents(users), users[k].id) == Right(Some(users[k]))
  {
    var docs := Documents(users);
    var id := users[k].id;
    forall j | 0 <= j < k
      ensures !Matches(docs[j], "_id", id)
    {
      assert Get(docs[j].fields, "_id") == ObjectIdInstance(users[j].id);
    }
    assert Get(docs[k].fields, "_id") == ObjectIdInstance(id);
    assert FirstMatch(docs, "_id", id) == Some(k);
    ParseUserRoundTrip(v, users[k], true);
  }
}
