/** The refiners of `src/types.ts`: each takes an untrusted value and gives
    either the typed value or nothing, and never fails otherwise. */
module Types {
  import opened Fp
  import opened Values

  /** Branded strings: a value of these types came out of the refiner of the same name. */
  type Email = string
  type Url = string
  type MongoId = string

  /** `array`: an array is passed through unchanged. */
  function AsArray(input: Value): (r: Option<seq<Value>>)
    ensures r.Some? <==> input.Arr?
    ensures r.Some? ==> r.value == input.elems
  {
    if input.Arr? then Some(input.elems) else None
  }

  /** `arrayOf(typeConst)`: maps the refiner over the elements and succeeds
      only if it succeeded on each of them (`Array.sequence` over Option). */
  function ArrayOf<T>(typeConst: Value -> Option<T>, input: seq<Value>): (r: Option<seq<T>>)
    ensures r.Some? <==> forall i :: 0 <= i < |input| ==> typeConst(input[i]).Some?
    ensures r.Some? ==> |r.value| == |input|
    ensures r.Some? ==> forall i :: 0 <= i < |input| ==> typeConst(input[i]) == Some(r.value[i])
  {
    if input == [] then Some([])
    else
      match typeConst(input[0])
      case None => None
      case Some(head) =>
        match ArrayOf(typeConst, input[1..])
        case None => None
        case Some(tail) => Some([head] + tail)
  }

  /** `number`: `typeof input === "number"`. */
  function AsNumber(input: Value): (r: Option<real>)
    ensures r.Some? <==> input.Num?
    ensures r.Some? ==> input == Num(r.value)
  {
    if input.Num? then Some(input.n) else None
  }

  /** `string`: `typeof input === "string"`. */
  function AsString(input: Value): (r: Option<string>)
    ensures r.Some? <==> input.Str?
    ensures r.Some? ==> input == Str(r.value)
  {
    if input.Str? then Some(input.s) else None
  }

  /** The cases exercised by `src/types.spec.ts`. */
  lemma AsStringExamples()
    ensures AsString(Str("hello")) == Some("hello")
    ensures AsString(Null) == None && AsString(Obj(map[])) == None && AsString(Arr([])) == None
    ensures AsString(Num(0.0)) == None && AsString(OtherInstance("Date")) == None
  {
  }

  /** `unknownObject`: only plain objects pass; null, arrays, primitives and
      class instances do not. */
  function UnknownObject(input: Value): (r: Option<map<string, Value>>)
    ensures r.Some? <==> input.Obj?
    ensures r.Some? ==> input == Obj(r.value)
  {
    if input.Obj? then Some(input.fields) else None
  }

  /** `email`: a string accepted by `isEmail`, returned unchanged. */
  function EmailOf(v: Validators, input: Value): (r: Option<Email>)
    ensures r.Some? <==> input.Str? && v.isEmail(input.s)
    ensures r.Some? ==> input == Str(r.value)
  {
    match AsString(input)
    case None => None
    case Some(str) => if v.isEmail(str) then Some(str) else None
  }

  /** `url`: a string accepted by `isURL`, returned unchanged. */
  function UrlOf(v: Validators, input: Value): (r: Option<Url>)
    ensures r.Some? <==> input.Str? && v.isUrl(input.s)
    ensures r.Some? ==> input == Str(r.value)
  {
    match AsString(input)
    case None => None
    case Some(str) => if v.isUrl(str) then Some(str) else None
  }

  /** `mongoId`: a valid ID string is returned as it is; failing that, an
      `ObjectId` instance gives its `toString()`; anything else gives none. */
  function MongoIdOf(v: Validators, input: Value): (r: Option<MongoId>)
    ensures input.Str? && v.isValidObjectId(input.s) ==> r == Some(input.s)
    ensures input.ObjectIdInstance? ==> r == Some(input.hex)
    ensures r.Some? <==> (input.Str? && v.isValidObjectId(input.s)) || input.ObjectIdInstance?
  {
    var fromString :=
      match AsString(input)
      case None => None
      case Some(str) => if v.isValidObjectId(str) then Some(str) else None;
    match fromString
    case None => if input.ObjectIdInstance? then Some(input.hex) else None
    case Some(id) => Some(id)
  }
}
