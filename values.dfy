/** Option and Either, the two wrappers fp-ts gives the validators. */
module Fp {

  datatype Option<+T> = None | Some(value: T)

  datatype Either<+L, +R> = Left(left: L) | Right(right: R)
}

/** The untrusted input the validators receive (TypeScript's `unknown`),
    and the library predicates they consult but do not define. */
module Values {

  /** A JavaScript value as seen by `typeof`, `Array.isArray`, lodash's
      `isPlainObject` and `instanceof ObjectId`.
      `Obj` is a plain object (a record literal); class instances are the
      two cases after it: a MongoDB `ObjectId` (carrying what its
      `toString()` returns) and any other instance (`Date`, `Error`, ...). */
  datatype Value =
    | Undefined
    | Null
    | Bool(b: bool)
    | Num(n: real)
    | Str(s: string)
    | Arr(elems: seq<Value>)
    | Obj(fields: map<string, Value>)
    | ObjectIdInstance(hex: string)
    | OtherInstance(className: string)

  /** Property access `obj.key` on a plain object: a missing key reads as undefined. */
  function Get(fields: map<string, Value>, key: string): Value
  {
    if key in fields then fields[key] else Undefined
  }

  /** The format checks of the `validator` package (`isEmail`, `isURL`) and
      `ObjectId.isValid` from the MongoDB driver, left uninterpreted. */
  datatype Validators = Validators(
    isEmail: string -> bool,
    isUrl: string -> bool,
    isValidObjectId: string -> bool)
}
