/**
 * Type-erased payloads. A `Box<Any>` in the runtime carries a value of some
 * concrete type; here the concrete types a message can have form a closed
 * set, and the downcast is a total check on the type tag.
 */
module Any {
  import opened Wrappers

  /** The concrete type of a boxed payload. */
  datatype TypeTag = IntType | StrType | BoolType | UnitType

  /** A boxed payload: a value of one of the concrete types. */
  datatype Value = Int(i: int) | Str(s: string) | Bool(b: bool) | Unit

  function TagOf(v: Value): TypeTag
  {
    match v
    case Int(_) => IntType
    case Str(_) => StrType
    case Bool(_) => BoolType
    case Unit => UnitType
  }

  /** The failures the dispatch boundary reports instead of aborting. */
  datatype DispatchError =
    | TypeMismatch      // a payload of the wrong concrete type reached a receiver
    | InvalidOperation  // `handle` was called on a completion handle
    | NoCurrentSender   // `sender()` was read before any envelope was handled

  /**
   * `Box<Any>::downcast::<M>()`: recovers the payload when it has the
   * expected type, and reports a type mismatch otherwise.
   */
  function Downcast(v: Value, expected: TypeTag): (r: Result<Value, DispatchError>)
    ensures r.Success? <==> TagOf(v) == expected
    ensures r.Success? ==> r.value == v
    ensures r.Failure? ==> r.error == TypeMismatch
  {
    if TagOf(v) == expected then Success(v) else Failure(TypeMismatch)
  }

  /** Boxing a value and downcasting it to its own type gives the value back. */
  lemma DowncastOwnType(v: Value)
    ensures Downcast(v, TagOf(v)) == Success(v)
  {
  }
}
