/**
 * `CanReceive` for `Complete`: the completion handle of an ask accepts one
 * reply of the asker's message type and resolves the paired future with it.
 * It has no mailbox, so `handle` on it is always an error.
 */
module Ask {
  import opened Wrappers
  import opened Any
  import opened Eventual
  import opened Cells

  /**
   * `receive`: a payload of the expected type resolves the future with
   * exactly that value; any other payload is a type mismatch and leaves the
   * future as it was.
   */
  method CompleteReceive(c: Complete, message: Value, sender: Receiver) returns (o: Outcome<DispatchError>)
    modifies c.core
    ensures o.Pass? <==> TagOf(message) == c.core.tag
    ensures o.Pass? && old(c.core.value) == None ==> c.core.value == Some(message)
    ensures o.Fail? ==> o.error == TypeMismatch && unchanged(c.core)
  {
    match Downcast(message, c.core.tag)
    case Success(m) =>
      c.Resolve(m);
      o := Pass;
    case Failure(e) =>
      o := Fail(e);
  }

  /** `handle`: always an invalid operation, distinct from a type mismatch, whatever the handle's state. */
  function CompleteHandle(c: Complete): (o: Outcome<DispatchError>)
    ensures o.Fail? && o.error == InvalidOperation
  {
    Fail(InvalidOperation)
  }
}
