/**
 * `CanReceive` for `ActorRef`: the type-erased entry point of an actor. A
 * payload of the actor's message type is forwarded to the cell; any other
 * payload is a reported type mismatch that leaves the cell untouched.
 */
module RefDispatch {
  import opened Wrappers
  import opened Any
  import opened Cells

  /**
   * `receive`: downcasts the payload to the actor's message type and, on
   * success, forwards exactly that message and that sender to the cell's
   * `receive_message` (one envelope, one scheduling request). A mismatch
   * changes neither the mailbox nor the scheduler.
   */
  method Receive(target: ActorRef, message: Value, sender: Receiver) returns (o: Outcome<DispatchError>)
    requires target.actorCell.inner.Valid()
    modifies target.actorCell.inner, target.actorCell.inner.system
    ensures target.actorCell.inner.Valid()
    ensures o.Pass? <==> TagOf(message) == target.actorCell.inner.messageType
    ensures o.Pass? ==>
      && target.actorCell.inner.State() == Pushed(old(target.actorCell.inner.State()), Envelope(message, sender))
      && target.actorCell.inner.system.requests == old(target.actorCell.inner.system.requests) + [target]
    ensures o.Fail? ==>
      && o.error == TypeMismatch
      && unchanged(target.actorCell.inner, target.actorCell.inner.system)
  {
    match Downcast(message, target.actorCell.inner.messageType)
    case Success(m) =>
      target.actorCell.ReceiveMessage(m, sender);
      o := Pass;
    case Failure(e) =>
      o := Fail(e);
  }

  /** `handle`: delegates to the cell's `handle_envelope` and does nothing else. */
  method Handle(target: ActorRef)
    requires target.actorCell.inner.Valid()
    modifies target.actorCell.inner
    ensures target.actorCell.inner.Valid()
    ensures target.actorCell.inner.State() == Popped(old(target.actorCell.inner.State()))
  {
    target.actorCell.HandleEnvelope();
  }
}
