/**
 * The `CanReceive` trait as a closed sum: a `Receiver` is either an actor
 * reference or a completion handle, and `receive` / `handle` dispatch on
 * which. The operations that are generic over any `CanReceive` target live
 * here as well: `ActorContext::tell`, `ActorRef::tell_to` and
 * `AskPattern::ask`.
 */
module CanReceive {
  import opened Wrappers
  import opened Any
  import opened Eventual
  import opened Cells
  import RefDispatch
  import Ask

  /** The objects a `receive` on `to` may change. */
  function Footprint(to: Receiver): set<object>
  {
    match to
    case ActorReceiver(r) => {r.actorCell.inner, r.actorCell.inner.system}
    case CompleteReceiver(c) => {c.core}
  }

  /** The concrete type `to` downcasts its payloads to. */
  function AcceptedType(to: Receiver): TypeTag
  {
    match to
    case ActorReceiver(r) => r.actorCell.inner.messageType
    case CompleteReceiver(c) => c.core.tag
  }

  /** An actor target's cell satisfies its invariant; a completion handle needs nothing. */
  ghost predicate Ready(to: Receiver)
    reads if to.ActorReceiver? then {to.actorRef.actorCell.inner} else {}
  {
    to.ActorReceiver? ==> to.actorRef.actorCell.inner.Valid()
  }

  /**
   * What a `receive(message, sender)` on `to` did, given its outcome: on a
   * type mismatch nothing changed; otherwise an actor target's mailbox got
   * exactly the envelope `(message, sender)` at its tail and its scheduler
   * exactly one request for it, and an unresolved completion handle was
   * resolved with `message`.
   */
  twostate predicate Received(to: Receiver, message: Value, new sender: Receiver, new o: Outcome<DispatchError>)
    reads Footprint(to)
  {
    && (o.Pass? <==> TagOf(message) == AcceptedType(to))
    && (o.Fail? ==> o.error == TypeMismatch && unchanged(Footprint(to)))
    && (o.Pass? && to.ActorReceiver? ==>
          var inner := to.actorRef.actorCell.inner;
          && inner.State() == Pushed(old(inner.State()), Envelope(message, sender))
          && inner.system.requests == old(inner.system.requests) + [to.actorRef])
    && (o.Pass? && to.CompleteReceiver? ==>
          var core := to.complete.core;
          old(core.value) == None ==> core.value == Some(message))
  }

  /** `CanReceive::receive`, dispatched on the kind of target. */
  method Receive(to: Receiver, message: Value, sender: Receiver) returns (o: Outcome<DispatchError>)
    requires Ready(to)
    modifies Footprint(to)
    ensures Ready(to) && Received(to, message, sender, o)
  {
    match to
    case ActorReceiver(r) =>
      o := RefDispatch.Receive(r, message, sender);
    case CompleteReceiver(c) =>
      o := Ask.CompleteReceive(c, message, sender);
  }

  /**
   * `CanReceive::handle`: an actor target handles one envelope; a
   * completion handle reports an invalid operation and changes nothing.
   */
  method Handle(to: Receiver) returns (o: Outcome<DispatchError>)
    requires Ready(to)
    modifies if to.ActorReceiver? then {to.actorRef.actorCell.inner} else {}
    ensures Ready(to)
    ensures o.Pass? <==> to.ActorReceiver?
    ensures o.Fail? ==> o.error == InvalidOperation
    ensures to.ActorReceiver? ==>
      to.actorRef.actorCell.inner.State() == Popped(old(to.actorRef.actorCell.inner.State()))
  {
    match to
    case ActorReceiver(r) =>
      RefDispatch.Handle(r);
      o := Pass;
    case CompleteReceiver(c) =>
      o := Ask.CompleteHandle(c);
  }

  /** `ActorContext::tell`: sends `message` to `to` with this actor's own reference as the sender. */
  method Tell(cell: ActorCell, to: Receiver, message: Value) returns (o: Outcome<DispatchError>)
    requires Ready(to)
    modifies Footprint(to)
    ensures Ready(to) && Received(to, message, ActorReceiver(cell.SelfRef()), o)
  {
    o := Receive(to, message, ActorReceiver(cell.SelfRef()));
  }

  /** `ActorRef::tell_to`: `tell` through the referenced cell, so the sender is this reference. */
  method TellTo(self: ActorRef, to: Receiver, message: Value) returns (o: Outcome<DispatchError>)
    requires Ready(to)
    modifies Footprint(to)
    ensures Ready(to) && Received(to, message, ActorReceiver(self), o)
  {
    o := Tell(self.actorCell, to, message);
  }

  /**
   * `AskPattern::ask`: builds a fresh completion/future pair for the
   * asker's message type and sends `message` to `to` exactly once, with the
   * completion handle as the sender. The returned future is unresolved: only
   * a reply through the handle resolves it. If `to` rejects the message the
   * ask fails with that mismatch and nothing changed.
   */
  method AskFor(cell: ActorCell, to: Receiver, message: Value) returns (r: Result<Future, DispatchError>)
    requires Ready(to)
    modifies Footprint(to)
    ensures Ready(to)
    ensures r.Success? <==> TagOf(message) == AcceptedType(to)
    ensures r.Failure? ==> r.error == TypeMismatch && unchanged(Footprint(to))
    ensures r.Success? ==>
      && fresh(r.value.core)
      && r.value.core.tag == cell.inner.messageType
      && r.value.Poll() == None
      && Received(to, message, CompleteReceiver(Complete(r.value.core)), Pass)
  {
    var complete, future := Pair(cell.inner.messageType);
    var o := Receive(to, message, CompleteReceiver(complete));
    if o.Fail? {
      r := Failure(o.error);
    } else {
      r := Success(future);
    }
  }
}
