/**
 * Clients of the runtime, checked against the contracts alone: clones share
 * one mailbox, and a request/response exchange with an actor that answers
 * every integer with its successor.
 */
module Scenario {
  import opened Wrappers
  import opened Any
  import opened Eventual
  import opened Cells
  import RefDispatch
  import opened CanReceive
  import Factory

  /**
   * An envelope enqueued through one clone of a cell is the one handled
   * through another clone: both are the same mailbox.
   */
  method CellClonesShareMailbox(cell: ActorCell, message: Value, sender: Receiver)
    requires cell.inner.Valid() && cell.inner.mailbox == []
    requires TagOf(message) == cell.inner.messageType
    modifies cell.inner, cell.inner.system
    ensures cell.inner.Valid() && cell.inner.mailbox == []
    ensures cell.inner.delivered == old(cell.inner.delivered) + [Envelope(message, sender)]
    ensures cell.Sender() == Success(sender)
  {
    var other := cell.Clone();
    other.ReceiveMessage(message, sender);
    cell.HandleEnvelope();
  }

  /** The same through two clones of an `ActorRef`, using the type-erased entry points. */
  method RefClonesShareMailbox(r: ActorRef, message: Value, sender: Receiver) returns (o: Outcome<DispatchError>)
    requires r.actorCell.inner.Valid() && r.actorCell.inner.mailbox == []
    modifies r.actorCell.inner, r.actorCell.inner.system
    ensures r.actorCell.inner.Valid() && r.actorCell.inner.mailbox == []
    ensures o.Pass? <==> TagOf(message) == r.actorCell.inner.messageType
    ensures o.Pass? ==> r.actorCell.inner.delivered == old(r.actorCell.inner.delivered) + [Envelope(message, sender)]
    ensures o.Fail? ==> r.actorCell.inner.State() == old(r.actorCell.inner.State())
  {
    var other := r.Clone();
    o := RefDispatch.Receive(other, message, sender);
    RefDispatch.Handle(r);
  }

  /** User code of the example actor: the reply to an integer message. */
  function Successor(v: Value): Value
  {
    match v
    case Int(n) => Int(n + 1)
    case _ => v
  }

  /**
   * The actor's handler, run after the worker handled one envelope: replies
   * to the current sender with the successor of the message just received.
   */
  method ReplyWithSuccessor(cell: ActorCell) returns (o: Outcome<DispatchError>)
    requires cell.inner.Valid() && cell.inner.delivered != []
    requires Ready(cell.Sender().value)
    modifies Footprint(cell.Sender().value)
    ensures Ready(old(cell.Sender().value))
    ensures Received(old(cell.Sender().value), Successor(old(cell.inner.delivered[|cell.inner.delivered| - 1].message)),
                     ActorReceiver(cell.SelfRef()), o)
  {
    var to := cell.Sender().value;
    o := Tell(cell, to, Successor(cell.inner.delivered[|cell.inner.delivered| - 1].message));
  }

  /**
   * Asking the successor actor for 41 resolves to 42; a string sent to it is
   * a reported type mismatch; and a later ask for 10 still resolves to 11.
   */
  method AskSuccessor() returns (first: Option<Value>, mismatch: Outcome<DispatchError>, second: Option<Value>)
    ensures first == Some(Int(42))
    ensures mismatch == Fail(TypeMismatch)
    ensures second == Some(Int(11))
  {
    var system := new ActorSystem();
    var props := Factory.New((v: Value) => v, Int(0));
    var askerProps := Factory.New((v: Value) => v, Unit);
    var actor := ActorCell.New(props.Create(), props, system, IntType);
    var asker := ActorCell.New(askerProps.Create(), askerProps, system, IntType);
    var target := ActorReceiver(actor.SelfRef());

    var f1 := AskFor(asker, target, Int(41));
    actor.HandleEnvelope();
    var reply := ReplyWithSuccessor(actor);
    first := f1.value.Poll();

    mismatch := Tell(asker, target, Str("x"));

    var f2 := AskFor(asker, target, Int(10));
    actor.HandleEnvelope();
    reply := ReplyWithSuccessor(actor);
    second := f2.value.Poll();
  }
}
