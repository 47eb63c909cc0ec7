/**
 * The mailbox engine: an actor cell owns a FIFO queue of envelopes and a
 * "current sender" slot, appends to the queue on `receive_message` (then asks
 * the scheduler to run the actor), and on `handle_envelope` pops the head,
 * records its sender and hands the message to the actor.
 *
 * The model is sequential: the mailbox mutex, the sender lock and the `busy`
 * lock guard nothing here. The user's `Actor::receive` is represented by a
 * recorder of the envelopes handed to it, and the scheduler by a log of the
 * scheduling requests it was sent.
 *
 * `ActorRef` is declared here too: the cell hands out references to itself
 * and the scheduler queues them, and Dafny modules may not import each other
 * in a cycle. Its dispatch (`CanReceive`) lives in module `RefDispatch`.
 */
module Cells {
  import opened Wrappers
  import opened Any
  import opened Eventual
  import Factory

  /** An actor instance: state defined by user code, opaque to the runtime. */
  type Actor = Value

  /** `Arc<CanReceive>`: a type-erased capability that accepts messages. */
  datatype Receiver =
    | ActorReceiver(actorRef: ActorRef)
    | CompleteReceiver(complete: Complete)

  /** One mailbox entry: a message with the capability that sent it. */
  datatype Envelope = Envelope(message: Value, sender: Receiver)

  // ---------------------------------------------------------------------
  // The cell's observable state and what the two mailbox operations do to it
  // ---------------------------------------------------------------------

  /**
   * What a cell holds: its queue, its current-sender slot, and (standing in
   * for the actor's own handler) the envelopes handed to the actor so far.
   */
  datatype CellState = CellState(mailbox: seq<Envelope>, currentSender: Option<Receiver>, delivered: seq<Envelope>)

  /** A cell as `InnerActorCell::new` builds it. */
  function EmptyCell(): CellState
  {
    CellState([], None, [])
  }

  /** The current-sender slot holds the sender of the envelope handled last, or nothing before the first. */
  ghost predicate SenderInvariant(s: CellState)
  {
    s.currentSender == if s.delivered == [] then None else Some(s.delivered[|s.delivered| - 1].sender)
  }

  /** Every envelope the cell ever took in carries the actor's message type. */
  ghost predicate WellTyped(s: CellState, messageType: TypeTag)
  {
    forall e <- s.delivered + s.mailbox :: TagOf(e.message) == messageType
  }

  /** `receive_envelope`: `push_back` onto the mailbox. */
  function Pushed(s: CellState, e: Envelope): (t: CellState)
    ensures t.delivered + t.mailbox == s.delivered + s.mailbox + [e]
    ensures t.delivered == s.delivered && t.currentSender == s.currentSender
    ensures SenderInvariant(s) ==> SenderInvariant(t)
  {
    CellState(s.mailbox + [e], s.currentSender, s.delivered)
  }

  /**
   * `handle_envelope`: nothing on an empty mailbox; otherwise the head is
   * popped, its sender goes into the slot, and the actor receives it.
   */
  function Popped(s: CellState): (t: CellState)
    ensures t.delivered + t.mailbox == s.delivered + s.mailbox
    ensures s.mailbox == [] ==> t == s
    ensures s.mailbox != [] ==>
      && t.delivered == s.delivered + [s.mailbox[0]]
      && t.currentSender == Some(s.mailbox[0].sender)
    ensures SenderInvariant(s) ==> SenderInvariant(t)
  {
    if s.mailbox == [] then s
    else CellState(s.mailbox[1..], Some(s.mailbox[0].sender), s.delivered + [s.mailbox[0]])
  }

  // ---------------------------------------------------------------------
  // Sequences of mailbox operations
  // ---------------------------------------------------------------------

  /** One call on a cell: `receive_message` with an envelope, or `handle_envelope`. */
  datatype Op = Send(envelope: Envelope) | Process

  function Step(s: CellState, op: Op): CellState
  {
    match op
    case Send(e) => Pushed(s, e)
    case Process => Popped(s)
  }

  /** The state after performing `ops` in order from `s`. */
  function Run(s: CellState, ops: seq<Op>): CellState
    decreases |ops|
  {
    if ops == [] then s else Run(Step(s, ops[0]), ops[1..])
  }

  /** The envelopes `ops` send, in send order. */
  function Sent(ops: seq<Op>): seq<Envelope>
    decreases |ops|
  {
    if ops == [] then []
    else (if ops[0].Send? then [ops[0].envelope] else []) + Sent(ops[1..])
  }

  function Sends(envs: seq<Envelope>): (ops: seq<Op>)
    ensures |ops| == |envs|
  {
    seq(|envs|, i requires 0 <= i < |envs| => Send(envs[i]))
  }

  function Processes(k: nat): (ops: seq<Op>)
    ensures |ops| == k
  {
    seq(k, _ => Process)
  }

  /** The envelopes of `envs` whose sender is `r`, in order. */
  function From(envs: seq<Envelope>, r: Receiver): seq<Envelope>
    decreases |envs|
  {
    if envs == [] then []
    else From(envs[..|envs| - 1], r) + (if envs[|envs| - 1].sender == r then [envs[|envs| - 1]] else [])
  }

  lemma {:induction false} RunAppend(s: CellState, a: seq<Op>, b: seq<Op>)
    ensures Run(s, a + b) == Run(Run(s, a), b)
    decreases |a|
  {
    if a == [] {
      assert a + b == b;
    } else {
      assert (a + b)[0] == a[0] && (a + b)[1..] == a[1..] + b;
      RunAppend(Step(s, a[0]), a[1..], b);
    }
  }

  /**
   * Arrival order is never lost: at every point, what the actor has
   * received followed by what is still queued is exactly what was there
   * before followed by everything sent since, in send order.
   */
  lemma {:induction false} RunPreservesArrivalOrder(s: CellState, ops: seq<Op>)
    ensures Run(s, ops).delivered + Run(s, ops).mailbox == s.delivered + s.mailbox + Sent(ops)
    decreases |ops|
  {
    if ops != [] {
      var t := Step(s, ops[0]);
      RunPreservesArrivalOrder(t, ops[1..]);
    }
  }

  /** The current-sender slot stays consistent across any sequence of operations. */
  lemma {:induction false} RunPreservesSenderInvariant(s: CellState, ops: seq<Op>)
    requires SenderInvariant(s)
    ensures SenderInvariant(Run(s, ops))
    decreases |ops|
  {
    if ops != [] {
      RunPreservesSenderInvariant(Step(s, ops[0]), ops[1..]);
    }
  }

  /**
   * FIFO: starting from a fresh cell, under any interleaving of sends and
   * handles, the actor has been handed a prefix of the sent envelopes, in
   * send order, and the mailbox holds the rest.
   */
  lemma FifoDelivery(ops: seq<Op>)
    ensures Run(EmptyCell(), ops).delivered <= Sent(ops)
    ensures Run(EmptyCell(), ops).mailbox == Sent(ops)[|Run(EmptyCell(), ops).delivered|..]
  {
    RunPreservesArrivalOrder(EmptyCell(), ops);
    var t := Run(EmptyCell(), ops);
    assert t.delivered + t.mailbox == Sent(ops);
    assert Sent(ops)[..|t.delivered|] == t.delivered;
  }

  lemma {:induction false} FromPrefix(a: seq<Envelope>, b: seq<Envelope>, r: Receiver)
    requires a <= b
    ensures From(a, r) <= From(b, r)
    decreases |b|
  {
    if |a| < |b| {
      assert a <= b[..|b| - 1];
      FromPrefix(a, b[..|b| - 1], r);
    } else {
      assert a == b;
    }
  }

  /**
   * FIFO per producer: the envelopes from any one sender reach the actor in
   * the order that sender sent them, with none skipped.
   */
  lemma FifoPerProducer(ops: seq<Op>, r: Receiver)
    ensures From(Run(EmptyCell(), ops).delivered, r) <= From(Sent(ops), r)
  {
    FifoDelivery(ops);
    FromPrefix(Run(EmptyCell(), ops).delivered, Sent(ops), r);
  }

  lemma {:induction false} RunSends(s: CellState, envs: seq<Envelope>)
    ensures Run(s, Sends(envs)) == CellState(s.mailbox + envs, s.currentSender, s.delivered)
    decreases |envs|
  {
    if envs == [] {
      assert s.mailbox + envs == s.mailbox;
    } else {
      assert Sends(envs)[1..] == Sends(envs[1..]);
      RunSends(Pushed(s, envs[0]), envs[1..]);
      assert s.mailbox + [envs[0]] + envs[1..] == s.mailbox + envs;
    }
  }

  lemma {:induction false} RunProcesses(s: CellState, k: nat)
    requires k <= |s.mailbox|
    ensures Run(s, Processes(k)) ==
      CellState(s.mailbox[k..],
                if k == 0 then s.currentSender else Some(s.mailbox[k - 1].sender),
                s.delivered + s.mailbox[..k])
    decreases k
  {
    if k == 0 {
      assert s.delivered + s.mailbox[..0] == s.delivered;
    } else {
      assert Processes(k)[1..] == Processes(k - 1);
      var t := Popped(s);
      RunProcesses(t, k - 1);
      assert t.mailbox[k - 1..] == s.mailbox[k..];
      assert t.delivered + t.mailbox[..k - 1] == s.delivered + s.mailbox[..k];
      if k > 1 {
        assert t.mailbox[k - 2] == s.mailbox[k - 1];
      }
    }
  }

  /**
   * Sending `envs` to a fresh cell and then handling `k` of them (k at most
   * the number sent) hands the actor exactly the first `k` in send order,
   * leaves the rest queued, and leaves the sender of the `k`-th in the slot.
   */
  lemma SendsThenProcesses(envs: seq<Envelope>, k: nat)
    requires k <= |envs|
    ensures Run(EmptyCell(), Sends(envs) + Processes(k)) ==
      CellState(envs[k..], if k == 0 then None else Some(envs[k - 1].sender), envs[..k])
  {
    RunAppend(EmptyCell(), Sends(envs), Processes(k));
    RunSends(EmptyCell(), envs);
    assert [] + envs == envs;
    RunProcesses(CellState(envs, None, []), k);
  }

  /** Handling more often than envelopes were sent is a no-op once the mailbox is empty. */
  lemma {:induction false} ProcessesOnEmpty(s: CellState, k: nat)
    requires s.mailbox == []
    ensures Run(s, Processes(k)) == s
    decreases k
  {
    if k > 0 {
      assert Processes(k)[1..] == Processes(k - 1);
      ProcessesOnEmpty(s, k - 1);
    }
  }

  // ---------------------------------------------------------------------
  // The scheduler and the cell itself
  // ---------------------------------------------------------------------

  /** The actor system, seen only through the scheduling requests it receives. */
  class ActorSystem {
    /** Every `enqueue_actor` request, oldest first. */
    var requests: seq<ActorRef>

    constructor ()
      ensures requests == []
    {
      requests := [];
    }

    /** `ActorSystem::enqueue_actor`: asks for `r` to be run on some worker. */
    method EnqueueActor(r: ActorRef)
      modifies this
      ensures requests == old(requests) + [r]
    {
      requests := requests + [r];
    }
  }

  /** `InnerActorCell`: the state every clone of one `ActorCell` shares. */
  class InnerActorCell {
    const actor: Actor
    const props: Factory.Props<Value, Actor>
    const system: ActorSystem
    /** The actor's message type `M`. */
    const messageType: TypeTag
    var mailbox: seq<Envelope>
    var currentSender: Option<Receiver>
    /** The envelopes `Actor::receive` was called with, in call order. */
    var delivered: seq<Envelope>

    function State(): CellState
      reads this
    {
      CellState(mailbox, currentSender, delivered)
    }

    ghost predicate Valid()
      reads this
    {
      SenderInvariant(State()) && WellTyped(State(), messageType)
    }

    /** `InnerActorCell::new`: an empty mailbox and no current sender. */
    constructor (actor: Actor, props: Factory.Props<Value, Actor>, system: ActorSystem, messageType: TypeTag)
      ensures Valid() && State() == EmptyCell()
      ensures this.actor == actor && this.props == props
      ensures this.system == system && this.messageType == messageType
    {
      this.actor := actor;
      this.props := props;
      this.system := system;
      this.messageType := messageType;
      mailbox := [];
      currentSender := None;
      delivered := [];
    }

    /** `receive_envelope`: the envelope goes to the tail of the mailbox. */
    method ReceiveEnvelope(e: Envelope)
      requires Valid() && TagOf(e.message) == messageType
      modifies this
      ensures Valid() && State() == Pushed(old(State()), e)
    {
      mailbox := mailbox + [e];
    }

    /** `receive_message`: wraps the message and its sender in an envelope and enqueues it. */
    method ReceiveMessage(message: Value, sender: Receiver)
      requires Valid() && TagOf(message) == messageType
      modifies this
      ensures Valid() && State() == Pushed(old(State()), Envelope(message, sender))
    {
      ReceiveEnvelope(Envelope(message, sender));
    }

    /**
     * `handle_envelope`: on an empty mailbox, returns having changed
     * nothing; otherwise pops the head envelope, stores its sender in the
     * current-sender slot and hands its message to the actor.
     */
    method HandleEnvelope(context: ActorCell)
      requires Valid()
      modifies this
      ensures Valid() && State() == Popped(old(State()))
    {
      if mailbox == [] {
        return;
      }
      var envelope := mailbox[0];
      mailbox := mailbox[1..];
      currentSender := Some(envelope.sender);
      // The actor's handler runs here; the model records what it was given.
      delivered := delivered + [envelope];
    }
  }

  /** `ActorCell`: a shared handle on one `InnerActorCell`. */
  datatype ActorCell = ActorCell(inner: InnerActorCell) {

    /** `ActorCell::new`: a cell around a fresh inner cell. */
    static method New(actor: Actor, props: Factory.Props<Value, Actor>, system: ActorSystem, messageType: TypeTag)
      returns (cell: ActorCell)
      ensures fresh(cell.inner) && cell.inner.Valid() && cell.inner.State() == EmptyCell()
      ensures cell.inner.actor == actor && cell.inner.props == props
      ensures cell.inner.system == system && cell.inner.messageType == messageType
    {
      var inner := new InnerActorCell(actor, props, system, messageType);
      cell := ActorCell(inner);
    }

    /** `clone`: another handle on the same inner cell, so the same mailbox. */
    function Clone(): (c: ActorCell)
      ensures c.inner == inner
    {
      ActorCell(inner)
    }

    /** `ActorContext::actor_ref`: a reference to this very cell. */
    function SelfRef(): (r: ActorRef)
      ensures r.actorCell.inner == inner
    {
      ActorRef.WithCell(Clone())
    }

    /** `enqueue_actor_ref`: one scheduling request, for this cell's own reference. */
    method EnqueueActorRef()
      modifies inner.system
      ensures inner.system.requests == old(inner.system.requests) + [SelfRef()]
    {
      inner.system.EnqueueActor(SelfRef());
    }

    /**
     * `ActorCell::receive_message`: the envelope is appended to the mailbox,
     * then exactly one scheduling request for this cell is issued.
     */
    method ReceiveMessage(message: Value, sender: Receiver)
      requires inner.Valid() && TagOf(message) == inner.messageType
      modifies inner, inner.system
      ensures inner.Valid() && inner.State() == Pushed(old(inner.State()), Envelope(message, sender))
      ensures inner.system.requests == old(inner.system.requests) + [SelfRef()]
    {
      inner.ReceiveMessage(message, sender);
      EnqueueActorRef();
    }

    /** `ActorCell::handle_envelope`: handles one envelope, with a clone of this cell as context. */
    method HandleEnvelope()
      requires inner.Valid()
      modifies inner
      ensures inner.Valid() && inner.State() == Popped(old(inner.State()))
    {
      inner.HandleEnvelope(Clone());
    }

    /**
     * `ActorContext::sender`: the sender of the envelope being handled. Read
     * before any envelope was handled, it is the failed unwrap of `None`.
     */
    function Sender(): (r: Result<Receiver, DispatchError>)
      requires inner.Valid()
      reads inner
      ensures r.Failure? <==> inner.delivered == []
      ensures r.Failure? ==> r.error == NoCurrentSender
      ensures r.Success? ==> r.value == inner.delivered[|inner.delivered| - 1].sender
    {
      match inner.currentSender
      case Some(s) => Success(s)
      case None => Failure(NoCurrentSender)
    }

    /**
     * `ActorContext::actor_of`: a new cell, on the same system and for the
     * same message type, whose actor is `props.create()`; nothing is sent to
     * it and no scheduling request is made.
     */
    method ActorOf(props: Factory.Props<Value, Actor>) returns (r: ActorRef)
      ensures fresh(r.actorCell.inner) && r.actorCell.inner.Valid()
      ensures r.actorCell.inner.State() == EmptyCell()
      ensures r.actorCell.inner.actor == props.Create() && r.actorCell.inner.props == props
      ensures r.actorCell.inner.system == inner.system
      ensures r.actorCell.inner.messageType == inner.messageType
    {
      var actor := props.Create();
      var cell := New(actor, props, inner.system, inner.messageType);
      r := ActorRef.WithCell(cell);
    }
  }

  /** `ActorRef`: what user code holds; a wrapper around one `ActorCell`. */
  datatype ActorRef = ActorRef(actorCell: ActorCell) {

    /** `ActorRef::with_cell`: wraps the given cell unchanged. */
    static function WithCell(cell: ActorCell): (r: ActorRef)
      ensures r.actorCell == cell
    {
      ActorRef(cell)
    }

    /** `ActorRef::clone`: a reference to the same inner cell. */
    function Clone(): (r: ActorRef)
      ensures r.actorCell.inner == actorCell.inner
    {
      WithCell(actorCell.Clone())
    }
  }
}
