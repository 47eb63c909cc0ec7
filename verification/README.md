# RobotS actor core, modelled in Dafny

A sequential model of the core of the RobotS actor runtime. Each actor cell
owns a FIFO mailbox of `(message, sender)` envelopes and a "current sender"
slot. `receive_message` appends an envelope and asks the actor system to
schedule the actor. `handle_envelope` pops the head envelope, records its
sender and hands the message to the actor. In front of the cell sits the
type-erased `CanReceive` entry point: an `ActorRef` downcasts a boxed payload
to the actor's message type, and a completion handle of the ask pattern
resolves a one-shot future with a reply. `Props` builds actor instances from a
stored creator and stored arguments.

Modules, leaves first:

- `Wrappers` (wrappers.dfy): `Option`, `Result`, `Outcome`.
- `Any` (any.dfy): a boxed payload is a `Value` of one of a closed set of
  concrete types (`TypeTag`). `Downcast` is the total stand-in for
  `Box<Any>::downcast`.
- `Eventual` (eventual.dfy): the future/promise pair as one shared slot
  (`Core`), with a `Complete` side that resolves it and a `Future` side that
  reads it.
- `Factory` (props.dfy): `Props`, the actor factory, with the creator as a function
  value.
- `Cells` (actor_cell.dfy): the mailbox engine. `CellState` is the
  observable state of a cell. `Pushed` and `Popped` say what
  `receive_envelope` and `handle_envelope` do to it. `Run` replays any
  sequence of these calls, and the FIFO lemmas are proved about `Run`. The
  class `InnerActorCell` holds the mailbox, the slot and the record of
  deliveries as fields its methods update in place, and each method is proved
  to move `State()` exactly as `Pushed` or `Popped` says. `ActorCell` and
  `ActorRef` are handles on one shared `InnerActorCell`. `ActorRef` is
  declared here because the cell hands out references to itself and the
  scheduler queues them, and Dafny modules may not import one another in a
  cycle.
- `RefDispatch` (actor_ref.dfy): `CanReceive` for `ActorRef`.
- `Ask` (ask.dfy): `CanReceive` for `Complete`.
- `CanReceive` (can_receive.dfy): the trait as a closed sum `Receiver` (an
  actor reference or a completion handle), with `receive`/`handle`
  dispatched on the variant. The operations that are generic over any
  `CanReceive` target are here too: `tell`, `tell_to` and `ask`.
- `Scenario` (scenario.dfy): clients checked against the contracts alone.
  Clones share one mailbox. An actor that answers every integer with its
  successor resolves `ask(41)` to 42, rejects a string with a type mismatch,
  and afterwards still resolves `ask(10)` to 11.

Choices where the code aborts, and one place where the model keeps to the code:

- A payload of the wrong type makes the code `panic!`. Here it is a returned
  `Fail(TypeMismatch)` that changes nothing. `handle` on a completion handle
  panics too. Here it is `Fail(InvalidOperation)`.
- Reading `sender()` before any envelope was handled unwraps `None` and
  panics. Here `Cells.ActorCell.Sender` returns `Failure(NoCurrentSender)`.
- The code does not coalesce scheduling requests: every `receive_message`
  issues its own `enqueue_actor` request (src/actor_cell.rs:30-38), and the
  model follows the code.

## Model

| member | source | states |
|---|---|---|
| `Any.Downcast` | src/actor_ref.rs:49-53 | the downcast succeeds exactly when the payload has the expected type, and then yields that very payload; otherwise it is a type mismatch |
| `Any.DowncastOwnType` | src/ask.rs:13 | a payload downcast to its own type comes back unchanged |
| `Eventual.Pair` | src/ask.rs:40 | the completion handle and the future share one fresh slot, of the asker's message type, and the future starts unresolved |
| `Eventual.Complete.Resolve` | src/ask.rs:15 | completing an unresolved future resolves it with exactly the given value |
| `Factory.New` | src/props.rs:20-27 | the factory stores exactly the given creator and arguments |
| `Factory.Props.Create` | src/props.rs:32-36 | the new actor is the stored creator applied to the stored arguments; the factory itself is a value and stays as it was |
| `Factory.Props.Clone` | src/props.rs:39-47 | a clone carries the same creator and the same arguments |
| `Factory.NewThenCreate` | src/props.rs:20-36 | a factory built from a creator and arguments creates exactly what the creator makes of those arguments |
| `Factory.CreateIsRepeatable` | src/props.rs:8-10 | every `create` on a factory, or on a clone of it, yields the same initial actor |
| `Cells.Pushed` | src/actor_cell.rs:113-115 | pushing an envelope keeps the delivered and queued envelopes in order and adds the new one after them; the slot and the deliveries are unchanged; the sender invariant is kept |
| `Cells.Popped` | src/actor_cell.rs:121-138 | on an empty mailbox nothing changes; otherwise the head goes to the actor, its sender goes into the slot, and nothing is lost or reordered; the sender invariant is kept |
| `Cells.RunPreservesArrivalOrder` | src/actor_cell.rs:113-138 | after any sequence of sends and handles, the delivered envelopes followed by the queued ones are the earlier ones followed by everything sent, in send order |
| `Cells.RunPreservesSenderInvariant` | src/actor_cell.rs:133-136 | after any sequence of sends and handles, the current-sender slot holds the sender of the last delivered envelope, or nothing if none was delivered |
| `Cells.FifoDelivery` | src/actor_cell.rs:114-126 | from a fresh cell, the actor has received a prefix of the sent envelopes in send order, and the mailbox holds exactly the rest |
| `Cells.FifoPerProducer` | src/actor_cell.rs:114-126 | the envelopes of any one sender reach the actor in that sender's order, with none skipped |
| `Cells.SendsThenProcesses` | src/actor_cell.rs:113-138 | sending n envelopes and then handling k of them (k at most n) hands the actor exactly the first k in order, leaves the rest queued, and leaves the k-th sender in the slot |
| `Cells.ProcessesOnEmpty` | src/actor_cell.rs:126-131 | any number of handles on an empty mailbox changes nothing |
| `Cells.ActorSystem.EnqueueActor` | src/actor_cell.rs:37 | a scheduling request is logged at the end of the scheduler's log |
| `Cells.InnerActorCell.constructor` | src/actor_cell.rs:102-111 | a new cell has an empty mailbox, no current sender and no deliveries, and stores the given actor, props and system |
| `Cells.InnerActorCell.ReceiveEnvelope` | src/actor_cell.rs:113-115 | the state becomes `Pushed` of the old state with the envelope, and the cell invariant is kept |
| `Cells.InnerActorCell.ReceiveMessage` | src/actor_cell.rs:117-119 | the state becomes `Pushed` of the old state with the envelope `(message, sender)` |
| `Cells.InnerActorCell.HandleEnvelope` | src/actor_cell.rs:121-138 | the state becomes `Popped` of the old state: a no-op on an empty mailbox, otherwise exactly the head is removed, its sender stored and its message delivered |
| `Cells.ActorCell.New` | src/actor_cell.rs:23-27 | a handle on a fresh inner cell with an empty mailbox |
| `Cells.ActorCell.Clone` | src/actor_cell.rs:13-19 | the clone is a handle on the same inner cell |
| `Cells.ActorCell.SelfRef` | src/actor_cell.rs:66-68 | the reference points at this very inner cell |
| `Cells.ActorCell.EnqueueActorRef` | src/actor_cell.rs:36-38 | exactly one scheduling request, for this cell's own reference, is added to the scheduler's log |
| `Cells.ActorCell.ReceiveMessage` | src/actor_cell.rs:30-33 | the envelope `(message, sender)` is appended at the tail of the mailbox and exactly one scheduling request for this cell follows |
| `Cells.ActorCell.HandleEnvelope` | src/actor_cell.rs:41-43 | the shared inner cell handles one envelope, as `Popped` says |
| `Cells.ActorCell.Sender` | src/actor_cell.rs:82-84 | fails exactly when no envelope has been handled yet; otherwise it is the sender of the envelope handled last |
| `Cells.ActorCell.ActorOf` | src/actor_cell.rs:70-76 | a fresh cell on the same system and message type, with an empty mailbox, whose actor is `props.create()`; nothing is scheduled |
| `Cells.ActorRef.WithCell` | src/actor_ref.rs:23-27 | the reference wraps the given cell unchanged |
| `Cells.ActorRef.Clone` | src/actor_ref.rs:15-19 | the clone refers to the same inner cell |
| `RefDispatch.Receive` | src/actor_ref.rs:48-54 | a payload of the actor's type is enqueued with exactly that sender and one scheduling request follows; any other payload is a type mismatch that changes neither the mailbox nor the scheduler |
| `RefDispatch.Handle` | src/actor_ref.rs:56-58 | exactly the cell's `handle_envelope` |
| `Ask.CompleteReceive` | src/ask.rs:12-18 | a payload of the expected type resolves an unresolved future with exactly that value; any other payload is a type mismatch that leaves the future as it was |
| `Ask.CompleteHandle` | src/ask.rs:20-22 | always an invalid-operation failure, never a type mismatch |
| `CanReceive.Receive` | src/actor_ref.rs:37-39 | dispatches on the target: an actor enqueues and is scheduled once, a completion handle resolves its future, a wrong type changes nothing |
| `CanReceive.Handle` | src/actor_ref.rs:41-44 | an actor target handles one envelope; a completion handle fails with an invalid operation |
| `CanReceive.Tell` | src/actor_cell.rs:78-80 | the message is delivered to the target with this actor's own reference as the sender |
| `CanReceive.TellTo` | src/actor_ref.rs:30-32 | the message is delivered to the target with this reference as the sender |
| `CanReceive.AskFor` | src/ask.rs:38-43 | exactly one message is sent to the target, with the completion handle of the returned future as the sender; the future is fresh and unresolved |
| `Scenario.CellClonesShareMailbox` | src/actor_cell.rs:13-19 | an envelope enqueued through one clone of a cell is the one handled through another clone, and its sender becomes the current sender |
| `Scenario.RefClonesShareMailbox` | src/actor_ref.rs:15-19 | an envelope accepted through one clone of a reference is the one handled through another clone |
| `Scenario.ReplyWithSuccessor` | src/actor_cell.rs:78-84 | an actor replying through `tell(sender(), …)` delivers its reply to the sender of the message it is handling, whether that sender is an actor or a completion handle |
| `Scenario.AskSuccessor` | src/ask.rs:38-43 | with an actor that answers n with n + 1, `ask(41)` resolves to 42, a string is a type mismatch, and a later `ask(10)` resolves to 11 |

## Left out

- Threads, `Arc`, `Mutex`, `RwLock` and the `busy` lock: the model is sequential, so each lock is a no-op and reference counting is just sharing one object.
- The actor system and its scheduler are not part of this model beyond `enqueue_actor`, which is a log of scheduling requests.
- The internals of the `eventual` crate: a future is one shared optional slot.
- Eventual.Complete.Resolve: what a second completion of an already resolved future does is not stated, because the runtime neither defines nor guards it.
- Ask.CompleteReceive: likewise says nothing about a reply to an already resolved future.
- CanReceive.AskFor: when the target rejects the message, the code panics and the future is lost; the model returns the mismatch and no future.
- The user's `Actor::receive` body: the model records the envelopes handed to it. Only the scenario gives an actor behaviour, as a client.
- Rust's `Any`/`Reflect` machinery: payload types are a closed set of tags, and the downcast compares tags.
- Any.Downcast: all Rust integer types share the one tag `IntType`, so a payload whose integer width differs from the receiver's (an `i32` sent to an actor of `u32` or `i64`), which the code rejects as the wrong type, is accepted here.
- The trait bounds `Copy`, `Send`, `Sync` and the phantom type parameters of `Props`.
- The `println!` when the mailbox is empty.
- Supervision in `actor_of`, which the code does not implement.
- A cell's message type `M` is a stored tag. Calls that the Rust type system would reject (a `receive_message` with a message of another type) are excluded by preconditions.
