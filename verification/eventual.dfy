/**
 * The one-shot future/promise pair the ask pattern relies on. Only what the
 * runtime uses is modelled: a pair sharing one completion slot, completing
 * the slot, and reading it through the future.
 */
module Eventual {
  import opened Wrappers
  import opened Any

  /** The slot shared by a `Complete` and its `Future`. */
  class Core {
    /** The type `M` of the value the future resolves to. */
    const tag: TypeTag
    /** `None` while the future is unresolved. */
    var value: Option<Value>

    constructor (tag: TypeTag)
      ensures this.tag == tag && value == None
    {
      this.tag := tag;
      value := None;
    }
  }

  /** The producer side of the pair. */
  datatype Complete = Complete(core: Core) {

    /**
     * `Complete::complete`: resolves the future with `v`. What a second
     * completion does is not part of the contract.
     */
    method Resolve(v: Value)
      requires TagOf(v) == core.tag
      modifies core
      ensures core.value.Some?
      ensures old(core.value) == None ==> core.value == Some(v)
    {
      core.value := Some(v);
    }
  }

  /** The consumer side of the pair. */
  datatype Future = Future(core: Core) {

    /** The value the future resolved to, if any. */
    function Poll(): Option<Value>
      reads core
    {
      core.value
    }
  }

  /** `Future::pair()`: a fresh, unresolved slot shared by both sides. */
  method Pair(tag: TypeTag) returns (complete: Complete, future: Future)
    ensures fresh(complete.core) && future.core == complete.core
    ensures complete.core.tag == tag && future.Poll() == None
  {
    var core := new Core(tag);
    complete := Complete(core);
    future := Future(core);
  }
}
