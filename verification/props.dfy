/**
 * `Props`: an immutable factory that builds actor instances by applying a
 * fixed creator function to fixed arguments.
 */
module Factory {

  datatype Props<!Args, A> = Props(creator: Args -> A, args: Args) {

    /**
     * `Props::create`: one new actor instance, built by the stored creator
     * from the stored arguments. Being a function, it leaves the factory as
     * it was and can be called again.
     */
    function Create(): (a: A)
      ensures a == creator(args)
    {
      creator(args)
    }

    /** `Props::clone`: a factory with the same creator and arguments. */
    function Clone(): (p: Props<Args, A>)
      ensures p.creator == creator && p.args == args
    {
      Props(creator, args)
    }
  }

  /** `Props::new`: a factory for `creator` applied to `args`. */
  function New<Args, A>(creator: Args -> A, args: Args): (p: Props<Args, A>)
    ensures p.creator == creator && p.args == args
  {
    Props(creator, args)
  }

  /** A factory built by `New` creates exactly what its creator makes of its arguments. */
  lemma NewThenCreate<Args, A>(creator: Args -> A, args: Args)
    ensures New(creator, args).Create() == creator(args)
  {
  }

  /**
   * Respawn determinism: every `create` on one factory, or on any clone of
   * it, yields the same initial actor.
   */
  lemma CreateIsRepeatable<Args, A>(p: Props<Args, A>, q: Props<Args, A>)
    requires q == p.Clone()
    ensures q.Create() == p.Create()
    ensures q.Clone().Create() == p.Create()
  {
  }
}
