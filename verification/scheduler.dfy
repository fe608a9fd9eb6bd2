/**
 * The worker-pool handle as the evaluation context sees it: a visitor that
 * accepts enqueue requests, and the memoising supplier that builds it on
 * first use.
 */
module Scheduler {
  import opened Graph

  /** One `enqueueEvaluation` request: the node to evaluate, its priority, and the child that woke it. */
  datatype Enqueued = Enqueued(key: SkyKey, priority: int, child: SkyKey)

  /**
   * The visitor, reduced to the requests it has received, in order. The
   * thread pool behind it and the priority order in which it drains them are
   * not part of this model.
   */
  class NodeEntryVisitor {
    var enqueued: seq<Enqueued>

    constructor ()
      ensures enqueued == []
    {
      enqueued := [];
    }

    method EnqueueEvaluation(key: SkyKey, priority: int, child: SkyKey)
      modifies this
      ensures enqueued == old(enqueued) + [Enqueued(key, priority, child)]
    {
      enqueued := enqueued + [Enqueued(key, priority, child)];
    }
  }

  /**
   * A memoising supplier of the visitor: the underlying supplier, which
   * builds a fresh visitor, runs on the first `Get` and never again.
   * `builds` counts how often the underlying supplier has run.
   */
  class MemoizedVisitorSupplier {
    var instance: NodeEntryVisitor?
    ghost var builds: nat

    ghost predicate Valid()
      reads this
    {
      builds == (if instance == null then 0 else 1)
    }

    /** The requests the visitor has received; none while it has not been built. */
    ghost function Log(): seq<Enqueued>
      reads this, instance
    {
      if instance == null then [] else instance.enqueued
    }

    constructor ()
      ensures Valid() && instance == null && builds == 0
    {
      instance := null;
      builds := 0;
    }

    /**
     * Returns the visitor, building it only if this is the first call.
     * Every later call returns the same object and builds nothing.
     */
    method Get() returns (v: NodeEntryVisitor)
      requires Valid()
      modifies this
      ensures Valid() && instance == v && builds == 1
      ensures old(instance) != null ==> v == old(instance) && builds == old(builds)
      ensures old(instance) == null ==> fresh(v) && v.enqueued == []
    {
      if instance == null {
        instance := new NodeEntryVisitor();
        builds := builds + 1;
      }
      v := instance;
    }
  }
}
