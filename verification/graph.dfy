/**
 * The collaborators of the evaluation context that live in the dependency
 * graph: node identities, versions, node entries and the graph's batched
 * lookup. Their internals are not part of this model; only what the
 * evaluation context observes of them is.
 */
module Graph {

  /** An opaque, totally ordered version stamp. */
  type Version = nat

  /**
   * A node identity: the kind of computation, an opaque argument, and the
   * capability flag saying whether the node may be re-evaluated while it
   * still waits on other dependencies.
   */
  datatype SkyKey = SkyKey(functionName: string, argument: string, supportsPartialReevaluation: bool)

  /** One call of `signalDep`: the child that finished and the version it finished at. */
  datatype Signal = Signal(version: Version, child: SkyKey)

  /**
   * The record of one node, reduced to what the evaluation context observes:
   * whether the node is done, and every signal it has received, in order.
   */
  datatype NodeEntry = NodeEntry(done: bool, signals: seq<Signal>)

  /**
   * The graph: the entry of every node it holds. Signalling a node updates
   * that node's entry in place, so the map is a field the graph reassigns.
   */
  class QueryableGraph {
    var entries: map<SkyKey, NodeEntry>
    /** Every answer `SignalDep` has given, in order, and the key each one was given for. */
    ghost var answered: seq<bool>
    ghost var answeredKeys: seq<SkyKey>

    constructor (entries: map<SkyKey, NodeEntry>)
      ensures this.entries == entries && answered == [] && answeredKeys == []
    {
      this.entries := entries;
      answered := [];
      answeredKeys := [];
    }

    /**
     * Looks up `keys` in one batch. A key absent from the graph is absent
     * from the batch (a signalling lookup creates nothing), and a present key
     * maps to its current entry.
     */
    function GetBatch(keys: seq<SkyKey>): (batch: map<SkyKey, NodeEntry>)
      reads this
      ensures forall k :: k in batch <==> k in keys && k in entries
      ensures forall k :: k in batch ==> batch[k] == entries[k]
    {
      map k | k in keys && k in entries :: entries[k]
    }

    /**
     * `signalDep` on the entry of `key`: tells it that `child` finished at
     * `version`. The answer -- whether the entry now needs evaluation -- is
     * decided by bookkeeping that is not part of this model, so it is left
     * unconstrained; no other entry changes.
     */
    method SignalDep(key: SkyKey, version: Version, child: SkyKey) returns (evaluationRequired: bool)
      requires key in entries
      modifies this
      ensures entries == old(entries)[key := old(entries)[key].(signals := old(entries)[key].signals + [Signal(version, child)])]
      ensures answered == old(answered) + [evaluationRequired]
      ensures answeredKeys == old(answeredKeys) + [key]
    {
      entries := entries[key := entries[key].(signals := entries[key].signals + [Signal(version, child)])];
      evaluationRequired :| true;
      answered := answered + [evaluationRequired];
      answeredKeys := answeredKeys + [key];
    }
  }
}
