/**
 * The shared evaluation context: the parent-signalling step run when a node
 * finishes, on the normal path and on the abort path, and the lazily built
 * visitor handle.
 */
module EvaluatorContext {
  import opened Graph
  import opened Scheduler

  /**
   * How a signalling step ends: after every parent, or at the first parent
   * whose entry the batch lacks, where `checkNotNull` throws.
   */
  datatype Outcome = Completed | MissingEntry(parent: SkyKey)

  /** The keys form a set: each occurs at most once. */
  predicate Distinct(keys: seq<SkyKey>)
    decreases |keys|
  {
    keys == [] || (keys[0] !in keys[1..] && Distinct(keys[1..]))
  }

  /** Two different positions of distinct keys hold different keys. */
  lemma {:induction false} DistinctAt(keys: seq<SkyKey>, i: nat, j: nat)
    requires Distinct(keys) && i < j < |keys|
    ensures keys[i] != keys[j]
  {
    if i == 0 {
      assert keys[j] == keys[1..][j - 1];
    } else {
      DistinctAt(keys[1..], i - 1, j - 1);
    }
  }

  /** Extending a prefix of distinct keys by one adds exactly the next key, which is new. */
  lemma PrefixExtend(keys: seq<SkyKey>, i: nat)
    requires Distinct(keys) && i < |keys|
    ensures keys[i] !in keys[..i]
    ensures forall k :: k in keys[..i + 1] <==> k in keys[..i] || k == keys[i]
  {
    assert keys[..i + 1] == keys[..i] + [keys[i]];
    forall j | 0 <= j < i
      ensures keys[..i][j] != keys[i]
    {
      DistinctAt(keys, j, i);
    }
  }

  /**
   * The graph's entries after `signal` has been delivered to every key of
   * `targets` that the graph holds, skipping the entries that are done when
   * `skipDone` is set. Each such entry receives the signal exactly once, and
   * no other entry changes.
   */
  function Deliver(entries: map<SkyKey, NodeEntry>, targets: seq<SkyKey>, signal: Signal, skipDone: bool): (r: map<SkyKey, NodeEntry>)
    ensures r.Keys == entries.Keys
    ensures forall k :: k in r ==> r[k].done == entries[k].done
    ensures forall k :: k in r && (k !in targets || (skipDone && entries[k].done)) ==> r[k] == entries[k]
    ensures forall k :: k in r && k in targets && !(skipDone && entries[k].done) ==>
      r[k].signals == entries[k].signals + [signal]
  {
    map k | k in entries ::
      if k in targets && !(skipDone && entries[k].done)
      then entries[k].(signals := entries[k].signals + [signal])
      else entries[k]
  }

  /** Delivering to one more, new, target updates only that target's entry. */
  lemma DeliverExtend(entries: map<SkyKey, NodeEntry>, keys: seq<SkyKey>, i: nat, signal: Signal, skipDone: bool)
    requires Distinct(keys) && i < |keys| && keys[i] in entries
    ensures var before := Deliver(entries, keys[..i], signal, skipDone);
      Deliver(entries, keys[..i + 1], signal, skipDone)
        == if skipDone && entries[keys[i]].done then before
           else before[keys[i] := before[keys[i]].(signals := before[keys[i]].signals + [signal])]
  {
    PrefixExtend(keys, i);
  }

  /**
   * How many parents a signalling step gets through: the length of the
   * longest prefix of `keys` that is entirely `present`.
   */
  function PresentPrefix(keys: seq<SkyKey>, present: set<SkyKey>): (n: nat)
    ensures n <= |keys|
    ensures forall i :: 0 <= i < n ==> keys[i] in present
    ensures n < |keys| ==> keys[n] !in present
  {
    PresentFrom(keys, present, 0)
  }

  /** The first index at or after `from` whose key is not `present`, or |keys| if there is none. */
  function PresentFrom(keys: seq<SkyKey>, present: set<SkyKey>, from: nat): (n: nat)
    requires from <= |keys|
    ensures from <= n <= |keys|
    ensures forall i :: from <= i < n ==> keys[i] in present
    ensures n < |keys| ==> keys[n] !in present
    decreases |keys| - from
  {
    if from == |keys| || keys[from] !in present then from
    else PresentFrom(keys, present, from + 1)
  }

  /** The outcome of a step whose batch holds exactly the `present` parents. */
  function OutcomeOf(parents: seq<SkyKey>, present: set<SkyKey>): (r: Outcome)
    ensures r == Completed <==> forall p :: p in parents ==> p in present
    ensures r.MissingEntry? ==> r.parent in parents && r.parent !in present
    ensures r.MissingEntry? ==> r.parent == parents[PresentPrefix(parents, present)]
  {
    var n := PresentPrefix(parents, present);
    if n == |parents| then Completed else MissingEntry(parents[n])
  }

  /** Whether the normal path re-enqueues a parent whose `signalDep` answered `evaluationRequired`. */
  predicate Wakes(parent: SkyKey, evaluationRequired: bool)
  {
    evaluationRequired || parent.supportsPartialReevaluation
  }

  /**
   * The requests the normal path sends to the visitor after visiting the
   * first |answers| parents, given what `signalDep` answered for each.
   */
  function EnqueuesFor(parents: seq<SkyKey>, answers: seq<bool>, priority: int, child: SkyKey): (r: seq<Enqueued>)
    requires |answers| <= |parents|
    ensures |r| <= |answers|
    ensures forall e :: e in r ==> e.priority == priority && e.child == child
    decreases |answers|
  {
    if answers == [] then []
    else
      var n := |answers| - 1;
      EnqueuesFor(parents, answers[..n], priority, child)
      + (if Wakes(parents[n], answers[n]) then [Enqueued(parents[n], priority, child)] else [])
  }

  /** Visiting one more parent appends at most that parent's request. */
  lemma EnqueuesForExtend(parents: seq<SkyKey>, answers: seq<bool>, answer: bool, priority: int, child: SkyKey)
    requires |answers| < |parents|
    ensures EnqueuesFor(parents, answers + [answer], priority, child)
      == EnqueuesFor(parents, answers, priority, child)
         + (if Wakes(parents[|answers|], answer) then [Enqueued(parents[|answers|], priority, child)] else [])
  {
    assert (answers + [answer])[..|answers|] == answers;
  }

  /** Appending to a log in two steps is appending their concatenation. */
  lemma ConcatAssoc<T>(a: seq<T>, b: seq<T>, c: seq<T>)
    ensures a + (b + c) == a + b + c
  {
  }

  /** Recording the next key after a prefix of `keys` records the one-longer prefix. */
  lemma PrefixAppend(log0: seq<SkyKey>, keys: seq<SkyKey>, i: nat)
    requires i < |keys|
    ensures log0 + keys[..i] + [keys[i]] == log0 + keys[..i + 1]
  {
    assert keys[..i + 1] == keys[..i] + [keys[i]];
  }

  /**
   * A request is sent exactly for the visited parents that `Wakes` selects,
   * with the given priority and child; so nothing outside the parents is
   * ever enqueued.
   */
  lemma {:induction false} EnqueuedIff(parents: seq<SkyKey>, answers: seq<bool>, priority: int, child: SkyKey, e: Enqueued)
    requires |answers| <= |parents|
    ensures e in EnqueuesFor(parents, answers, priority, child)
      <==> exists i :: 0 <= i < |answers| && e == Enqueued(parents[i], priority, child) && Wakes(parents[i], answers[i])
  {
    if answers != [] {
      var n := |answers| - 1;
      EnqueuedIff(parents, answers[..n], priority, child, e);
      if e in EnqueuesFor(parents, answers, priority, child) {
        if e !in EnqueuesFor(parents, answers[..n], priority, child) {
          assert e == Enqueued(parents[n], priority, child) && Wakes(parents[n], answers[n]);
        }
      } else {
        forall i | 0 <= i < |answers| && Wakes(parents[i], answers[i])
          ensures e != Enqueued(parents[i], priority, child)
        {
          if i < n {
            assert answers[..n][i] == answers[i];
          }
        }
      }
    }
  }

  /** No key is enqueued twice in `requests`. */
  predicate EnqueuedOnce(requests: seq<Enqueued>)
  {
    forall i, j :: 0 <= i < j < |requests| ==> requests[i].key != requests[j].key
  }

  /** Distinct parents are each enqueued at most once per step. */
  lemma {:induction false} EnqueuedAtMostOnce(parents: seq<SkyKey>, answers: seq<bool>, priority: int, child: SkyKey)
    requires |answers| <= |parents| && Distinct(parents)
    ensures EnqueuedOnce(EnqueuesFor(parents, answers, priority, child))
  {
    if answers != [] {
      var n := |answers| - 1;
      var prefix := EnqueuesFor(parents, answers[..n], priority, child);
      EnqueuedAtMostOnce(parents, answers[..n], priority, child);
      forall e | e in prefix
        ensures e.key != parents[n]
      {
        EnqueuedIff(parents, answers[..n], priority, child, e);
        var j :| 0 <= j < n && e == Enqueued(parents[j], priority, child) && Wakes(parents[j], answers[..n][j]);
        DistinctAt(parents, j, n);
      }
      var last := if Wakes(parents[n], answers[n]) then [Enqueued(parents[n], priority, child)] else [];
      var r := EnqueuesFor(parents, answers, priority, child);
      assert r == prefix + last;
      forall i, j | 0 <= i < j < |r|
        ensures r[i].key != r[j].key
      {
        if j < |prefix| {
          assert r[i] == prefix[i] && r[j] == prefix[j];
        } else {
          assert r[i] == prefix[i] && prefix[i] in prefix && r[j] == last[0];
        }
      }
    }
  }

  /** A parent that does not support partial re-evaluation is enqueued exactly when `signalDep` said it must be. */
  lemma {:induction false} EnqueuedOnlyWhenRequired(parents: seq<SkyKey>, answers: seq<bool>, priority: int, child: SkyKey, i: nat)
    requires |answers| <= |parents| && Distinct(parents) && i < |answers|
    requires !parents[i].supportsPartialReevaluation
    ensures Enqueued(parents[i], priority, child) in EnqueuesFor(parents, answers, priority, child) <==> answers[i]
  {
    var e := Enqueued(parents[i], priority, child);
    EnqueuedIff(parents, answers, priority, child, e);
    if e in EnqueuesFor(parents, answers, priority, child) {
      var j :| 0 <= j < |answers| && e == Enqueued(parents[j], priority, child) && Wakes(parents[j], answers[j]);
      if j < i {
        DistinctAt(parents, j, i);
      } else if i < j {
        DistinctAt(parents, i, j);
      }
    }
  }

  /**
   * The context shared by every evaluation task. Only the state this model
   * needs is kept: the graph, the two versions, the keep-going flag and the
   * memoised visitor supplier.
   */
  class ParallelEvaluatorContext {
    const graph: QueryableGraph
    const graphVersion: Version
    const minimalVersion: Version
    const keepGoing: bool
    const visitorSupplier: MemoizedVisitorSupplier

    ghost predicate Valid()
      reads this, visitorSupplier
    {
      visitorSupplier.Valid()
    }

    /** The visitor is not built here: the supplier is wrapped so that it runs on first use. */
    constructor (graph: QueryableGraph, graphVersion: Version, minimalVersion: Version, keepGoing: bool)
      ensures Valid()
      ensures this.graph == graph && this.graphVersion == graphVersion
      ensures this.minimalVersion == minimalVersion && this.keepGoing == keepGoing
      ensures fresh(visitorSupplier) && visitorSupplier.instance == null && visitorSupplier.builds == 0
    {
      this.graph := graph;
      this.graphVersion := graphVersion;
      this.minimalVersion := minimalVersion;
      this.keepGoing := keepGoing;
      visitorSupplier := new MemoizedVisitorSupplier();
    }

    /** The visitor, built on the first call; every call returns the same one. */
    method GetVisitor() returns (v: NodeEntryVisitor)
      requires Valid()
      modifies visitorSupplier
      ensures Valid() && v == visitorSupplier.instance && visitorSupplier.builds == 1
      ensures old(visitorSupplier.instance) != null ==> v == old(visitorSupplier.instance)
      ensures old(visitorSupplier.instance) == null ==> fresh(v) && v.enqueued == []
    {
      v := visitorSupplier.Get();
    }

    /**
     * One parent of the normal path: signals its entry and, if the entry
     * must be evaluated or the parent supports partial re-evaluation,
     * enqueues it on the visitor.
     */
    method SignalAndEnqueue(parent: SkyKey, child: SkyKey, version: Version, priority: int) returns (evaluationRequired: bool)
      requires Valid() && parent in graph.entries
      modifies graph, visitorSupplier, visitorSupplier.instance
      ensures Valid()
      ensures graph.entries == old(graph.entries)[parent := old(graph.entries)[parent].(signals := old(graph.entries)[parent].signals + [Signal(version, child)])]
      ensures graph.answered == old(graph.answered) + [evaluationRequired]
      ensures graph.answeredKeys == old(graph.answeredKeys) + [parent]
      ensures visitorSupplier.Log() == old(visitorSupplier.Log())
        + (if Wakes(parent, evaluationRequired) then [Enqueued(parent, priority, child)] else [])
      ensures || visitorSupplier.instance == old(visitorSupplier.instance)
              || (old(visitorSupplier.instance) == null && fresh(visitorSupplier.instance) && Wakes(parent, evaluationRequired))
    {
      evaluationRequired := graph.SignalDep(parent, version, child);
      if evaluationRequired || parent.supportsPartialReevaluation {
        var visitor := GetVisitor();
        visitor.EnqueueEvaluation(parent, priority, child);
      }
    }

    /**
     * Signals the parents of `child` after the evaluation aborted: every
     * reached parent that is not done receives one signal; a done parent
     * (possible with cycles) receives none; no other entry changes; nothing
     * is enqueued and the visitor is not built. The step stops at the first
     * parent the graph lacks.
     */
    method SignalParentsOnAbort(child: SkyKey, parents: seq<SkyKey>, version: Version) returns (outcome: Outcome)
      requires Valid() && Distinct(parents)
      modifies graph
      ensures Valid()
      ensures outcome == OutcomeOf(parents, old(graph.entries).Keys)
      ensures graph.entries == Deliver(old(graph.entries), parents[..PresentPrefix(parents, old(graph.entries).Keys)], Signal(version, child), true)
      ensures old(graph.answered) <= graph.answered && old(graph.answeredKeys) <= graph.answeredKeys
      ensures visitorSupplier.instance == old(visitorSupplier.instance)
      ensures visitorSupplier.Log() == old(visitorSupplier.Log())
    {
      var batch := graph.GetBatch(parents);
      ghost var entries := graph.entries;
      ghost var n := PresentPrefix(parents, entries.Keys);
      ghost var answered0, keys0 := graph.answered, graph.answeredKeys;
      var i := 0;
      while i < |parents|
        invariant i <= n
        invariant graph.entries == Deliver(entries, parents[..i], Signal(version, child), true)
        invariant answered0 <= graph.answered && keys0 <= graph.answeredKeys
      {
        var parent := parents[i];
        if parent !in batch {
          assert parent !in entries && i == n;
          return MissingEntry(parent);
        }
        var entry := batch[parent];
        assert i < n by {
          assert parents[i] in entries.Keys;
        }
        DeliverExtend(entries, parents, i, Signal(version, child), true);
        if !entry.done {
          var _ := graph.SignalDep(parent, version, child);
        }
        i := i + 1;
      }
      outcome := Completed;
    }

    /**
     * Signals the parents of `child` and enqueues, at `priority`, every
     * parent whose `signalDep` answer (returned in `answers`, in parent
     * order) requires evaluation or whose key supports partial
     * re-evaluation. Every reached parent is signalled once, done or not; no
     * other entry changes; the visitor is built only if something is
     * enqueued. The step stops at the first parent the graph lacks.
     */
    method SignalParentsAndEnqueueIfReady(child: SkyKey, parents: seq<SkyKey>, version: Version, priority: int)
      returns (outcome: Outcome, ghost answers: seq<bool>)
      requires Valid() && Distinct(parents)
      modifies graph, visitorSupplier, visitorSupplier.instance
      ensures Valid()
      ensures outcome == OutcomeOf(parents, old(graph.entries).Keys)
      ensures |answers| == PresentPrefix(parents, old(graph.entries).Keys)
      ensures graph.entries == Deliver(old(graph.entries), parents[..|answers|], Signal(version, child), false)
      ensures graph.answered == old(graph.answered) + answers
      ensures graph.answeredKeys == old(graph.answeredKeys) + parents[..|answers|]
      ensures visitorSupplier.Log() == old(visitorSupplier.Log()) + EnqueuesFor(parents, answers, priority, child)
      ensures || visitorSupplier.instance == old(visitorSupplier.instance)
              || (old(visitorSupplier.instance) == null && fresh(visitorSupplier.instance) && EnqueuesFor(parents, answers, priority, child) != [])
    {
      var batch := graph.GetBatch(parents);
      ghost var entries := graph.entries;
      ghost var n := PresentPrefix(parents, entries.Keys);
      ghost var log0, instance0 := visitorSupplier.Log(), visitorSupplier.instance;
      ghost var answered0, keys0 := graph.answered, graph.answeredKeys;
      answers := [];
      var i := 0;
      while i < |parents|
        invariant i <= n && |answers| == i
        invariant visitorSupplier.Valid()
        invariant graph.entries == Deliver(entries, parents[..i], Signal(version, child), false)
        invariant graph.answered == answered0 + answers
        invariant graph.answeredKeys == keys0 + parents[..i]
        invariant visitorSupplier.Log() == log0 + EnqueuesFor(parents, answers, priority, child)
        invariant || visitorSupplier.instance == instance0
                  || (instance0 == null && fresh(visitorSupplier.instance) && EnqueuesFor(parents, answers, priority, child) != [])
      {
        var parent := parents[i];
        if parent !in batch {
          assert parent !in entries && i == n;
          return MissingEntry(parent), answers;
        }
        assert i < n by {
          assert parents[i] in entries.Keys;
        }
        DeliverExtend(entries, parents, i, Signal(version, child), false);
        var evaluationRequired := SignalAndEnqueue(parent, child, version, priority);
        EnqueuesForExtend(parents, answers, evaluationRequired, priority, child);
        ConcatAssoc(log0, EnqueuesFor(parents, answers, priority, child),
          if Wakes(parent, evaluationRequired) then [Enqueued(parent, priority, child)] else []);
        ConcatAssoc(answered0, answers, [evaluationRequired]);
        PrefixAppend(keys0, parents, i);
        answers := answers + [evaluationRequired];
        i := i + 1;
      }
      outcome := Completed;
    }
  }
}
