# Skyframe evaluator context: parent signalling and the lazy visitor

Bazel's Skyframe evaluates a graph of nodes in parallel. Each node is named
by a `SkyKey`. When a node finishes, the shared `ParallelEvaluatorContext`
tells each of its parents. It looks all parent entries up in one
`getBatch` call and calls `signalDep(version, child)` on each entry. The
step has two paths:

- **Normal path** (`signalParentsAndEnqueueIfReady`). Every parent is
  signalled. A parent is enqueued on the `NodeEntryVisitor`, at the given
  priority, when `signalDep` answers that it needs evaluation or when its
  key supports partial re-evaluation.
- **Abort path** (`signalParentsOnAbort`). Parents that are already done
  are skipped. Cycles make that possible. Nothing is enqueued.

On both paths a parent missing from the batch fails the step through
`checkNotNull`. The visitor owns the thread pool. It is built lazily by a
memoised supplier on the first `getVisitor` call, and never again.

The project has three modules:

- `Graph` (`graph.dfy`) holds keys, signals, node entries and the graph.
  The graph's `entries` map is a field: `SignalDep` updates one entry in
  place and leaves the others alone. It records its answer, and the key it
  gave that answer for, in two ghost lists.
- `Scheduler` (`scheduler.dfy`) holds the visitor, which keeps the list of
  requests it has received, and the memoising supplier. The supplier's
  ghost `builds` counter records how often the underlying supplier ran.
- `EvaluatorContext` (`context.dfy`) holds the context class, its two
  signalling loops and `getVisitor`. It also holds the specification
  functions the loops are proved against:
  - `PresentPrefix`: how far a step gets;
  - `OutcomeOf`: how the step ends;
  - `Deliver`: which entries receive the signal;
  - `EnqueuesFor`: which requests are sent;

  and the lemmas about those functions.

The parents are a Java `Set`. They are modelled as a sequence of distinct
keys (`Distinct`), in the order the set is iterated. Each entry gets one
signal at most, so the order of signals within an entry does not arise.
The order is recorded for the requests sent to the visitor and for the
normal path's answers. It also decides which parents are reached when a
missing parent throws: those before it. On the normal path every reached
parent is signalled. On the abort path only the reached parents that are
not done are signalled. `MissingEntry(p)` models that exception.
The graph keeps two ghost lists: `answered`, every answer `signalDep` has
given, and `answeredKeys`, the key each answer was given for. On the
normal path `answered` grows by the ghost result `answers` and
`answeredKeys` grows by the reached parents, in the same order. So
`answers[i]` is the answer `signalDep` gave for the i-th parent, and the
enqueue rule is proved against the answers `signalDep` actually gave.

## Model

| member | source | states |
|---|---|---|
| Graph.QueryableGraph.GetBatch | src/main/java/com/google/devtools/build/skyframe/ParallelEvaluatorContext.java:112 | The batch holds exactly the requested keys the graph has, each mapped to its current entry. A key the graph lacks is absent; the lookup creates nothing |
| Graph.QueryableGraph.SignalDep | src/main/java/com/google/devtools/build/skyframe/ParallelEvaluatorContext.java:116 | `signalDep` appends one `(version, child)` signal to the signalled entry. No other entry changes, and `done` is kept. The answer is unconstrained. It is appended to the graph's record of answers, and the key to its record of keys |
| Scheduler.NodeEntryVisitor.EnqueueEvaluation | src/main/java/com/google/devtools/build/skyframe/ParallelEvaluatorContext.java:133 | Records one request with the key, the priority and the child that woke it |
| Scheduler.MemoizedVisitorSupplier.Get | src/main/java/com/google/devtools/build/skyframe/ParallelEvaluatorContext.java:99 | The memoised supplier runs the underlying supplier on the first call only. Later calls return the same object, and the build count stays at one |
| EvaluatorContext.ParallelEvaluatorContext.constructor | src/main/java/com/google/devtools/build/skyframe/ParallelEvaluatorContext.java:72-102 | Stores the graph, versions and keep-going flag. Wraps the visitor supplier without running it: no visitor exists and the build count is zero |
| EvaluatorContext.ParallelEvaluatorContext.GetVisitor | src/main/java/com/google/devtools/build/skyframe/ParallelEvaluatorContext.java:154-156 | Returns the visitor. The supplier has run exactly once after the call. A visitor built earlier is returned as is; otherwise a fresh visitor with no requests |
| EvaluatorContext.ParallelEvaluatorContext.SignalParentsOnAbort | src/main/java/com/google/devtools/build/skyframe/ParallelEvaluatorContext.java:110-119 | The outcome is `OutcomeOf` the parents against the graph. The new graph is `Deliver` to the reached parents, skipping done entries. The visitor is neither built nor sent anything. The graph's records of answers and of their keys only grow, because the answers are ignored |
| EvaluatorContext.ParallelEvaluatorContext.SignalAndEnqueue | src/main/java/com/google/devtools/build/skyframe/ParallelEvaluatorContext.java:130-134 | One loop iteration of the normal path. Signals the parent's entry and returns the answer `signalDep` recorded for that parent's key. It then enqueues the parent exactly when `Wakes` holds for that answer. The visitor is built only for that request and only if it did not exist yet |
| EvaluatorContext.ParallelEvaluatorContext.SignalParentsAndEnqueueIfReady | src/main/java/com/google/devtools/build/skyframe/ParallelEvaluatorContext.java:125-136 | The outcome is `OutcomeOf`. `answers` is exactly what `signalDep` answered, one per reached parent, and the record of keys shows that `answers[i]` was given for the i-th parent. The new graph is `Deliver` to the reached parents, done or not. The visitor's requests grow by exactly `EnqueuesFor` the answers. The visitor is kept, or built fresh only if something was enqueued |
| EvaluatorContext.PresentPrefix | src/main/java/com/google/devtools/build/skyframe/ParallelEvaluatorContext.java:113-114 | The number of parents a step gets through: every parent before it is in the graph, and the parent at it, if any, is not |
| EvaluatorContext.OutcomeOf | src/main/java/com/google/devtools/build/skyframe/ParallelEvaluatorContext.java:113-114 | A step completes iff every parent is in the graph. Otherwise it fails on the first parent, in iteration order, that is missing from the graph |
| EvaluatorContext.Deliver | src/main/java/com/google/devtools/build/skyframe/ParallelEvaluatorContext.java:113-117 | The same keys remain, `done` is unchanged everywhere, each targeted entry gains exactly one signal, and every other entry is unchanged. Done entries are skipped on the abort path |
| EvaluatorContext.DeliverExtend | src/main/java/com/google/devtools/build/skyframe/ParallelEvaluatorContext.java:113-117 | Delivering to the next of distinct parents changes only that parent's entry, by one signal or, when a done entry is skipped, not at all. This is the loop's step |
| EvaluatorContext.EnqueuesFor | src/main/java/com/google/devtools/build/skyframe/ParallelEvaluatorContext.java:129-134 | The normal path sends at most one request per parent reached, each carrying the step's priority and child |
| EvaluatorContext.EnqueuedIff | src/main/java/com/google/devtools/build/skyframe/ParallelEvaluatorContext.java:131-133 | A request is sent iff it names a reached parent whose answer was true or whose key supports partial re-evaluation. So no key outside the parents is ever enqueued |
| EvaluatorContext.EnqueuedAtMostOnce | src/main/java/com/google/devtools/build/skyframe/ParallelEvaluatorContext.java:129-134 | For distinct parents, no key is enqueued twice in one step |
| EvaluatorContext.EnqueuedOnlyWhenRequired | src/main/java/com/google/devtools/build/skyframe/ParallelEvaluatorContext.java:131-133 | A reached parent without partial re-evaluation is enqueued exactly when its `signalDep` answer was true |

## Left out

- `getBatch`, `signalDep` and `enqueueEvaluation` are not modelled inside.
  Only what the context observes of them is kept:
  - the batch is the present part of the graph;
  - a signal is appended to the entry's list, and the answer to
    "evaluation required?" is unconstrained;
  - a request is appended to the visitor's list.
- `getBatch` takes a requestor and a reason. They do not influence the
  result as the context sees it, so they are dropped.
- The thread pool behind the visitor, the priority order in which it runs
  requests, `RunnableMaker` and `ComparableRunnable` are left out. So is
  all concurrency: each step runs alone.
- `InterruptedException` from the graph is not modelled. Only the
  `checkNotNull` failure is an outcome.
- The iteration order of the parent set is not fixed by Java. Here it is
  the order of the sequence, which is arbitrary. A failing step therefore
  reaches some prefix of that order before it fails.
- The underlying visitor supplier is modelled as building a fresh, empty
  visitor. What it builds beyond that is not part of this model.
- Other parts of the context are out of scope:
  - the compute-state cache;
  - event replay (`getReplayingNestedSetEventVisitor`, the
    `NestedSetEventReceiver` and the stored-event filter);
  - `restartPermitted`;
  - the progress receiver, the error-info manager and the
    graph-inconsistency receiver;
  - the SkyFunction table and the reporter;
  - the plain getters for the graph, the versions and the keep-going flag;
  - the flag that merges the analysis and execution phases.

  The keep-going flag and the versions are stored but not used. Cycle
  detection is not part of this model.
- `NodeEntry` is a value stored in the graph's map, not a shared object.
  The batch's entry and the graph's entry are therefore not two references
  to one object. Signalling updates the graph's map directly. The abort
  path reads `done` from the batch, which is safe because signalling never
  changes `done`.
- SignalParentsOnAbort: says only that the graph's records of answers and
  of their keys grow and keep what they held. It does not say by how many, because the abort
  path discards every answer and nothing depends on them.
