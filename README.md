# Enumerate: exhaustive enumeration inference, modelled in Dafny

This project models webppl's enumeration engine (`src/inference/enumerate.js`). It is the
`Enumerate` object that a probabilistic program runs against, in continuation-passing style:

- Every random choice (`sample`) puts one branch state per support value on a frontier, then
  resumes the next state from it.
- Every `factor` adds a weight to the running path score.
- Every finished path (`exit`) adds `exp(score)` to the bucket of the marginal for its return
  value. It then resumes the next pending state, or it hands the marginal to the original
  continuation and reinstates the handler that was active before it.

The frontier has three disciplines:

- a priority queue on score (`enuPriority`, most probable first);
- a stack (`enuFilo`, depth first);
- a queue (`enuFifo`, breadth first).

Modelling choices:

- Continuations are opaque tokens. An operation returns the `Step` it would take next (invoke the
  program, resume a state, continue a path, return to `k`) instead of calling it.
- Stores are values, so cloning a store is the identity.
- Scores are `NegInf | Fin(r)`, and adding `NegInf` to anything gives `NegInf`.
- The serialisation of return values (`JSON.stringify`) is the engine's field `key`. The
  exponential (`Math.exp`) is its field `exp`. Both are supplied by the caller.
- The handler slot `env.coroutine` is a field of an explicit `Env` object.

Modules:

- `Wrappers`: `Option` and `Result`.
- `Scores`: the score type, `Add` and the order `Le`.
- `Frontiers`: branch states, the three disciplines (`NextIndex` chooses the position the next
  dequeue removes), and the class `Frontier` with `Enq`/`Deq`/`Size`.
- `Enumeration`: the budget, the marginal update `Deposit`, the branch states of a choice, the
  class `Enumerate` with `Run`, `NextInQueue`, `Sample`, `Factor` and `Exit`, and the three
  builders.
- `DecisionTrees`: a program abstracted as a finite decision tree, and `Drive`. `Drive` plays the
  program's part against a real `Enumerate` object until the object returns. It proves these
  whole-run facts for every discipline:
  - the completed executions (return value and final score) are distinct leaves of the tree, and
    the mass per key of the returned marginal is the sum of `exp` over the completed ones with that
    key;
  - without a budget, every leaf of the tree is completed exactly once, so the mass per key is the
    sum over all leaves with that key;
  - with a budget n ≥ 1, exactly min(#leaves, n) executions complete;
  - the run fails only on an empty support, and without a budget it fails whenever the tree has a
    choice with an empty support.

## Model

| member | source | states |
|---|---|---|
| Frontiers.ArgMax | src/inference/enumerate.js:130-133 | the position it returns holds a state whose score is at least every other pending state's score (the priority queue on score dequeues a maximum) |
| Frontiers.NextIndex | src/inference/enumerate.js:130-155 | the state the next dequeue takes: the last one for the stack, the first one for the queue, a maximal-score one for the priority queue |
| Frontiers.Without | src/inference/enumerate.js:143-153 | removing one state keeps all the others in their order and shortens the frontier by one |
| Frontiers.DepthFirstIsLastInFirstOut | src/inference/enumerate.js:137-145 | push then pop on the depth-first frontier returns the state just pushed and leaves the frontier as it was |
| Frontiers.BreadthFirstIsFirstInFirstOut | src/inference/enumerate.js:147-155 | push then shift on the breadth-first frontier returns the earliest state, and the new state waits at the back |
| Frontiers.Frontier.constructor | src/inference/enumerate.js:131-148 | a new frontier is empty and has its discipline |
| Frontiers.Frontier.Enq | src/inference/enumerate.js:142-152 | enq appends the state at the end and changes nothing else |
| Frontiers.Frontier.Size | src/inference/enumerate.js:139-150 | the size is zero exactly when the frontier is empty, so `size() > 0` tells whether a state can be dequeued |
| Frontiers.Frontier.Deq | src/inference/enumerate.js:143-153 | deq returns the state its discipline selects and removes exactly that one |
| Enumeration.BudgetOf | src/inference/enumerate.js:24 | the budget is unbounded exactly when maxExecutions is absent or 0; otherwise it is that number, and another execution is allowed exactly when the counter is below it |
| Enumeration.Deposit | src/inference/enumerate.js:105-111 | a path with score minus infinity leaves the marginal unchanged; any other path adds exp(score) to the bucket of its key, created at 0 with this return value if absent, and every other bucket is unchanged |
| Enumeration.Branches | src/inference/enumerate.js:72-82 | one branch state per support value, in support order, each with the same continuation, that value, score = running score + dist score + extra score (0 when no extraScoreFn), and the store |
| Enumeration.Enumerate.constructor | src/inference/enumerate.js:16-35 | a new engine has score 0, an empty marginal, 0 completed executions, the budget of maxExecutions, the given store, k, address, program and frontier; it saves the previous handler and installs itself |
| Enumeration.Enumerate.Run | src/inference/enumerate.js:37-42 | running invokes the program on the original store and address, with the engine's exit as continuation |
| Enumeration.Enumerate.NextInQueue | src/inference/enumerate.js:44-48 | dequeues the state the discipline selects, overwrites the running score with its score (no addition), and resumes its continuation with its store and value |
| Enumeration.Enumerate.Sample | src/inference/enumerate.js:50-85 | fails, enqueuing nothing, when the distribution has no support function or the support is empty; otherwise appends the branch states of every support value, dequeues one as NextInQueue does, so the frontier grows by the support's length minus 1 |
| Enumeration.Enumerate.Factor | src/inference/enumerate.js:87-91 | adds the weight to the running score, leaves the frontier unchanged and continues the same path |
| Enumeration.Enumerate.Exit | src/inference/enumerate.js:103-127 | deposits the path into the marginal (as Deposit states), counts it even at minus infinity, and resumes the next state exactly when the frontier is non-empty and the budget allows; otherwise it returns the marginal to k with the original store and reinstates the saved handler; buckets stay filed under their key and the counter never exceeds a budget n >= 1 |
| Enumeration.EnuPriority | src/inference/enumerate.js:130-135 | builds an engine over an empty most-probable-first frontier, installs it as handler, and invokes the program |
| Enumeration.EnuFilo | src/inference/enumerate.js:137-145 | builds an engine over an empty depth-first frontier, installs it as handler, and invokes the program |
| Enumeration.EnuFifo | src/inference/enumerate.js:147-155 | builds an engine over an empty breadth-first frontier, installs it as handler, and invokes the program |
| Enumeration.NestedEnginesRestoreInStackOrder | src/inference/enumerate.js:31-34 | an engine started inside a branch of another saves the outer one as its previous handler and, when it finishes, reinstates it; the outer engine, with a branch still pending, then resumes it and on its own finish reinstates the handler active before both |
| DecisionTrees.ProbsOfTally | src/inference/enumerate.js:105-111 | the masses of the marginal built by successive exits are the sums of exp(score) per key over the finished paths |
| DecisionTrees.DepositMassCommutes | src/inference/enumerate.js:106-111 | two exits add the same masses in either order |
| DecisionTrees.MassPermutation | src/inference/enumerate.js:103-111 | the masses of the marginal depend only on which paths finished, not on the order in which they finished |
| DecisionTrees.ChoiceAccount | src/inference/enumerate.js:72-82 | the states a choice enqueues carry exactly the executions of the choice's subtrees, and one node fewer than the choice |
| DecisionTrees.ResumeKeepsAccount | src/inference/enumerate.js:44-48 | resuming a pending state moves its executions from the frontier to the running path and leaves fewer program nodes to run |
| DecisionTrees.LeafKeepsAccount | src/inference/enumerate.js:113-114 | an exit moves one execution of the program from the running path to the completed ones, so completions never outnumber the program's paths |
| DecisionTrees.ChoiceKeepsAccount | src/inference/enumerate.js:72-84 | sample followed by resuming the next state, whatever the discipline, keeps every execution accounted for once, and strictly decreases the work left |
| DecisionTrees.FinishFacts | src/inference/enumerate.js:117-126 | when exit finishes: the completed executions are distinct paths of the program and the marginal's masses are their per-key sums; without a budget the frontier is empty, so every path has completed exactly once and the masses are those of all paths; with a budget n >= 1 exactly min(#paths, n) have completed |
| DecisionTrees.ResumeKeepsEmptyChoiceAhead | src/inference/enumerate.js:44-48 | when some pending state leads to an empty choice, resuming any pending state leaves that choice ahead, under the resumed state or still on the frontier |
| DecisionTrees.ChoiceKeepsEmptyChoiceAhead | src/inference/enumerate.js:72-84 | a sample followed by a resume, whatever the discipline, never loses an empty choice still to be run, since every branch of the choice goes onto the frontier |
| DecisionTrees.FinishOutcome | src/inference/enumerate.js:117-126 | the summary an engine hands back when it finishes has the FinishFacts properties, and without a budget a finished run has no empty choice left behind, so the tree has none |
| DecisionTrees.LeafStep | src/inference/enumerate.js:103-127 | the driver's exit step records the path just finished with its score, keeps the whole-run account when it resumes, and yields the FinishFacts results when it stops |
| DecisionTrees.WeightStep | src/inference/enumerate.js:87-91 | the driver's factor step adds the weight to the engine's score, continues with the weighted subtree, and keeps the account with less work left |
| DecisionTrees.ChoiceStep | src/inference/enumerate.js:50-85 | the driver's sample step fails exactly when this choice's support is empty, and then with EmptySupport; when it succeeds it keeps the account with less work left, and keeps an empty choice ahead if the tree has one |
| DecisionTrees.Drive | src/inference/enumerate.js:16-127 | a whole enumeration of a finite program, for every discipline, terminates; the executions it completes (a ghost result) are as many as the returned counter, are distinct paths of the program, and give the marginal's masses as per-key sums; without a budget they are every path exactly once, so the masses are the per-key sums over all paths; with a budget n >= 1 it completes min(#paths, n); it fails only with an empty support, never on a tree without one, and without a budget it always fails on a tree with one |

## Left out

- Continuation calls (`wpplFn(...)`, `nextState.continuation(...)`, `cc(s)`, `this.k(...)`) are
  not performed. Each operation returns the `Step` it would take, and `DecisionTrees.Drive`
  plays the program's side.
- `Math.exp` and floating point. `exp` is an arbitrary function on `real`. Masses are sums of its
  values, and no numeric identity of floating-point sums is claimed.
- `JSON.stringify` is an arbitrary key function `key`. Two return values share a bucket exactly
  when their keys are equal.
- `erp.makeMarginalERP` is not part of this model. The `Return` step carries the raw marginal map
  (`{prob, val}` per key) instead of the distribution built from it.
- `_.clone` is the identity, since stores are values. Aliasing between stores is not captured.
- `console.error` before the two thrown errors is left out. The thrown strings become the
  `EnumError` values `UnsupportedDistribution` and `EmptySupport`.
- The commented-out `sampleWithFactor` is not source code and is not modelled.
- An `extraScoreFn` is described in the source as steering exploration, but its score stays in the
  branch state's score. `nextInQueue` copies that into the running score, so `exit` deposits it as
  mass too. The contracts of `Branches`, `NextInQueue` and `Exit` carry this through. The
  decision-tree driver always passes no `extraScoreFn`, so the whole-run results cover only
  programs without one.
- The address argument `a` of `sample` and `factor` is unused by the engine and is omitted there.
- Scores of `+Infinity` and `NaN`, and a non-integer or non-numeric `maxExecutions`, are not
  modelled. Scores are `NegInf` or finite, and maxExecutions is an optional integer.
- Frontiers.ArgMax: the priority queue library's heap internals are not modelled. Among states of
  equal maximal score the model takes the earliest, while the library's choice among ties is
  unspecified. The ensures of `NextIndex` state only "a maximal score", while its body picks the
  earliest one, and every dequeue goes through `NextIndex`. The
  comparator `a.score - b.score` yields NaN for two scores of minus infinity; that case is also not
  modelled.
- Frontiers.Frontier.Deq: requires a non-empty frontier. The source's pop or shift on an empty
  array would return undefined, but the engine never dequeues from an empty frontier: `sample`
  has just enqueued at least one state, and `exit` checks the size first.
- Enumeration.Enumerate.Exit: requires the engine to be the installed handler
  (`env.coroutine == this`), to have started and not yet returned (ghost `active`), and its
  invariant. `Sample`, `Factor` and `NextInQueue` require the first two as well. In the source, a program's exit is `env.exit`, which reaches only the installed
  handler while its enumeration runs. A second exit after the engine has returned is not modelled.
- DecisionTrees.Drive: the completed count is stated only for no budget and for a budget n >= 1.
  A negative maxExecutions (which the source turns into "stop after the first exit") is covered
  only by the bound completed <= #paths. The representative value of each bucket depends on the
  order of completion, so only the masses (`Probs`) are stated to be order-independent.
- `env` is a module-level object in the source. Here it is an explicit `Env` object passed to
  the builders.
