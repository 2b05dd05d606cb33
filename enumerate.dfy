/**
 * The enumeration engine: an object that is installed as the active handler, expands the
 * frontier at every random choice, adds weights to the running score, folds finished paths
 * into the marginal and stops when the frontier is empty or the execution budget is spent.
 *
 * Continuations (the program, the original continuation k, and the continuation cc of a choice)
 * are opaque tokens of type C: an operation returns the Step it would take next instead of
 * calling it. Stores are values of type S, so cloning one is the identity. The serialisation of a
 * return value is the field `key` and the exponential is the field `exp`.
 */
module Enumeration {
  import opened Wrappers
  import opened Scores
  import opened Frontiers

  /** The execution budget after `maxExecutions || Infinity`. */
  datatype Budget = Unbounded | AtMost(n: int) {
    /** Whether another path may be resumed after `count` completed executions. */
    predicate Allows(count: nat)
    {
      Unbounded? || count < n
    }
  }

  /** A falsy maxExecutions (absent, or 0) means no budget; any other number is the budget. */
  function BudgetOf(maxExecutions: Option<int>): (b: Budget)
    ensures b.Unbounded? <==> maxExecutions.None? || maxExecutions == Some(0)
    ensures b.AtMost? ==> maxExecutions == Some(b.n)
    ensures forall count: nat :: b.Allows(count) <==> maxExecutions.None? || maxExecutions == Some(0) || count < maxExecutions.value
  {
    match maxExecutions
    case None => Unbounded
    case Some(n) => if n == 0 then Unbounded else AtMost(n)
  }

  /** A bucket of the marginal: the accumulated mass and the first return value that reached it. */
  datatype Bucket<V> = Bucket(prob: real, val: V)

  /**
   * The fold of one finished path into the marginal: nothing when the score is minus infinity,
   * otherwise exp(score) is added to the bucket for key r, created at mass 0 if absent.
   */
  function Deposit<K, V>(marginal: map<K, Bucket<V>>, r: K, retval: V, score: Score, exp: real -> real): (m: map<K, Bucket<V>>)
    ensures score.NegInf? ==> m == marginal
    ensures score.Fin? ==> m.Keys == marginal.Keys + {r}
    ensures score.Fin? ==> m[r].prob == (if r in marginal then marginal[r].prob else 0.0) + exp(score.r)
    ensures score.Fin? ==> m[r].val == if r in marginal then marginal[r].val else retval
    ensures forall r' :: r' in marginal && r' != r ==> r' in m && m[r'] == marginal[r']
  {
    if score.NegInf? then marginal
    else
      var bucket := if r in marginal then marginal[r] else Bucket(0.0, retval);
      marginal[r := Bucket(bucket.prob + exp(score.r), bucket.val)]
  }

  /** A distribution as the engine sees it: an optional support function and a scoring function. */
  datatype Erp<!P, !V> = Erp(support: Option<P -> seq<V>>, score: (P, V) -> Score)

  /** The extra score of a support value; an absent extraScoreFn scores every value 0. */
  function ExtraScore<V>(extraScoreFn: Option<V -> Score>, v: V): Score
  {
    match extraScoreFn
    case None => Fin(0.0)
    case Some(f) => f(v)
  }

  /** The score of a new branch: the running score plus the value's log-probability plus its extra score. */
  function BranchScore(score: Score, logp: Score, extra: Score): Score
  {
    Add(Add(score, logp), extra)
  }

  /** The branch states a choice enqueues, one per support value, in the order of the support. */
  function Branches<C, S, V, P>(cc: C, store: S, score: Score, supp: seq<V>, dist: Erp<P, V>, params: P,
                                extraScoreFn: Option<V -> Score>): (states: seq<State<C, S, V>>)
    ensures |states| == |supp|
  {
    seq(|supp|, i requires 0 <= i < |supp| =>
      State(cc, supp[i], BranchScore(score, dist.score(params, supp[i]), ExtraScore(extraScoreFn, supp[i])), store))
  }

  /** What the engine does next, in place of calling a continuation. */
  datatype Step<C, S, V, K> =
    | Invoke(fn: C, store: S, addr: string)                      // run the program with exit as its continuation
    | Resume(continuation: C, store: S, value: V)                // resume a dequeued branch state
    | Continue(continuation: C, store: S)                        // continue the same path after a factor
    | Return(k: C, store: S, marginal: map<K, Bucket<V>>)        // hand the marginal to the original continuation

  /** The two fatal errors of a random choice. */
  datatype EnumError = UnsupportedDistribution | EmptySupport

  /** The handler slot: the coroutine that random choices, factors and exits are routed to. */
  class Env {
    var coroutine: object?

    constructor (initial: object?)
      ensures coroutine == initial
    {
      coroutine := initial;
    }
  }

  class Enumerate<C, S, V, K(==)> {
    var score: Score
    var marginal: map<K, Bucket<V>>
    var numCompletedExecutions: nat
    const store: S
    const k: C
    const a: string
    const wpplFn: C
    const maxExecutions: Budget
    const queue: Frontier<C, S, V>
    /** The handler that was active before this engine, reinstated when it finishes. */
    const coroutine: object?
    const env: Env
    const key: V -> K
    const exp: real -> real
    /** True from construction until exit hands the marginal back. */
    ghost var active: bool

    /**
     * Every bucket is filed under the key of its value, and the counter stays within a
     * budget of at least 1 (strictly below it while the engine is active).
     */
    ghost predicate Valid()
      reads this
    {
      (forall r :: r in marginal ==> key(marginal[r].val) == r) &&
      (maxExecutions.AtMost? && maxExecutions.n >= 1 ==>
         numCompletedExecutions <= maxExecutions.n &&
         (active ==> numCompletedExecutions < maxExecutions.n))
    }

    constructor (env: Env, store: S, k: C, a: string, wpplFn: C, maxExecutions: Option<int>,
                 q: Frontier<C, S, V>, key: V -> K, exp: real -> real)
      modifies env
      ensures Valid() && active
      ensures score == Fin(0.0) && marginal == map[] && numCompletedExecutions == 0
      ensures this.maxExecutions == BudgetOf(maxExecutions)
      ensures this.store == store && this.k == k && this.a == a && this.wpplFn == wpplFn
      ensures queue == q && this.env == env && this.key == key && this.exp == exp
      ensures coroutine == old(env.coroutine) && env.coroutine == this
    {
      score := Fin(0.0);
      marginal := map[];
      numCompletedExecutions := 0;
      this.store := store;
      this.k := k;
      this.a := a;
      this.wpplFn := wpplFn;
      this.maxExecutions := BudgetOf(maxExecutions);
      queue := q;
      coroutine := env.coroutine;
      this.env := env;
      this.key := key;
      this.exp := exp;
      active := true;
      new;
      env.coroutine := this;
    }

    /** Runs the program on the original store, with the engine's exit as its continuation. */
    method Run() returns (step: Step<C, S, V, K>)
      ensures step == Invoke(wpplFn, store, a)
    {
      step := Invoke(wpplFn, store, a);
    }

    /** Dequeues the next state, makes its score the running score, and resumes it. */
    method NextInQueue() returns (step: Step<C, S, V, K>)
      requires active && env.coroutine == this
      requires queue.items != []
      modifies this`score, queue
      ensures var i := NextIndex(queue.discipline, old(queue.items));
        var next := old(queue.items)[i];
        queue.items == Without(old(queue.items), i) &&
        score == next.score &&
        step == Resume(next.continuation, next.store, next.value)
    {
      var nextState := queue.Deq();
      score := nextState.score;
      step := Resume(nextState.continuation, nextState.store, nextState.value);
    }

    /**
     * A random choice: fails if the distribution has no support function or an empty support;
     * otherwise enqueues one branch state per support value and resumes the next state.
     */
    method Sample<P>(s: S, cc: C, dist: Erp<P, V>, params: P, extraScoreFn: Option<V -> Score>)
      returns (r: Result<Step<C, S, V, K>, EnumError>)
      requires active && env.coroutine == this
      modifies this`score, queue
      ensures dist.support.None? ==> r == Failure(UnsupportedDistribution)
      ensures dist.support.Some? && dist.support.value(params) == [] ==> r == Failure(EmptySupport)
      ensures r.Failure? ==> queue.items == old(queue.items) && score == old(score)
      ensures r.Success? <==> dist.support.Some? && dist.support.value(params) != []
      ensures r.Success? ==>
        var supp := dist.support.value(params);
        var grown := old(queue.items) + Branches(cc, s, old(score), supp, dist, params, extraScoreFn);
        var i := NextIndex(queue.discipline, grown);
        |queue.items| == |old(queue.items)| + |supp| - 1 &&
        queue.items == Without(grown, i) &&
        score == grown[i].score &&
        r.value == Resume(grown[i].continuation, grown[i].store, grown[i].value)
    {
      if dist.support.None? {
        return Failure(UnsupportedDistribution);
      }
      var supp := dist.support.value(params);
      if |supp| == 0 {
        return Failure(EmptySupport);
      }
      ghost var states := Branches(cc, s, score, supp, dist, params, extraScoreFn);
      var i := 0;
      while i < |supp|
        invariant 0 <= i <= |supp|
        invariant queue.items == old(queue.items) + states[..i]
        invariant score == old(score)
      {
        var state := State(cc, supp[i], BranchScore(score, dist.score(params, supp[i]), ExtraScore(extraScoreFn, supp[i])), s);
        queue.Enq(state);
        assert states[..i + 1] == states[..i] + [state];
        i := i + 1;
      }
      assert states[..|supp|] == states;
      var step := NextInQueue();
      r := Success(step);
    }

    /** A factor: adds the weight to the running score and continues the same path. */
    method Factor(s: S, cc: C, w: Score) returns (step: Step<C, S, V, K>)
      requires active && env.coroutine == this
      modifies this`score
      ensures score == Add(old(score), w)
      ensures queue.items == old(queue.items)
      ensures step == Continue(cc, s)
    {
      score := Add(score, w);
      step := Continue(cc, s);
    }

    /**
     * The end of a path: deposits exp(score) for the return value unless the score is minus
     * infinity, counts the execution, and resumes the next state if one is pending and the
     * budget allows; otherwise reinstates the previous handler and returns the marginal to k
     * with the original store.
     */
    method Exit(s: S, retval: V) returns (step: Step<C, S, V, K>)
      requires Valid() && active && env.coroutine == this
      modifies this, queue, env
      ensures Valid()
      ensures marginal == Deposit(old(marginal), key(retval), retval, old(score), exp)
      ensures numCompletedExecutions == old(numCompletedExecutions) + 1
      ensures old(queue.items) != [] && maxExecutions.Allows(numCompletedExecutions) ==>
        var i := NextIndex(queue.discipline, old(queue.items));
        var next := old(queue.items)[i];
        active &&
        queue.items == Without(old(queue.items), i) &&
        score == next.score &&
        step == Resume(next.continuation, next.store, next.value) &&
        env.coroutine == old(env.coroutine)
      ensures !(old(queue.items) != [] && maxExecutions.Allows(numCompletedExecutions)) ==>
        !active &&
        queue.items == old(queue.items) &&
        score == old(score) &&
        step == Return(k, store, marginal) &&
        env.coroutine == coroutine
    {
      var r := key(retval);
      marginal := Deposit(marginal, r, retval, score, exp);
      numCompletedExecutions := numCompletedExecutions + 1;
      if queue.Size() > 0 && maxExecutions.Allows(numCompletedExecutions) {
        step := NextInQueue();
      } else {
        env.coroutine := coroutine;
        active := false;
        step := Return(k, store, marginal);
      }
    }
  }

  /** The state of an engine a builder has just created and started. */
  ghost predicate Launched<C, S, V, K>(e: Enumerate<C, S, V, K>, d: Discipline, env: Env, s: S, cc: C, a: string,
                                           wpplFn: C, maxExecutions: Option<int>, key: V -> K, exp: real -> real,
                                           saved: object?)
    reads e, e.queue, env
  {
    e.Valid() && e.active &&
    e.score == Fin(0.0) && e.marginal == map[] && e.numCompletedExecutions == 0 &&
    e.maxExecutions == BudgetOf(maxExecutions) &&
    e.store == s && e.k == cc && e.a == a && e.wpplFn == wpplFn &&
    e.env == env && e.key == key && e.exp == exp &&
    e.queue.discipline == d && e.queue.items == [] &&
    e.coroutine == saved && env.coroutine == e
  }

  /** Most-probable-first enumeration: the frontier is a priority queue on score. */
  method EnuPriority<C, S, V, K(==)>(env: Env, s: S, cc: C, a: string, wpplFn: C, maxExecutions: Option<int>,
                                     key: V -> K, exp: real -> real)
    returns (e: Enumerate<C, S, V, K>, step: Step<C, S, V, K>)
    modifies env
    ensures fresh(e) && fresh(e.queue)
    ensures Launched(e, MostProbableFirst, env, s, cc, a, wpplFn, maxExecutions, key, exp, old(env.coroutine))
    ensures step == Invoke(wpplFn, s, a)
  {
    var q := new Frontier<C, S, V>(MostProbableFirst);
    e := new Enumerate(env, s, cc, a, wpplFn, maxExecutions, q, key, exp);
    step := e.Run();
  }

  /** Depth-first enumeration: the frontier is a stack (push and pop). */
  method EnuFilo<C, S, V, K(==)>(env: Env, s: S, cc: C, a: string, wpplFn: C, maxExecutions: Option<int>,
                                 key: V -> K, exp: real -> real)
    returns (e: Enumerate<C, S, V, K>, step: Step<C, S, V, K>)
    modifies env
    ensures fresh(e) && fresh(e.queue)
    ensures Launched(e, DepthFirst, env, s, cc, a, wpplFn, maxExecutions, key, exp, old(env.coroutine))
    ensures step == Invoke(wpplFn, s, a)
  {
    var q := new Frontier<C, S, V>(DepthFirst);
    e := new Enumerate(env, s, cc, a, wpplFn, maxExecutions, q, key, exp);
    step := e.Run();
  }

  /** Breadth-first enumeration: the frontier is a queue (push and shift). */
  method EnuFifo<C, S, V, K(==)>(env: Env, s: S, cc: C, a: string, wpplFn: C, maxExecutions: Option<int>,
                                 key: V -> K, exp: real -> real)
    returns (e: Enumerate<C, S, V, K>, step: Step<C, S, V, K>)
    modifies env
    ensures fresh(e) && fresh(e.queue)
    ensures Launched(e, BreadthFirst, env, s, cc, a, wpplFn, maxExecutions, key, exp, old(env.coroutine))
    ensures step == Invoke(wpplFn, s, a)
  {
    var q := new Frontier<C, S, V>(BreadthFirst);
    e := new Enumerate(env, s, cc, a, wpplFn, maxExecutions, q, key, exp);
    step := e.Run();
  }

  /**
   * Two engines, the second started inside a branch of the first (as a program does when it
   * enumerates inside a random choice): the outer engine samples two values, so one branch is still
   * pending when the inner engine starts. Finishing the inner engine reinstates the outer one as the
   * handler; the outer engine then resumes its pending branch and, on its last exit, reinstates
   * whatever was active before both.
   */
  method NestedEnginesRestoreInStackOrder<C, S, V, K(==)>(env: Env, s: S, cc: C, wpplFn: C, v1: V, v2: V,
                                                          key: V -> K, exp: real -> real)
    returns (outer: Enumerate<C, S, V, K>, inner: Enumerate<C, S, V, K>, ghost slotAfterInner: object?,
             innerDone: Step<C, S, V, K>, outerResumed: Step<C, S, V, K>, outerDone: Step<C, S, V, K>)
    modifies env
    ensures outer.coroutine == old(env.coroutine) && inner.coroutine == outer
    ensures innerDone == Return(inner.k, inner.store, inner.marginal) && slotAfterInner == outer
    ensures outerResumed.Resume?
    ensures outerDone == Return(outer.k, outer.store, outer.marginal)
    ensures env.coroutine == old(env.coroutine)
  {
    var started;
    outer, started := EnuFilo(env, s, cc, "outer", wpplFn, None, key, exp);
    var coin := Erp(Some((_: ()) => [v1, v2]), (_: (), _: V) => Fin(0.0));
    var branch := outer.Sample(s, cc, coin, (), None);
    assert branch.Success? && |outer.queue.items| == 1;
    inner, started := EnuFifo(env, s, cc, "inner", wpplFn, None, key, exp);
    innerDone := inner.Exit(s, v1);
    slotAfterInner := env.coroutine;
    outerResumed := outer.Exit(s, v1);
    outerDone := outer.Exit(s, v2);
  }
}
