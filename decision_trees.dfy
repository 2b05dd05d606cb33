/**
 * A program in continuation-passing form, abstracted as a finite decision tree, and a driver
 * that plays the program's part against a real Enumerate engine: at a Choice it calls Sample with
 * the Choice node as the continuation, at a Weight it calls Factor, at a Leaf it calls Exit, and it
 * follows whatever Step the engine returns. This is what lets whole-run properties be stated:
 * how many executions complete, and which mass lands in which bucket.
 */
module DecisionTrees {
  import opened Wrappers
  import opened Scores
  import opened Frontiers
  import opened Enumeration

  /** A program: return a value, add a weight and go on, or choose among scored branches. */
  datatype Prog<V> =
    | Leaf(ret: V)
    | Weight(w: Score, next: Prog<V>)
    | Choice(branches: seq<Branch<V>>)

  /** One outcome of a choice: the sampled value, its log-probability, and the rest of the program. */
  datatype Branch<V> = Branch(value: V, logp: Score, sub: Prog<V>)

  /** A frontier entry of the driven engine: the continuation is the Choice node it was enqueued at. */
  type Item<V> = State<Prog<V>, (), V>

  function Sum(xs: seq<nat>): nat
  {
    if xs == [] then 0 else Sum(xs[..|xs| - 1]) + xs[|xs| - 1]
  }

  function Flatten<X>(xss: seq<seq<X>>): seq<X>
  {
    if xss == [] then [] else Flatten(xss[..|xss| - 1]) + xss[|xss| - 1]
  }

  function Min(a: int, b: int): int
  {
    if a <= b then a else b
  }

  /** The number of nodes of a program; it bounds the steps an engine takes on it. */
  function Size<V>(t: Prog<V>): nat
  {
    match t
    case Leaf(_) => 1
    case Weight(_, n) => 1 + Size(n)
    case Choice(bs) => 1 + Sum(seq(|bs|, i requires 0 <= i < |bs| => Size(bs[i].sub)))
  }

  /**
   * The completed executions of a program started with score s: one (return value, final score)
   * pair per leaf, in the order of the tree. Weights add to the score; a branch adds its
   * log-probability and the default extra score 0, as a random choice does.
   */
  function Paths<V>(t: Prog<V>, s: Score): seq<(V, Score)>
  {
    match t
    case Leaf(v) => [(v, s)]
    case Weight(w, n) => Paths(n, Add(s, w))
    case Choice(bs) => Flatten(seq(|bs|, i requires 0 <= i < |bs| => Paths(bs[i].sub, BranchScore(s, bs[i].logp, Fin(0.0)))))
  }

  // Size and Paths write their comprehensions inline so that their termination follows from the
  // structure of the tree; ChildSizes and ChildPaths name the same comprehensions for the lemmas
  // about a Choice, and ChoiceUnfold connects the two.

  function ChildSizes<V>(bs: seq<Branch<V>>): seq<nat>
  {
    seq(|bs|, i requires 0 <= i < |bs| => Size(bs[i].sub))
  }

  function ChildPaths<V>(bs: seq<Branch<V>>, s: Score): seq<seq<(V, Score)>>
  {
    seq(|bs|, i requires 0 <= i < |bs| => Paths(bs[i].sub, BranchScore(s, bs[i].logp, Fin(0.0))))
  }

  lemma ChoiceUnfold<V>(bs: seq<Branch<V>>, s: Score)
    ensures Size(Choice(bs)) == 1 + Sum(ChildSizes(bs))
    ensures Paths(Choice(bs), s) == Flatten(ChildPaths(bs, s))
  {
    assert ChildSizes(bs) == seq(|bs|, i requires 0 <= i < |bs| => Size(bs[i].sub));
    assert ChildPaths(bs, s) == seq(|bs|, i requires 0 <= i < |bs| => Paths(bs[i].sub, BranchScore(s, bs[i].logp, Fin(0.0))));
  }

  /** A program's behaviour after a choice depends only on the sampled value, as in a real program. */
  predicate Coherent<V(==)>(t: Prog<V>)
  {
    match t
    case Leaf(_) => true
    case Weight(_, n) => Coherent(n)
    case Choice(bs) =>
      (forall i, j :: 0 <= i < |bs| && 0 <= j < |bs| && bs[i].value == bs[j].value ==> bs[i] == bs[j]) &&
      (forall i :: 0 <= i < |bs| ==> Coherent(bs[i].sub))
  }

  /** Every choice of the program has a non-empty support. */
  predicate Total<V>(t: Prog<V>)
  {
    match t
    case Leaf(_) => true
    case Weight(_, n) => Total(n)
    case Choice(bs) => bs != [] && forall i :: 0 <= i < |bs| ==> Total(bs[i].sub)
  }

  /** The position of the first branch with value v, or |bs| when there is none. */
  function FirstWith<V(==)>(bs: seq<Branch<V>>, v: V): (j: nat)
    ensures j <= |bs|
    ensures j < |bs| ==> bs[j].value == v
    ensures forall m :: 0 <= m < j ==> bs[m].value != v
  {
    if bs == [] then 0
    else if bs[0].value == v then 0
    else 1 + FirstWith(bs[1..], v)
  }

  /** What resuming the continuation cont with value v runs: the branch of the choice for v. */
  function Successor<V(==)>(cont: Prog<V>, v: V): Prog<V>
  {
    if cont.Choice? && FirstWith(cont.branches, v) < |cont.branches|
    then cont.branches[FirstWith(cont.branches, v)].sub
    else cont
  }

  /** The log-probability a choice gives to v; minus infinity outside its support. */
  function LogP<V(==)>(bs: seq<Branch<V>>, v: V): Score
  {
    var j := FirstWith(bs, v);
    if j < |bs| then bs[j].logp else NegInf
  }

  function Values<V>(bs: seq<Branch<V>>): seq<V>
  {
    seq(|bs|, i requires 0 <= i < |bs| => bs[i].value)
  }

  /** The distribution a Choice samples from: its support is the branch values, its score LogP. */
  function DistOf<V(==)>(bs: seq<Branch<V>>): Erp<(), V>
  {
    Erp(Some((_: ()) => Values(bs)), (_: (), v: V) => LogP(bs, v))
  }

  /** In a coherent choice, the branch selected for the value of branch j is branch j itself. */
  lemma CoherentPick<V>(bs: seq<Branch<V>>, j: nat)
    requires Coherent(Choice(bs)) && j < |bs|
    ensures FirstWith(bs, bs[j].value) < |bs| && bs[FirstWith(bs, bs[j].value)] == bs[j]
    ensures Successor(Choice(bs), bs[j].value) == bs[j].sub && LogP(bs, bs[j].value) == bs[j].logp
  {
  }

  /** The executions still to come from a pending state. */
  function ItemPaths<V(==)>(it: Item<V>): seq<(V, Score)>
  {
    Paths(Successor(it.continuation, it.value), it.score)
  }

  /** The executions still to come from all pending states. */
  function Pending<V(==)>(items: seq<Item<V>>): multiset<(V, Score)>
  {
    if items == [] then multiset{}
    else Pending(items[..|items| - 1]) + multiset(ItemPaths(items[|items| - 1]))
  }

  /** The program nodes still to run from all pending states. */
  function Work<V(==)>(items: seq<Item<V>>): nat
  {
    if items == [] then 0
    else Work(items[..|items| - 1]) + Size(Successor(items[|items| - 1].continuation, items[|items| - 1].value))
  }

  lemma {:induction false} PendingAppend<V>(a: seq<Item<V>>, b: seq<Item<V>>)
    ensures Pending(a + b) == Pending(a) + Pending(b)
    ensures Work(a + b) == Work(a) + Work(b)
    decreases |b|
  {
    if b == [] {
      assert a + b == a;
    } else {
      assert (a + b)[..|a + b| - 1] == a + b[..|b| - 1];
      PendingAppend(a, b[..|b| - 1]);
    }
  }

  /** Removing the state at position i takes exactly its executions and its nodes out of the account. */
  lemma {:induction false} PendingWithout<V>(items: seq<Item<V>>, i: nat)
    requires i < |items|
    ensures Pending(items) == Pending(Without(items, i)) + multiset(ItemPaths(items[i]))
    ensures Work(items) == Work(Without(items, i)) + Size(Successor(items[i].continuation, items[i].value))
  {
    var x := items[i];
    assert items == items[..i] + [x] + items[i + 1..];
    PendingAppend(items[..i] + [x], items[i + 1..]);
    PendingAppend(items[..i], [x]);
    PendingAppend(items[..i], items[i + 1..]);
    assert [x][..0] == [];
  }

  /** The branch states a Choice enqueues in the driven engine. */
  function ChoiceBranches<V(==)>(bs: seq<Branch<V>>, s: Score): seq<Item<V>>
  {
    Branches(Choice(bs), (), s, Values(bs), DistOf(bs), (), None)
  }

  /** The state a coherent Choice enqueues for branch m resumes exactly that branch, with its score. */
  lemma BranchAt<V>(bs: seq<Branch<V>>, s: Score, m: nat)
    requires Coherent(Choice(bs)) && m < |bs|
    ensures |ChoiceBranches(bs, s)| == |bs|
    ensures ItemPaths(ChoiceBranches(bs, s)[m]) == ChildPaths(bs, s)[m]
    ensures Size(Successor(ChoiceBranches(bs, s)[m].continuation, ChoiceBranches(bs, s)[m].value)) == ChildSizes(bs)[m]
  {
    CoherentPick(bs, m);
    assert Values(bs)[m] == bs[m].value;
    assert DistOf(bs).score((), bs[m].value) == LogP(bs, bs[m].value);
    assert ChoiceBranches(bs, s)[m] == State(Choice(bs), bs[m].value, BranchScore(s, LogP(bs, bs[m].value), Fin(0.0)), ());
  }

  /** States whose executions and nodes are given position by position add up to the flattened executions and the summed nodes. */
  lemma {:induction false} PendingMatches<V>(items: seq<Item<V>>, ps: seq<seq<(V, Score)>>, zs: seq<nat>)
    requires |items| == |ps| == |zs|
    requires forall m :: 0 <= m < |items| ==> ItemPaths(items[m]) == ps[m]
    requires forall m :: 0 <= m < |items| ==> Size(Successor(items[m].continuation, items[m].value)) == zs[m]
    ensures Pending(items) == multiset(Flatten(ps))
    ensures Work(items) == Sum(zs)
  {
    if items != [] {
      var n := |items| - 1;
      PendingMatches(items[..n], ps[..n], zs[..n]);
    }
  }

  /** The states a coherent Choice enqueues carry exactly the executions and the nodes below it. */
  lemma ChoiceAccount<V>(bs: seq<Branch<V>>, s: Score)
    requires Coherent(Choice(bs))
    ensures Pending(ChoiceBranches(bs, s)) == multiset(Paths(Choice(bs), s))
    ensures Work(ChoiceBranches(bs, s)) + 1 == Size(Choice(bs))
  {
    forall m | 0 <= m < |bs|
      ensures ItemPaths(ChoiceBranches(bs, s)[m]) == ChildPaths(bs, s)[m]
      ensures Size(Successor(ChoiceBranches(bs, s)[m].continuation, ChoiceBranches(bs, s)[m].value)) == ChildSizes(bs)[m]
    {
      BranchAt(bs, s, m);
    }
    PendingMatches(ChoiceBranches(bs, s), ChildPaths(bs, s), ChildSizes(bs));
    ChoiceUnfold(bs, s);
  }


  // ---------------------------------------------------------------------------------------
  // Mass: the marginal a sequence of completed executions produces, and its probabilities.

  /** The marginal after the executions `paths`, folded into an empty one in this order. */
  function Tally<V, K>(paths: seq<(V, Score)>, key: V -> K, exp: real -> real): map<K, Bucket<V>>
  {
    if paths == [] then map[]
    else
      var p := paths[|paths| - 1];
      Deposit(Tally(paths[..|paths| - 1], key, exp), key(p.0), p.0, p.1, exp)
  }

  /** The mass of each bucket, without its representative value. */
  function Probs<K, V>(m: map<K, Bucket<V>>): map<K, real>
  {
    map r | r in m :: m[r].prob
  }

  function DepositMass<K>(mass: map<K, real>, r: K, score: Score, exp: real -> real): map<K, real>
  {
    if score.NegInf? then mass
    else mass[r := (if r in mass then mass[r] else 0.0) + exp(score.r)]
  }

  /** The mass per key of the executions `paths`: exp of each finite score, summed per key. */
  function Mass<V, K>(paths: seq<(V, Score)>, key: V -> K, exp: real -> real): map<K, real>
  {
    if paths == [] then map[]
    else
      var p := paths[|paths| - 1];
      DepositMass(Mass(paths[..|paths| - 1], key, exp), key(p.0), p.1, exp)
  }

  /** The masses of the marginal are the masses summed per key. */
  lemma {:induction false} ProbsOfTally<V, K>(paths: seq<(V, Score)>, key: V -> K, exp: real -> real)
    ensures Probs(Tally(paths, key, exp)) == Mass(paths, key, exp)
    decreases |paths|
  {
    if paths != [] {
      var p := paths[|paths| - 1];
      ProbsOfTally(paths[..|paths| - 1], key, exp);
      var m := Tally(paths[..|paths| - 1], key, exp);
      assert Probs(Deposit(m, key(p.0), p.0, p.1, exp)) == DepositMass(Probs(m), key(p.0), p.1, exp);
    }
  }

  /** Two deposits commute on the masses. */
  lemma DepositMassCommutes<K>(mass: map<K, real>, r1: K, s1: Score, r2: K, s2: Score, exp: real -> real)
    ensures DepositMass(DepositMass(mass, r1, s1, exp), r2, s2, exp) == DepositMass(DepositMass(mass, r2, s2, exp), r1, s1, exp)
  {
    if s1.Fin? && s2.Fin? && r1 != r2 {
      var x := DepositMass(DepositMass(mass, r1, s1, exp), r2, s2, exp);
      var y := DepositMass(DepositMass(mass, r2, s2, exp), r1, s1, exp);
      assert x.Keys == y.Keys;
      assert forall r :: r in x ==> x[r] == y[r];
    }
  }

  lemma {:induction false} MassMoveToEnd<V, K>(a: seq<(V, Score)>, x: (V, Score), c: seq<(V, Score)>, key: V -> K, exp: real -> real)
    ensures Mass(a + [x] + c, key, exp) == DepositMass(Mass(a + c, key, exp), key(x.0), x.1, exp)
    decreases |c|
  {
    if c == [] {
      assert a + [x] + c == a + [x];
      assert (a + [x])[..|a|] == a;
      assert a + c == a;
    } else {
      var y := c[|c| - 1];
      var c' := c[..|c| - 1];
      assert (a + [x] + c)[..|a + [x] + c| - 1] == a + [x] + c';
      assert (a + c)[..|a + c| - 1] == a + c';
      MassMoveToEnd(a, x, c', key, exp);
      DepositMassCommutes(Mass(a + c', key, exp), key(x.0), x.1, key(y.0), y.1, exp);
    }
  }

  /** The masses do not depend on the order in which executions complete. */
  lemma {:induction false} MassPermutation<V, K>(a: seq<(V, Score)>, b: seq<(V, Score)>, key: V -> K, exp: real -> real)
    requires multiset(a) == multiset(b)
    ensures Mass(a, key, exp) == Mass(b, key, exp)
    decreases |a|
  {
    if a == [] {
      assert |b| == |multiset(b)| == 0;
    } else {
      var x := a[|a| - 1];
      var a' := a[..|a| - 1];
      assert a == a' + [x];
      assert x in multiset(b);
      var j :| 0 <= j < |b| && b[j] == x;
      assert b == b[..j] + [x] + b[j + 1..];
      calc {
        multiset(a');
        multiset(a) - multiset{x};
        multiset(b) - multiset{x};
        multiset(b[..j]) + multiset{x} + multiset(b[j + 1..]) - multiset{x};
        multiset(b[..j] + b[j + 1..]);
      }
      MassPermutation(a', b[..j] + b[j + 1..], key, exp);
      MassMoveToEnd(b[..j], x, b[j + 1..], key, exp);
    }
  }

  // ---------------------------------------------------------------------------------------
  // The driver.

  /** A pending state of the driven engine: resumes a branch of a coherent Choice. */
  predicate ItemOk<V(==)>(it: Item<V>, total: bool)
  {
    it.continuation.Choice? && Coherent(it.continuation) &&
    FirstWith(it.continuation.branches, it.value) < |it.continuation.branches| &&
    (total ==> Total(it.continuation))
  }

  /**
   * The account the driver keeps: the program point pc runs with score s, the pending states are
   * well formed, and the executions completed, the ones still to come from pc and the ones still
   * to come from the frontier are, together, exactly the executions of t.
   */
  ghost predicate Accounted<V>(t: Prog<V>, visited: seq<(V, Score)>, pc: Prog<V>, s: Score, items: seq<Item<V>>, total: bool)
  {
    Coherent(pc) && (total ==> Total(pc)) &&
    (forall j :: 0 <= j < |items| ==> ItemOk(items[j], total)) &&
    multiset(visited) + multiset(Paths(pc, s)) + Pending(items) == multiset(Paths(t, Fin(0.0)))
  }

  /** The successor of a well-formed pending state is a coherent program, total when the tree is. */
  lemma SuccessorOk<V>(it: Item<V>, total: bool)
    requires ItemOk(it, total)
    ensures Coherent(Successor(it.continuation, it.value))
    ensures total ==> Total(Successor(it.continuation, it.value))
  {
    var bs := it.continuation.branches;
    var j := FirstWith(bs, it.value);
    assert Successor(it.continuation, it.value) == bs[j].sub;
  }

  /** Removing a state keeps every other pending state well formed. */
  lemma WithoutKeepsOk<V>(items: seq<Item<V>>, i: nat, total: bool)
    requires i < |items|
    requires forall j :: 0 <= j < |items| ==> ItemOk(items[j], total)
    ensures forall j :: 0 <= j < |Without(items, i)| ==> ItemOk(Without(items, i)[j], total)
  {
    var rest := Without(items, i);
    forall j | 0 <= j < |rest|
      ensures ItemOk(rest[j], total)
    {
      if j < i {
        assert rest[j] == items[j];
      } else {
        assert rest[j] == items[j + 1];
      }
    }
  }

  /** Resuming the state at position i moves its executions and nodes from the frontier to pc. */
  lemma ResumeMoves<V>(t: Prog<V>, visited: seq<(V, Score)>, items: seq<Item<V>>, i: nat)
    requires i < |items|
    requires multiset(visited) + Pending(items) == multiset(Paths(t, Fin(0.0)))
    ensures multiset(visited) + multiset(ItemPaths(items[i])) + Pending(Without(items, i)) == multiset(Paths(t, Fin(0.0)))
    ensures Size(Successor(items[i].continuation, items[i].value)) + Work(Without(items, i)) == Work(items)
  {
    PendingWithout(items, i);
  }

  /** Resuming the state at position i keeps the account and leaves fewer nodes to run. */
  lemma ResumeKeepsAccount<V>(t: Prog<V>, visited: seq<(V, Score)>, items: seq<Item<V>>, i: nat, total: bool)
    requires i < |items|
    requires forall j :: 0 <= j < |items| ==> ItemOk(items[j], total)
    requires multiset(visited) + Pending(items) == multiset(Paths(t, Fin(0.0)))
    ensures Accounted(t, visited, Successor(items[i].continuation, items[i].value), items[i].score, Without(items, i), total)
    ensures Size(Successor(items[i].continuation, items[i].value)) + Work(Without(items, i)) == Work(items)
  {
    ResumeMoves(t, visited, items, i);
    SuccessorOk(items[i], total);
    WithoutKeepsOk(items, i, total);
  }

  /** A Leaf completes one execution: it moves from pc to the completed ones. */
  lemma LeafKeepsAccount<V>(t: Prog<V>, visited: seq<(V, Score)>, v: V, s: Score, items: seq<Item<V>>, total: bool)
    requires Accounted(t, visited, Leaf(v), s, items, total)
    ensures multiset(visited + [(v, s)]) + Pending(items) == multiset(Paths(t, Fin(0.0)))
    ensures |visited + [(v, s)]| <= |Paths(t, Fin(0.0))|
  {
    var all := multiset(Paths(t, Fin(0.0)));
    assert |multiset(visited + [(v, s)])| <= |all|;
  }

  /** The states a Choice of a coherent program enqueues are well formed. */
  lemma BranchesOk<V>(bs: seq<Branch<V>>, s: Score, total: bool)
    requires Coherent(Choice(bs)) && (total ==> Total(Choice(bs)))
    ensures forall m :: 0 <= m < |ChoiceBranches(bs, s)| ==> ItemOk(ChoiceBranches(bs, s)[m], total)
  {
    var B := ChoiceBranches(bs, s);
    forall m | 0 <= m < |B|
      ensures ItemOk(B[m], total)
    {
      CoherentPick(bs, m);
      assert Values(bs)[m] == bs[m].value;
      assert B[m].continuation == Choice(bs) && B[m].value == bs[m].value;
    }
  }

  /** A Choice puts its branches on the frontier; resuming the next state keeps the account. */
  lemma ChoiceKeepsAccount<V>(t: Prog<V>, visited: seq<(V, Score)>, bs: seq<Branch<V>>, s: Score, items: seq<Item<V>>,
                              d: Discipline, total: bool)
    requires Accounted(t, visited, Choice(bs), s, items, total) && bs != []
    ensures var grown := items + ChoiceBranches(bs, s);
      var i := NextIndex(d, grown);
      Accounted(t, visited, Successor(grown[i].continuation, grown[i].value), grown[i].score, Without(grown, i), total) &&
      Size(Successor(grown[i].continuation, grown[i].value)) + Work(Without(grown, i)) < Size(Choice(bs)) + Work(items)
  {
    var B := ChoiceBranches(bs, s);
    var grown := items + B;
    ChoiceAccount(bs, s);
    PendingAppend(items, B);
    BranchesOk(bs, s, total);
    assert forall j :: 0 <= j < |grown| ==> ItemOk(grown[j], total) by {
      forall j | 0 <= j < |grown|
        ensures ItemOk(grown[j], total)
      {
        if j < |items| {
          assert grown[j] == items[j];
        } else {
          assert grown[j] == B[j - |items|];
        }
      }
    }
    ResumeKeepsAccount(t, visited, grown, NextIndex(d, grown), total);
  }

  /** A choice with an empty support is still to be run: under pc, or under a pending state. */
  ghost predicate EmptyChoiceAhead<V>(pc: Prog<V>, items: seq<Item<V>>)
  {
    !Total(pc) || exists j :: 0 <= j < |items| && !Total(Successor(items[j].continuation, items[j].value))
  }

  /** Resuming any pending state keeps an empty choice ahead when one was under a pending state. */
  lemma ResumeKeepsEmptyChoiceAhead<V>(items: seq<Item<V>>, i: nat)
    requires i < |items|
    requires exists j :: 0 <= j < |items| && !Total(Successor(items[j].continuation, items[j].value))
    ensures EmptyChoiceAhead(Successor(items[i].continuation, items[i].value), Without(items, i))
  {
    var j :| 0 <= j < |items| && !Total(Successor(items[j].continuation, items[j].value));
    var rest := Without(items, i);
    if j < i {
      assert rest[j] == items[j];
    } else if j > i {
      assert rest[j - 1] == items[j];
    }
  }

  /** A sample followed by a resume, whatever the discipline, keeps an empty choice ahead. */
  lemma ChoiceKeepsEmptyChoiceAhead<V>(bs: seq<Branch<V>>, s: Score, items: seq<Item<V>>, d: Discipline)
    requires Coherent(Choice(bs)) && bs != [] && EmptyChoiceAhead(Choice(bs), items)
    ensures var grown := items + ChoiceBranches(bs, s);
      var i := NextIndex(d, grown);
      EmptyChoiceAhead(Successor(grown[i].continuation, grown[i].value), Without(grown, i))
  {
    var B := ChoiceBranches(bs, s);
    var grown := items + B;
    if !Total(Choice(bs)) {
      var m :| 0 <= m < |bs| && !Total(bs[m].sub);
      CoherentPick(bs, m);
      assert Values(bs)[m] == bs[m].value;
      assert grown[|items| + m] == B[m];
      assert B[m].continuation == Choice(bs) && B[m].value == bs[m].value;
      assert !Total(Successor(grown[|items| + m].continuation, grown[|items| + m].value));
    } else {
      var j :| 0 <= j < |items| && !Total(Successor(items[j].continuation, items[j].value));
      assert grown[j] == items[j];
    }
    ResumeKeepsEmptyChoiceAhead(grown, NextIndex(d, grown));
  }

  /**
   * What the driver can report when the engine stops: every completed execution is one of t's;
   * without a budget all of them have completed, and with a budget n >= 1 exactly min(|paths|, n).
   */
  lemma FinishFacts<V, K>(t: Prog<V>, visited: seq<(V, Score)>, items: seq<Item<V>>, maxExecutions: Option<int>,
                          key: V -> K, exp: real -> real)
    requires multiset(visited) + Pending(items) == multiset(Paths(t, Fin(0.0)))
    requires !(items != [] && BudgetOf(maxExecutions).Allows(|visited|))
    requires maxExecutions.Some? && maxExecutions.value >= 1 ==> |visited| <= maxExecutions.value
    ensures multiset(visited) <= multiset(Paths(t, Fin(0.0)))
    ensures |visited| <= |Paths(t, Fin(0.0))|
    ensures Probs(Tally(visited, key, exp)) == Mass(visited, key, exp)
    ensures BudgetOf(maxExecutions).Unbounded? ==>
      multiset(visited) == multiset(Paths(t, Fin(0.0))) &&
      |visited| == |Paths(t, Fin(0.0))| && Probs(Tally(visited, key, exp)) == Mass(Paths(t, Fin(0.0)), key, exp)
    ensures maxExecutions.Some? && maxExecutions.value >= 1 ==> |visited| == Min(|Paths(t, Fin(0.0))|, maxExecutions.value)
  {
    var all := multiset(Paths(t, Fin(0.0)));
    assert |multiset(visited)| <= |all|;
    ProbsOfTally(visited, key, exp);
    if items == [] {
      assert multiset(visited) == all;
      assert |multiset(visited)| == |all|;
      ProbsOfTally(visited, key, exp);
      MassPermutation(visited, Paths(t, Fin(0.0)), key, exp);
    }
  }

  /** What a finished enumeration hands back: the completed executions and the marginal. */
  datatype Summary<V, K> = Summary(completed: nat, marginal: map<K, Bucket<V>>)

  /**
   * FinishFacts for the summary an engine hands back, and: without a budget, a run that finishes
   * has left no empty choice behind, so the tree is total.
   */
  lemma FinishOutcome<V, K>(t: Prog<V>, visited: seq<(V, Score)>, items: seq<Item<V>>, maxExecutions: Option<int>,
                            key: V -> K, exp: real -> real, summary: Summary<V, K>, total: bool)
    requires multiset(visited) + Pending(items) == multiset(Paths(t, Fin(0.0)))
    requires !(items != [] && BudgetOf(maxExecutions).Allows(|visited|))
    requires maxExecutions.Some? && maxExecutions.value >= 1 ==> |visited| <= maxExecutions.value
    requires summary == Summary(|visited|, Tally(visited, key, exp))
    requires !total ==> items != []
    ensures summary.completed == |visited| &&
      multiset(visited) <= multiset(Paths(t, Fin(0.0))) &&
      Probs(summary.marginal) == Mass(visited, key, exp) &&
      (BudgetOf(maxExecutions).Unbounded? ==> total) &&
      (BudgetOf(maxExecutions).Unbounded? ==> multiset(visited) == multiset(Paths(t, Fin(0.0)))) &&
      summary.completed <= |Paths(t, Fin(0.0))| &&
      (BudgetOf(maxExecutions).Unbounded? ==>
         summary.completed == |Paths(t, Fin(0.0))| && Probs(summary.marginal) == Mass(Paths(t, Fin(0.0)), key, exp)) &&
      (maxExecutions.Some? && maxExecutions.value >= 1 ==>
         summary.completed == Min(|Paths(t, Fin(0.0))|, maxExecutions.value))
  {
    FinishFacts(t, visited, items, maxExecutions, key, exp);
  }

  /** The driver's loop invariant: the engine is running at pc and keeps the account of t. */
  ghost predicate Running<V, K>(e: Enumerate<Prog<V>, (), V, K>, t: Prog<V>, d: Discipline, maxExecutions: Option<int>,
                                key: V -> K, exp: real -> real, visited: seq<(V, Score)>, pc: Prog<V>, total: bool)
    reads e, e.queue, e.env
  {
    e.env.coroutine == e &&
    e.key == key && e.exp == exp && e.k == t && e.store == () &&
    e.maxExecutions == BudgetOf(maxExecutions) && e.queue.discipline == d &&
    e.Valid() && e.active &&
    e.marginal == Tally(visited, key, exp) && e.numCompletedExecutions == |visited| &&
    total == Total(t) && (!total ==> EmptyChoiceAhead(pc, e.queue.items)) &&
    Accounted(t, visited, pc, e.score, e.queue.items, total)
  }

  /** The driver at a Leaf: the engine's exit either resumes a pending state or finishes. */
  method LeafStep<V(==), K(==)>(e: Enumerate<Prog<V>, (), V, K>, v: V, ghost t: Prog<V>, ghost d: Discipline,
                                ghost maxExecutions: Option<int>, key: V -> K, exp: real -> real,
                                ghost visited: seq<(V, Score)>, ghost total: bool)
    returns (next: Option<Prog<V>>, ghost visited': seq<(V, Score)>, summary: Summary<V, K>)
    requires Running(e, t, d, maxExecutions, key, exp, visited, Leaf(v), total)
    modifies e, e.queue, e.env
    ensures visited' == visited + [(v, old(e.score))]
    ensures next.Some? ==>
      Running(e, t, d, maxExecutions, key, exp, visited', next.value, total) &&
      Size(next.value) + Work(e.queue.items) < Size(Leaf(v)) + old(Work(e.queue.items))
    ensures next.None? ==>
      summary.completed == |visited'| &&
      multiset(visited') <= multiset(Paths(t, Fin(0.0))) &&
      Probs(summary.marginal) == Mass(visited', key, exp) &&
      (BudgetOf(maxExecutions).Unbounded? ==> total) &&
      (BudgetOf(maxExecutions).Unbounded? ==> multiset(visited') == multiset(Paths(t, Fin(0.0)))) &&
      summary.completed <= |Paths(t, Fin(0.0))| &&
      (BudgetOf(maxExecutions).Unbounded? ==>
         summary.completed == |Paths(t, Fin(0.0))| && Probs(summary.marginal) == Mass(Paths(t, Fin(0.0)), key, exp)) &&
      (maxExecutions.Some? && maxExecutions.value >= 1 ==>
         summary.completed == Min(|Paths(t, Fin(0.0))|, maxExecutions.value))
  {
    ghost var s0 := e.score;
    ghost var items0 := e.queue.items;
    LeafKeepsAccount(t, visited, v, s0, items0, total);
    var step := e.Exit((), v);
    assert (visited + [(v, s0)])[..|visited|] == visited;
    visited' := visited + [(v, s0)];
    summary := Summary(e.numCompletedExecutions, e.marginal);
    if step.Resume? {
      ResumeKeepsAccount(t, visited', items0, NextIndex(d, items0), total);
      if !total {
        ResumeKeepsEmptyChoiceAhead(items0, NextIndex(d, items0));
      }
      next := Some(Successor(step.continuation, step.value));
    } else {
      assert !total ==> items0 != [];
      FinishOutcome(t, visited', items0, maxExecutions, key, exp, summary, total);
      next := None;
    }
  }

  /** The driver at a Weight: the engine's factor continues the same path. */
  method WeightStep<V(==), K(==)>(e: Enumerate<Prog<V>, (), V, K>, w: Score, n: Prog<V>, ghost t: Prog<V>, ghost d: Discipline,
                                  ghost maxExecutions: Option<int>, ghost key: V -> K, ghost exp: real -> real,
                                  ghost visited: seq<(V, Score)>, ghost total: bool)
    returns (next: Prog<V>)
    requires Running(e, t, d, maxExecutions, key, exp, visited, Weight(w, n), total)
    modifies e
    ensures next == n && e.score == Add(old(e.score), w)
    ensures Running(e, t, d, maxExecutions, key, exp, visited, next, total)
    ensures Size(next) + Work(e.queue.items) < Size(Weight(w, n)) + old(Work(e.queue.items))
  {
    var step := e.Factor((), n, w);
    next := step.continuation;
  }

  /** The driver at a Choice: the engine's sample expands the frontier and resumes, or fails. */
  method ChoiceStep<V(==), K(==)>(e: Enumerate<Prog<V>, (), V, K>, bs: seq<Branch<V>>, ghost t: Prog<V>, ghost d: Discipline,
                                  ghost maxExecutions: Option<int>, ghost key: V -> K, ghost exp: real -> real,
                                  ghost visited: seq<(V, Score)>, ghost total: bool)
    returns (next: Result<Prog<V>, EnumError>)
    requires Running(e, t, d, maxExecutions, key, exp, visited, Choice(bs), total)
    modifies e, e.queue
    ensures next.Success? ==>
      Running(e, t, d, maxExecutions, key, exp, visited, next.value, total) &&
      Size(next.value) + Work(e.queue.items) < Size(Choice(bs)) + old(Work(e.queue.items))
    ensures next.Failure? <==> bs == []
    ensures next.Failure? ==> next.error == EmptySupport && !total
  {
    ghost var s0 := e.score;
    ghost var items0 := e.queue.items;
    var out := e.Sample((), Choice(bs), DistOf(bs), (), None);
    assert DistOf(bs).support.value(()) == Values(bs);
    if out.Failure? {
      return Failure(out.error);
    }
    ChoiceKeepsAccount(t, visited, bs, s0, items0, d, total);
    if !total {
      ChoiceKeepsEmptyChoiceAhead(bs, s0, items0, d);
    }
    next := Success(Successor(out.value.continuation, out.value.value));
  }

  /**
   * Enumerates the program t with the discipline d and the budget maxExecutions, playing the
   * program's side against an Enumerate engine until it returns the marginal.
   */
  method Drive<V(==), K(==)>(t: Prog<V>, d: Discipline, maxExecutions: Option<int>, key: V -> K, exp: real -> real)
    returns (r: Result<Summary<V, K>, EnumError>, ghost completed: seq<(V, Score)>)
    requires Coherent(t)
    ensures Total(t) ==> r.Success?
    ensures BudgetOf(maxExecutions).Unbounded? && !Total(t) ==> r.Failure?
    ensures r.Failure? ==> r.error == EmptySupport
    ensures r.Success? ==>
      |completed| == r.value.completed &&
      multiset(completed) <= multiset(Paths(t, Fin(0.0))) &&
      Probs(r.value.marginal) == Mass(completed, key, exp)
    ensures r.Success? ==> r.value.completed <= |Paths(t, Fin(0.0))|
    ensures r.Success? && BudgetOf(maxExecutions).Unbounded? ==>
      multiset(completed) == multiset(Paths(t, Fin(0.0))) &&
      r.value.completed == |Paths(t, Fin(0.0))| &&
      Probs(r.value.marginal) == Mass(Paths(t, Fin(0.0)), key, exp)
    ensures r.Success? && maxExecutions.Some? && maxExecutions.value >= 1 ==>
      r.value.completed == Min(|Paths(t, Fin(0.0))|, maxExecutions.value)
  {
    var env := new Env(null);
    var q := new Frontier<Prog<V>, (), V>(d);
    var e := new Enumerate<Prog<V>, (), V, K>(env, (), t, "", t, maxExecutions, q, key, exp);
    var start := e.Run();
    var pc := start.fn;
    ghost var visited: seq<(V, Score)> := [];
    ghost var total := Total(t);
    assert Paths(t, Fin(0.0)) == Paths(pc, e.score);
    while true
      invariant e.queue == q && e.env == env
      invariant Running(e, t, d, maxExecutions, key, exp, visited, pc, total)
      decreases Size(pc) + Work(q.items)
    {
      match pc
      case Leaf(v) =>
        var next, summary;
        next, visited, summary := LeafStep(e, v, t, d, maxExecutions, key, exp, visited, total);
        if next.None? {
          completed := visited;
          r := Success(summary);
          return;
        }
        pc := next.value;
      case Weight(w, n) =>
        pc := WeightStep(e, w, n, t, d, maxExecutions, key, exp, visited, total);
      case Choice(bs) =>
        var next := ChoiceStep(e, bs, t, d, maxExecutions, key, exp, visited, total);
        if next.Failure? {
          completed := visited;
          r := Failure(next.error);
          return;
        }
        pc := next.value;
    }
  }
}
