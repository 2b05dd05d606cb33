/**
 * The frontier: the worklist of branch states that an enumeration has yet to resume,
 * with its three orderings (a stack, a queue, and a priority queue keyed on score).
 */
module Frontiers {
  import opened Scores

  /** A pending branch: the continuation to resume, the value to resume it with, its path score and its own store. */
  datatype State<C, S, V> = State(continuation: C, value: V, score: Score, store: S)

  /** The three exploration disciplines: a priority queue on score, a stack, and a queue. */
  datatype Discipline = MostProbableFirst | DepthFirst | BreadthFirst

  /** The index of a state of maximal score; among equal maxima the earliest one. */
  function ArgMax<C, S, V>(items: seq<State<C, S, V>>): (i: nat)
    requires items != []
    ensures i < |items|
    ensures forall j :: 0 <= j < |items| ==> Le(items[j].score, items[i].score)
  {
    if |items| == 1 then 0
    else
      var best := ArgMax(items[..|items| - 1]);
      if Le(items[|items| - 1].score, items[best].score) then best else |items| - 1
  }

  /** The position of the state that the next dequeue removes, for each discipline. */
  function NextIndex<C, S, V>(d: Discipline, items: seq<State<C, S, V>>): (i: nat)
    requires items != []
    ensures i < |items|
    ensures d == DepthFirst ==> i == |items| - 1
    ensures d == BreadthFirst ==> i == 0
    ensures d == MostProbableFirst ==> forall j :: 0 <= j < |items| ==> Le(items[j].score, items[i].score)
  {
    match d
    case MostProbableFirst => ArgMax(items)
    case DepthFirst => |items| - 1
    case BreadthFirst => 0
  }

  /** The sequence with position i removed and the rest kept in order. */
  function Without<X>(s: seq<X>, i: nat): (r: seq<X>)
    requires i < |s|
    ensures |r| == |s| - 1
    ensures forall j :: 0 <= j < |r| ==> r[j] == if j < i then s[j] else s[j + 1]
  {
    s[..i] + s[i + 1..]
  }

  /** On a stack, the state just pushed is the next one popped, and what was below it is left. */
  lemma {:induction false} DepthFirstIsLastInFirstOut<C, S, V>(s: seq<State<C, S, V>>, x: State<C, S, V>)
    ensures var i := NextIndex(DepthFirst, s + [x]);
      (s + [x])[i] == x && Without(s + [x], i) == s
  {
    assert (s + [x])[..|s|] == s;
  }

  /** On a queue, the earliest state is dequeued first, and a state just enqueued waits at the back. */
  lemma {:induction false} BreadthFirstIsFirstInFirstOut<C, S, V>(s: seq<State<C, S, V>>, x: State<C, S, V>)
    requires s != []
    ensures var i := NextIndex(BreadthFirst, s + [x]);
      (s + [x])[i] == s[0] && Without(s + [x], i) == s[1..] + [x]
  {
    assert (s + [x])[1..] == s[1..] + [x];
  }

  /**
   * A frontier as the engine's queue object: enq appends, deq removes the state its discipline
   * selects, size is the number of pending states.
   */
  class Frontier<C, S, V> {
    const discipline: Discipline
    var items: seq<State<C, S, V>>

    constructor (d: Discipline)
      ensures discipline == d && items == []
    {
      discipline := d;
      items := [];
    }

    /** The number of pending states; it is positive exactly when a state can be dequeued. */
    function Size(): (n: nat)
      reads this
      ensures n == 0 <==> items == []
    {
      |items|
    }

    method Enq(x: State<C, S, V>)
      modifies this
      ensures items == old(items) + [x]
    {
      items := items + [x];
    }

    method Deq() returns (x: State<C, S, V>)
      requires items != []
      modifies this
      ensures var i := NextIndex(discipline, old(items));
        x == old(items)[i] && items == Without(old(items), i)
    {
      var i := NextIndex(discipline, items);
      x := items[i];
      items := Without(items, i);
    }
  }
}
