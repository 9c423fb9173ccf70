/**
 * The transition-frequency table fed by the cipher on every step: an
 * adjacency list from each state to the states that followed it, and a count
 * of how often each state took part in a recorded transition.
 *
 * States are kept as opaque keys of type `K`; the source converts each state
 * snapshot to its string form first, which is injective on snapshots.
 */
module Statistics {

  // ---------------------------------------------------------------------
  // The tables, as values
  // ---------------------------------------------------------------------

  /** `dict.get(k, 0)` on the frequency table. */
  function Count<K>(fr: map<K, nat>, k: K): nat
  {
    if k in fr then fr[k] else 0
  }

  /** The successors recorded for `k` so far; none if `k` is new. */
  function Successors<K>(tr: map<K, seq<K>>, k: K): seq<K>
  {
    if k in tr then tr[k] else []
  }

  /** One frequency increment: `counter[k] = counter.get(k, 0) + 1`. */
  function Bump<K>(fr: map<K, nat>, k: K): (r: map<K, nat>)
    ensures k in r && r[k] > 0
  {
    fr[k := Count(fr, k) + 1]
  }

  /** One adjacency-list append, creating an empty list for a new `f` first. */
  function AddTransition<K>(tr: map<K, seq<K>>, f: K, t: K): (r: map<K, seq<K>>)
    ensures f in r && |r[f]| > 0
  {
    tr[f := Successors(tr, f) + [t]]
  }

  /**
   * Recording `f -> t` puts `t` at the end of the list of `f`, which starts
   * empty when `f` is new, and leaves the list of every other state alone.
   */
  lemma AddTransitionEffect<K>(tr: map<K, seq<K>>, f: K, t: K)
    ensures AddTransition(tr, f, t).Keys == tr.Keys + {f}
    ensures AddTransition(tr, f, t)[f] == Successors(tr, f) + [t]
    ensures forall j :: j != f ==> Successors(AddTransition(tr, f, t), j) == Successors(tr, j)
  {
  }

  /** The frequency table after recording `f -> t`: `f` is counted, then `t`. */
  function CountTransition<K>(fr: map<K, nat>, f: K, t: K): map<K, nat>
  {
    Bump(Bump(fr, f), t)
  }

  /**
   * Recording `f -> t` raises the counts of `f` and `t` by one each, so by two
   * when they are the same state, and leaves every other count alone.
   */
  lemma CountTransitionEffect<K>(fr: map<K, nat>, f: K, t: K)
    ensures f != t ==> Count(CountTransition(fr, f, t), f) == Count(fr, f) + 1
    ensures f != t ==> Count(CountTransition(fr, f, t), t) == Count(fr, t) + 1
    ensures f == t ==> Count(CountTransition(fr, f, t), f) == Count(fr, f) + 2
    ensures forall j :: j != f && j != t ==> Count(CountTransition(fr, f, t), j) == Count(fr, j)
    ensures CountTransition(fr, f, t).Keys == fr.Keys + {f, t}
  {
  }

  /** Every state with a successor list is counted at least as often as its list is long. */
  ghost predicate Consistent<K>(tr: map<K, seq<K>>, fr: map<K, nat>)
  {
    forall k :: k in tr ==> k in fr && |tr[k]| <= fr[k]
  }

  /** Recording a transition keeps the two tables consistent. */
  lemma RecordKeepsConsistent<K>(tr: map<K, seq<K>>, fr: map<K, nat>, f: K, t: K)
    requires Consistent(tr, fr)
    ensures Consistent(AddTransition(tr, f, t), CountTransition(fr, f, t))
  {
    var tr', fr' := AddTransition(tr, f, t), CountTransition(fr, f, t);
    CountTransitionEffect(fr, f, t);
    AddTransitionEffect(tr, f, t);
    forall k | k in tr'
      ensures k in fr' && |tr'[k]| <= fr'[k]
    {
      assert Count(fr', k) == fr'[k];
      assert Successors(tr', k) == tr'[k];
    }
  }

  // ---------------------------------------------------------------------
  // Totals over the tables
  // ---------------------------------------------------------------------

  /** Some key of a non-empty map. */
  ghost function PickKey<K>(m: map<K, nat>): (k: K)
    requires |m| > 0
    ensures k in m
  {
    var k :| k in m.Keys; k
  }

  /** The sum of all values of a map. */
  ghost function SumValues<K>(m: map<K, nat>): nat
    decreases |m|
  {
    if |m| == 0 then 0
    else
      var k := PickKey(m);
      assert |m - {k}| == |m| - 1;
      m[k] + SumValues(m - {k})
  }

  /** The sum does not depend on which key is taken out first. */
  lemma {:induction false} SumRemove<K>(m: map<K, nat>, k: K)
    requires k in m
    ensures SumValues(m) == m[k] + SumValues(m - {k})
    decreases |m|
  {
    var j := PickKey(m);
    if j != k {
      assert |m - {j}| == |m| - 1;
      assert |m - {k}| == |m| - 1;
      SumRemove(m - {j}, k);
      SumRemove(m - {k}, j);
      assert m - {j} - {k} == m - {k} - {j};
    }
  }

  /** Taking `k` out of a map forgets what `k` was bound to, and whether it was bound at all. */
  lemma RemoveUpdated<K>(m: map<K, nat>, k: K, v: nat)
    ensures m[k := v] - {k} == m - {k}
    ensures k !in m ==> m - {k} == m
  {
  }

  /** Updating the value of `k` changes the sum by the difference of the two values. */
  lemma SumUpdate<K>(m: map<K, nat>, k: K, v: nat)
    ensures SumValues(m[k := v]) + Count(m, k) == SumValues(m) + v
  {
    RemoveUpdated(m, k, v);
    SumRemove(m[k := v], k);
    if k in m {
      SumRemove(m, k);
    }
  }

  /** One frequency increment raises the sum of all counts by exactly one. */
  lemma SumBump<K>(fr: map<K, nat>, k: K)
    ensures SumValues(Bump(fr, k)) == SumValues(fr) + 1
  {
    SumUpdate(fr, k, Count(fr, k) + 1);
  }

  /** The number of successors stored under each key. */
  ghost function ListLengths<K>(tr: map<K, seq<K>>): (m: map<K, nat>)
    ensures m.Keys == tr.Keys
  {
    map k | k in tr :: |tr[k]|
  }

  /** The total number of adjacency entries. */
  ghost function TotalEntries<K>(tr: map<K, seq<K>>): nat
  {
    SumValues(ListLengths(tr))
  }

  /** Appending to the list of `f` lengthens that list by one and no other. */
  lemma LengthsAfterAdd<K>(tr: map<K, seq<K>>, f: K, t: K)
    ensures ListLengths(AddTransition(tr, f, t)) == Bump(ListLengths(tr), f)
  {
    var lhs, rhs := ListLengths(AddTransition(tr, f, t)), Bump(ListLengths(tr), f);
    AddTransitionEffect(tr, f, t);
    assert lhs.Keys == rhs.Keys;
    forall k | k in lhs
      ensures lhs[k] == rhs[k]
    {
      assert Successors(AddTransition(tr, f, t), k) == AddTransition(tr, f, t)[k];
    }
  }

  /** Recording a transition adds exactly one adjacency entry in all. */
  lemma EntriesAfterAdd<K>(tr: map<K, seq<K>>, f: K, t: K)
    ensures TotalEntries(AddTransition(tr, f, t)) == TotalEntries(tr) + 1
  {
    LengthsAfterAdd(tr, f, t);
    SumBump(ListLengths(tr), f);
  }

  /** Recording a transition adds exactly two to the sum of all frequencies. */
  lemma SumAfterCount<K>(fr: map<K, nat>, f: K, t: K)
    ensures SumValues(CountTransition(fr, f, t)) == SumValues(fr) + 2
  {
    SumBump(fr, f);
    SumBump(Bump(fr, f), t);
  }

  // ---------------------------------------------------------------------
  // Recording along a path of states
  // ---------------------------------------------------------------------

  /** The adjacency list after recording each consecutive pair of `path` in order. */
  function TransitionsAlong<K>(tr: map<K, seq<K>>, path: seq<K>): map<K, seq<K>>
    decreases |path|
  {
    if |path| <= 1 then tr
    else AddTransition(TransitionsAlong(tr, path[..|path| - 1]), path[|path| - 2], path[|path| - 1])
  }

  /** The frequency table after recording each consecutive pair of `path` in order. */
  function CountsAlong<K>(fr: map<K, nat>, path: seq<K>): map<K, nat>
    decreases |path|
  {
    if |path| <= 1 then fr
    else CountTransition(CountsAlong(fr, path[..|path| - 1]), path[|path| - 2], path[|path| - 1])
  }

  /** Extending a path by one state records one more transition, from its old last state to the new one. */
  lemma AlongAppend<K>(tr: map<K, seq<K>>, fr: map<K, nat>, path: seq<K>, next: K)
    requires |path| > 0
    ensures TransitionsAlong(tr, path + [next]) == AddTransition(TransitionsAlong(tr, path), path[|path| - 1], next)
    ensures CountsAlong(fr, path + [next]) == CountTransition(CountsAlong(fr, path), path[|path| - 1], next)
  {
    assert (path + [next])[..|path|] == path;
  }

  /** Number of transitions in a path of states. */
  function Transitions<K>(path: seq<K>): nat
  {
    if |path| == 0 then 0 else |path| - 1
  }

  /**
   * Recording the `n` transitions of a path adds `n` adjacency entries and
   * `2 * n` to the frequency sum, and keeps the tables consistent.
   */
  lemma {:induction false} AlongTotals<K>(tr: map<K, seq<K>>, fr: map<K, nat>, path: seq<K>)
    ensures TotalEntries(TransitionsAlong(tr, path)) == TotalEntries(tr) + Transitions(path)
    ensures SumValues(CountsAlong(fr, path)) == SumValues(fr) + 2 * Transitions(path)
    ensures Consistent(tr, fr) ==> Consistent(TransitionsAlong(tr, path), CountsAlong(fr, path))
    decreases |path|
  {
    if |path| > 1 {
      var prefix := path[..|path| - 1];
      AlongTotals(tr, fr, prefix);
      var f, t := path[|path| - 2], path[|path| - 1];
      EntriesAfterAdd(TransitionsAlong(tr, prefix), f, t);
      SumAfterCount(CountsAlong(fr, prefix), f, t);
      if Consistent(tr, fr) {
        RecordKeepsConsistent(TransitionsAlong(tr, prefix), CountsAlong(fr, prefix), f, t);
      }
    }
  }

  // ---------------------------------------------------------------------
  // The object
  // ---------------------------------------------------------------------

  /** `A51Statistics`: the two tables, updated in place. */
  class A51Statistics<K(==)> {
    var transitions: map<K, seq<K>>
    var frequency: map<K, nat>

    ghost predicate Valid()
      reads this
    {
      Consistent(transitions, frequency)
    }

    /** Both tables start empty. */
    constructor ()
      ensures Valid()
      ensures transitions == map[] && frequency == map[]
    {
      transitions := map[];
      frequency := map[];
    }

    /**
     * `record_transition`: append `t` to the list of `f` (creating it empty
     * first), then count `f` and count `t`.
     */
    method RecordTransition(f: K, t: K)
      requires Valid()
      modifies this
      ensures Valid()
      ensures transitions == AddTransition(old(transitions), f, t)
      ensures frequency == CountTransition(old(frequency), f, t)
    {
      RecordKeepsConsistent(transitions, frequency, f, t);
      ghost var tr0, fr0 := transitions, frequency;
      if f !in transitions {
        transitions := transitions[f := []];
      }
      assert transitions[f] == Successors(tr0, f);
      transitions := transitions[f := transitions[f] + [t]];
      assert transitions == tr0[f := Successors(tr0, f) + [t]];
      frequency := frequency[f := Count(frequency, f) + 1];
      frequency := frequency[t := Count(frequency, t) + 1];
    }

    /** `state_transitions`: the adjacency list, consistent with the counts. */
    function StateTransitions(): (m: map<K, seq<K>>)
      requires Valid()
      reads this
      ensures m == transitions
      ensures forall k :: k in m ==> k in frequency && |m[k]| <= frequency[k]
    {
      transitions
    }

    /** `get_frequency`: the counts, covering every state that has a successor list. */
    function GetFrequency(): (m: map<K, nat>)
      requires Valid()
      reads this
      ensures m == frequency
      ensures forall k :: k in transitions ==> k in m && |transitions[k]| <= m[k]
    {
      frequency
    }
  }
}
