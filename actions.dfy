/**
 * The closed enumeration of robot commands and the two enum operations the
 * bridge relies on: `Action.values()` (declaration order) and `indexOf`.
 */
module Actions {

  /** The commands the learner can choose, in declaration order. */
  datatype Action = SpinLeft | SpinRight

  /** `Action.values()`: every action, in declaration order. */
  const Values: seq<Action> := [SpinLeft, SpinRight]

  /** No element occurs twice in `s`. */
  predicate Distinct<T(==)>(s: seq<T>) {
    forall i, j :: 0 <= i < j < |s| ==> s[i] != s[j]
  }

  /**
   * Kotlin's `Array.indexOf`: the index of the first occurrence of `x`
   * in `s`, or -1 when `x` does not occur.
   */
  function IndexOf<T(==)>(s: seq<T>, x: T): (i: int)
    ensures -1 <= i < |s|
    ensures i == -1 <==> x !in s
    ensures 0 <= i ==> s[i] == x && forall j :: 0 <= j < i ==> s[j] != x
  {
    if |s| == 0 then -1
    else if s[0] == x then 0
    else
      var k := IndexOf(s[1..], x);
      if k == -1 then -1 else k + 1
  }

  /** In a sequence without repetitions, looking up the element at `i` gives back `i`. */
  lemma IndexOfDistinct<T>(s: seq<T>, i: int)
    requires Distinct(s)
    requires 0 <= i < |s|
    ensures IndexOf(s, s[i]) == i
  {
  }

  /** `Action.values()` lists each action once. */
  lemma ValuesDistinct()
    ensures Distinct(Values)
  {
  }

  /**
   * Index round trip of the enum: `values().indexOf(values()[i]) == i`
   * for every valid index, and every action has an index.
   */
  lemma IndexOfValues(i: int)
    requires 0 <= i < |Values|
    ensures IndexOf(Values, Values[i]) == i
  {
    ValuesDistinct();
    IndexOfDistinct(Values, i);
  }

  /** Every action occurs in `values()`, at the index `indexOf` reports. */
  lemma ValuesIndexOf(a: Action)
    ensures 0 <= IndexOf(Values, a) < |Values|
    ensures Values[IndexOf(Values, a)] == a
  {
    assert a == Values[if a.SpinLeft? then 0 else 1];
  }
}
