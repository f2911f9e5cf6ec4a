/**
 * The observation handed to the learner: a fixed-size vector of doubles
 * (modelled as reals) with content-based equality and hashing.
 */
module Observations {

  /** `Observation.ARRAY_SIZE`: the number of features. */
  const ArraySize: nat := 9

  /** An observation's contents: the array it wraps. */
  datatype Observation = Observation(elements: seq<real>)

  /** `Observation()`: the default observation, `ArraySize` zeros. */
  function Default(): (o: Observation)
    ensures |o.elements| == ArraySize
    ensures forall i :: 0 <= i < |o.elements| ==> o.elements[i] == 0.0
  {
    Observation(seq(ArraySize, _ => 0.0))
  }

  /** `toArray()`: the stored array itself; wrapping it again gives the same observation. */
  function ToArray(o: Observation): (a: seq<real>)
    ensures Observation(a) == o
  {
    o.elements
  }

  /**
   * `DoubleArray.contentEquals` on two non-null arrays: equal lengths and
   * equal elements, compared front to back. It holds exactly when the two
   * arrays have the same contents.
   */
  function ContentEquals(a: seq<real>, b: seq<real>): (r: bool)
    ensures r <==> a == b
  {
    if |a| != |b| then false
    else if |a| == 0 then true
    else
      assert a == [a[0]] + a[1..] && b == [b[0]] + b[1..];
      a[0] == b[0] && ContentEquals(a[1..], b[1..])
  }

  /**
   * The argument of `equals(other: Any?)`: null, an observation object
   * (its identity and its contents) or an object of another class.
   */
  datatype Value =
    | Null
    | ObservationObject(id: nat, obs: Observation)
    | OtherObject(id: nat)

  /** `this === other` for the observation object with identity `selfId`. */
  predicate SameObject(selfId: nat, other: Value) {
    match other
    case Null => false
    case ObservationObject(id, _) => id == selfId
    case OtherObject(id) => id == selfId
  }

  /**
   * One identity names one object: an object with the identity of `self`
   * is `self`, with the same contents.
   */
  predicate Coherent(selfId: nat, self: Observation, other: Value) {
    match other
    case Null => true
    case ObservationObject(id, obs) => id == selfId ==> obs == self
    case OtherObject(id) => id != selfId
  }

  /**
   * `Observation.equals`: identical objects are equal, objects of another
   * class (or null) are not, and otherwise the arrays' contents decide.
   * For a coherent argument, equality is: an observation with the same
   * contents.
   */
  function Equals(selfId: nat, self: Observation, other: Value): (r: bool)
    ensures SameObject(selfId, other) ==> r
    ensures Coherent(selfId, self, other) ==> (r <==> other.ObservationObject? && other.obs == self)
  {
    if SameObject(selfId, other) then true
    else if !other.ObservationObject? then false
    else ContentEquals(self.elements, other.obs.elements)
  }

  /**
   * Two observations are equal exactly when their arrays hold the same
   * contents: the corollary of `Equals`' contract for an argument that is
   * an observation object.
   */
  lemma EqualsIffSameContents(selfId: nat, self: Observation, otherId: nat, other: Observation)
    requires Coherent(selfId, self, ObservationObject(otherId, other))
    ensures Equals(selfId, self, ObservationObject(otherId, other)) <==> self.elements == other.elements
  {
  }

  /** Distinct objects with equal contents are equal. */
  lemma DistinctObjectsEqualByContents(selfId: nat, otherId: nat, contents: seq<real>)
    requires selfId != otherId
    ensures Equals(selfId, Observation(contents), ObservationObject(otherId, Observation(contents)))
  {
  }

  /** An observation object is equal to itself, by the identity test alone. */
  lemma EqualsReflexive(selfId: nat, self: Observation)
    ensures Equals(selfId, self, ObservationObject(selfId, self))
  {
  }

  /** No observation equals null or an object of another class. */
  lemma NotEqualToOtherClass(selfId: nat, self: Observation, other: Value)
    requires Coherent(selfId, self, other)
    requires !other.ObservationObject?
    ensures !Equals(selfId, self, other)
  {
  }

  // ---------------------------------------------------------------------
  // Hashing
  // ---------------------------------------------------------------------

  /** The JVM's 32-bit signed integers. */
  predicate IsInt32(x: int) {
    -0x8000_0000 <= x < 0x8000_0000
  }

  /** Two's-complement wrap-around of an integer into the 32-bit range. */
  function Int32(x: int): (r: int)
    ensures IsInt32(r)
    ensures (x - r) % 0x1_0000_0000 == 0
    ensures IsInt32(x) ==> r == x
  {
    var m := x % 0x1_0000_0000;
    if m < 0x8000_0000 then m else m - 0x1_0000_0000
  }

  /**
   * The loop of `Arrays.hashCode(double[])` from accumulator `acc` on:
   * `acc = 31 * acc + hash(e)` for each element, in 32-bit arithmetic.
   * `elementHash` is `Double.hashCode` of the element's bit pattern.
   */
  function HashFrom(acc: int, a: seq<real>, elementHash: real -> int): (h: int)
    requires IsInt32(acc)
    ensures IsInt32(h)
    decreases a
  {
    if |a| == 0 then acc
    else HashFrom(Int32(31 * acc + Int32(elementHash(a[0]))), a[1..], elementHash)
  }

  /** `Observation.hashCode()`: `array.contentHashCode()`, starting from 1. */
  function HashCode(o: Observation, elementHash: real -> int): (h: int)
    ensures IsInt32(h)
  {
    HashFrom(1, o.elements, elementHash)
  }

  /** Equal observations hash equally, whichever objects hold them. */
  lemma EqualsImpliesSameHash(selfId: nat, self: Observation, otherId: nat, other: Observation,
                              elementHash: real -> int)
    requires Coherent(selfId, self, ObservationObject(otherId, other))
    requires Equals(selfId, self, ObservationObject(otherId, other))
    ensures HashCode(self, elementHash) == HashCode(other, elementHash)
  {
    EqualsIffSameContents(selfId, self, otherId, other);
  }
}
