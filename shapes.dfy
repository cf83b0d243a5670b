/**
 * Shapes as the micro runtime's helpers build them: a length-prefixed
 * int array (element 0 is the count, the entries follow), the tensor
 * shape decoded from it, and the number of elements a shape holds.
 */
module Shapes {
  import opened Wrappers

  /** The length-prefixed layout of `a`: its count, then its entries. */
  function IntsFromIntArray(a: seq<int>): seq<int>
  {
    [|a|] + a
  }

  /**
   * Reads a length-prefixed int array. A prefix that is negative or
   * promises more entries than `ints` holds is malformed, and gives None.
   * Entries past the promised count are ignored.
   */
  function IntArrayFromInts(ints: seq<int>): (r: Option<seq<int>>)
    ensures r.Some? <==> |ints| > 0 && 0 <= ints[0] < |ints|
    ensures r.Some? ==> |r.value| == ints[0]
    ensures r.Some? ==> forall i :: 0 <= i < |r.value| ==> r.value[i] == ints[i + 1]
  {
    if |ints| == 0 || ints[0] < 0 || ints[0] >= |ints| then None
    else Some(ints[1..ints[0] + 1])
  }

  /** Decoding the prefixed layout of an array gives that array back. */
  lemma IntArrayRoundTrip(a: seq<int>)
    ensures IntArrayFromInts(IntsFromIntArray(a)) == Some(a)
  {
    assert IntsFromIntArray(a)[1..|a| + 1] == a;
  }

  /** A successful decode reads exactly the prefixed layout of its result. */
  lemma IntArrayFromIntsPrefix(ints: seq<int>, a: seq<int>)
    requires IntArrayFromInts(ints) == Some(a)
    ensures |a| < |ints| && ints[..|a| + 1] == IntsFromIntArray(a)
  {
  }

  /** Every entry of `a` is a valid dimension size. */
  predicate NonNegative(a: seq<int>)
  {
    forall i :: 0 <= i < |a| ==> a[i] >= 0
  }

  /**
   * Reads a tensor shape from its length-prefixed layout. Besides a
   * malformed prefix, an entry that is negative is refused.
   */
  function ShapeFromInts(ints: seq<int>): (r: Option<seq<nat>>)
    ensures r.Some? <==> |ints| > 0 && 0 <= ints[0] < |ints| &&
                         forall i :: 1 <= i <= ints[0] ==> ints[i] >= 0
    ensures r.Some? ==> |r.value| == ints[0]
    ensures r.Some? ==> forall i :: 0 <= i < |r.value| ==> r.value[i] == ints[i + 1]
  {
    match IntArrayFromInts(ints)
    case None => None
    case Some(a) => if NonNegative(a) then Some(a) else None
  }

  /** The length-prefixed layout of a shape. */
  function ShapeToInts(shape: seq<nat>): seq<int>
  {
    IntsFromIntArray(shape)
  }

  /**
   * `ints` decodes to `shape` exactly when `ints` starts with the
   * prefixed layout of `shape`.
   */
  lemma ShapeFromIntsIff(ints: seq<int>, shape: seq<nat>)
    ensures ShapeFromInts(ints) == Some(shape)
            <==> |shape| < |ints| && ints[..|shape| + 1] == ShapeToInts(shape)
  {
  }

  /** Number of elements of a tensor of this shape: the product of its dimensions. */
  function ElementCount(shape: seq<nat>): (n: nat)
    ensures n == 0 <==> exists i :: 0 <= i < |shape| && shape[i] == 0
  {
    if shape == [] then 1
    else
      var rest := ElementCount(shape[1..]);
      assert (exists j :: 0 <= j < |shape[1..]| && shape[1..][j] == 0)
             ==> (exists i :: 0 <= i < |shape| && shape[i] == 0);
      assert (exists i :: 1 <= i < |shape| && shape[i] == 0)
             ==> (exists j :: 0 <= j < |shape[1..]| && shape[1..][j] == 0);
      shape[0] * rest
  }

  /** A scalar (rank-0) shape holds exactly one element; a vector holds its length. */
  lemma ElementCountLowRanks(n: nat)
    ensures ElementCount([]) == 1
    ensures ElementCount([n]) == n
  {
  }

  /** Concatenating shapes multiplies their element counts (row-major flattening). */
  lemma {:induction false} ElementCountConcat(a: seq<nat>, b: seq<nat>)
    ensures ElementCount(a + b) == ElementCount(a) * ElementCount(b)
  {
    if a == [] {
      assert a + b == b;
    } else {
      assert (a + b)[1..] == a[1..] + b;
      ElementCountConcat(a[1..], b);
      calc {
        ElementCount(a + b);
        a[0] * ElementCount(a[1..] + b);
        a[0] * (ElementCount(a[1..]) * ElementCount(b));
        (a[0] * ElementCount(a[1..])) * ElementCount(b);
        ElementCount(a) * ElementCount(b);
      }
    }
  }
}
