/**
 Equality of ordered lists as java.util.List.equals defines it: walk both
 lists side by side, compare the elements at each position, and call the
 lists equal only when every compared pair is equal and both lists run out
 at the same time.
 */
module Lists {

  /** Element-wise, in-order comparison of `a` and `b`. Two lists of
      different length are never equal, even when one is a prefix of the
      other. */
  function ElementwiseEqual<T(==)>(a: seq<T>, b: seq<T>): (r: bool)
    ensures r ==> |a| == |b|
    decreases |a|
  {
    if a == [] || b == [] then a == [] && b == []
    else a[0] == b[0] && ElementwiseEqual(a[1..], b[1..])
  }

  /** The element-wise walk agrees with value equality of sequences, in both
      directions. */
  lemma {:induction false} ElementwiseEqualIsSeqEquality<T>(a: seq<T>, b: seq<T>)
    ensures ElementwiseEqual(a, b) <==> a == b
    decreases |a|
  {
    if a != [] && b != [] {
      ElementwiseEqualIsSeqEquality(a[1..], b[1..]);
      assert a == [a[0]] + a[1..];
      assert b == [b[0]] + b[1..];
    }
  }
}
