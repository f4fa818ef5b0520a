/** Applying a function to every element of a sequence. */
module SeqMaps {

  /** `f` applied to each element of `s`, in order. */
  function MapSeq<A, B>(f: A -> B, s: seq<A>): seq<B>
  {
    seq(|s|, j requires 0 <= j < |s| => f(s[j]))
  }

  /** Mapping distributes over concatenation. */
  lemma MapSeqAppend<A, B>(f: A -> B, a: seq<A>, b: seq<A>)
    ensures MapSeq(f, a + b) == MapSeq(f, a) + MapSeq(f, b)
  {
  }

  /** Mapping a sequence of three elements. */
  lemma MapSeqThree<A, B>(f: A -> B, x: A, y: A, z: A)
    ensures MapSeq(f, [x, y, z]) == [f(x), f(y), f(z)]
  {
  }

  /** Mapping a permutation yields a permutation. */
  lemma {:induction false} MapPermutation<A, B>(f: A -> B, a: seq<A>, b: seq<A>)
    requires multiset(a) == multiset(b)
    ensures multiset(MapSeq(f, a)) == multiset(MapSeq(f, b))
    decreases |a|
  {
    if |a| == 0 {
      assert |b| == |multiset(b)| == 0;
    } else {
      var last := |a| - 1;
      var x := a[last];
      assert a == a[..last] + [x];
      assert x in multiset(b);
      var k :| 0 <= k < |b| && b[k] == x;
      assert b == b[..k] + [x] + b[k + 1..];
      var rest := b[..k] + b[k + 1..];
      assert multiset(a[..last]) == multiset(a) - multiset{x};
      assert multiset(rest) == multiset(b) - multiset{x};
      MapPermutation(f, a[..last], rest);
      MapSeqAppend(f, a[..last], [x]);
      MapSeqAppend(f, b[..k] + [x], b[k + 1..]);
      MapSeqAppend(f, b[..k], [x]);
      MapSeqAppend(f, b[..k], b[k + 1..]);
      assert MapSeq(f, [x]) == [f(x)];
    }
  }
}
