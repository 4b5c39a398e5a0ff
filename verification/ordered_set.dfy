/** A JavaScript `Set` built from an array, as a sequence: `new Set(xs)` keeps
    the first occurrence of every element and iterates in insertion order. */
module OrderedSet {

  predicate NoDuplicates<T(==,!new)>(s: seq<T>) {
    forall i, j :: 0 <= i < j < |s| ==> s[i] != s[j]
  }

  /** The set built by inserting the elements of `xs` one after another. */
  function FromSeq<T(==,!new)>(xs: seq<T>): (r: seq<T>)
    ensures NoDuplicates(r)
    ensures forall x :: x in r <==> x in xs
    ensures |r| <= |xs|
  {
    if |xs| == 0 then []
    else
      var front := xs[..|xs| - 1];
      var last := xs[|xs| - 1];
      assert xs == front + [last];
      var r0 := FromSeq(front);
      if last in r0 then r0 else r0 + [last]
  }

  /** The position of the first occurrence of `x` in `xs`. */
  function FirstIndex<T(==,!new)>(xs: seq<T>, x: T): (i: nat)
    requires x in xs
    ensures i < |xs| && xs[i] == x && x !in xs[..i]
  {
    if xs[0] == x then 0
    else
      var i := 1 + FirstIndex(xs[1..], x);
      assert xs[..i] == [xs[0]] + xs[1..][..i - 1];
      i
  }

  /** The first occurrence of an element is the same in a prefix that holds it. */
  lemma FirstIndexInPrefix<T(!new)>(xs: seq<T>, k: nat, x: T)
    requires k <= |xs| && x in xs[..k]
    ensures FirstIndex(xs[..k], x) == FirstIndex(xs, x)
  {
  }

  /** `FromSeq` lists the elements in the order of their first occurrence. */
  lemma {:induction false} FromSeqFirstOccurrenceOrder<T(!new)>(xs: seq<T>)
    ensures forall i, j :: 0 <= i < j < |FromSeq(xs)| ==>
      FirstIndex(xs, FromSeq(xs)[i]) < FirstIndex(xs, FromSeq(xs)[j])
  {
    if |xs| > 0 {
      var n := |xs| - 1;
      var front := xs[..n];
      var last := xs[n];
      var r0 := FromSeq(front);
      FromSeqFirstOccurrenceOrder(front);
      assert front == xs[..n];
      forall y | y in r0
        ensures FirstIndex(xs, y) == FirstIndex(front, y) < n
      {
        FirstIndexInPrefix(xs, n, y);
      }
      var r := FromSeq(xs);
      if last !in r0 {
        assert last !in xs[..n];
        assert FirstIndex(xs, last) == n;
        forall i, j | 0 <= i < j < |r|
          ensures FirstIndex(xs, r[i]) < FirstIndex(xs, r[j])
        {
          assert r[i] == r0[i];
          if j < |r0| {
            assert r[j] == r0[j];
          }
        }
      }
    }
  }
}
