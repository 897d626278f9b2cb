/** Keeping the first occurrence of each element: what a Python loop of the form
    `if x not in out: out.append(x)` leaves in `out`. */
module FirstSeen {
  function Firsts<T(==)>(xs: seq<T>): seq<T> {
    if xs == [] then []
    else
      var before, x := Firsts(xs[..|xs| - 1]), xs[|xs| - 1];
      if x in before then before else before + [x]
  }

  function FirstIndex<T(==)>(xs: seq<T>, x: T): (i: nat)
    requires x in xs
    ensures i < |xs| && xs[i] == x && forall j | 0 <= j < i :: xs[j] != x
  {
    if xs[0] == x then 0 else 1 + FirstIndex(xs[1..], x)
  }

  lemma FirstsAppend<T>(xs: seq<T>, x: T)
    ensures Firsts(xs + [x]) == if x in Firsts(xs) then Firsts(xs) else Firsts(xs) + [x]
  {
    assert (xs + [x])[..|xs|] == xs;
  }

  lemma {:induction false} SameElements<T>(xs: seq<T>, x: T)
    ensures x in Firsts(xs) <==> x in xs
  {
    if xs != [] {
      var n := |xs| - 1;
      SameElements(xs[..n], x);
      SameElements(xs[..n], xs[n]);
      assert x in xs <==> x in xs[..n] || x == xs[n];
    }
  }

  /** Each element once, in the order of first occurrences: with SameElements this fixes the list. */
  lemma {:induction false} InOrderOfFirstOccurrence<T>(xs: seq<T>, i: nat, j: nat)
    requires i < j < |Firsts(xs)|
    ensures Firsts(xs)[i] in xs && Firsts(xs)[j] in xs
    ensures FirstIndex(xs, Firsts(xs)[i]) < FirstIndex(xs, Firsts(xs)[j])
  {
    var n := |xs| - 1;
    var before, out := Firsts(xs[..n]), Firsts(xs);
    SameElements(xs, out[i]);
    SameElements(xs, out[j]);
    if j < |before| {
      InOrderOfFirstOccurrence(xs[..n], i, j);
      IndexInPrefix(xs, n, before[i]);
      IndexInPrefix(xs, n, before[j]);
    } else {
      assert out[j] == xs[n];
      SameElements(xs[..n], before[i]);
      SameElements(xs[..n], xs[n]);
      IndexInPrefix(xs, n, before[i]);
      assert forall k | 0 <= k < n :: xs[k] == xs[..n][k];
    }
  }

  lemma IndexInPrefix<T>(xs: seq<T>, n: nat, x: T)
    requires n <= |xs| && x in xs[..n]
    ensures x in xs && FirstIndex(xs, x) == FirstIndex(xs[..n], x)
  {
    var i := FirstIndex(xs[..n], x);
    assert xs[i] == x;
    assert forall j | 0 <= j < i :: xs[j] == xs[..n][j];
  }
}
