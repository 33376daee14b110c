// Sequence vocabulary shared by the other modules.
module Seqs {

  ghost predicate NoDuplicates<T(!new)>(xs: seq<T>) {
    forall i, j :: 0 <= i < j < |xs| ==> xs[i] != xs[j]
  }

  // Keeps the first occurrence of every element, in order.
  function FirstSeen<T(==)>(xs: seq<T>): (ys: seq<T>) {
    if xs == [] then []
    else
      var earlier := FirstSeen(xs[..|xs| - 1]);
      if xs[|xs| - 1] in earlier then earlier else earlier + [xs[|xs| - 1]]
  }

  lemma {:induction false} FirstSeenKeepsElements<T(!new)>(xs: seq<T>)
    ensures NoDuplicates(FirstSeen(xs))
    ensures forall x :: x in FirstSeen(xs) <==> x in xs
  {
    if xs != [] {
      var init := xs[..|xs| - 1];
      FirstSeenKeepsElements(init);
      assert xs == init + [xs[|xs| - 1]];
    }
  }

  // `xs[p]` is the first occurrence of `x`.
  ghost predicate FirstAt<T(!new)>(xs: seq<T>, p: int, x: T) {
    0 <= p < |xs| && xs[p] == x && x !in xs[..p]
  }

  // The first occurrence of `x` precedes that of `y`.
  ghost predicate SeenBefore<T(!new)>(xs: seq<T>, x: T, y: T) {
    exists p, q :: p < q && FirstAt(xs, p, x) && FirstAt(xs, q, y)
  }

  lemma FirstAtStays<T(!new)>(xs: seq<T>, p: int, x: T)
    requires xs != [] && FirstAt(xs[..|xs| - 1], p, x)
    ensures FirstAt(xs, p, x)
  {
    assert xs[..|xs| - 1][..p] == xs[..p];
  }

  lemma {:induction false} FirstOccurrence<T(!new)>(xs: seq<T>, x: T) returns (p: nat)
    requires x in xs
    ensures FirstAt(xs, p, x)
  {
    var init := xs[..|xs| - 1];
    if x in init {
      p := FirstOccurrence(init, x);
      FirstAtStays(xs, p, x);
    } else {
      p := |init|;
      assert xs == init + [xs[|init|]];
    }
  }

  // Of two listed elements, the earlier one occurred first.
  lemma {:induction false} FirstSeenOrder<T(!new)>(xs: seq<T>, i: nat, j: nat) returns (p: nat, q: nat)
    requires i < j < |FirstSeen(xs)|
    ensures p < q && FirstAt(xs, p, FirstSeen(xs)[i]) && FirstAt(xs, q, FirstSeen(xs)[j])
  {
    var init, last := xs[..|xs| - 1], xs[|xs| - 1];
    var earlier := FirstSeen(init);
    FirstSeenKeepsElements(init);
    if j < |earlier| {
      p, q := FirstSeenOrder(init, i, j);
      FirstAtStays(xs, p, earlier[i]);
      FirstAtStays(xs, q, earlier[j]);
    } else {
      assert earlier[i] in earlier;
      p := FirstOccurrence(init, earlier[i]);
      q := |init|;
      FirstAtStays(xs, p, earlier[i]);
    }
  }

  lemma FirstSeenStep<T(!new)>(xs: seq<T>, x: T)
    ensures FirstSeen(xs + [x]) == if x in FirstSeen(xs) then FirstSeen(xs) else FirstSeen(xs) + [x]
  {
    assert (xs + [x])[..|xs + [x]| - 1] == xs;
  }

  // A duplicate-free sequence is already its own list of first occurrences.
  lemma {:induction false} FirstSeenOfDistinct<T(!new)>(xs: seq<T>)
    requires NoDuplicates(xs)
    ensures FirstSeen(xs) == xs
  {
    if xs != [] {
      FirstSeenOfDistinct(xs[..|xs| - 1]);
    }
  }

  // Appending a batch only looks at what was already seen.
  lemma {:induction false} FirstSeenConcat<T(!new)>(xs: seq<T>, ys: seq<T>)
    ensures FirstSeen(xs + ys) == FirstSeen(FirstSeen(xs) + ys)
  {
    if ys == [] {
      assert xs + ys == xs && FirstSeen(xs) + ys == FirstSeen(xs);
      FirstSeenKeepsElements(xs);
      FirstSeenOfDistinct(FirstSeen(xs));
    } else {
      var init, last := ys[..|ys| - 1], ys[|ys| - 1];
      FirstSeenConcat(xs, init);
      assert xs + ys == (xs + init) + [last];
      assert FirstSeen(xs) + ys == (FirstSeen(xs) + init) + [last];
      FirstSeenStep(xs + init, last);
      FirstSeenStep(FirstSeen(xs) + init, last);
    }
  }

  // The elements that satisfy `keep`, in order.
  function Filter<T>(xs: seq<T>, keep: T -> bool): (ys: seq<T>) {
    if xs == [] then []
    else
      var earlier := Filter(xs[..|xs| - 1], keep);
      if keep(xs[|xs| - 1]) then earlier + [xs[|xs| - 1]] else earlier
  }

  lemma FilterStep<T>(xs: seq<T>, x: T, keep: T -> bool)
    ensures Filter(xs + [x], keep) == Filter(xs, keep) + if keep(x) then [x] else []
  {
    assert (xs + [x])[..|xs + [x]| - 1] == xs;
  }

  lemma {:induction false} FilterKeeps<T(!new)>(xs: seq<T>, keep: T -> bool)
    ensures forall x :: x in Filter(xs, keep) <==> x in xs && keep(x)
  {
    if xs != [] {
      FilterKeeps(xs[..|xs| - 1], keep);
      assert xs == xs[..|xs| - 1] + [xs[|xs| - 1]];
    }
  }

  lemma {:induction false} FilterConcat<T>(xs: seq<T>, ys: seq<T>, keep: T -> bool)
    ensures Filter(xs + ys, keep) == Filter(xs, keep) + Filter(ys, keep)
  {
    if ys == [] {
      assert xs + ys == xs;
    } else {
      var init, last := ys[..|ys| - 1], ys[|ys| - 1];
      FilterConcat(xs, init, keep);
      assert xs + ys == (xs + init) + [last];
      FilterStep(xs + init, last, keep);
    }
  }
}
