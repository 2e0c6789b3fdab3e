/** `Array.prototype.filter` and the facts about it the rest of the model uses. */
module Lists {

  /** The elements of `xs` that satisfy `keep`, in their original order. */
  function Filter<T(!new)>(xs: seq<T>, keep: T -> bool): (r: seq<T>)
    ensures |r| <= |xs|
    ensures forall i :: 0 <= i < |r| ==> keep(r[i])
    ensures forall x :: x in r <==> x in xs && keep(x)
    ensures forall x :: multiset(r)[x] == if keep(x) then multiset(xs)[x] else 0
  {
    if xs == [] then []
    else
      assert xs == [xs[0]] + xs[1..];
      if keep(xs[0]) then [xs[0]] + Filter(xs[1..], keep) else Filter(xs[1..], keep)
  }

  /** Filtering distributes over concatenation: the survivors of a prefix come
      before the survivors of the rest, so the relative order is kept. */
  lemma {:induction false} FilterAppend<T(!new)>(xs: seq<T>, ys: seq<T>, keep: T -> bool)
    ensures Filter(xs + ys, keep) == Filter(xs, keep) + Filter(ys, keep)
  {
    if xs == [] {
      assert xs + ys == ys;
    } else {
      assert (xs + ys)[1..] == xs[1..] + ys;
      FilterAppend(xs[1..], ys, keep);
    }
  }

  /** A filter that every element passes returns the list itself. */
  lemma {:induction false} FilterKeepsAll<T(!new)>(xs: seq<T>, keep: T -> bool)
    requires forall i :: 0 <= i < |xs| ==> keep(xs[i])
    ensures Filter(xs, keep) == xs
  {
    if xs != [] {
      FilterKeepsAll(xs[1..], keep);
    }
  }

  /** Whatever holds of every element holds of every survivor. */
  lemma {:induction false} FilterKeepsProperty<T(!new)>(xs: seq<T>, keep: T -> bool, holds: T -> bool)
    requires forall i :: 0 <= i < |xs| ==> holds(xs[i])
    ensures forall i :: 0 <= i < |Filter(xs, keep)| ==> holds(Filter(xs, keep)[i])
  {
    if xs != [] {
      FilterKeepsProperty(xs[1..], keep, holds);
    }
  }
}
