/** The stable sort of Go's standard library, as far as the gateway relies on it. */
module Sorting {
  /** The comparisons that a stable sort accepts. */
  ghost predicate StrictWeakOrder<T(!new)>(less: (T, T) -> bool) {
    && (forall x :: !less(x, x))
    && (forall x, y, z :: !less(x, y) && !less(y, z) ==> !less(x, z))
    && (forall x, y :: less(x, y) ==> !less(y, x))
  }

  /** Puts x behind everything that is not greater. */
  function Inserted<T>(sorted: seq<T>, x: T, less: (T, T) -> bool): seq<T> {
    if sorted == [] || !less(x, sorted[|sorted| - 1]) then sorted + [x]
    else Inserted(sorted[..|sorted| - 1], x, less) + [sorted[|sorted| - 1]]
  }

  function StableSorted<T>(xs: seq<T>, less: (T, T) -> bool): seq<T> {
    if xs == [] then [] else Inserted(StableSorted(xs[..|xs| - 1], less), xs[|xs| - 1], less)
  }

  predicate SortedBy<T>(xs: seq<T>, less: (T, T) -> bool) {
    forall i, j :: 0 <= i < j < |xs| ==> !less(xs[j], xs[i])
  }

  lemma {:induction false} InsertedPermutes<T>(sorted: seq<T>, x: T, less: (T, T) -> bool)
    ensures multiset(Inserted(sorted, x, less)) == multiset(sorted) + multiset{x}
    ensures |Inserted(sorted, x, less)| == |sorted| + 1
  {
    if sorted != [] && less(x, sorted[|sorted| - 1]) {
      InsertedPermutes(sorted[..|sorted| - 1], x, less);
      assert sorted == sorted[..|sorted| - 1] + [sorted[|sorted| - 1]];
    }
  }

  lemma {:induction false} SortPermutes<T>(xs: seq<T>, less: (T, T) -> bool)
    ensures multiset(StableSorted(xs, less)) == multiset(xs)
    ensures |StableSorted(xs, less)| == |xs|
  {
    if xs != [] {
      SortPermutes(xs[..|xs| - 1], less);
      InsertedPermutes(StableSorted(xs[..|xs| - 1], less), xs[|xs| - 1], less);
      assert xs == xs[..|xs| - 1] + [xs[|xs| - 1]];
    }
  }

  lemma {:induction false} InsertedSorted<T(!new)>(sorted: seq<T>, x: T, less: (T, T) -> bool)
    requires StrictWeakOrder(less) && SortedBy(sorted, less)
    ensures SortedBy(Inserted(sorted, x, less), less)
    ensures forall i :: 0 <= i < |Inserted(sorted, x, less)| ==>
              Inserted(sorted, x, less)[i] == x || Inserted(sorted, x, less)[i] in sorted
  {
    if sorted == [] {
    } else if !less(x, sorted[|sorted| - 1]) {
      forall i | 0 <= i < |sorted| ensures !less(x, sorted[i]) {
        assert !less(sorted[|sorted| - 1], sorted[i]);
      }
    } else {
      var init, last := sorted[..|sorted| - 1], sorted[|sorted| - 1];
      InsertedSorted(init, x, less);
      forall i | 0 <= i < |Inserted(init, x, less)| ensures !less(last, Inserted(init, x, less)[i]) {
        assert Inserted(init, x, less)[i] == x || Inserted(init, x, less)[i] in init;
      }
    }
  }

  lemma {:induction false} SortSorts<T(!new)>(xs: seq<T>, less: (T, T) -> bool)
    requires StrictWeakOrder(less)
    ensures SortedBy(StableSorted(xs, less), less)
  {
    if xs != [] {
      SortSorts(xs[..|xs| - 1], less);
      InsertedSorted(StableSorted(xs[..|xs| - 1], less), xs[|xs| - 1], less);
    }
  }

  /** The elements that rank with v, in order. */
  function Ties<T>(xs: seq<T>, v: T, less: (T, T) -> bool): seq<T> {
    if xs == [] then []
    else
      var last := xs[|xs| - 1];
      Ties(xs[..|xs| - 1], v, less) + if less(last, v) || less(v, last) then [] else [last]
  }

  lemma TiesSnoc<T>(xs: seq<T>, x: T, v: T, less: (T, T) -> bool)
    ensures Ties(xs + [x], v, less) == Ties(xs, v, less) + if less(x, v) || less(v, x) then [] else [x]
  {
    assert (xs + [x])[..|xs|] == xs;
  }

  lemma {:induction false} InsertedTies<T(!new)>(sorted: seq<T>, x: T, v: T, less: (T, T) -> bool)
    requires StrictWeakOrder(less)
    ensures Ties(Inserted(sorted, x, less), v, less) ==
            Ties(sorted, v, less) + if less(x, v) || less(v, x) then [] else [x]
  {
    hide Ties;
    if sorted == [] || !less(x, sorted[|sorted| - 1]) {
      TiesSnoc(sorted, x, v, less);
    } else {
      var init, last := sorted[..|sorted| - 1], sorted[|sorted| - 1];
      InsertedTies(init, x, v, less);
      TiesSnoc(Inserted(init, x, less), last, v, less);
      TiesSnoc(init, last, v, less);
      assert sorted == init + [last];
      assert !less(x, v) && !less(v, last) ==> !less(x, last);
    }
  }

  /** A stable sort keeps elements of the same rank in order. */
  lemma {:induction false} SortIsStable<T(!new)>(xs: seq<T>, v: T, less: (T, T) -> bool)
    requires StrictWeakOrder(less)
    ensures Ties(StableSorted(xs, less), v, less) == Ties(xs, v, less)
  {
    if xs != [] {
      var init, last := xs[..|xs| - 1], xs[|xs| - 1];
      SortIsStable(init, v, less);
      InsertedTies(StableSorted(init, less), last, v, less);
    }
  }

  /** Position of the first minimum. */
  function FirstMinimum<T>(xs: seq<T>, less: (T, T) -> bool): (k: nat)
    requires xs != []
    ensures k < |xs|
  {
    if |xs| == 1 then 0
    else
      var k := FirstMinimum(xs[..|xs| - 1], less);
      if less(xs[|xs| - 1], xs[k]) then |xs| - 1 else k
  }

  lemma {:induction false} FirstMinimumIsMinimal<T(!new)>(xs: seq<T>, less: (T, T) -> bool)
    requires StrictWeakOrder(less) && xs != []
    ensures var k := FirstMinimum(xs, less);
            && (forall j :: 0 <= j < |xs| ==> !less(xs[j], xs[k]))
            && (forall j :: 0 <= j < k ==> less(xs[k], xs[j]))
  {
    if |xs| > 1 {
      var init, last := xs[..|xs| - 1], xs[|xs| - 1];
      FirstMinimumIsMinimal(init, less);
      var k := FirstMinimum(init, less);
      if less(last, xs[k]) {
        forall j | 0 <= j < |init| ensures less(last, xs[j]) {
          assert !less(init[j], init[k]);
        }
      }
    }
  }

  /** A stable sort puts the first minimum first. */
  lemma {:induction false} SortHead<T(!new)>(xs: seq<T>, less: (T, T) -> bool)
    requires StrictWeakOrder(less) && xs != []
    ensures |StableSorted(xs, less)| == |xs|
    ensures StableSorted(xs, less)[0] == xs[FirstMinimum(xs, less)]
  {
    SortPermutes(xs, less);
    if |xs| > 1 {
      var init, last := xs[..|xs| - 1], xs[|xs| - 1];
      SortHead(init, less);
      SortSorts(init, less);
      InsertedHead(StableSorted(init, less), last, less);
    }
  }

  lemma {:induction false} InsertedHead<T(!new)>(sorted: seq<T>, x: T, less: (T, T) -> bool)
    requires StrictWeakOrder(less) && SortedBy(sorted, less) && sorted != []
    ensures |Inserted(sorted, x, less)| == |sorted| + 1
    ensures Inserted(sorted, x, less)[0] == if less(x, sorted[0]) then x else sorted[0]
  {
    InsertedPermutes(sorted, x, less);
    if less(x, sorted[|sorted| - 1]) && |sorted| > 1 {
      InsertedHead(sorted[..|sorted| - 1], x, less);
    }
  }

  /** The first minimum depends on the comparisons only. */
  lemma {:induction false} SameFirstMinimum<A, B>(xs: seq<A>, lessA: (A, A) -> bool, ys: seq<B>, lessB: (B, B) -> bool)
    requires |xs| == |ys| > 0
    requires forall i, j :: 0 <= i < |xs| && 0 <= j < |xs| ==> lessA(xs[i], xs[j]) == lessB(ys[i], ys[j])
    ensures FirstMinimum(xs, lessA) == FirstMinimum(ys, lessB)
  {
    if |xs| > 1 {
      SameFirstMinimum(xs[..|xs| - 1], lessA, ys[..|ys| - 1], lessB);
    }
  }
}
