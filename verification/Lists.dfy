/** Small stock shared by the other modules. */
module Lists {
  datatype Option<T> = None | Some(value: T)

  /** The elements a loop keeps, in order. */
  function Filtered<T>(xs: seq<T>, keep: T -> bool): seq<T> {
    if xs == [] then []
    else
      var before := Filtered(xs[..|xs| - 1], keep);
      if keep(xs[|xs| - 1]) then before + [xs[|xs| - 1]] else before
  }

  method Filter<T>(xs: seq<T>, keep: T -> bool) returns (kept: seq<T>)
    ensures kept == Filtered(xs, keep)
  {
    kept := [];
    for i := 0 to |xs|
      invariant kept == Filtered(xs[..i], keep)
    {
      assert xs[..i + 1][..i] == xs[..i];
      if keep(xs[i]) {
        kept := kept + [xs[i]];
      }
    }
    assert xs[..|xs|] == xs;
  }

  /** Filtering keeps elements apart that differ in some field. */
  lemma {:induction false} FilteredApart<T, K>(xs: seq<T>, keep: T -> bool, field: T -> K)
    requires forall i, j :: 0 <= i < j < |xs| ==> field(xs[i]) != field(xs[j])
    ensures forall i :: 0 <= i < |Filtered(xs, keep)| ==> Filtered(xs, keep)[i] in xs
    ensures forall i, j :: 0 <= i < j < |Filtered(xs, keep)| ==>
              field(Filtered(xs, keep)[i]) != field(Filtered(xs, keep)[j])
  {
    if xs != [] {
      var init, last := xs[..|xs| - 1], xs[|xs| - 1];
      FilteredApart(init, keep, field);
      forall i | 0 <= i < |Filtered(init, keep)| ensures field(Filtered(init, keep)[i]) != field(last) {
        var k :| 0 <= k < |init| && init[k] == Filtered(init, keep)[i];
        assert field(xs[k]) != field(xs[|xs| - 1]);
      }
    }
  }

  function Not<T>(keep: T -> bool): (T -> bool) {
    (x: T) => !keep(x)
  }

  lemma {:induction false} FilteredAreOld<T>(xs: seq<T>, keep: T -> bool)
    ensures forall x :: x in Filtered(xs, keep) ==> x in xs
  {
    if xs != [] {
      FilteredAreOld(xs[..|xs| - 1], keep);
    }
  }

  /** Exactly what is to be kept stays. */
  lemma {:induction false} FilteredAre<T>(xs: seq<T>, keep: T -> bool)
    ensures forall x :: x in Filtered(xs, keep) <==> x in xs && keep(x)
  {
    if xs != [] {
      var init, last := xs[..|xs| - 1], xs[|xs| - 1];
      FilteredAre(init, keep);
      assert forall x :: x in xs <==> x in init || x == last;
    }
  }

  /** A filter decides element by element. */
  lemma FilteredNext<T>(xs: seq<T>, i: nat, keep: T -> bool)
    requires i < |xs|
    ensures Filtered(xs[..i + 1], keep) == if keep(xs[i]) then Filtered(xs[..i], keep) + [xs[i]]
            else Filtered(xs[..i], keep)
  {
    assert xs[..i + 1][..i] == xs[..i];
  }

  /** What is kept and what is not make up everything. */
  lemma {:induction false} Partitioned<T>(xs: seq<T>, keep: T -> bool)
    ensures |Filtered(xs, keep)| + |Filtered(xs, Not(keep))| == |xs|
    ensures multiset(Filtered(xs, keep)) + multiset(Filtered(xs, Not(keep))) == multiset(xs)
  {
    hide *;
    if xs == [] {
      NothingFiltered(keep);
      NothingFiltered(Not(keep));
    } else {
      var init, last := xs[..|xs| - 1], xs[|xs| - 1];
      Partitioned(init, keep);
      FilteredNext(xs, |xs| - 1, keep);
      FilteredNext(xs, |xs| - 1, Not(keep));
      NotIs(keep, last);
      assert xs[..|xs| - 1 + 1] == xs;
      OneMore(init, last, Filtered(init, keep), Filtered(init, Not(keep)));
      assert xs == init + [last];
    }
  }

  lemma NothingFiltered<T>(keep: T -> bool)
    ensures Filtered([], keep) == []
  {
  }

  lemma NotIs<T>(keep: T -> bool, x: T)
    ensures Not(keep)(x) == !keep(x)
  {
  }

  lemma OneMore<T>(init: seq<T>, last: T, a: seq<T>, b: seq<T>)
    requires multiset(a) + multiset(b) == multiset(init)
    ensures multiset(a + [last]) + multiset(b) == multiset(init + [last]) == multiset(a) + multiset(b + [last])
  {
  }

  /** Nothing was left out. */
  lemma {:induction false} AllKept<T>(xs: seq<T>, keep: T -> bool)
    requires |Filtered(xs, keep)| == |xs|
    ensures Filtered(xs, keep) == xs
  {
    if xs != [] {
      var init, last := xs[..|xs| - 1], xs[|xs| - 1];
      Partitioned(init, keep);
      AllKept(init, keep);
    }
  }
}
