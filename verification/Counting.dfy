/** Sums over a sequence, used to count threads by what they are about to do. */
module Counting {
  ghost function Total<A>(xs: seq<A>, f: A -> int): int {
    if xs == [] then 0 else f(xs[0]) + Total(xs[1..], f)
  }

  lemma {:induction false} TotalUpdate<A>(xs: seq<A>, i: nat, x: A, f: A -> int)
    requires i < |xs|
    ensures Total(xs[i := x], f) == Total(xs, f) - f(xs[i]) + f(x)
  {
    if i == 0 {
      assert xs[i := x][1..] == xs[1..];
    } else {
      assert xs[i := x][1..] == xs[1..][i - 1 := x];
      TotalUpdate(xs[1..], i - 1, x, f);
    }
  }

  lemma {:induction false} TotalBounds<A>(xs: seq<A>, f: A -> int)
    requires forall x <- xs :: 0 <= f(x)
    ensures forall i | 0 <= i < |xs| :: 0 <= f(xs[i]) <= Total(xs, f)
    ensures 0 <= Total(xs, f)
  {
    if xs != [] {
      TotalBounds(xs[1..], f);
      forall i | 0 <= i < |xs| ensures 0 <= f(xs[i]) <= Total(xs, f) {
        if i > 0 { assert xs[i] == xs[1..][i - 1]; }
      }
    }
  }

  lemma {:induction false} TotalAppend<A>(xs: seq<A>, x: A, f: A -> int)
    ensures Total(xs + [x], f) == Total(xs, f) + f(x)
  {
    if xs == [] {
      assert xs + [x] == [x];
    } else {
      assert (xs + [x])[1..] == xs[1..] + [x];
      TotalAppend(xs[1..], x, f);
    }
  }

  lemma {:induction false} TotalWitness<A>(xs: seq<A>, f: A -> int)
    requires Total(xs, f) > 0
    ensures exists i :: 0 <= i < |xs| && f(xs[i]) > 0
  {
    if f(xs[0]) <= 0 {
      TotalWitness(xs[1..], f);
      var i :| 0 <= i < |xs[1..]| && f(xs[1..][i]) > 0;
      assert f(xs[i + 1]) > 0;
    }
  }
}
