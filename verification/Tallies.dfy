/** Sums of weights along a sequence, for counting tokens, holders and events. */
module Tallies {
  function One(b: bool): nat {
    if b then 1 else 0
  }

  function Tally<T>(xs: seq<T>, weight: T -> nat): nat {
    if |xs| == 0 then 0 else Tally(xs[..|xs| - 1], weight) + weight(xs[|xs| - 1])
  }

  lemma {:induction false} TallyAppend<T>(xs: seq<T>, ys: seq<T>, weight: T -> nat)
    ensures Tally(xs + ys, weight) == Tally(xs, weight) + Tally(ys, weight)
  {
    if |ys| == 0 {
      assert xs + ys == xs;
    } else {
      var n := |ys| - 1;
      assert (xs + ys)[..|xs| + n] == xs + ys[..n];
      TallyAppend(xs, ys[..n], weight);
    }
  }

  lemma TallyPush<T>(x: T, xs: seq<T>, weight: T -> nat)
    ensures Tally([x] + xs, weight) == weight(x) + Tally(xs, weight)
  {
    TallyAppend([x], xs, weight);
    assert [x][..0] == [];
  }

  lemma {:induction false} TallyPut<T>(xs: seq<T>, i: nat, x: T, weight: T -> nat)
    requires i < |xs|
    ensures Tally(xs[i := x], weight) + weight(xs[i]) == Tally(xs, weight) + weight(x)
  {
    var before, after := xs[..i], xs[i + 1..];
    assert xs == before + [xs[i]] + after && xs[i := x] == before + [x] + after;
    TallyAppend(before + [xs[i]], after, weight);
    TallyAppend(before + [x], after, weight);
    assert (before + [xs[i]])[..i] == before && (before + [x])[..i] == before;
  }

  lemma {:induction false} TallyMember<T>(xs: seq<T>, i: nat, weight: T -> nat)
    requires i < |xs|
    ensures weight(xs[i]) <= Tally(xs, weight)
  {
    if i < |xs| - 1 {
      TallyMember(xs[..|xs| - 1], i, weight);
    }
  }

  lemma {:induction false} TallyZero<T>(xs: seq<T>, weight: T -> nat)
    requires forall i :: 0 <= i < |xs| ==> weight(xs[i]) == 0
    ensures Tally(xs, weight) == 0
  {
    if |xs| > 0 {
      TallyZero(xs[..|xs| - 1], weight);
    }
  }

  lemma {:induction false} TallyLess<T>(xs: seq<T>, f: T -> nat, g: T -> nat, h: T -> nat)
    requires forall i :: 0 <= i < |xs| ==> f(xs[i]) + g(xs[i]) <= h(xs[i])
    ensures Tally(xs, f) + Tally(xs, g) <= Tally(xs, h)
  {
    if |xs| > 0 {
      TallyLess(xs[..|xs| - 1], f, g, h);
    }
  }

  lemma {:induction false} TallySplit<T>(xs: seq<T>, f: T -> nat, g: T -> nat, h: T -> nat)
    requires forall i :: 0 <= i < |xs| ==> f(xs[i]) <= g(xs[i]) + h(xs[i])
    ensures Tally(xs, f) <= Tally(xs, g) + Tally(xs, h)
  {
    if |xs| > 0 {
      TallySplit(xs[..|xs| - 1], f, g, h);
    }
  }

  lemma TallySnoc<T>(xs: seq<T>, x: T, weight: T -> nat)
    ensures Tally(xs + [x], weight) == Tally(xs, weight) + weight(x)
  {
    assert (xs + [x])[..|xs|] == xs;
  }
}
