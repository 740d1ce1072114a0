/** Vocabulary shared by the models: options, filtered maps over sequences, stable
    sorting under a total order, and decimal numerals. */
module Common {
  datatype Option<+T> = None | Some(value: T)

  datatype Result<+T, +E> = Ok(value: T) | Err(error: E)

  function Min(a: nat, b: nat): nat {
    if a < b then a else b
  }

  // --- Permutations ---

  lemma SameLength<T>(xs: seq<T>, ys: seq<T>)
    requires multiset(xs) == multiset(ys)
    ensures |xs| == |ys|
  {
    assert |xs| == |multiset(xs)| && |ys| == |multiset(ys)|;
  }

  lemma Assoc<T>(a: seq<T>, b: seq<T>, c: seq<T>)
    ensures (a + b) + c == a + (b + c)
  {}

  lemma BagAround<T>(before: seq<T>, x: T, after: seq<T>)
    ensures multiset(before + [x] + after) == multiset(before + after) + multiset{x}
  {}

  lemma SplitAt<T>(ys: seq<T>, x: T) returns (before: seq<T>, after: seq<T>)
    requires x in ys
    ensures ys == before + [x] + after
  {
    var j :| 0 <= j < |ys| && ys[j] == x;
    before, after := ys[..j], ys[j + 1..];
  }

  lemma SameRest<T>(a: multiset<T>, b: multiset<T>, x: T)
    requires a + multiset{x} == b + multiset{x}
    ensures a == b
  {
    assert a == (a + multiset{x}) - multiset{x};
    assert b == (b + multiset{x}) - multiset{x};
  }

  /** The last element of `xs` taken out of a permutation of `xs`. */
  lemma TakeOut<T>(xs: seq<T>, ys: seq<T>) returns (front: seq<T>, x: T, before: seq<T>, after: seq<T>)
    requires multiset(xs) == multiset(ys) && |xs| > 0
    ensures front == xs[..|xs| - 1] && x == xs[|xs| - 1] && xs == front + [x]
    ensures ys == before + [x] + after && multiset(front) == multiset(before + after)
  {
    front, x := xs[..|xs| - 1], xs[|xs| - 1];
    assert xs == front + [x];
    assert x in multiset(xs);
    assert x in ys;
    before, after := SplitAt(ys, x);
    BagAround(before, x, after);
    BagAround(front, x, []);
    assert front + [] == front && front + [x] + [] == xs;
    SameRest(multiset(front), multiset(before + after), x);
  }

  // --- Filtered maps ---

  function OptionSeq<T>(o: Option<T>): seq<T> {
    match o
    case None => []
    case Some(x) => [x]
  }

  /** The values `f` yields along `xs`, in order; elements mapped to `None` are skipped. */
  function Collect<A, B>(xs: seq<A>, f: A -> Option<B>): (r: seq<B>)
    ensures |r| <= |xs|
  {
    if |xs| == 0 then [] else Collect(xs[..|xs| - 1], f) + OptionSeq(f(xs[|xs| - 1]))
  }

  lemma CollectSnoc<A, B>(xs: seq<A>, x: A, f: A -> Option<B>)
    ensures Collect(xs + [x], f) == Collect(xs, f) + OptionSeq(f(x))
  {
    assert (xs + [x])[..|xs|] == xs;
  }

  lemma {:induction false} CollectAppend<A, B>(xs: seq<A>, ys: seq<A>, f: A -> Option<B>)
    ensures Collect(xs + ys, f) == Collect(xs, f) + Collect(ys, f)
  {
    if |ys| == 0 {
      assert xs + ys == xs;
    } else {
      var front, y := ys[..|ys| - 1], ys[|ys| - 1];
      assert ys == front + [y];
      CollectAppend(xs, front, f);
      CollectSnoc(xs + front, y, f);
      Assoc(xs, front, [y]);
      Assoc(Collect(xs, f), Collect(front, f), OptionSeq(f(y)));
    }
  }

  lemma CollectAround<A, B>(before: seq<A>, x: A, after: seq<A>, f: A -> Option<B>)
    ensures multiset(Collect(before + [x] + after, f)) == multiset(Collect(before + after, f)) + multiset(OptionSeq(f(x)))
  {
    CollectAppend(before, after, f);
    CollectAppend(before + [x], after, f);
    CollectSnoc(before, x, f);
  }

  /** Reordering the input reorders the output and nothing else. */
  lemma {:induction false} CollectPermutes<A, B>(xs: seq<A>, ys: seq<A>, f: A -> Option<B>)
    requires multiset(xs) == multiset(ys)
    ensures multiset(Collect(xs, f)) == multiset(Collect(ys, f))
    decreases |xs|
  {
    SameLength(xs, ys);
    if |xs| > 0 {
      var front, x, before, after := TakeOut(xs, ys);
      CollectPermutes(front, before + after, f);
      CollectAround(before, x, after, f);
    }
  }

  lemma {:induction false} CollectMember<A, B>(xs: seq<A>, f: A -> Option<B>, b: B)
    ensures b in Collect(xs, f) <==> exists i :: 0 <= i < |xs| && f(xs[i]) == Some(b)
  {
    if |xs| > 0 {
      var front, x := xs[..|xs| - 1], xs[|xs| - 1];
      CollectMember(front, f, b);
      assert b in Collect(xs, f) <==> b in Collect(front, f) || f(x) == Some(b);
      if i :| 0 <= i < |front| && f(front[i]) == Some(b) {
        assert xs[i] == front[i];
      }
    }
  }

  lemma {:induction false} CollectAgrees<A, B>(xs: seq<A>, f: A -> Option<B>, g: A -> Option<B>)
    requires forall i :: 0 <= i < |xs| ==> f(xs[i]) == g(xs[i])
    ensures Collect(xs, f) == Collect(xs, g)
  {
    if |xs| > 0 {
      CollectAgrees(xs[..|xs| - 1], f, g);
    }
  }

  /** Nothing is skipped when `f` yields a value for every element. */
  lemma {:induction false} AllCollected<A, B>(xs: seq<A>, f: A -> Option<B>)
    requires forall i :: 0 <= i < |xs| ==> f(xs[i]).Some?
    ensures |Collect(xs, f)| == |xs| && forall i :: 0 <= i < |xs| ==> Collect(xs, f)[i] == f(xs[i]).value
  {
    if |xs| > 0 {
      AllCollected(xs[..|xs| - 1], f);
    }
  }

  function MapSeq<A, B>(xs: seq<A>, f: A -> B): (r: seq<B>)
    ensures |r| == |xs|
    ensures forall i :: 0 <= i < |xs| ==> r[i] == f(xs[i])
  {
    seq(|xs|, i requires 0 <= i < |xs| => f(xs[i]))
  }

  lemma MapSeqAgrees<A(!new), B>(xs: seq<A>, f: A -> B, g: A -> B)
    requires forall x :: f(x) == g(x)
    ensures MapSeq(xs, f) == MapSeq(xs, g)
  {}

  lemma MapSeqSnoc<A, B>(xs: seq<A>, x: A, f: A -> B)
    ensures MapSeq(xs + [x], f) == MapSeq(xs, f) + [f(x)]
  {}

  lemma MapSeqTake<A, B>(xs: seq<A>, n: nat, f: A -> B)
    requires n <= |xs|
    ensures MapSeq(xs, f)[..n] == MapSeq(xs[..n], f)
  {}

  lemma MapSeqAppend<A, B>(xs: seq<A>, ys: seq<A>, f: A -> B)
    ensures MapSeq(xs + ys, f) == MapSeq(xs, f) + MapSeq(ys, f)
  {}

  lemma {:induction false} MapIsCollect<A, B>(xs: seq<A>, f: A -> B)
    ensures Collect(xs, x => Some(f(x))) == MapSeq(xs, f)
  {
    if |xs| > 0 {
      var n := |xs| - 1;
      MapIsCollect(xs[..n], f);
      assert xs == xs[..n] + [xs[n]];
    }
  }

  lemma {:induction false} MapSeqPermutes<A, B>(xs: seq<A>, ys: seq<A>, f: A -> B)
    requires multiset(xs) == multiset(ys)
    ensures multiset(MapSeq(xs, f)) == multiset(MapSeq(ys, f))
  {
    var some := x => Some(f(x));
    CollectPermutes(xs, ys, some);
    MapIsCollect(xs, f);
    MapIsCollect(ys, f);
  }

  function Flatten<T>(xss: seq<seq<T>>): seq<T> {
    if |xss| == 0 then [] else Flatten(xss[..|xss| - 1]) + xss[|xss| - 1]
  }

  lemma FlattenSnoc<T>(xss: seq<seq<T>>, xs: seq<T>)
    ensures Flatten(xss + [xs]) == Flatten(xss) + xs
  {
    assert (xss + [xs])[..|xss|] == xss;
  }

  lemma {:induction false} FlattenAppend<T>(xss: seq<seq<T>>, yss: seq<seq<T>>)
    ensures Flatten(xss + yss) == Flatten(xss) + Flatten(yss)
  {
    if |yss| == 0 {
      assert xss + yss == xss;
    } else {
      var front, ys := yss[..|yss| - 1], yss[|yss| - 1];
      assert yss == front + [ys];
      FlattenAppend(xss, front);
      FlattenSnoc(xss + front, ys);
      Assoc(xss, front, [ys]);
      Assoc(Flatten(xss), Flatten(front), ys);
    }
  }

  lemma FlattenAround<T>(before: seq<seq<T>>, xs: seq<T>, after: seq<seq<T>>)
    ensures multiset(Flatten(before + [xs] + after)) == multiset(Flatten(before + after)) + multiset(xs)
  {
    FlattenAppend(before, after);
    FlattenAppend(before + [xs], after);
    FlattenAppend(before, [xs]);
    assert [xs][..0] == [];
    assert Flatten([xs]) == xs;
  }

  lemma {:induction false} FlattenPermutes<T>(xss: seq<seq<T>>, yss: seq<seq<T>>)
    requires multiset(xss) == multiset(yss)
    ensures multiset(Flatten(xss)) == multiset(Flatten(yss))
    decreases |xss|
  {
    SameLength(xss, yss);
    if |xss| > 0 {
      var front, xs, before, after := TakeOut(xss, yss);
      FlattenPermutes(front, before + after);
      FlattenAround(before, xs, after);
    }
  }

  /** Flattening sees only what each part holds, not its order. */
  lemma {:induction false} FlattenBags<T>(xss: seq<seq<T>>, yss: seq<seq<T>>)
    requires |xss| == |yss| && forall i :: 0 <= i < |xss| ==> multiset(xss[i]) == multiset(yss[i])
    ensures multiset(Flatten(xss)) == multiset(Flatten(yss))
  {
    if |xss| > 0 {
      FlattenBags(xss[..|xss| - 1], yss[..|yss| - 1]);
    }
  }

  function Elems<T>(xs: seq<T>): set<T> {
    set i | 0 <= i < |xs| :: xs[i]
  }

  lemma {:induction false} ElemsBound<T>(xs: seq<T>)
    ensures |Elems(xs)| <= |xs|
  {
    if |xs| > 0 {
      var n := |xs| - 1;
      assert Elems(xs) == Elems(xs[..n]) + {xs[n]};
      ElemsBound(xs[..n]);
    }
  }

  lemma ElemsAppend<T>(xs: seq<T>, ys: seq<T>)
    ensures Elems(xs + ys) == Elems(xs) + Elems(ys)
  {
    forall x | x in Elems(ys) ensures x in Elems(xs + ys) {
      var i :| 0 <= i < |ys| && ys[i] == x;
      assert (xs + ys)[|xs| + i] == x;
    }
    forall x | x in Elems(xs) ensures x in Elems(xs + ys) {
      var i :| 0 <= i < |xs| && xs[i] == x;
      assert (xs + ys)[i] == x;
    }
  }

  lemma ElemsOneMore<T>(xs: seq<T>, x: T)
    ensures Elems(xs + [x]) == Elems(xs) + {x}
  {
    ElemsAppend(xs, [x]);
    assert x in Elems([x]) by {
      assert [x][0] == x;
    }
    assert Elems([x]) == {x};
  }

  lemma ElemsPermutes<T>(xs: seq<T>, ys: seq<T>)
    requires multiset(xs) == multiset(ys)
    ensures Elems(xs) == Elems(ys)
  {
    forall x ensures x in Elems(xs) <==> x in Elems(ys) {
      assert x in Elems(xs) <==> x in multiset(xs);
      assert x in Elems(ys) <==> x in multiset(ys);
    }
  }

  function Sum(xs: seq<int>): int {
    if |xs| == 0 then 0 else Sum(xs[..|xs| - 1]) + xs[|xs| - 1]
  }

  lemma {:induction false} SumAppend(xs: seq<int>, ys: seq<int>)
    ensures Sum(xs + ys) == Sum(xs) + Sum(ys)
  {
    if |ys| == 0 {
      assert xs + ys == xs;
    } else {
      var n := |ys| - 1;
      assert (xs + ys)[..|xs| + n] == xs + ys[..n];
      SumAppend(xs, ys[..n]);
    }
  }

  lemma SumAround(before: seq<int>, x: int, after: seq<int>)
    ensures Sum(before + [x] + after) == Sum(before + after) + x
  {
    SumAppend(before, after);
    SumAppend(before + [x], after);
    SumAppend(before, [x]);
  }

  lemma {:induction false} SumPermutes(xs: seq<int>, ys: seq<int>)
    requires multiset(xs) == multiset(ys)
    ensures Sum(xs) == Sum(ys)
    decreases |xs|
  {
    SameLength(xs, ys);
    if |xs| > 0 {
      var front, x, before, after := TakeOut(xs, ys);
      SumPermutes(front, before + after);
      SumAround(before, x, after);
    }
  }

  // --- Sets ---

  lemma SubsetSize<T>(a: set<T>, b: set<T>)
    requires a <= b
    ensures |a| <= |b|
  {
    assert b == a + (b - a);
  }

  lemma SubsetFull<T>(a: set<T>, b: set<T>)
    requires a <= b && |a| == |b|
    ensures a == b
  {
    assert b == a + (b - a);
    assert |b - a| == 0;
  }

  // --- Enumerations of a finite set ---

  ghost predicate NoDup<T>(xs: seq<T>) {
    forall i, j :: 0 <= i < j < |xs| ==> xs[i] != xs[j]
  }

  /** `xs` lists every element of `s` exactly once. */
  ghost predicate Enumerates<T(!new)>(xs: seq<T>, s: set<T>) {
    && NoDup(xs)
    && forall x :: x in xs <==> x in s
  }

  /** One fixed enumeration of `s`. */
  ghost function Listing<T(!new)>(s: set<T>): (r: seq<T>)
    ensures Enumerates(r, s)
  {
    if s == {} then []
    else
      var x :| x in s;
      Listing(s - {x}) + [x]
  }

  lemma {:induction false} NoDupCount<T(!new)>(xs: seq<T>)
    requires NoDup(xs)
    ensures forall x :: multiset(xs)[x] <= 1
  {
    if |xs| > 0 {
      var n := |xs| - 1;
      NoDupCount(xs[..n]);
      assert xs == xs[..n] + [xs[n]];
      assert xs[n] !in xs[..n];
      assert xs[n] !in multiset(xs[..n]);
    }
  }

  /** Any two enumerations of one set are permutations of each other. */
  lemma {:induction false} EnumerationsPermute<T(!new)>(xs: seq<T>, ys: seq<T>, s: set<T>)
    requires Enumerates(xs, s) && Enumerates(ys, s)
    ensures multiset(xs) == multiset(ys)
  {
    NoDupCount(xs);
    NoDupCount(ys);
    forall x ensures multiset(xs)[x] == multiset(ys)[x] {
      assert x in multiset(xs) <==> x in xs;
      assert x in multiset(ys) <==> x in ys;
    }
  }

  // --- Stable sorting ---

  /** Places `x` before the first element it does not exceed, so equal elements keep their order. */
  function Insert<T>(x: T, xs: seq<T>, le: (T, T) -> bool): (r: seq<T>)
    ensures multiset(r) == multiset(xs) + multiset{x}
    ensures |r| == |xs| + 1
  {
    if |xs| == 0 then [x]
    else if le(x, xs[0]) then
      assert [x] + xs == [x] + xs;
      [x] + xs
    else
      assert xs == [xs[0]] + xs[1..];
      [xs[0]] + Insert(x, xs[1..], le)
  }

  function Sort<T>(xs: seq<T>, le: (T, T) -> bool): (r: seq<T>)
    ensures multiset(r) == multiset(xs)
    ensures |r| == |xs|
  {
    if |xs| == 0 then []
    else
      assert xs == [xs[0]] + xs[1..];
      Insert(xs[0], Sort(xs[1..], le), le)
  }

  ghost predicate Sorted<T>(xs: seq<T>, le: (T, T) -> bool) {
    forall i, j :: 0 <= i < j < |xs| ==> le(xs[i], xs[j])
  }

  ghost predicate Preorder<T(!new)>(le: (T, T) -> bool) {
    && (forall x, y :: le(x, y) || le(y, x))
    && (forall x, y, z :: le(x, y) && le(y, z) ==> le(x, z))
  }

  ghost predicate TotalOrder<T(!new)>(le: (T, T) -> bool) {
    && Preorder(le)
    && (forall x, y :: le(x, y) && le(y, x) ==> x == y)
  }

  lemma {:induction false} InsertSorted<T(!new)>(x: T, xs: seq<T>, le: (T, T) -> bool)
    requires Preorder(le) && Sorted(xs, le)
    ensures Sorted(Insert(x, xs, le), le)
  {
    if |xs| == 0 {
    } else if le(x, xs[0]) {
      forall j | 0 <= j < |xs| ensures le(x, xs[j]) {
        assert le(xs[0], xs[j]);
      }
    } else {
      InsertSorted(x, xs[1..], le);
      var r := Insert(x, xs[1..], le);
      forall j | 0 <= j < |r| ensures le(xs[0], r[j]) {
        assert r[j] in multiset(r);
        assert r[j] == x || r[j] in multiset(xs[1..]);
        if r[j] in xs[1..] {
          var i :| 1 <= i < |xs| && xs[i] == r[j];
        }
      }
    }
  }

  lemma {:induction false} SortSorted<T(!new)>(xs: seq<T>, le: (T, T) -> bool)
    requires Preorder(le)
    ensures Sorted(Sort(xs, le), le)
  {
    if |xs| > 0 {
      SortSorted(xs[1..], le);
      InsertSorted(xs[0], Sort(xs[1..], le), le);
    }
  }

  /** A sorted list splits into a part and a rest it does not exceed. */
  lemma SortedSplit<T>(xs: seq<T>, n: nat, le: (T, T) -> bool)
    requires Sorted(xs, le) && n <= |xs|
    ensures Sorted(xs[..n], le)
    ensures multiset(xs[..n]) <= multiset(xs) && multiset(xs) - multiset(xs[..n]) == multiset(xs[n..])
    ensures forall x, y :: x in xs[..n] && y in multiset(xs[n..]) ==> le(x, y)
  {
    assert xs == xs[..n] + xs[n..];
    forall x, y | x in xs[..n] && y in multiset(xs[n..]) ensures le(x, y) {
      var i :| 0 <= i < n && xs[i] == x;
      assert y in xs[n..];
      var j :| n <= j < |xs| && xs[j] == y;
    }
  }

  /** No two different elements of a bag tie. */
  ghost predicate NoTies<T>(bag: multiset<T>, le: (T, T) -> bool) {
    forall x, y :: x in bag && y in bag && le(x, y) && le(y, x) ==> x == y
  }

  lemma NoTiesWithin<T>(part: multiset<T>, bag: multiset<T>, le: (T, T) -> bool)
    requires part <= bag && NoTies(bag, le)
    ensures NoTies(part, le)
  {}

  lemma SortedHeads<T>(xs: seq<T>, ys: seq<T>, le: (T, T) -> bool)
    requires Sorted(xs, le) && Sorted(ys, le) && multiset(xs) == multiset(ys) && |xs| > 0 && |ys| > 0
    requires NoTies(multiset(xs), le)
    ensures xs[0] == ys[0]
  {
    assert xs[0] in multiset(ys) && ys[0] in multiset(xs);
    var i :| 0 <= i < |ys| && ys[i] == xs[0];
    var j :| 0 <= j < |xs| && xs[j] == ys[0];
    if i > 0 && j > 0 {
      assert le(ys[0], ys[i]) && le(xs[0], xs[j]);
    }
  }

  lemma HeadAndTail<T>(xs: seq<T>)
    requires |xs| > 0
    ensures multiset(xs) == multiset(xs[1..]) + multiset{xs[0]}
  {
    assert xs == [xs[0]] + xs[1..];
  }

  lemma SameTails<T>(xs: seq<T>, ys: seq<T>)
    requires multiset(xs) == multiset(ys) && |xs| > 0 && |ys| > 0 && xs[0] == ys[0]
    ensures multiset(xs[1..]) == multiset(ys[1..]) <= multiset(xs)
  {
    HeadAndTail(xs);
    HeadAndTail(ys);
    SameRest(multiset(xs[1..]), multiset(ys[1..]), xs[0]);
  }

  lemma SortedTail<T>(xs: seq<T>, le: (T, T) -> bool)
    requires Sorted(xs, le) && |xs| > 0
    ensures Sorted(xs[1..], le)
  {}

  /** A bag has one sorted listing, provided no two of its elements tie. */
  lemma {:induction false} SortedUnique<T>(xs: seq<T>, ys: seq<T>, le: (T, T) -> bool)
    requires Sorted(xs, le) && Sorted(ys, le) && multiset(xs) == multiset(ys)
    requires NoTies(multiset(xs), le)
    ensures xs == ys
    decreases |xs|
  {
    SameLength(xs, ys);
    if |xs| > 0 {
      SortedHeads(xs, ys, le);
      SameTails(xs, ys);
      SortedTail(xs, le);
      SortedTail(ys, le);
      NoTiesWithin(multiset(xs[1..]), multiset(xs), le);
      hide Sorted, NoTies;
      SortedUnique(xs[1..], ys[1..], le);
      assert xs == [xs[0]] + xs[1..] && ys == [ys[0]] + ys[1..];
    }
  }

  lemma SortPermutes<T(!new)>(xs: seq<T>, ys: seq<T>, le: (T, T) -> bool)
    requires TotalOrder(le) && multiset(xs) == multiset(ys)
    ensures Sort(xs, le) == Sort(ys, le)
  {
    SortSorted(xs, le);
    SortSorted(ys, le);
    SortedUnique(Sort(xs, le), Sort(ys, le), le);
  }

  lemma MapSeqPrepend<T>(x: T, xs: seq<T>, f: T -> T)
    ensures MapSeq([x] + xs, f) == [f(x)] + MapSeq(xs, f)
  {}

  lemma {:induction false} InsertMaps<T>(x: T, xs: seq<T>, f: T -> T, le: (T, T) -> bool)
    requires forall y :: y in xs ==> le(f(x), f(y)) == le(x, y)
    ensures Insert(f(x), MapSeq(xs, f), le) == MapSeq(Insert(x, xs, le), f)
  {
    if |xs| > 0 {
      var y, rest := xs[0], xs[1..];
      assert y in xs;
      if le(x, y) {
        MapSeqPrepend(x, xs, f);
      } else {
        InsertMaps(x, rest, f, le);
        MapSeqPrepend(y, Insert(x, rest, le), f);
        assert MapSeq(xs, f)[1..] == MapSeq(rest, f);
      }
    }
  }

  /** Sorting commutes with any relabelling the order does not look at. */
  lemma {:induction false} SortMaps<T>(xs: seq<T>, f: T -> T, le: (T, T) -> bool)
    requires forall x, y :: x in xs && y in xs ==> le(f(x), f(y)) == le(x, y)
    ensures Sort(MapSeq(xs, f), le) == MapSeq(Sort(xs, le), f)
  {
    hide MapSeq;
    if |xs| > 0 {
      var x, rest := xs[0], xs[1..];
      SortMaps(rest, f, le);
      assert MapSeq(xs, f)[1..] == MapSeq(rest, f);
      forall y | y in Sort(rest, le) ensures y in xs {
        assert y in multiset(Sort(rest, le));
        assert y in rest;
      }
      assert x in xs;
      InsertMaps(x, Sort(rest, le), f, le);
    }
  }

  // --- The orders in use ---

  predicate IntLe(a: int, b: int) {
    a <= b
  }

  predicate RealLe(a: real, b: real) {
    a <= b
  }

  /** Code point order on strings. */
  predicate StrLe(a: string, b: string) {
    |a| == 0 || (|b| > 0 && (a[0] < b[0] || (a[0] == b[0] && StrLe(a[1..], b[1..]))))
  }

  lemma {:induction false} StrLeTotal(a: string, b: string)
    ensures StrLe(a, b) || StrLe(b, a)
    ensures StrLe(a, b) && StrLe(b, a) ==> a == b
  {
    if |a| > 0 && |b| > 0 && a[0] == b[0] {
      StrLeTotal(a[1..], b[1..]);
      assert a == [a[0]] + a[1..] && b == [b[0]] + b[1..];
    }
  }

  lemma {:induction false} StrLeTransitive(a: string, b: string, c: string)
    requires StrLe(a, b) && StrLe(b, c)
    ensures StrLe(a, c)
  {
    if |a| > 0 && a[0] == b[0] && b[0] == c[0] {
      StrLeTransitive(a[1..], b[1..], c[1..]);
    }
  }

  lemma StrLeBehind(c: char, a: string, b: string)
    ensures StrLe([c] + a, [c] + b) <==> StrLe(a, b)
  {
    assert ([c] + a)[1..] == a && ([c] + b)[1..] == b;
  }

  lemma StrLeAtOnce(a: string, b: string)
    ensures StrLe("", a)
    ensures |a| > 0 && |b| > 0 && a[0] != b[0] ==> (StrLe(a, b) <==> a[0] < b[0])
  {}

  /** A prefix comes first; otherwise the first difference decides. */
  lemma {:induction false} StrLeFirstDifference(p: string, a: string, b: string)
    ensures StrLe(p, p + a)
    ensures |a| > 0 && |b| > 0 && a[0] != b[0] ==> (StrLe(p + a, p + b) <==> a[0] < b[0])
  {
    hide StrLe;
    if |p| == 0 {
      assert p + a == a && p + b == b;
      StrLeAtOnce(a, b);
    } else {
      var c, rest := p[0], p[1..];
      StrLeFirstDifference(rest, a, b);
      StrLeBehind(c, rest, rest + a);
      StrLeBehind(c, rest + a, rest + b);
      assert p == [c] + rest;
      Assoc([c], rest, a);
      Assoc([c], rest, b);
    }
  }

  lemma StrLeOrder()
    ensures TotalOrder(StrLe)
  {
    forall a, b ensures (StrLe(a, b) || StrLe(b, a)) && (StrLe(a, b) && StrLe(b, a) ==> a == b) {
      StrLeTotal(a, b);
    }
    forall a, b, c | StrLe(a, b) && StrLe(b, c) ensures StrLe(a, c) {
      StrLeTransitive(a, b, c);
    }
  }

  lemma IntLeOrder()
    ensures TotalOrder(IntLe)
  {}

  lemma RealLeOrder()
    ensures TotalOrder(RealLe)
  {}

  // --- Sets as sorted lists ---

  ghost predicate Least<T(!new)>(s: set<T>, le: (T, T) -> bool, x: T) {
    x in s && forall y :: y in s ==> le(x, y)
  }

  lemma {:induction false} LeastExists<T(!new)>(s: set<T>, le: (T, T) -> bool) returns (x: T)
    requires TotalOrder(le) && s != {}
    ensures Least(s, le, x)
    decreases s
  {
    x :| x in s;
    if s != {x} {
      var z := LeastExists(s - {x}, le);
      if le(z, x) {
        x := z;
      } else {
        assert le(x, z);
        forall y | y in s ensures le(x, y) {
          assert y == x || le(z, y);
        }
      }
    }
  }

  /** Python's `sorted(s)`: the elements of `s` in increasing order. */
  function SortedSet<T(!new, ==)>(s: set<T>, le: (T, T) -> bool): (r: seq<T>)
    requires TotalOrder(le)
    ensures Enumerates(r, s) && |r| == |s|
    ensures Sorted(r, le)
  {
    if s == {} then []
    else
      assert exists x :: x in s && forall y :: y in s ==> le(x, y) by {
        var x := LeastExists(s, le);
      }
      var x :| x in s && forall y :: y in s ==> le(x, y);
      [x] + SortedSet(s - {x}, le)
  }

  function SortedStrings(s: set<string>): (r: seq<string>)
    ensures Enumerates(r, s) && |r| == |s| && Sorted(r, StrLe)
  {
    StrLeOrder();
    SortedSet(s, StrLe)
  }

  function SortedInts(s: set<int>): (r: seq<int>)
    ensures Enumerates(r, s) && |r| == |s| && Sorted(r, IntLe)
  {
    IntLeOrder();
    SortedSet(s, IntLe)
  }

  lemma {:induction false} EnumerationLength<T(!new)>(xs: seq<T>, s: set<T>)
    requires Enumerates(xs, s)
    ensures |xs| == |s|
  {
    if |xs| == 0 {
      assert forall x :: x in s ==> x in xs;
      assert s == {};
    } else {
      var n := |xs| - 1;
      assert xs == xs[..n] + [xs[n]];
      assert xs[n] in xs;
      EnumerationLength(xs[..n], s - {xs[n]});
    }
  }
}
