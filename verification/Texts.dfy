/** What filtering and trimming a text leave, stated without a way to compute it. */
module Texts {
  import opened Common

  /** `places` are the positions of the characters of `s` that are kept, in order. */
  ghost predicate Places(s: string, keep: char -> bool, places: seq<int>) {
    && (forall i, j :: 0 <= i < j < |places| ==> places[i] < places[j])
    && (forall k :: k in places <==> 0 <= k < |s| && keep(s[k]))
  }

  ghost predicate PlacedAt(s: string, keep: char -> bool, r: string, places: seq<int>) {
    && Places(s, keep, places) && |r| == |places|
    && forall i :: 0 <= i < |places| ==> 0 <= places[i] < |s| && r[i] == s[places[i]]
  }

  /** `r` is `s` with only the characters to keep. */
  ghost predicate Filters(s: string, keep: char -> bool, r: string) {
    exists places :: PlacedAt(s, keep, r, places)
  }

  lemma PlacesOnce(s: string, keep: char -> bool, a: seq<int>, b: seq<int>)
    requires Places(s, keep, a) && Places(s, keep, b)
    ensures a == b
  {
    EnumerationsPermute(a, b, Elems(a));
    SortedUnique(a, b, IntLe);
  }

  lemma FiltersOnce(s: string, keep: char -> bool, a: string, b: string)
    requires Filters(s, keep, a) && Filters(s, keep, b)
    ensures a == b
  {
    var x :| PlacedAt(s, keep, a, x);
    var y :| PlacedAt(s, keep, b, y);
    PlacesOnce(s, keep, x, y);
  }

  function Later(places: seq<int>): seq<int> {
    seq(|places|, i requires 0 <= i < |places| => places[i] + 1)
  }

  lemma LaterPlaces(s: string, keep: char -> bool, places: seq<int>)
    requires |s| > 0 && Places(s[1..], keep, places)
    ensures Places(s, keep, (if keep(s[0]) then [0] else []) + Later(places))
  {
    var later := Later(places);
    forall k ensures k in later <==> k - 1 in places {
      if i :| 0 <= i < |places| && places[i] == k - 1 {
        assert later[i] == k;
      }
      if i :| 0 <= i < |later| && later[i] == k {
        assert places[i] == k - 1;
      }
    }
    forall k ensures k in later <==> 1 <= k < |s| && keep(s[k]) {
      assert k - 1 in places <==> 0 <= k - 1 < |s[1..]| && keep(s[1..][k - 1]);
    }
    var more := (if keep(s[0]) then [0] else []) + later;
    forall k ensures k in more <==> 0 <= k < |s| && keep(s[k]) {
      assert k in more <==> k in later || (k == 0 && keep(s[0]));
    }
    forall i, j | 0 <= i < j < |more| ensures more[i] < more[j] {
      assert more[j] in later;
    }
  }

  lemma NothingFilters(keep: char -> bool)
    ensures Filters("", keep, "")
  {
    assert PlacedAt("", keep, "", []);
  }

  /** One more character in front is kept or not. */
  lemma OneMoreFilters(s: string, keep: char -> bool, r: string)
    requires |s| > 0 && Filters(s[1..], keep, r)
    ensures Filters(s, keep, (if keep(s[0]) then [s[0]] else "") + r)
  {
    hide Places;
    var places :| PlacedAt(s[1..], keep, r, places);
    LaterPlaces(s, keep, places);
    var more := (if keep(s[0]) then [0] else []) + Later(places);
    assert PlacedAt(s, keep, (if keep(s[0]) then [s[0]] else "") + r, more);
  }

  // --- Trimming ---

  ghost predicate TrimmedAt(s: string, drop: char -> bool, r: string, n: nat) {
    && n + |r| <= |s| && s[n..n + |r|] == r
    && (forall i :: 0 <= i < n ==> drop(s[i]))
    && (forall i :: n + |r| <= i < |s| ==> drop(s[i]))
    && (|r| > 0 ==> !drop(r[0]) && !drop(r[|r| - 1]))
  }

  /** `r` is `s` without the characters to drop at either end. */
  ghost predicate Trims(s: string, drop: char -> bool, r: string) {
    exists n: nat :: TrimmedAt(s, drop, r, n)
  }

  lemma TrimsFront(s: string, drop: char -> bool, r: string)
    requires |s| > 0 && drop(s[0])
    ensures Trims(s[1..], drop, r) <==> Trims(s, drop, r)
  {
    if n: nat :| TrimmedAt(s[1..], drop, r, n) {
      assert s[n + 1..n + 1 + |r|] == s[1..][n..n + |r|];
      assert TrimmedAt(s, drop, r, n + 1);
    }
    if n: nat :| TrimmedAt(s, drop, r, n) {
      var k: nat := if n > 0 then n - 1 else 0;
      assert |r| > 0 ==> n > 0;
      assert s[1..][k..k + |r|] == r;
      assert TrimmedAt(s[1..], drop, r, k);
    }
  }

  lemma TrimmedShorter(s: string, drop: char -> bool, r: string, n: nat)
    requires |s| > 0 && drop(s[|s| - 1]) && TrimmedAt(s[..|s| - 1], drop, r, n)
    ensures TrimmedAt(s, drop, r, n)
  {
    assert s[n..n + |r|] == s[..|s| - 1][n..n + |r|];
  }

  lemma TrimmedLonger(s: string, drop: char -> bool, r: string, n: nat) returns (k: nat)
    requires |s| > 0 && drop(s[|s| - 1]) && TrimmedAt(s, drop, r, n)
    ensures TrimmedAt(s[..|s| - 1], drop, r, k)
  {
    k := if n + |r| < |s| then n else n - 1;
    assert |r| > 0 ==> n + |r| < |s|;
    assert s[..|s| - 1][k..k + |r|] == s[k..k + |r|];
  }

  lemma TrimsBack(s: string, drop: char -> bool, r: string)
    requires |s| > 0 && drop(s[|s| - 1])
    ensures Trims(s[..|s| - 1], drop, r) <==> Trims(s, drop, r)
  {
    hide TrimmedAt;
    var t := s[..|s| - 1];
    if n: nat :| TrimmedAt(t, drop, r, n) {
      TrimmedShorter(s, drop, r, n);
    }
    if n: nat :| TrimmedAt(s, drop, r, n) {
      var k := TrimmedLonger(s, drop, r, n);
    }
  }

  lemma NothingToTrim(s: string, drop: char -> bool, r: string)
    requires |s| == 0 || (!drop(s[0]) && !drop(s[|s| - 1]))
    ensures Trims(s, drop, r) <==> r == s
  {
    assert s[0..|s|] == s;
    assert TrimmedAt(s, drop, s, 0);
    if n: nat :| TrimmedAt(s, drop, r, n) {
      if |s| > 0 {
        assert n == 0 && n + |r| == |s|;
      }
    }
  }
}
