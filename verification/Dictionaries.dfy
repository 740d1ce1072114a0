/** Loops over dictionaries. A dictionary yields its keys in an order nobody may rely on, so these loops
    take the next key arbitrarily and are proved against results that do not mention an order. */
module Dictionaries {
  import opened Common

  function Get<K(==), V>(m: map<K, V>, k: K, absent: V): V {
    if k in m then m[k] else absent
  }

  /** A dictionary scan: visits the keys in whatever order the dictionary iterates and keeps what `f` yields. */
  method Scan<K(!new, ==), B>(keys: set<K>, f: K -> Option<B>) returns (found: seq<B>)
    ensures multiset(found) == multiset(Collect(Listing(keys), f))
  {
    found := [];
    ghost var visited: seq<K> := [];
    var todo := keys;
    while todo != {}
      invariant todo <= keys
      invariant Enumerates(visited, keys - todo)
      invariant found == Collect(visited, f)
      decreases todo
    {
      var k :| k in todo;
      assert forall x :: x in visited + [k] <==> x in keys - (todo - {k});
      CollectSnoc(visited, k, f);
      found := found + OptionSeq(f(k));
      visited, todo := visited + [k], todo - {k};
    }
    assert keys - todo == keys;
    EnumerationsPermute(visited, Listing(keys), keys);
    CollectPermutes(visited, Listing(keys), f);
  }

  function GroupNames<K, G(==)>(keys: set<K>, keep: K -> bool, group: K -> G): set<G> {
    set k | k in keys && keep(k) :: group(k)
  }

  function Members<K(==), G(==)>(keys: set<K>, keep: K -> bool, group: K -> G, g: G): set<K> {
    set k | k in keys && keep(k) && group(k) == g
  }

  lemma GroupOneMore<K(!new), G(!new)>(before: map<G, seq<K>>, after: map<G, seq<K>>, done: set<K>, k: K, keep: K -> bool, group: K -> G)
    requires k !in done
    requires before.Keys == GroupNames(done, keep, group)
    requires forall g :: g in before ==> Enumerates(before[g], Members(done, keep, group, g))
    requires after == if keep(k) then before[group(k) := Get(before, group(k), []) + [k]] else before
    ensures after.Keys == GroupNames(done + {k}, keep, group)
    ensures forall g :: g in after ==> Enumerates(after[g], Members(done + {k}, keep, group, g))
  {
    if !keep(k) {
      assert GroupNames(done + {k}, keep, group) == GroupNames(done, keep, group);
    } else {
      assert GroupNames(done + {k}, keep, group) == GroupNames(done, keep, group) + {group(k)};
    }
    forall g | g in after ensures Enumerates(after[g], Members(done + {k}, keep, group, g)) {
      if keep(k) && group(k) == g {
        var old' := Get(before, g, []);
        forall x | x in done && keep(x) ensures group(x) in before {
          assert group(x) in GroupNames(done, keep, group);
        }
        assert Enumerates(old', Members(done, keep, group, g));
        assert Members(done + {k}, keep, group, g) == Members(done, keep, group, g) + {k};
      } else {
        assert Members(done + {k}, keep, group, g) == Members(done, keep, group, g);
      }
    }
  }

  /** The kept keys by group, each group's keys in the order the dictionary yielded them. */
  method GroupKeys<K(!new, ==), G(!new, ==)>(keys: set<K>, keep: K -> bool, group: K -> G) returns (groups: map<G, seq<K>>)
    ensures groups.Keys == GroupNames(keys, keep, group)
    ensures forall g :: g in groups ==> Enumerates(groups[g], Members(keys, keep, group, g))
  {
    groups := map[];
    ghost var done: set<K> := {};
    var todo := keys;
    while todo != {}
      invariant todo <= keys && done == keys - todo
      invariant groups.Keys == GroupNames(done, keep, group)
      invariant forall g :: g in groups ==> Enumerates(groups[g], Members(done, keep, group, g))
      decreases todo
    {
      var k :| k in todo;
      ghost var before := groups;
      if keep(k) {
        groups := groups[group(k) := Get(groups, group(k), []) + [k]];
      }
      GroupOneMore(before, groups, done, k, keep, group);
      todo, done := todo - {k}, done + {k};
    }
    assert done == keys;
  }
}
