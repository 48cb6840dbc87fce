/** Filing records under keys in a dictionary of lists. */
module Grouping {
  import opened Sequences
  import opened Ordering

  function KeysOf<T>(s: seq<T>, key: T -> Key): (r: seq<Key>)
    ensures |r| == |s| && forall i | 0 <= i < |s| :: r[i] == key(s[i])
  {
    seq(|s|, i requires 0 <= i < |s| => key(s[i]))
  }

  /** The elements filed under one key, in order. */
  function GroupOf<T>(s: seq<T>, key: T -> Key, k: Key): seq<T> {
    FlatMap((x: T) => if key(x) == k then [x] else [], s)
  }

  ghost predicate IsGrouping<T>(groups: map<Key, seq<T>>, order: seq<Key>, s: seq<T>, key: T -> Key) {
    && (forall k :: k in groups <==> k in order)
    && (forall k :: k in groups <==> k in KeysOf(s, key))
    && (forall k | k in groups :: groups[k] == GroupOf(s, key, k))
  }

  lemma GroupNext<T>(s: seq<T>, x: T, key: T -> Key, k: Key)
    ensures GroupOf(s + [x], key, k) == GroupOf(s, key, k) + (if key(x) == k then [x] else [])
  {
    assert (s + [x])[..|s|] == s;
  }

  lemma GroupNone<T>(s: seq<T>, key: T -> Key, k: Key)
    requires k !in KeysOf(s, key)
    ensures GroupOf(s, key, k) == []
  {
    forall i | 0 <= i < |s| ensures key(s[i]) != k { assert KeysOf(s, key)[i] in KeysOf(s, key); }
    FlatMapNone((x: T) => if key(x) == k then [x] else [], s);
  }

  lemma GroupMember<T>(s: seq<T>, key: T -> Key, k: Key, x: T)
    ensures x in GroupOf(s, key, k) <==> x in s && key(x) == k
  {
    FlatMapMember((x: T) => if key(x) == k then [x] else [], s, x);
  }

  lemma {:induction false} GroupSize<T>(s: seq<T>, key: T -> Key, k: Key)
    ensures |GroupOf(s, key, k)| == multiset(KeysOf(s, key))[k]
  {
    if s != [] {
      var n := |s| - 1;
      GroupSize(s[..n], key, k);
      assert KeysOf(s, key) == KeysOf(s[..n], key) + [key(s[n])];
    }
  }

  lemma GroupPermutation<T>(s: seq<T>, t: seq<T>, key: T -> Key, k: Key)
    requires multiset(s) == multiset(t)
    ensures multiset(GroupOf(s, key, k)) == multiset(GroupOf(t, key, k))
  {
    FlatMapPermutation((x: T) => if key(x) == k then [x] else [], s, t);
  }

  lemma KeysPermutation<T>(s: seq<T>, t: seq<T>, key: T -> Key, k: Key)
    requires multiset(s) == multiset(t) && k in KeysOf(s, key)
    ensures k in KeysOf(t, key)
  {
    var i :| 0 <= i < |s| && KeysOf(s, key)[i] == k;
    assert s[i] in multiset(s);
    assert s[i] in multiset(t);
    var j :| 0 <= j < |t| && t[j] == s[i];
    assert KeysOf(t, key)[j] == k;
  }

  /** Filling the dictionary; order lists its keys as first inserted. */
  method Collect<T>(s: seq<T>, key: T -> Key) returns (groups: map<Key, seq<T>>, order: seq<Key>)
    ensures IsGrouping(groups, order, s, key)
  {
    groups, order := map[], [];
    for i := 0 to |s|
      invariant IsGrouping(groups, order, s[..i], key)
    {
      var k := key(s[i]);
      ghost var before := s[..i];
      assert s[..i + 1] == before + [s[i]];
      assert KeysOf(s[..i + 1], key) == KeysOf(before, key) + [k];
      forall l ensures GroupOf(s[..i + 1], key, l) == GroupOf(before, key, l) + (if k == l then [s[i]] else []) {
        GroupNext(before, s[i], key, l);
      }
      if k in groups {
        groups := groups[k := groups[k] + [s[i]]];
      } else {
        GroupNone(before, key, k);
        groups := groups[k := [s[i]]];
        order := order + [k];
      }
    }
    assert s[..|s|] == s;
  }
}
