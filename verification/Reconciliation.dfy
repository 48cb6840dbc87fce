/**
Reconciling observed records with a plan. Both the invocation and the batch records
of a run are checked the same way: dictionaries by key on both sides, duplicate keys
and duplicate indexes reported while filling, missing and unplanned keys by set
difference, and every common key compared with its plan.
*/
module Reconciliation {
  import opened Sequences
  import opened Ordering

  datatype Finding<+I> =
    | Duplicate(key: Key) | DuplicateIndex(index: nat)
    | Missing(key: Key) | Unplanned(key: Key)
    | PlanMismatch(key: Key) | Inner(key: Key, issue: I)

  predicate DistinctBy<T, K(==)>(s: seq<T>, f: T -> K) {
    forall i, j | 0 <= i < j < |s| :: f(s[i]) != f(s[j])
  }

  /** A dictionary filled in order: a later entry replaces an earlier one of the same key. */
  function Dictionary<T>(s: seq<T>, key: T -> Key): map<Key, T> {
    if s == [] then map[]
    else
      var last := s[|s| - 1];
      Dictionary(s[..|s| - 1], key)[key(last) := last]
  }

  lemma {:induction false} DictionaryKeys<T>(s: seq<T>, key: T -> Key, k: Key)
    ensures k in Dictionary(s, key) <==> k in Image(key, s)
    ensures k in Dictionary(s, key) ==> key(Dictionary(s, key)[k]) == k && Dictionary(s, key)[k] in s
  {
    if s != [] {
      var n := |s| - 1;
      DictionaryKeys(s[..n], key, k);
      assert Image(key, s) == Image(key, s[..n]) + [key(s[n])];
    }
  }

  lemma {:induction false} DictionaryEntry<T>(s: seq<T>, key: T -> Key, i: nat)
    requires DistinctBy(s, key) && i < |s|
    ensures key(s[i]) in Dictionary(s, key) && Dictionary(s, key)[key(s[i])] == s[i]
  {
    if i < |s| - 1 {
      DictionaryEntry(s[..|s| - 1], key, i);
    }
  }

  /**
   The records, taken by their index, are the plan: as many of each, every index
   used once, and each record agreeing with the plan entry its index names.
   */
  ghost predicate Enumerates<P, O>(planned: seq<P>, observed: seq<O>, index: O -> nat, agrees: (P, O) -> bool) {
    && |observed| == |planned|
    && DistinctBy(observed, index)
    && forall i | 0 <= i < |observed| ::
         index(observed[i]) < |planned| && agrees(planned[index(observed[i])], observed[i])
  }

  /** What the reconciliation establishes when it reports nothing, clause by clause. */
  ghost predicate Reconciled<P, O>(planned: seq<P>, observed: seq<O>,
                                   planKey: P -> Key, key: O -> Key, index: O -> nat, agrees: (P, O) -> bool)
  {
    && DistinctBy(observed, key) && DistinctBy(observed, index)
    && (forall k :: k in Dictionary(planned, planKey) <==> k in Dictionary(observed, key))
    && (forall k | k in Dictionary(observed, key) && k in Dictionary(planned, planKey) ::
          agrees(Dictionary(planned, planKey)[k], Dictionary(observed, key)[k]))
  }

  /** agrees pins down the index and the key of a record. */
  ghost predicate Pins<P, O(!new)>(planned: seq<P>, planKey: P -> Key, key: O -> Key, index: O -> nat, agrees: (P, O) -> bool) {
    forall i, o | 0 <= i < |planned| && agrees(planned[i], o) :: index(o) == i && key(o) == planKey(planned[i])
  }

  lemma SetOfDistinct<T>(s: seq<T>, key: T -> Key)
    requires DistinctBy(s, key)
    ensures |ToSet(Image(key, s))| == |s|
  {
    assert NoDuplicates(Image(key, s));
    ToSetSize(Image(key, s));
  }

  lemma SubsetOfEqualSize<T>(a: set<T>, b: set<T>)
    requires a <= b && |a| == |b|
    ensures a == b
  {
    assert b == a + (b - a);
  }

  lemma ReconciledEnumerates<P, O(!new)>(planned: seq<P>, observed: seq<O>,
                                   planKey: P -> Key, key: O -> Key, index: O -> nat, agrees: (P, O) -> bool)
    requires DistinctBy(planned, planKey) && Pins(planned, planKey, key, index, agrees)
    requires Reconciled(planned, observed, planKey, key, index, agrees)
    ensures Enumerates(planned, observed, index, agrees)
  {
    SetOfDistinct(planned, planKey);
    SetOfDistinct(observed, key);
    forall k ensures k in Image(planKey, planned) <==> k in Image(key, observed) {
      DictionaryKeys(planned, planKey, k);
      DictionaryKeys(observed, key, k);
    }
    assert ToSet(Image(planKey, planned)) == ToSet(Image(key, observed));
    forall i | 0 <= i < |observed|
      ensures index(observed[i]) < |planned| && agrees(planned[index(observed[i])], observed[i])
    {
      var k := key(observed[i]);
      assert Image(key, observed)[i] == k;
      assert k in Image(planKey, planned);
      var j :| 0 <= j < |planned| && Image(planKey, planned)[j] == k;
      DictionaryEntry(planned, planKey, j);
      DictionaryEntry(observed, key, i);
      assert agrees(planned[j], observed[i]);
    }
  }

  lemma EnumeratesKeys<P, O(!new)>(planned: seq<P>, observed: seq<O>,
                             planKey: P -> Key, key: O -> Key, index: O -> nat, agrees: (P, O) -> bool)
    requires DistinctBy(planned, planKey) && Pins(planned, planKey, key, index, agrees)
    requires Enumerates(planned, observed, index, agrees)
    ensures DistinctBy(observed, key)
    ensures ToSet(Image(planKey, planned)) == ToSet(Image(key, observed))
  {
    forall i | 0 <= i < |observed| ensures key(observed[i]) == planKey(planned[index(observed[i])]) {
      assert agrees(planned[index(observed[i])], observed[i]);
    }
    SetOfDistinct(planned, planKey);
    SetOfDistinct(observed, key);
    forall k | k in Image(key, observed) ensures k in Image(planKey, planned) {
      var i :| 0 <= i < |observed| && Image(key, observed)[i] == k;
      assert Image(planKey, planned)[index(observed[i])] == k;
    }
    SubsetOfEqualSize(ToSet(Image(key, observed)), ToSet(Image(planKey, planned)));
  }

  lemma EnumeratesReconciled<P, O(!new)>(planned: seq<P>, observed: seq<O>,
                                   planKey: P -> Key, key: O -> Key, index: O -> nat, agrees: (P, O) -> bool)
    requires DistinctBy(planned, planKey) && Pins(planned, planKey, key, index, agrees)
    requires Enumerates(planned, observed, index, agrees)
    ensures Reconciled(planned, observed, planKey, key, index, agrees)
  {
    EnumeratesKeys(planned, observed, planKey, key, index, agrees);
    forall k ensures k in Dictionary(planned, planKey) <==> k in Dictionary(observed, key) {
      DictionaryKeys(planned, planKey, k);
      DictionaryKeys(observed, key, k);
      assert k in ToSet(Image(planKey, planned)) <==> k in ToSet(Image(key, observed));
    }
    forall k | k in Dictionary(observed, key) && k in Dictionary(planned, planKey)
      ensures agrees(Dictionary(planned, planKey)[k], Dictionary(observed, key)[k])
    {
      DictionaryKeys(observed, key, k);
      var i :| 0 <= i < |observed| && Image(key, observed)[i] == k;
      DictionaryEntry(observed, key, i);
      DictionaryEntry(planned, planKey, index(observed[i]));
      assert agrees(planned[index(observed[i])], observed[i]);
    }
  }

  /** Inspecting by common key is inspecting every record under the plan its index names. */
  lemma InspectedByIndex<P, O(!new), I>(planned: seq<P>, observed: seq<O>, planKey: P -> Key, key: O -> Key,
                                        index: O -> nat, agrees: (P, O) -> bool, inspect: (P, O) -> seq<I>)
    requires DistinctBy(planned, planKey) && Pins(planned, planKey, key, index, agrees)
    requires Enumerates(planned, observed, index, agrees)
    ensures (forall k | k in Dictionary(observed, key) && k in Dictionary(planned, planKey) ::
               inspect(Dictionary(planned, planKey)[k], Dictionary(observed, key)[k]) == [])
            <==> forall i | 0 <= i < |observed| :: inspect(planned[index(observed[i])], observed[i]) == []
  {
    EnumeratesKeys(planned, observed, planKey, key, index, agrees);
    var found, expected := Dictionary(observed, key), Dictionary(planned, planKey);
    forall i | 0 <= i < |observed|
      ensures var k := key(observed[i]);
              k in found && found[k] == observed[i] && k in expected && expected[k] == planned[index(observed[i])]
    {
      assert agrees(planned[index(observed[i])], observed[i]);
      DictionaryEntry(observed, key, i);
      DictionaryEntry(planned, planKey, index(observed[i]));
    }
    forall k | k in found ensures exists i | 0 <= i < |observed| :: key(observed[i]) == k {
      DictionaryKeys(observed, key, k);
      var i :| 0 <= i < |observed| && Image(key, observed)[i] == k;
      assert key(observed[i]) == k;
    }
  }

  // ----- the records in plan order -----

  /** Records whose indexes are distinct and fill 0..n. */
  ghost predicate Numbered<O>(s: seq<O>, index: O -> nat) {
    DistinctBy(s, index) && forall i | 0 <= i < |s| :: index(s[i]) < |s|
  }

  /** Sorting by index puts every record at its own index. */
  lemma {:induction false} SortByIndex<O>(s: seq<O>, index: O -> nat) returns (t: seq<O>)
    requires Numbered(s, index)
    ensures multiset(t) == multiset(s) && |t| == |s|
    ensures forall i | 0 <= i < |t| :: index(t[i]) == i
    decreases |s|
  {
    if s == [] {
      t := [];
    } else {
      var n := |s| - 1;
      var j := LastIndexUsed(s, index);
      var rest := Without(s, j);
      WithoutNumbered(s, index, j);
      t := SortByIndex(rest, index);
      t := t + [s[j]];
      WithoutMultiset(s, j);
      assert s[j] in s;
    }
  }

  lemma LastIndexUsed<O>(s: seq<O>, index: O -> nat) returns (j: nat)
    requires Numbered(s, index) && s != []
    ensures j < |s| && index(s[j]) == |s| - 1
  {
    if !exists j: nat | j < |s| :: index(s[j]) == |s| - 1 {
      var indexes := Image(index, s);
      assert NoDuplicates(indexes);
      ToSetSize(indexes);
      IndexesBelow(indexes, |s| - 1);
      assert false;
    }
    j :| j < |s| && index(s[j]) == |s| - 1;
  }

  lemma IndexesBelow(indexes: seq<nat>, n: nat)
    requires forall i | 0 <= i < |indexes| :: indexes[i] < n
    ensures |ToSet(indexes)| <= n
  {
    SubsetAtMost<int>(ToSet(indexes), Range(n));
  }

  lemma SubsetAtMost<T>(a: set<T>, b: set<T>)
    requires a <= b
    ensures |a| <= |b|
  {
    assert b == a + (b - a);
  }

  lemma WithoutNumbered<O>(s: seq<O>, index: O -> nat, j: nat)
    requires Numbered(s, index) && j < |s| && index(s[j]) == |s| - 1
    ensures Numbered(Without(s, j), index)
  {
    var rest := Without(s, j);
    forall i | 0 <= i < |rest| ensures rest[i] == s[if i < j then i else i + 1] && index(rest[i]) < |rest| {
      var k := if i < j then i else i + 1;
      assert index(s[k]) != index(s[j]);
    }
  }

  /** Two listings of the same distinctly keyed records fill the same dictionary. */
  lemma DictionaryPermutation<T>(s: seq<T>, t: seq<T>, key: T -> Key)
    requires multiset(s) == multiset(t) && DistinctBy(s, key) && DistinctBy(t, key)
    ensures Dictionary(s, key) == Dictionary(t, key)
  {
    forall k | k in Dictionary(s, key)
      ensures k in Dictionary(t, key) && Dictionary(t, key)[k] == Dictionary(s, key)[k]
    {
      DictionaryFrom(s, t, key, k);
    }
    forall k | k in Dictionary(t, key) ensures k in Dictionary(s, key) {
      DictionaryFrom(t, s, key, k);
    }
  }

  lemma DictionaryFrom<T>(s: seq<T>, t: seq<T>, key: T -> Key, k: Key)
    requires multiset(s) == multiset(t) && DistinctBy(t, key) && k in Dictionary(s, key)
    ensures k in Dictionary(t, key) && Dictionary(t, key)[k] == Dictionary(s, key)[k]
  {
    DictionaryKeys(s, key, k);
    var x := Dictionary(s, key)[k];
    assert x in multiset(s);
    assert x in multiset(t);
    var j :| 0 <= j < |t| && t[j] == x;
    DictionaryEntry(t, key, j);
  }

  // ----- the loops -----

  /** Fills the observed dictionary and reports repeated keys and repeated indexes. */
  method Observe<O, I>(observed: seq<O>, key: O -> Key, index: O -> nat)
    returns (found: map<Key, O>, issues: seq<Finding<I>>)
    ensures found == Dictionary(observed, key)
    ensures issues == [] <==> DistinctBy(observed, key) && DistinctBy(observed, index)
  {
    found, issues := map[], [];
    var indexes: set<nat> := {};
    for i := 0 to |observed|
      invariant found == Dictionary(observed[..i], key)
      invariant indexes == set j | 0 <= j < i :: index(observed[j])
      invariant issues == [] <==> DistinctBy(observed[..i], key) && DistinctBy(observed[..i], index)
    {
      var k := key(observed[i]);
      DictionaryKeys(observed[..i], key, k);
      DistinctStep(observed, key, i);
      DistinctStep(observed, index, i);
      assert observed[..i + 1][..i] == observed[..i];
      if k in found { issues := issues + [Duplicate(k)]; }
      found := found[k := observed[i]];
      if index(observed[i]) in indexes { issues := issues + [DuplicateIndex(index(observed[i]))]; }
      indexes := indexes + {index(observed[i])};
    }
    assert observed[..|observed|] == observed;
  }

  lemma DistinctStep<T, K>(s: seq<T>, f: T -> K, i: nat)
    requires i < |s|
    ensures DistinctBy(s[..i + 1], f) <==> DistinctBy(s[..i], f) && f(s[i]) !in Image(f, s[..i])
    ensures f(s[i]) in Image(f, s[..i]) <==> exists j | 0 <= j < i :: f(s[j]) == f(s[i])
  {
    var t := s[..i + 1];
    assert forall j | 0 <= j < i :: t[j] == s[..i][j];
    assert t[i] == s[i];
    if f(s[i]) in Image(f, s[..i]) {
      var j :| 0 <= j < i && Image(f, s[..i])[j] == f(s[i]);
      assert f(t[j]) == f(t[i]);
    } else {
      forall j | 0 <= j < i ensures f(s[j]) != f(s[i]) { assert Image(f, s[..i])[j] == f(s[j]); }
    }
  }

  /** The keys of the first dictionary that the second lacks, sorted. */
  method Difference<A, B>(a: map<Key, A>, b: map<Key, B>, order: seq<Key>) returns (r: seq<Key>)
    requires forall k :: k in a <==> k in order
    ensures Ascending(r) && forall k :: k in r <==> k in a && k !in b
  {
    var rest := FlatMap((k: Key) => if k in b then [] else [k], order);
    forall k ensures k in rest <==> k in order && k !in b {
      FlatMapMember((k: Key) => if k in b then [] else [k], order, k);
    }
    r := SortedKeys(rest);
  }

  /** The keys of the first dictionary that the second holds too, sorted. */
  method Intersection<A, B>(a: map<Key, A>, b: map<Key, B>, order: seq<Key>) returns (r: seq<Key>)
    requires forall k :: k in a <==> k in order
    ensures Ascending(r) && forall k :: k in r <==> k in a && k in b
  {
    var shared := FlatMap((k: Key) => if k in b then [k] else [], order);
    forall k ensures k in shared <==> k in order && k in b {
      FlatMapMember((k: Key) => if k in b then [k] else [], order, k);
    }
    r := SortedKeys(shared);
  }

  /** The whole reconciliation; inspect adds whatever else is checked of a record under its plan. */
  method Reconcile<P, O, I>(planned: seq<P>, observed: seq<O>,
                            planKey: P -> Key, key: O -> Key, index: O -> nat,
                            agrees: (P, O) -> bool, inspect: (P, O) -> seq<I>)
    returns (found: map<Key, O>, issues: seq<Finding<I>>)
    ensures found == Dictionary(observed, key)
    ensures issues == [] <==>
            && Reconciled(planned, observed, planKey, key, index, agrees)
            && forall k | k in Dictionary(observed, key) && k in Dictionary(planned, planKey) ::
                 inspect(Dictionary(planned, planKey)[k], Dictionary(observed, key)[k]) == []
  {
    var expected := Dictionary(planned, planKey);
    forall k ensures k in expected <==> k in Image(planKey, planned) { DictionaryKeys(planned, planKey, k); }
    found, issues := Observe(observed, key, index);
    forall k ensures k in found <==> k in Image(key, observed) { DictionaryKeys(observed, key, k); }
    var missing := Difference(expected, found, Image(planKey, planned));
    issues := issues + Image(k => Missing(k), missing);
    var unplanned := Difference(found, expected, Image(key, observed));
    issues := issues + Image(k => Unplanned(k), unplanned);
    SameKeys(expected, found, missing, unplanned);
    var common := Intersection(expected, found, Image(planKey, planned));
    var differing := Compare(common, expected, found, agrees, inspect);
    issues := issues + differing;
  }

  /** The same when the key alone identifies a record: each repeated key is reported once, sorted. */
  method ReconcileByKey<P, O, I>(planned: seq<P>, observed: seq<O>, planKey: P -> Key, key: O -> Key,
                                 agrees: (P, O) -> bool, inspect: (P, O) -> seq<I>)
    returns (found: map<Key, O>, issues: seq<Finding<I>>)
    ensures found == Dictionary(observed, key)
    ensures issues == [] <==>
            && DistinctBy(observed, key)
            && (forall k :: k in Dictionary(planned, planKey) <==> k in Dictionary(observed, key))
            && forall k | k in Dictionary(observed, key) && k in Dictionary(planned, planKey) ::
                 && agrees(Dictionary(planned, planKey)[k], Dictionary(observed, key)[k])
                 && inspect(Dictionary(planned, planKey)[k], Dictionary(observed, key)[k]) == []
  {
    var expected := Dictionary(planned, planKey);
    forall k ensures k in expected <==> k in Image(planKey, planned) { DictionaryKeys(planned, planKey, k); }
    var repeated;
    found, repeated := ObserveByKey(observed, key);
    forall k ensures k in found <==> k in Image(key, observed) { DictionaryKeys(observed, key, k); }
    issues := Image(k => Duplicate(k), repeated);
    var missing := Difference(expected, found, Image(planKey, planned));
    issues := issues + Image(k => Missing(k), missing);
    var unplanned := Difference(found, expected, Image(key, observed));
    issues := issues + Image(k => Unplanned(k), unplanned);
    SameKeys(expected, found, missing, unplanned);
    var common := Intersection(expected, found, Image(planKey, planned));
    var differing := Compare(common, expected, found, agrees, inspect);
    issues := issues + differing;
  }

  method ObserveByKey<O>(observed: seq<O>, key: O -> Key) returns (found: map<Key, O>, repeated: seq<Key>)
    ensures found == Dictionary(observed, key)
    ensures Ascending(repeated) && (repeated == [] <==> DistinctBy(observed, key))
  {
    found := map[];
    var twice: seq<Key> := [];
    for i := 0 to |observed|
      invariant found == Dictionary(observed[..i], key)
      invariant twice == [] <==> DistinctBy(observed[..i], key)
    {
      var k := key(observed[i]);
      DictionaryKeys(observed[..i], key, k);
      DistinctStep(observed, key, i);
      assert observed[..i + 1][..i] == observed[..i];
      if k in found { twice := twice + [k]; }
      found := found[k := observed[i]];
    }
    assert observed[..|observed|] == observed;
    repeated := SortedKeys(twice);
    if twice != [] { assert twice[0] in repeated; }
    if repeated != [] { assert repeated[0] in repeated; }
  }

  lemma SameKeys<A, B>(a: map<Key, A>, b: map<Key, B>, missing: seq<Key>, unplanned: seq<Key>)
    requires forall k :: k in missing <==> k in a && k !in b
    requires forall k :: k in unplanned <==> k in b && k !in a
    ensures missing == [] && unplanned == [] <==> forall k :: k in a <==> k in b
  {
    if missing != [] { assert missing[0] in missing; }
    if unplanned != [] { assert unplanned[0] in unplanned; }
  }

  method Compare<P, O, I>(common: seq<Key>, expected: map<Key, P>, found: map<Key, O>,
                          agrees: (P, O) -> bool, inspect: (P, O) -> seq<I>)
    returns (issues: seq<Finding<I>>)
    requires forall k | k in common :: k in expected && k in found
    ensures issues == [] <==>
            forall i | 0 <= i < |common| ::
              agrees(expected[common[i]], found[common[i]]) && inspect(expected[common[i]], found[common[i]]) == []
  {
    issues := [];
    for i := 0 to |common|
      invariant issues == [] <==>
                forall j | 0 <= j < i ::
                  agrees(expected[common[j]], found[common[j]]) && inspect(expected[common[j]], found[common[j]]) == []
    {
      var k := common[i];
      assert k in common;
      if !agrees(expected[k], found[k]) { issues := issues + [PlanMismatch(k)]; }
      var inner := inspect(expected[k], found[k]);
      issues := issues + Image(x => Inner(k, x), inner);
    }
  }
}
