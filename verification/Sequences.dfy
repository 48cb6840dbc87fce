/** Facts about sequences, their multisets and their element sets, used by several components. */
module Sequences {
  import opened Wrappers

  function Without<T>(s: seq<T>, i: nat): seq<T>
    requires i < |s|
  {
    s[..i] + s[i + 1..]
  }

  lemma WithoutMultiset<T>(s: seq<T>, i: nat)
    requires i < |s|
    ensures multiset(Without(s, i)) == multiset(s) - multiset{s[i]}
  {
    assert s == s[..i] + [s[i]] + s[i + 1..];
    assert multiset(s) == multiset(s[..i]) + multiset{s[i]} + multiset(s[i + 1..]);
  }

  /** One step of an induction over permutations: s loses its head, t loses the matching element. */
  lemma PermutationStep<T>(s: seq<T>, t: seq<T>) returns (i: nat)
    requires multiset(s) == multiset(t) && s != []
    ensures i < |t| && t[i] == s[0]
    ensures multiset(s[1..]) == multiset(Without(t, i))
  {
    assert s[0] in multiset(s);
    i :| i < |t| && t[i] == s[0];
    WithoutMultiset(t, i);
    WithoutMultiset(s, 0);
    assert Without(s, 0) == s[1..];
  }

  /** Equal elements at two positions are counted twice. */
  lemma OccursTwice<T>(t: seq<T>, i: nat, j: nat)
    requires i < j < |t|
    ensures t[i] == t[j] ==> multiset(t)[t[i]] >= 2
  {
    WithoutMultiset(t, i);
    assert Without(t, i)[j - 1] == t[j];
    assert t[j] in multiset(Without(t, i));
  }

  /** A prefix grows by the next element. */
  lemma PrefixGrows<T>(whole: seq<T>, prefix: seq<T>, next: T)
    requires |prefix| < |whole| && prefix == whole[..|prefix|] && next == whole[|prefix|]
    ensures prefix + [next] == whole[..|prefix| + 1]
  {
  }

  lemma PermutationLength<T>(s: seq<T>, t: seq<T>)
    requires multiset(s) == multiset(t)
    ensures |s| == |t|
  {
    assert |multiset(s)| == |multiset(t)|;
  }

  // ----- element sets -----

  function Image<T, K>(f: T -> K, s: seq<T>): (r: seq<K>)
    ensures |r| == |s| && forall i | 0 <= i < |s| :: r[i] == f(s[i])
  {
    seq(|s|, i requires 0 <= i < |s| => f(s[i]))
  }

  predicate NoDuplicates<T(==)>(s: seq<T>) {
    forall i, j | 0 <= i < j < |s| :: s[i] != s[j]
  }

  function ToSet<T>(s: seq<T>): set<T> {
    set x | x in s
  }

  /** Comparing the sizes of a list and its set is a duplicate test. */
  lemma {:induction false} ToSetSize<T>(s: seq<T>)
    ensures |ToSet(s)| <= |s|
    ensures |ToSet(s)| == |s| <==> NoDuplicates(s)
  {
    if s != [] {
      var last, rest := s[|s| - 1], s[..|s| - 1];
      ToSetSize(rest);
      assert s == rest + [last];
      assert ToSet(s) == ToSet(rest) + {last};
      if last in rest {
        assert ToSet(s) == ToSet(rest);
        var i :| 0 <= i < |rest| && rest[i] == last;
        assert s[i] == s[|s| - 1];
      }
    }
  }

  /** The integers a Python range(n) runs over; none when n is not positive. */
  function Range(n: int): (r: set<int>)
    ensures forall i :: i in r <==> 0 <= i < n
    ensures |r| == if n <= 0 then 0 else n
  {
    if n <= 0 then {} else Range(n - 1) + {n - 1}
  }

  function Product<A, B>(a: set<A>, b: set<B>): set<(A, B)> {
    set x, y | x in a && y in b :: (x, y)
  }

  lemma {:induction false} ProductSize<A, B>(a: set<A>, b: set<B>)
    ensures |Product(a, b)| == |a| * |b|
    decreases |a|
  {
    if a == {} {
      assert Product(a, b) == {};
    } else {
      var x :| x in a;
      var row := set y | y in b :: (x, y);
      ProductSize(a - {x}, b);
      RowSize(x, b);
      assert Product(a, b) == Product(a - {x}, b) + row;
      Rows(|a - {x}|, |b|);
    }
  }

  lemma Rows(m: nat, n: nat)
    ensures (m + 1) * n == m * n + n
  {
  }

  lemma {:induction false} RowSize<A, B>(x: A, b: set<B>)
    ensures |set y | y in b :: (x, y)| == |b|
    decreases |b|
  {
    if b != {} {
      var y :| y in b;
      RowSize(x, b - {y});
      assert (set z | z in b :: (x, z)) == (set z | z in b - {y} :: (x, z)) + {(x, y)};
    }
  }

  /** Mutually inverse functions between two finite sets show that they are of one size. */
  lemma {:induction false} BijectionSize<X, Y>(xs: set<X>, ys: set<Y>, there: X -> Y, back: Y -> X)
    requires forall x | x in xs :: there(x) in ys && back(there(x)) == x
    requires forall y | y in ys :: back(y) in xs && there(back(y)) == y
    ensures |xs| == |ys|
    decreases |xs|
  {
    if x :| x in xs {
      BijectionSize(xs - {x}, ys - {there(x)}, there, back);
    } else if y :| y in ys {
      assert back(y) in xs;
    }
  }

  // ----- comprehensions over sequences -----

  /** The results of f on every element, in order; selecting and projecting are both of this form. */
  function FlatMap<T, U>(f: T -> seq<U>, s: seq<T>): seq<U> {
    if s == [] then [] else FlatMap(f, s[..|s| - 1]) + f(s[|s| - 1])
  }

  lemma {:induction false} FlatMapConcat<T, U>(f: T -> seq<U>, s: seq<T>, t: seq<T>)
    ensures FlatMap(f, s + t) == FlatMap(f, s) + FlatMap(f, t)
  {
    if t == [] {
      assert s + t == s;
    } else {
      assert (s + t)[..|s + t| - 1] == s + t[..|t| - 1];
      FlatMapConcat(f, s, t[..|t| - 1]);
    }
  }

  lemma {:induction false} FlatMapPermutation<T, U>(f: T -> seq<U>, s: seq<T>, t: seq<T>)
    requires multiset(s) == multiset(t)
    ensures multiset(FlatMap(f, s)) == multiset(FlatMap(f, t))
  {
    PermutationLength(s, t);
    if s != [] {
      var i := PermutationStep(s, t);
      FlatMapPermutation(f, s[1..], Without(t, i));
      FlatMapSplit(f, s, 0);
      FlatMapSplit(f, t, i);
      assert Without(s, 0) == s[1..];
    }
  }

  lemma FlatMapSplit<T, U>(f: T -> seq<U>, s: seq<T>, i: nat)
    requires i < |s|
    ensures multiset(FlatMap(f, s)) == multiset(FlatMap(f, Without(s, i))) + multiset(f(s[i]))
  {
    var left, right := s[..i], s[i + 1..];
    FlatMapAround(f, left, s[i], right);
    FlatMapConcat(f, left, right);
    MultisetMiddle(FlatMap(f, left), f(s[i]), FlatMap(f, right));
    SplitAt(s, i);
  }

  lemma SplitAt<T>(s: seq<T>, i: nat)
    requires i < |s|
    ensures s == s[..i] + ([s[i]] + s[i + 1..])
  {
  }

  lemma FlatMapAround<T, U>(f: T -> seq<U>, left: seq<T>, x: T, right: seq<T>)
    ensures FlatMap(f, left + ([x] + right)) == FlatMap(f, left) + (f(x) + FlatMap(f, right))
  {
    FlatMapConcat(f, left, [x] + right);
    FlatMapConcat(f, [x], right);
    FlatMapOne(f, x);
  }

  lemma FlatMapOne<T, U>(f: T -> seq<U>, x: T)
    ensures FlatMap(f, [x]) == f(x)
  {
    assert [x][..0] == [];
    assert FlatMap(f, [x]) == FlatMap(f, [x][..0]) + f(x);
  }

  lemma MultisetMiddle<U>(left: seq<U>, middle: seq<U>, right: seq<U>)
    ensures multiset(left + (middle + right)) == multiset(left + right) + multiset(middle)
  {
  }

  lemma {:induction false} FlatMapMember<T, U>(f: T -> seq<U>, s: seq<T>, y: U)
    ensures y in FlatMap(f, s) <==> exists i | 0 <= i < |s| :: y in f(s[i])
  {
    if s != [] { FlatMapMember(f, s[..|s| - 1], y); }
  }

  /** When every element yields one result, the comprehension is a plain map. */
  lemma {:induction false} FlatMapSingles<T, U>(f: T -> seq<U>, s: seq<T>)
    requires forall i | 0 <= i < |s| :: |f(s[i])| == 1
    ensures |FlatMap(f, s)| == |s|
    ensures forall i | 0 <= i < |s| :: FlatMap(f, s)[i] == f(s[i])[0]
  {
    if s != [] { FlatMapSingles(f, s[..|s| - 1]); }
  }

  lemma {:induction false} FlatMapNone<T, U>(f: T -> seq<U>, s: seq<T>)
    requires forall i | 0 <= i < |s| :: f(s[i]) == []
    ensures FlatMap(f, s) == []
  {
    if s != [] { FlatMapNone(f, s[..|s| - 1]); }
  }

  /** Selecting from a sequence whose outer parts hold nothing of interest, and whose middle is all of it. */
  lemma FlatMapMiddle<T>(keep: T -> seq<T>, before: seq<T>, middle: seq<T>, after: seq<T>)
    requires FlatMap(keep, before) == [] && FlatMap(keep, after) == []
    requires forall i | 0 <= i < |middle| :: keep(middle[i]) == [middle[i]]
    ensures FlatMap(keep, before + (middle + after)) == middle
  {
    FlatMapConcat(keep, before, middle + after);
    FlatMapConcat(keep, middle, after);
    FlatMapSingles(keep, middle);
  }

  // ----- runs that may stop -----

  /** Applying a step to each element in turn, from a start state, until one refuses. */
  function Fold<S, T>(step: (S, T) -> Option<S>, start: S, inputs: seq<T>): Option<S> {
    if inputs == [] then Some(start)
    else
      var n := |inputs| - 1;
      match Fold(step, start, inputs[..n])
      case None => None
      case Some(state) => step(state, inputs[n])
  }

  lemma {:induction false} FoldConcat<S, T>(step: (S, T) -> Option<S>, start: S, s: seq<T>, t: seq<T>)
    ensures Fold(step, start, s + t)
         == match Fold(step, start, s)
            case None => None
            case Some(state) => Fold(step, state, t)
  {
    if t == [] {
      assert s + t == s;
    } else {
      var n := |t| - 1;
      assert (s + t)[..|s| + n] == s + t[..n];
      FoldConcat(step, start, s, t[..n]);
    }
  }

  lemma FoldStopped<S, T>(step: (S, T) -> Option<S>, start: S, s: seq<T>, n: nat)
    requires n <= |s| && Fold(step, start, s[..n]) == None
    ensures Fold(step, start, s) == None
  {
    FoldConcat(step, start, s[..n], s[n..]);
    assert s[..n] + s[n..] == s;
  }

  // ----- sums -----

  function Sum<T>(f: T -> int, s: seq<T>): int {
    if s == [] then 0 else Sum(f, s[..|s| - 1]) + f(s[|s| - 1])
  }

  lemma {:induction false} SumConcat<T>(f: T -> int, s: seq<T>, t: seq<T>)
    ensures Sum(f, s + t) == Sum(f, s) + Sum(f, t)
  {
    if t == [] {
      assert s + t == s;
    } else {
      assert (s + t)[..|s + t| - 1] == s + t[..|t| - 1];
      SumConcat(f, s, t[..|t| - 1]);
    }
  }

  lemma SumWithout<T>(f: T -> int, s: seq<T>, i: nat)
    requires i < |s|
    ensures Sum(f, s) == Sum(f, Without(s, i)) + f(s[i])
  {
    SplitAt(s, i);
    SumConcat(f, s[..i], [s[i]] + s[i + 1..]);
    SumConcat(f, [s[i]], s[i + 1..]);
    SumConcat(f, s[..i], s[i + 1..]);
    assert [s[i]][..0] == [];
    assert Sum(f, [s[i]]) == Sum(f, [s[i]][..0]) + f(s[i]);
  }

  lemma {:induction false} SumPermutation<T>(f: T -> int, s: seq<T>, t: seq<T>)
    requires multiset(s) == multiset(t)
    ensures Sum(f, s) == Sum(f, t)
  {
    PermutationLength(s, t);
    if s != [] {
      var i := PermutationStep(s, t);
      SumPermutation(f, s[1..], Without(t, i));
      SumWithout(f, s, 0);
      SumWithout(f, t, i);
      assert Without(s, 0) == s[1..];
    }
  }

  // ----- runs of a step function -----

  ghost predicate Goes<S(!new), A(!new)>(step: (S, A) -> Option<S>, s: S, a: A, t: S) {
    step(s, a) == Some(t)
  }

  ghost predicate Follows<S(!new), A(!new)>(step: (S, A) -> Option<S>, s: S, t: S) {
    exists a :: Goes(step, s, a, t)
  }

  /** Each state is one step from the one before it. */
  ghost predicate Linked<S(!new), A(!new)>(step: (S, A) -> Option<S>, states: seq<S>) {
    states != [] && forall i | 0 <= i < |states| - 1 :: Follows(step, states[i], states[i + 1])
  }

  /** The same with the actions named. */
  ghost predicate Chain<S(!new), A(!new)>(step: (S, A) -> Option<S>, states: seq<S>, actions: seq<A>) {
    && states != [] && |actions| == |states| - 1
    && forall i | 0 <= i < |actions| :: Goes(step, states[i], actions[i], states[i + 1])
  }

  lemma ChainLinks<S(!new), A(!new)>(step: (S, A) -> Option<S>, states: seq<S>, actions: seq<A>)
    requires Chain(step, states, actions)
    ensures Linked(step, states)
  {
    forall i | 0 <= i < |states| - 1 ensures Follows(step, states[i], states[i + 1]) {
      assert Goes(step, states[i], actions[i], states[i + 1]);
    }
  }

  lemma {:induction false} LinksChain<S(!new), A(!new)>(step: (S, A) -> Option<S>, states: seq<S>) returns (actions: seq<A>)
    requires Linked(step, states)
    ensures Chain(step, states, actions)
  {
    var k := |states| - 1;
    if k == 0 {
      actions := [];
    } else {
      actions := LinksChain(step, states[..k]);
      assert Follows(step, states[k - 1], states[k]);
      var a :| Goes(step, states[k - 1], a, states[k]);
      actions := actions + [a];
    }
  }

  lemma LinkedOnwards<S(!new), A(!new)>(step: (S, A) -> Option<S>, states: seq<S>, a: A, t: S)
    requires Linked(step, states) && step(states[|states| - 1], a) == Some(t)
    ensures Linked(step, states + [t])
  {
    var longer := states + [t];
    assert Goes(step, states[|states| - 1], a, t);
    forall i | 0 <= i < |longer| - 1 ensures Follows(step, longer[i], longer[i + 1]) {
      if i < |states| - 1 { assert longer[i] == states[i] && longer[i + 1] == states[i + 1]; }
    }
  }

  lemma LinkedAt<S(!new), A(!new)>(step: (S, A) -> Option<S>, states: seq<S>, i: nat) returns (a: A)
    requires Linked(step, states) && i + 1 < |states|
    ensures step(states[i], a) == Some(states[i + 1])
  {
    assert Follows(step, states[i], states[i + 1]);
    a :| Goes(step, states[i], a, states[i + 1]);
  }

  lemma ChainAt<S(!new), A(!new)>(step: (S, A) -> Option<S>, states: seq<S>, actions: seq<A>, i: nat)
    requires Chain(step, states, actions) && i < |actions|
    ensures step(states[i], actions[i]) == Some(states[i + 1])
  {
    assert Goes(step, states[i], actions[i], states[i + 1]);
  }

  // ----- positions -----

  /** The positions of the elements that satisfy p. */
  function Having<T>(s: seq<T>, p: T -> bool): set<nat> {
    set i: nat | i < |s| && p(s[i])
  }

  lemma {:induction false} HavingNext<T>(s: seq<T>, p: T -> bool)
    requires s != []
    ensures var n := |s| - 1; |Having(s, p)| == |Having(s[..n], p)| + if p(s[n]) then 1 else 0
  {
    var n := |s| - 1;
    var before := Having(s[..n], p);
    assert Having(s, p) == before + if p(s[n]) then {n} else {};
    assert n !in before;
  }

  lemma {:induction false} SelectedCount<T(!new)>(s: seq<T>, p: T -> bool, f: T -> seq<T>)
    requires forall x :: f(x) == if p(x) then [x] else []
    ensures |FlatMap(f, s)| == |Having(s, p)|
  {
    if s == [] {
      assert Having(s, p) == {};
    } else {
      SelectedCount(s[..|s| - 1], p, f);
      HavingNext(s, p);
    }
  }
}
