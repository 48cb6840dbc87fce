/** Dictionary keys as tuples of texts and numbers, compared as Python compares tuples. */
module Ordering {
  import opened Sequences

  datatype Atom = Text(text: string) | Number(number: int)

  type Key = seq<Atom>

  predicate TextLess(a: string, b: string) {
    b != [] && (a == [] || a[0] < b[0] || (a[0] == b[0] && TextLess(a[1..], b[1..])))
  }

  predicate AtomLess(a: Atom, b: Atom) {
    match (a, b)
    case (Number(x), Number(y)) => x < y
    case (Text(x), Text(y)) => TextLess(x, y)
    case (Number(_), Text(_)) => true
    case (Text(_), Number(_)) => false
  }

  predicate KeyLess(a: Key, b: Key) {
    b != [] && (a == [] || AtomLess(a[0], b[0]) || (a[0] == b[0] && KeyLess(a[1..], b[1..])))
  }

  // ----- strict total orders -----

  lemma {:induction false} TextLessTransitive(a: string, b: string, c: string)
    requires TextLess(a, b) && TextLess(b, c)
    ensures TextLess(a, c)
  {
    if a != [] && a[0] == b[0] == c[0] { TextLessTransitive(a[1..], b[1..], c[1..]); }
  }

  lemma {:induction false} TextLessTotal(a: string, b: string)
    ensures a == b || TextLess(a, b) || TextLess(b, a)
    ensures !(TextLess(a, b) && TextLess(b, a)) && !TextLess(a, a)
  {
    if a != [] {
      TextLessTotal(a[1..], a[1..]);
      if b != [] {
        TextLessTotal(a[1..], b[1..]);
        assert a == [a[0]] + a[1..] && b == [b[0]] + b[1..];
      }
    }
  }

  lemma AtomLessTotal(a: Atom, b: Atom)
    ensures a == b || AtomLess(a, b) || AtomLess(b, a)
    ensures !(AtomLess(a, b) && AtomLess(b, a)) && !AtomLess(a, a)
  {
    if a.Text? && b.Text? { TextLessTotal(a.text, b.text); }
    if a.Text? { TextLessTotal(a.text, a.text); }
  }

  lemma AtomLessTransitive(a: Atom, b: Atom, c: Atom)
    requires AtomLess(a, b) && AtomLess(b, c)
    ensures AtomLess(a, c)
  {
    if a.Text? { TextLessTransitive(a.text, b.text, c.text); }
  }

  lemma {:induction false} KeyLessTransitive(a: Key, b: Key, c: Key)
    requires KeyLess(a, b) && KeyLess(b, c)
    ensures KeyLess(a, c)
  {
    if a != [] {
      AtomLessTotal(a[0], a[0]);
      if a[0] == b[0] == c[0] {
        KeyLessTransitive(a[1..], b[1..], c[1..]);
      } else if a[0] != b[0] && b[0] != c[0] {
        AtomLessTransitive(a[0], b[0], c[0]);
      }
    }
  }

  lemma {:induction false} KeyLessTotal(a: Key, b: Key)
    ensures a == b || KeyLess(a, b) || KeyLess(b, a)
    ensures !(KeyLess(a, b) && KeyLess(b, a)) && !KeyLess(a, a)
  {
    if a != [] {
      KeyLessTotal(a[1..], a[1..]);
      AtomLessTotal(a[0], a[0]);
      if b != [] {
        KeyLessTotal(a[1..], b[1..]);
        AtomLessTotal(a[0], b[0]);
        assert a == [a[0]] + a[1..] && b == [b[0]] + b[1..];
      }
    }
  }

  // ----- sorted distinct keys -----

  predicate Ascending(s: seq<Key>) {
    forall i, j | 0 <= i < j < |s| :: KeyLess(s[i], s[j])
  }

  function InsertKey(k: Key, s: seq<Key>): (r: seq<Key>)
    ensures forall x :: x in r <==> x == k || x in s
  {
    if s == [] || KeyLess(k, s[0]) then [k] + s
    else if k == s[0] then s
    else
      assert forall x :: x in s <==> x == s[0] || x in s[1..];
      [s[0]] + InsertKey(k, s[1..])
  }

  lemma {:induction false} InsertKeyAscending(k: Key, s: seq<Key>)
    requires Ascending(s)
    ensures Ascending(InsertKey(k, s))
  {
    if s != [] {
      KeyLessTotal(k, s[0]);
      if KeyLess(k, s[0]) {
        forall j | 1 <= j < |s| ensures KeyLess(k, s[j]) { KeyLessTransitive(k, s[0], s[j]); }
      } else if k != s[0] {
        InsertKeyAscending(k, s[1..]);
        var rest := InsertKey(k, s[1..]);
        forall j | 0 <= j < |rest| ensures KeyLess(s[0], rest[j]) {
          assert rest[j] in rest;
        }
      }
    }
  }

  /** The keys of a dictionary filled from `keys`, in sorted order. */
  function SortedKeys(keys: seq<Key>): (r: seq<Key>)
    ensures Ascending(r) && forall x :: x in r <==> x in keys
  {
    if keys == [] then []
    else
      InsertKeyAscending(keys[0], SortedKeys(keys[1..]));
      assert forall x :: x in keys <==> x == keys[0] || x in keys[1..];
      InsertKey(keys[0], SortedKeys(keys[1..]))
  }

  lemma AscendingDistinct(s: seq<Key>)
    requires Ascending(s)
    ensures NoDuplicates(s)
  {
    forall i, j | 0 <= i < j < |s| ensures s[i] != s[j] { KeyLessTotal(s[i], s[j]); }
  }

  lemma HeadMember(s: seq<Key>)
    requires s != []
    ensures s[0] in s
  {
  }

  /** An ascending sequence is determined by its members. */
  lemma {:induction false} AscendingUnique(s: seq<Key>, t: seq<Key>)
    requires Ascending(s) && Ascending(t)
    requires forall x :: x in s <==> x in t
    ensures s == t
  {
    if s == [] {
      if t != [] { HeadMember(t); }
    } else {
      assert s[0] in t;
      assert t[0] in s;
      if s[0] != t[0] {
        var i :| 0 <= i < |s| && s[i] == t[0];
        var j :| 0 <= j < |t| && t[j] == s[0];
        KeyLessTotal(s[0], t[0]);
        assert false;
      }
      forall x ensures x in s[1..] <==> x in t[1..] {
        TailMember(s, x);
        TailMember(t, x);
      }
      AscendingUnique(s[1..], t[1..]);
      assert s == [s[0]] + s[1..] && t == [t[0]] + t[1..];
    }
  }

  lemma TailMember(s: seq<Key>, x: Key)
    requires Ascending(s) && s != []
    ensures x in s[1..] <==> x in s && x != s[0]
  {
    KeyLessTotal(s[0], s[0]);
    assert s == [s[0]] + s[1..];
    if x in s[1..] {
      var i :| 0 <= i < |s[1..]| && s[1..][i] == x;
      assert KeyLess(s[0], s[i + 1]);
    }
  }
}
