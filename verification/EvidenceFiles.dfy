/**
The canonical evidence files as texts: what the writer accepts and constructs, and what
the reader parses, re-validates and recomputes. How one JSON value is printed is a
parameter: any printer of values to single lines with a parser that inverts it.
*/
module EvidenceFiles {
  import opened Wrappers
  import opened Sequences
  import opened Ordering
  import opened Reconciliation
  import opened EvidenceJson

  // ----- lines -----

  /** The characters a text is split into lines at. */
  predicate IsBreak(c: char) {
    '\n' <= c <= '\r' || '\U{1c}' <= c <= '\U{1e}' || c == '\U{85}' || c == '\U{2028}' || c == '\U{2029}'
  }

  predicate OneLine(t: string) {
    t != "" && forall i | 0 <= i < |t| :: !IsBreak(t[i])
  }

  function FirstBreak(t: string): (n: nat)
    ensures n <= |t| && (forall i | 0 <= i < n :: !IsBreak(t[i])) && (n < |t| ==> IsBreak(t[n]))
  {
    if t == "" || IsBreak(t[0]) then 0
    else
      var n := FirstBreak(t[1..]);
      assert forall i | 0 < i < n + 1 :: t[i] == t[1..][i - 1];
      n + 1
  }

  /** How many characters the break at n takes. */
  function BreakWidth(t: string, n: nat): nat
    requires n < |t|
  {
    if t[n] == '\r' && n + 1 < |t| && t[n + 1] == '\n' then 2 else 1
  }

  /** The lines of a text; a carriage return and the line feed after it are one break. */
  function SplitLines(t: string): seq<string> {
    if t == "" then []
    else
      var n := FirstBreak(t);
      if n == |t| then [t]
      else
        [t[..n]] + SplitLines(t[n + BreakWidth(t, n)..])
  }

  const BreakCharacters := "\n\U{b}\U{c}\r\U{1c}\U{1d}\U{1e}\U{85}\U{2028}\U{2029}"

  lemma BreaksListed(c: char)
    ensures IsBreak(c) <==> c in BreakCharacters
  {
  }

  predicate Unbroken(line: string) {
    forall i | 0 <= i < |line| :: line[i] !in BreakCharacters
  }

  lemma FirstBreakAfter(line: string, rest: string)
    requires Unbroken(line) && (rest == "" || rest[0] in BreakCharacters)
    ensures FirstBreak(line + rest) == |line|
  {
    var t := line + rest;
    forall i | 0 <= i < |t| ensures IsBreak(t[i]) <==> t[i] in BreakCharacters { BreaksListed(t[i]); }
    assert forall i | 0 <= i < |line| :: t[i] == line[i];
    assert rest != "" ==> t[|line|] == rest[0];
  }

  lemma SplitAtFirst(t: string, n: nat)
    requires FirstBreak(t) == n < |t|
    ensures n + BreakWidth(t, n) <= |t|
    ensures SplitLines(t) == [t[..n]] + SplitLines(t[n + BreakWidth(t, n)..])
  {
  }

  lemma WidthAfter(line: string, end: string, rest: string)
    requires end == "\r\n" || (|end| == 1 && !(end == "\r" && rest != "" && rest[0] == '\n'))
    ensures |line| < |line + (end + rest)| && BreakWidth(line + (end + rest), |line|) == |end|
  {
    var t := line + (end + rest);
    assert forall i | 0 <= i < |end| :: t[|line| + i] == end[i];
    assert |end| == 1 && rest != "" ==> t[|line| + 1] == rest[0];
  }

  lemma {:induction false} LinesFrom(line: string, end: string, rest: string)
    requires Unbroken(line) && end != "" && end[0] in BreakCharacters
    requires end == "\r\n" || (|end| == 1 && !(end == "\r" && rest != "" && rest[0] == '\n'))
    ensures SplitLines(line + (end + rest)) == [line] + SplitLines(rest)
  {
    FirstBreakAfter(line, end + rest);
    WidthAfter(line, end, rest);
    var t := line + (end + rest);
    SplitAtFirst(t, |line|);
    assert t[..|line|] == line && t[|line| + |end|..] == rest;
  }

  /** A text without breaks is its own only line; otherwise its lines are what precedes the first break and the lines of what follows. */
  lemma LinesOf(line: string, end: char, rest: string)
    requires Unbroken(line) && end in BreakCharacters
    ensures SplitLines(line) == if line == "" then [] else [line]
    ensures !(end == '\r' && rest != "" && rest[0] == '\n') ==> SplitLines(line + ([end] + rest)) == [line] + SplitLines(rest)
    ensures SplitLines(line + ("\r\n" + rest)) == [line] + SplitLines(rest)
  {
    FirstBreakAfter(line, "");
    assert line + "" == line;
    if !(end == '\r' && rest != "" && rest[0] == '\n') { LinesFrom(line, [end], rest); }
    LinesFrom(line, "\r\n", rest);
  }

  /** parse undoes render, with or without the final newline, on every value that can be written down. */
  ghost predicate Inverts(render: Json -> string, parse: string -> Option<Json>) {
    forall v | Printable(v) :: OneLine(render(v)) && parse(render(v)) == Some(v) && parse(render(v) + "\n") == Some(v)
  }

  ghost predicate AllPrintable(values: seq<Json>) {
    forall i | 0 <= i < |values| :: Printable(values[i])
  }

  function JsonDocument(render: Json -> string, v: Json): string {
    render(v) + "\n"
  }

  function JsonlDocument(render: Json -> string, values: seq<Json>): string {
    if values == [] then "" else JsonDocument(render, values[0]) + JsonlDocument(render, values[1..])
  }

  function ParseLines(parse: string -> Option<Json>, lines: seq<string>): Option<seq<Json>> {
    if lines == [] then Some([])
    else
      match (parse(lines[0]), ParseLines(parse, lines[1..]))
      case (Some(v), Some(rest)) => Some([v] + rest)
      case _ => None
  }

  /** An empty file or an empty line is refused. */
  function ParseJsonl(parse: string -> Option<Json>, t: string): Option<seq<Json>> {
    var lines := SplitLines(t);
    if lines == [] || exists i | 0 <= i < |lines| :: lines[i] == "" then None else ParseLines(parse, lines)
  }

  lemma {:induction false} SplitInverts(render: Json -> string, parse: string -> Option<Json>, values: seq<Json>)
    requires Inverts(render, parse) && AllPrintable(values)
    ensures SplitLines(JsonlDocument(render, values)) == Map(render, values)
  {
    if values != [] {
      var line, rest := render(values[0]), JsonlDocument(render, values[1..]);
      assert JsonlDocument(render, values) == line + "\n" + rest;
      assert Printable(values[0]);
      FirstLine(line, rest);
      SplitInverts(render, parse, values[1..]);
      assert Map(render, values) == [line] + Map(render, values[1..]);
    }
  }

  lemma FirstLine(line: string, rest: string)
    requires OneLine(line)
    ensures SplitLines(line + "\n" + rest) == [line] + SplitLines(rest)
  {
    var t := line + "\n" + rest;
    assert forall i | 0 <= i < |line| :: t[i] == line[i];
    assert t[|line|] == '\n';
    assert FirstBreak(t) == |line|;
    assert t[|line| + 1..] == rest && t[..|line|] == line;
  }

  lemma {:induction false} ParseLinesInverts(render: Json -> string, parse: string -> Option<Json>, values: seq<Json>)
    requires Inverts(render, parse) && AllPrintable(values)
    ensures ParseLines(parse, Map(render, values)) == Some(values)
  {
    if values != [] {
      ParseLinesInverts(render, parse, values[1..]);
      assert Map(render, values)[1..] == Map(render, values[1..]);
      assert values == [values[0]] + values[1..];
    }
  }

  /** Newline framing loses nothing: a non-empty list of values comes back line by line. */
  lemma JsonlRoundTrip(render: Json -> string, parse: string -> Option<Json>, values: seq<Json>)
    requires Inverts(render, parse) && AllPrintable(values) && values != []
    ensures ParseJsonl(parse, JsonlDocument(render, values)) == Some(values)
  {
    SplitInverts(render, parse, values);
    ParseLinesInverts(render, parse, values);
    var lines := Map(render, values);
    forall i | 0 <= i < |lines| ensures lines[i] != "" { assert OneLine(render(values[i])); }
  }

  // ----- sorting -----

  predicate NonDescending<T>(s: seq<T>, key: T -> Key) {
    forall i, j | 0 <= i < j < |s| :: !KeyLess(key(s[j]), key(s[i]))
  }

  function InsertBy<T>(x: T, s: seq<T>, key: T -> Key): (r: seq<T>)
    ensures multiset(r) == multiset(s) + multiset{x}
  {
    if s == [] || !KeyLess(key(s[0]), key(x)) then [x] + s
    else
      assert s == [s[0]] + s[1..];
      [s[0]] + InsertBy(x, s[1..], key)
  }

  function SortBy<T>(s: seq<T>, key: T -> Key): (r: seq<T>)
    ensures multiset(r) == multiset(s)
  {
    if s == [] then []
    else
      assert s == [s[0]] + s[1..];
      InsertBy(s[0], SortBy(s[1..], key), key)
  }

  lemma {:induction false} InsertByOrdered<T>(x: T, s: seq<T>, key: T -> Key)
    requires NonDescending(s, key)
    ensures NonDescending(InsertBy(x, s, key), key)
  {
    if s == [] {
    } else if !KeyLess(key(s[0]), key(x)) {
      forall j | 0 <= j < |s| ensures !KeyLess(key(s[j]), key(x)) {
        if KeyLess(key(s[j]), key(x)) {
          NotBelow(key(s[0]), key(s[j]), key(x));
        }
      }
    } else {
      InsertByOrdered(x, s[1..], key);
      var rest := InsertBy(x, s[1..], key);
      forall j | 0 <= j < |rest| ensures !KeyLess(key(rest[j]), key(s[0])) {
        assert rest[j] in multiset(rest);
        if rest[j] == x { KeyLessTotal(key(s[0]), key(x)); }
      }
    }
  }

  /** With a not above b and b below c, a is below c. */
  lemma NotBelow(a: Key, b: Key, c: Key)
    requires !KeyLess(b, a) && KeyLess(b, c)
    ensures KeyLess(a, c)
  {
    KeyLessTotal(a, b);
    if a != b { KeyLessTransitive(a, b, c); }
  }

  lemma {:induction false} SortByOrdered<T>(s: seq<T>, key: T -> Key)
    ensures NonDescending(SortBy(s, key), key)
  {
    if s != [] {
      SortByOrdered(s[1..], key);
      InsertByOrdered(s[0], SortBy(s[1..], key), key);
    }
  }

  /** Sorting again changes nothing. */
  lemma {:induction false} SortedStays<T>(s: seq<T>, key: T -> Key)
    requires NonDescending(s, key)
    ensures SortBy(s, key) == s
  {
    if s != [] {
      SortedStays(s[1..], key);
      assert s == [s[0]] + s[1..];
    }
  }

  lemma NumberKeyLess(m: int, n: int)
    ensures KeyLess([Atom.Number(m)], [Atom.Number(n)]) <==> m < n
  {
    assert [Atom.Number(m)][1..] == [] && [Atom.Number(n)][1..] == [];
  }

  /** Distinct indexes below the length, in order, are the positions. */
  lemma {:induction false} OrderedIndexes(indexes: seq<nat>, i: nat)
    requires forall j, k | 0 <= j < k < |indexes| :: indexes[j] < indexes[k]
    requires forall j | 0 <= j < |indexes| :: indexes[j] < |indexes|
    requires i < |indexes|
    ensures indexes[i] == i
  {
    AtLeastPosition(indexes, i);
    AtMostPosition(indexes, i);
  }

  lemma {:induction false} AtLeastPosition(indexes: seq<nat>, i: nat)
    requires forall j, k | 0 <= j < k < |indexes| :: indexes[j] < indexes[k]
    requires i < |indexes|
    ensures i <= indexes[i]
  {
    if i > 0 { AtLeastPosition(indexes, i - 1); }
  }

  lemma {:induction false} AtMostPosition(indexes: seq<nat>, i: nat)
    requires forall j, k | 0 <= j < k < |indexes| :: indexes[j] < indexes[k]
    requires forall j | 0 <= j < |indexes| :: indexes[j] < |indexes|
    requires i < |indexes|
    ensures indexes[i] <= i
    decreases |indexes| - i
  {
    if i + 1 < |indexes| { AtMostPosition(indexes, i + 1); }
  }

  function IndexKey<T>(index: T -> nat): T -> Key {
    (x: T) => [Atom.Number(index(x))]
  }

  /** Sorting records numbered 0..n by index puts each at its own index. */
  lemma SortedByIndex<T>(s: seq<T>, index: T -> nat)
    requires Numbered(s, index)
    ensures var t := SortBy(s, IndexKey(index));
            |t| == |s| && forall i | 0 <= i < |t| :: index(t[i]) == i
  {
    var t := SortBy(s, IndexKey(index));
    PermutationLength(t, s);
    SortByOrdered(s, IndexKey(index));
    var indexes := Image(index, t);
    forall i | 0 <= i < |t| ensures indexes[i] < |t| {
      assert t[i] in multiset(t);
      assert t[i] in multiset(s);
    }
    IndexesDistinct(s, t, index);
    forall i, j | 0 <= i < j < |t| ensures indexes[i] < indexes[j] {
      NumberKeyLess(index(t[j]), index(t[i]));
    }
    forall i | 0 <= i < |t| ensures index(t[i]) == i { OrderedIndexes(indexes, i); }
  }

  lemma IndexesDistinct<T>(s: seq<T>, t: seq<T>, index: T -> nat)
    requires multiset(s) == multiset(t) && DistinctBy(s, index)
    ensures DistinctBy(t, index)
  {
    forall i, j | 0 <= i < j < |t| ensures index(t[i]) != index(t[j]) {
      DistinctPair(s, t, index, i, j);
    }
  }

  lemma OccursOnce<T>(s: seq<T>, index: T -> nat, x: T)
    requires DistinctBy(s, index)
    ensures multiset(s)[x] <= 1
  {
    if x in s {
      var a :| 0 <= a < |s| && s[a] == x;
      WithoutMultiset(s, a);
      forall c | 0 <= c < |Without(s, a)| ensures Without(s, a)[c] != x {
        var b := if c < a then c else c + 1;
        assert Without(s, a)[c] == s[b];
        assert index(s[a]) != index(s[b]);
      }
      assert x !in multiset(Without(s, a));
    }
  }

  lemma DistinctPair<T>(s: seq<T>, t: seq<T>, index: T -> nat, i: nat, j: nat)
    requires multiset(s) == multiset(t) && DistinctBy(s, index) && i < j < |t|
    ensures index(t[i]) != index(t[j])
  {
    OccursOnce(s, index, t[i]);
    OccursTwice(t, i, j);
    assert t[i] in multiset(t) && t[j] in multiset(t);
    assert t[i] in multiset(s) && t[j] in multiset(s);
    var a :| 0 <= a < |s| && s[a] == t[i];
    var b :| 0 <= b < |s| && s[b] == t[j];
    assert a < b || b < a;
  }
}
