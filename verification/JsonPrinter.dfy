/**
JSON text as the evidence files hold it: one line, fields by ascending name, nothing between
tokens, every character outside printable ASCII escaped. Exact numbers that need not be whole
are written as quotients. The text loses nothing, so parsing it can invert it.
*/
module JsonPrinter {
  import opened Wrappers
  import opened Rationals
  import opened CohortAggregation
  import opened EvidenceJson
  import opened EvidenceFiles
  import opened FixedSchedule
  import opened RecordedExecutor
  import opened CanonicalEvidence
  import opened JsonFields
  import opened JsonText

  // ----- values -----

  ghost function Numerator(x: real): int
    requires Rational(x)
  {
    var n: int, d: nat :| IsQuotient(x, n, d);
    n
  }

  ghost function Denominator(x: real): nat
    requires Rational(x)
    ensures IsQuotient(x, Numerator(x), Denominator(x))
  {
    var n := Numerator(x);
    assert exists d: nat :: IsQuotient(x, n, d);
    var d: nat :| IsQuotient(x, n, d);
    d
  }

  /** The fields an object has, in the order they are listed. */
  function Present(v: Json, order: seq<Field>): (r: seq<Field>)
    requires v.Object?
    ensures forall f :: f in r <==> f in order && f in v.fields
  {
    if order == [] then []
    else
      assert forall f :: f in order <==> f == order[0] || f in order[1..];
      (if order[0] in v.fields then [order[0]] else []) + Present(v, order[1..])
  }

  function Separator(first: bool): string {
    if first then "" else ","
  }

  /** The text of a value whose fields are called by name. */
  ghost function Render(name: Field -> string, v: Json): string
    decreases v, 1, 0
  {
    match v
    case Null => "null"
    case Boolean(truth) => if truth then "true" else "false"
    case Integer(n) => Whole(n)
    case Number(x) => if Rational(x) then Whole(Numerator(x)) + ("/" + Decimal(Denominator(x))) else "null"
    case Str(t) => Quoted(t)
    case Array(items) => "[" + Items(name, v, 0)
    case Object(fields) => "{" + Members(name, v, Present(v, FieldOrder), true)
  }

  ghost function Items(name: Field -> string, v: Json, k: nat): string
    requires v.Array? && k <= |v.items|
    decreases v, 0, |v.items| - k
  {
    if k == |v.items| then "]" else Separator(k == 0) + (Render(name, v.items[k]) + Items(name, v, k + 1))
  }

  ghost function Members(name: Field -> string, v: Json, fields: seq<Field>, first: bool): string
    requires v.Object? && forall f | f in fields :: f in v.fields
    decreases v, 0, |fields|
  {
    if fields == [] then "}"
    else
      Separator(first) + (Quoted(name(fields[0])) + (":" + (Render(name, v.fields[fields[0]]) + Members(name, v, fields[1..], false))))
  }

  // ----- a value can be read off the front of a text -----

  /** What may follow a value. */
  predicate Ends(s: string) {
    s == "" || s[0] == ',' || s[0] == ']' || s[0] == '}'
  }

  predicate Injective(name: Field -> string) {
    forall f, g | name(f) == name(g) :: f == g
  }

  lemma SameQuotient(x: real, y: real, n: int, d: nat)
    requires IsQuotient(x, n, d) && IsQuotient(y, n, d)
    ensures x == y
  {
    if x < y { Scaled(x, y, d as real); }
    if y < x { Scaled(y, x, d as real); }
  }

  lemma Scaled(x: real, y: real, d: real)
    requires x < y && d > 0.0
    ensures x * d < y * d
  {
  }

  lemma QuotientReads(x: real, y: real, s: string, t: string)
    requires Rational(x) && Rational(y) && Ends(s) && Ends(t)
    requires Whole(Numerator(x)) + ("/" + Decimal(Denominator(x))) + s == Whole(Numerator(y)) + ("/" + Decimal(Denominator(y))) + t
    ensures x == y && s == t
  {
    SlashReads(Numerator(x), Numerator(y), Denominator(x), Denominator(y), s, t);
    SameQuotient(x, y, Numerator(x), Denominator(x));
  }

  /** How the text of a value begins. */
  ghost predicate Begins(v: Json, c: char) {
    match v
    case Null => c == 'n'
    case Boolean(truth) => c == if truth then 't' else 'f'
    case Integer(_) => IsDigit(c) || c == '-'
    case Number(_) => IsDigit(c) || c == '-'
    case Str(_) => c == '\"'
    case Array(_) => c == '['
    case Object(_) => c == '{'
  }

  lemma RenderBegins(name: Field -> string, v: Json, s: string)
    requires Printable(v)
    ensures var x := Render(name, v) + s; |x| > 0 && Begins(v, x[0])
  {
    match v
    case Integer(n) => WholeBegins(n, s);
    case Number(q) =>
      var rest := "/" + Decimal(Denominator(q));
      WholeBegins(Numerator(q), rest + s);
      assert Render(name, v) + s == Whole(Numerator(q)) + (rest + s);
    case Array(_) => Framed('[', Items(name, v, 0), s);
    case Object(_) => Framed('{', Members(name, v, Present(v, FieldOrder), true), s);
    case _ =>
  }

  lemma Framed(head: char, tail: string, s: string)
    ensures ([head] + tail + s)[0] == head && ([head] + tail + s)[1..] == tail + s
  {
  }

  lemma {:induction false} RenderReads(name: Field -> string, v: Json, w: Json, s: string, t: string)
    requires Injective(name) && Printable(v) && Printable(w) && Ends(s) && Ends(t)
    requires Render(name, v) + s == Render(name, w) + t
    ensures v == w && s == t
    decreases v, 1, 0
  {
    RenderBegins(name, v, s);
    RenderBegins(name, w, t);
    match v
    case Null => assert ("null" + s)[4..] == s && ("null" + t)[4..] == t;
    case Boolean(truth) => BooleanReads(name, truth, s, t);
    case Integer(n) =>
      if w.Number? { WholeIsNoQuotient(n, Numerator(w.exact), Denominator(w.exact), s, t); } else { WholeReads(n, w.whole, s, t); }
    case Number(x) =>
      if w.Integer? { WholeIsNoQuotient(w.whole, Numerator(x), Denominator(x), t, s); } else { QuotientReads(x, w.exact, s, t); }
    case Str(text) => QuotedReads(text, w.text, s, t);
    case Array(items) => ArrayReads(name, v, w, s, t);
    case Object(fields) => ObjectReads(name, v, w, s, t);
  }

  lemma BooleanReads(name: Field -> string, truth: bool, s: string, t: string)
    requires Render(name, Boolean(truth)) + s == Render(name, Boolean(truth)) + t
    ensures s == t
  {
    var k := |Render(name, Boolean(truth))|;
    assert (Render(name, Boolean(truth)) + s)[k..] == s && (Render(name, Boolean(truth)) + t)[k..] == t;
  }

  lemma {:induction false} ArrayReads(name: Field -> string, v: Json, w: Json, s: string, t: string)
    requires Injective(name) && v.Array? && w.Array? && Printable(v) && Printable(w)
    requires Render(name, v) + s == Render(name, w) + t
    ensures v == w && s == t
    decreases v, 0, |v.items| + 1
  {
    Framed('[', Items(name, v, 0), s);
    Framed('[', Items(name, w, 0), t);
    ItemsRead(name, v, w, 0, s, t);
    assert v.items[0..] == v.items && w.items[0..] == w.items;
  }

  lemma ItemsBegin(name: Field -> string, v: Json, k: nat, s: string)
    requires v.Array? && Printable(v) && k <= |v.items|
    ensures var x := Items(name, v, k) + s;
            && |x| > 0 && (x[0] == ']' <==> k == |v.items|) && (k > 0 ==> Ends(x))
            && (k == |v.items| ==> x[1..] == s)
            && (k < |v.items| ==> x == Separator(k == 0) + (Render(name, v.items[k]) + (Items(name, v, k + 1) + s)))
  {
    if k < |v.items| {
      var item, rest := Render(name, v.items[k]), Items(name, v, k + 1);
      RenderBegins(name, v.items[k], rest + s);
      Regroup(Separator(k == 0), item, rest, s);
    }
  }

  lemma Regroup(a: string, b: string, c: string, s: string)
    ensures a + (b + c) + s == a + (b + (c + s))
  {
  }

  lemma SeparatorReads(first: bool, s: string, t: string)
    requires Separator(first) + s == Separator(first) + t
    ensures s == t
  {
    var k := |Separator(first)|;
    assert (Separator(first) + s)[k..] == s && (Separator(first) + t)[k..] == t;
  }

  /** Both lists go on with an item, followed by something that ends it. */
  lemma NextItem(name: Field -> string, v: Json, w: Json, k: nat, s: string, t: string)
    requires v.Array? && w.Array? && Printable(v) && Printable(w)
    requires k < |v.items| && k <= |w.items| && Items(name, v, k) + s == Items(name, w, k) + t
    ensures k < |w.items|
    ensures var x, y := Items(name, v, k + 1) + s, Items(name, w, k + 1) + t;
            Ends(x) && Ends(y) && Render(name, v.items[k]) + x == Render(name, w.items[k]) + y
  {
    ItemsBegin(name, v, k, s);
    ItemsBegin(name, w, k, t);
    var x, y := Items(name, v, k + 1) + s, Items(name, w, k + 1) + t;
    ItemsBegin(name, v, k + 1, s);
    ItemsBegin(name, w, k + 1, t);
    SeparatorReads(k == 0, Render(name, v.items[k]) + x, Render(name, w.items[k]) + y);
  }

  lemma {:induction false} ItemsRead(name: Field -> string, v: Json, w: Json, k: nat, s: string, t: string)
    requires Injective(name) && v.Array? && w.Array? && Printable(v) && Printable(w)
    requires k <= |v.items| && k <= |w.items| && Items(name, v, k) + s == Items(name, w, k) + t
    ensures v.items[k..] == w.items[k..] && s == t
    decreases v, 0, |v.items| - k
  {
    if k == |v.items| {
      ItemsBegin(name, v, k, s);
      ItemsBegin(name, w, k, t);
    } else {
      NextItem(name, v, w, k, s, t);
      RenderReads(name, v.items[k], w.items[k], Items(name, v, k + 1) + s, Items(name, w, k + 1) + t);
      ItemsRead(name, v, w, k + 1, s, t);
      SameFrom(v.items, w.items, k);
    }
  }

  lemma SameFrom<T>(s: seq<T>, t: seq<T>, k: nat)
    requires k < |s| && k < |t| && s[k] == t[k] && s[k + 1..] == t[k + 1..]
    ensures s[k..] == t[k..]
  {
    assert s[k..] == [s[k]] + s[k + 1..] && t[k..] == [t[k]] + t[k + 1..];
  }

  lemma {:induction false} ObjectReads(name: Field -> string, v: Json, w: Json, s: string, t: string)
    requires Injective(name) && v.Object? && w.Object? && Printable(v) && Printable(w)
    requires Render(name, v) + s == Render(name, w) + t
    ensures v == w && s == t
    decreases v, 0, |Present(v, FieldOrder)| + 1
  {
    var f, g := Present(v, FieldOrder), Present(w, FieldOrder);
    Framed('{', Members(name, v, f, true), s);
    Framed('{', Members(name, w, g, true), t);
    MembersRead(name, v, w, f, g, true, s, t);
    SameFields(v, w);
  }

  lemma SameFields(v: Json, w: Json)
    requires v.Object? && w.Object? && Present(v, FieldOrder) == Present(w, FieldOrder)
    requires forall f | f in Present(v, FieldOrder) :: v.fields[f] == w.fields[f]
    ensures v == w
  {
    forall f: Field ensures (f in v.fields <==> f in w.fields) && (f in v.fields ==> v.fields[f] == w.fields[f]) {
      FieldListed(f);
    }
    assert v.fields == w.fields;
  }

  lemma MembersBegin(name: Field -> string, v: Json, fields: seq<Field>, first: bool, s: string)
    requires v.Object? && forall f | f in fields :: f in v.fields
    ensures var x := Members(name, v, fields, first) + s;
            && |x| > 0 && (x[0] == '}' <==> fields == []) && (!first ==> Ends(x))
            && (fields == [] ==> x[1..] == s)
            && (fields != [] ==>
                  x == Separator(first) + (Quoted(name(fields[0])) + (":" + (Render(name, v.fields[fields[0]])
                                           + (Members(name, v, fields[1..], false) + s)))))
  {
  }

  lemma {:induction false} MembersRead(name: Field -> string, v: Json, w: Json, f: seq<Field>, g: seq<Field>, first: bool,
                                       s: string, t: string)
    requires Injective(name) && v.Object? && w.Object? && Printable(v) && Printable(w)
    requires (forall x | x in f :: x in v.fields) && (forall x | x in g :: x in w.fields)
    requires Members(name, v, f, first) + s == Members(name, w, g, first) + t
    ensures f == g && s == t && forall x | x in f :: v.fields[x] == w.fields[x]
    decreases v, 0, |f|
  {
    MembersBegin(name, v, f, first, s);
    MembersBegin(name, w, g, first, t);
    if f != [] {
      var x, y := Members(name, v, f[1..], false) + s, Members(name, w, g[1..], false) + t;
      var a, b := Render(name, v.fields[f[0]]) + x, Render(name, w.fields[g[0]]) + y;
      SeparatorReads(first, Quoted(name(f[0])) + (":" + a), Quoted(name(g[0])) + (":" + b));
      QuotedReads(name(f[0]), name(g[0]), ":" + a, ":" + b);
      assert (":" + a)[1..] == a && (":" + b)[1..] == b;
      MembersBegin(name, v, f[1..], false, s);
      MembersBegin(name, w, g[1..], false, t);
      RenderReads(name, v.fields[f[0]], w.fields[g[0]], x, y);
      MembersRead(name, v, w, f[1..], g[1..], false, s, t);
      assert f == [f[0]] + f[1..] && g == [g[0]] + g[1..];
    }
  }

  // ----- one line each -----

  lemma {:induction false} RenderPlain(name: Field -> string, v: Json)
    requires Printable(v)
    ensures OneLine(Render(name, v))
    decreases v, 1, 0
  {
    RenderBegins(name, v, "");
    assert Render(name, v) + "" == Render(name, v);
    match v
    case Integer(n) => WholePlain(n);
    case Number(x) =>
      WholePlain(Numerator(x));
      DecimalPlain(Denominator(x));
    case Str(t) => QuotedPlain(t);
    case Array(items) => ItemsPlain(name, v, 0);
    case Object(fields) => MembersPlain(name, v, Present(v, FieldOrder), true);
    case _ =>
  }

  lemma {:induction false} ItemsPlain(name: Field -> string, v: Json, k: nat)
    requires v.Array? && k <= |v.items| && Printable(v)
    ensures Plain(Items(name, v, k))
    decreases v, 0, |v.items| - k
  {
    if k < |v.items| {
      RenderPlain(name, v.items[k]);
      ItemsPlain(name, v, k + 1);
    }
  }

  lemma {:induction false} MembersPlain(name: Field -> string, v: Json, fields: seq<Field>, first: bool)
    requires v.Object? && Printable(v) && forall f | f in fields :: f in v.fields
    ensures Plain(Members(name, v, fields, first))
    decreases v, 0, |fields|
  {
    if fields != [] {
      var value, rest := Render(name, v.fields[fields[0]]), Members(name, v, fields[1..], false);
      QuotedPlain(name(fields[0]));
      RenderPlain(name, v.fields[fields[0]]);
      MembersPlain(name, v, fields[1..], false);
      PlainConcat(value, rest);
      PlainConcat(":", value + rest);
      PlainConcat(Quoted(name(fields[0])), ":" + (value + rest));
      PlainConcat(Separator(first), Quoted(name(fields[0])) + (":" + (value + rest)));
    }
  }

  // ----- the parser -----

  ghost function Print(v: Json): string {
    Render(FieldText, v)
  }

  lemma NamesExact()
    ensures Injective(FieldText)
  {
    forall f, g | FieldText(f) == FieldText(g) ensures f == g { FieldTextExact(f, g); }
  }

  ghost predicate Writes(v: Json, t: string) {
    Printable(v) && (Print(v) == t || Print(v) + "\n" == t)
  }

  /** The value a line was printed from. */
  ghost function Parse(t: string): Option<Json> {
    if exists v :: Writes(v, t) then
      var v :| Writes(v, t);
      Some(v)
    else None
  }

  lemma WritesOnce(v: Json, w: Json, t: string)
    requires Writes(v, t) && Writes(w, t)
    ensures v == w
  {
    NoNewline(v, Print(w));
    NoNewline(w, Print(v));
    assert Print(v) == (if Print(v) == t then t else t[..|t| - 1]);
    assert Print(w) == (if Print(w) == t then t else t[..|t| - 1]);
    NamesExact();
    RenderReads(FieldText, v, w, "", "");
  }

  lemma NoNewline(v: Json, u: string)
    requires Printable(v)
    ensures Print(v) != u + "\n"
  {
    RenderPlain(FieldText, v);
    assert (u + "\n")[|u|] == '\n';
  }

  lemma ParseInverts(v: Json, t: string)
    requires Writes(v, t)
    ensures Parse(t) == Some(v)
  {
    WritesOnce(Parse(t).value, v, t);
  }

  /** The hypothesis of the reading theorems is met: this text and its inverse. */
  lemma PrinterInverts()
    ensures Inverts(Print, Parse)
  {
    forall v | Printable(v)
      ensures OneLine(Print(v)) && Parse(Print(v)) == Some(v) && Parse(Print(v) + "\n") == Some(v)
    {
      RenderPlain(FieldText, v);
      ParseInverts(v, Print(v));
      ParseInverts(v, Print(v) + "\n");
    }
  }

  /** So the files written with this printer are read back, with no hypothesis on the printing left. */
  lemma PrintedEvidenceReadsBack(d: Design, m: Manifest, run: Execution)
    requires Legal(d) && RunConstructed(d.retained, run)
    requires ConstructPayloads(d, Print, m, run).Some?
    ensures ValidateCanonical(d, m, run).Some?
    ensures var (aggregates, rates) := ValidateCanonical(d, m, run).value;
            ReadPayloads(d, Parse, m.runId, ConstructPayloads(d, Print, m, run).value)
            == Some(Readback(m, Arranged(run), aggregates, rates))
  {
    PrinterInverts();
    PublishedReadsBack(d, Print, Parse, m, run);
  }
}
