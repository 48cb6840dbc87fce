/**
How texts and numbers are written: quoted, with every character outside printable ASCII
escaped, and in decimal. What was written can be read off the front of any longer text.
*/
module JsonText {
  import opened CohortAggregation
  import opened EvidenceFiles

  // ----- escapes -----

  function HexDigit(n: nat): char
    requires n < 16
  {
    if n < 10 then '0' + n as char else 'a' + (n - 10) as char
  }

  function Hex(n: nat): (r: string)
    requires n < 0x10000
    ensures |r| == 4
  {
    [HexDigit(n / 0x1000), HexDigit(n / 0x100 % 0x10), HexDigit(n / 0x10 % 0x10), HexDigit(n % 0x10)]
  }

  lemma HexDigitExact(m: nat, n: nat)
    requires m < 16 && n < 16 && HexDigit(m) == HexDigit(n)
    ensures m == n
  {
  }

  lemma HexExact(m: nat, n: nat)
    requires m < 0x10000 && n < 0x10000 && Hex(m) == Hex(n)
    ensures m == n
  {
    assert Hex(m)[0] == Hex(n)[0] && Hex(m)[1] == Hex(n)[1] && Hex(m)[2] == Hex(n)[2] && Hex(m)[3] == Hex(n)[3];
    HexDigitExact(m / 0x1000, n / 0x1000);
    HexDigitExact(m / 0x100 % 0x10, n / 0x100 % 0x10);
    HexDigitExact(m / 0x10 % 0x10, n / 0x10 % 0x10);
    HexDigitExact(m % 0x10, n % 0x10);
    FromDigits(m);
    FromDigits(n);
  }

  lemma FromDigits(n: nat)
    requires n < 0x10000
    ensures n == n / 0x1000 * 0x1000 + n / 0x100 % 0x10 * 0x100 + n / 0x10 % 0x10 * 0x10 + n % 0x10
  {
    var a, b, c := n / 0x10, n / 0x100, n / 0x1000;
    Shifted(n);
    assert a == 0x10 * b + a % 0x10;
    assert b == 0x10 * c + b % 0x10;
  }

  lemma Shifted(n: nat)
    ensures n / 0x100 == n / 0x10 / 0x10 && n / 0x1000 == n / 0x100 / 0x10
  {
  }

  /** The letter after the backslash of a two-character escape. */
  function Short(c: char): char {
    if c == '\n' then 'n' else if c == '\r' then 'r' else if c == '\t' then 't'
    else if c == '\U{8}' then 'b' else if c == '\U{c}' then 'f' else c
  }

  predicate IsShort(c: char) {
    c == '\"' || c == '\\' || c == '\n' || c == '\r' || c == '\t' || c == '\U{8}' || c == '\U{c}'
  }

  function High(n: nat): nat
    requires 0x10000 <= n < 0x110000
  {
    0xd800 + (n - 0x10000) / 0x400
  }

  function Low(n: nat): nat
    requires 0x10000 <= n < 0x110000
  {
    0xdc00 + (n - 0x10000) % 0x400
  }

  function Escape(c: char): string {
    if IsShort(c) then ['\\', Short(c)]
    else if ' ' <= c <= '~' then [c]
    else if c as int < 0x10000 then ['\\', 'u'] + Hex(c as int)
    else (['\\', 'u'] + Hex(High(c as int))) + (['\\', 'u'] + Hex(Low(c as int)))
  }

  lemma PairExact(m: nat, n: nat)
    requires 0x10000 <= m < 0x110000 && 0x10000 <= n < 0x110000 && High(m) == High(n) && Low(m) == Low(n)
    ensures m == n
  {
  }

  /** The code unit an escape of six characters stands for. */
  lemma UnitReads(m: nat, n: nat, s: string, t: string)
    requires m < 0x10000 && n < 0x10000 && ['\\', 'u'] + Hex(m) + s == ['\\', 'u'] + Hex(n) + t
    ensures m == n && s == t
  {
    var x, y := ['\\', 'u'] + Hex(m) + s, ['\\', 'u'] + Hex(n) + t;
    assert x[2..6] == Hex(m) && y[2..6] == Hex(n);
    assert x[6..] == s && y[6..] == t;
    HexExact(m, n);
  }

  function FirstUnit(c: char): (n: nat)
    ensures n < 0x10000
    ensures c as int < 0x10000 ==> n == c as int
    ensures c as int >= 0x10000 <==> 0xd800 <= n < 0xdc00
  {
    if c as int < 0x10000 then c as int else High(c as int)
  }

  function Remainder(c: char): string {
    if c as int < 0x10000 then "" else ['\\', 'u'] + Hex(Low(c as int))
  }

  predicate IsLong(c: char) {
    !IsShort(c) && !(' ' <= c <= '~')
  }

  lemma LongEscape(c: char, s: string)
    requires IsLong(c)
    ensures Escape(c) + s == ['\\', 'u'] + Hex(FirstUnit(c)) + (Remainder(c) + s)
  {
  }

  lemma LongReads(c: char, d: char, s: string, t: string)
    requires IsLong(c) && IsLong(d) && Escape(c) + s == Escape(d) + t
    ensures c == d && s == t
  {
    LongEscape(c, s);
    LongEscape(d, t);
    UnitReads(FirstUnit(c), FirstUnit(d), Remainder(c) + s, Remainder(d) + t);
    if c as int < 0x10000 {
      assert Remainder(c) + s == s && Remainder(d) + t == t;
    } else {
      assert Remainder(c) + s == ['\\', 'u'] + Hex(Low(c as int)) + s;
      assert Remainder(d) + t == ['\\', 'u'] + Hex(Low(d as int)) + t;
      UnitReads(Low(c as int), Low(d as int), s, t);
      PairExact(c as int, d as int);
    }
  }

  /** How an escape begins tells its kind. */
  lemma EscapeBegins(c: char, s: string)
    ensures var x := Escape(c) + s;
            && |x| > 0 && x[0] != '\"'
            && (x[0] == '\\' <==> IsShort(c) || IsLong(c))
            && (IsShort(c) ==> |x| > 1 && x[1] == Short(c) && x[2..] == s)
            && (IsLong(c) ==> |x| > 1 && x[1] == 'u')
            && (!IsShort(c) && !IsLong(c) ==> x[0] == c && x[1..] == s)
  {
    if IsLong(c) { LongEscape(c, s); }
  }

  lemma ShortExact(c: char, d: char)
    requires IsShort(c)
    ensures Short(c) != 'u'
    ensures IsShort(d) && Short(c) == Short(d) ==> c == d
  {
  }

  lemma EscapeReads(c: char, d: char, s: string, t: string)
    requires Escape(c) + s == Escape(d) + t
    ensures c == d && s == t
  {
    EscapeBegins(c, s);
    EscapeBegins(d, t);
    if IsShort(c) {
      ShortExact(c, d);
    } else if IsLong(c) {
      if IsShort(d) { ShortExact(d, c); }
      LongReads(c, d, s, t);
    }
  }

  // ----- quoted texts -----

  /** The characters of a text and the closing quote. */
  function Characters(t: string): string {
    if t == "" then ['\"'] else Escape(t[0]) + Characters(t[1..])
  }

  function Quoted(t: string): string {
    ['\"'] + Characters(t)
  }

  lemma CharactersEnd(s: string)
    ensures (Characters("") + s)[0] == '\"' && (Characters("") + s)[1..] == s
  {
  }

  lemma Joined(a: string, b: string, s: string)
    ensures a + b + s == a + (b + s)
  {
  }

  lemma CharactersGoOn(a: string, s: string)
    requires a != ""
    ensures var x := Characters(a) + s;
            x == Escape(a[0]) + (Characters(a[1..]) + s) && |x| > 0 && x[0] != '\"'
  {
    Joined(Escape(a[0]), Characters(a[1..]), s);
    EscapeBegins(a[0], Characters(a[1..]) + s);
  }

  lemma {:induction false} CharactersRead(a: string, b: string, s: string, t: string)
    requires Characters(a) + s == Characters(b) + t
    ensures a == b && s == t
  {
    if a == "" { CharactersEnd(s); } else { CharactersGoOn(a, s); }
    if b == "" { CharactersEnd(t); } else { CharactersGoOn(b, t); }
    if a != "" {
      EscapeReads(a[0], b[0], Characters(a[1..]) + s, Characters(b[1..]) + t);
      CharactersRead(a[1..], b[1..], s, t);
      assert a == [a[0]] + a[1..] && b == [b[0]] + b[1..];
    }
  }

  lemma QuotedReads(a: string, b: string, s: string, t: string)
    requires Quoted(a) + s == Quoted(b) + t
    ensures a == b && s == t
  {
    assert (Quoted(a) + s)[1..] == Characters(a) + s && (Quoted(b) + t)[1..] == Characters(b) + t;
    CharactersRead(a, b, s, t);
  }

  // ----- numbers -----

  predicate IsDigit(c: char) {
    '0' <= c <= '9'
  }

  predicate NoDigit(s: string) {
    s == "" || !IsDigit(s[0])
  }

  lemma {:induction false} DecimalDigits(n: nat, i: nat)
    requires i < |Decimal(n)|
    ensures IsDigit(Decimal(n)[i])
  {
    if n >= 10 && i < |Decimal(n / 10)| { DecimalDigits(n / 10, i); }
  }

  lemma NotShorter(m: nat, n: nat, s: string, t: string)
    requires Decimal(m) + s == Decimal(n) + t && NoDigit(s)
    ensures |Decimal(m)| >= |Decimal(n)|
  {
    forall i | 0 <= i < |Decimal(n)| ensures IsDigit((Decimal(n) + t)[i]) { DecimalDigits(n, i); }
    assert s != "" ==> (Decimal(m) + s)[|Decimal(m)|] == s[0];
  }

  lemma DecimalReads(m: nat, n: nat, s: string, t: string)
    requires Decimal(m) + s == Decimal(n) + t && NoDigit(s) && NoDigit(t)
    ensures m == n && s == t
  {
    NotShorter(m, n, s, t);
    NotShorter(n, m, t, s);
    var k := |Decimal(m)|;
    assert (Decimal(m) + s)[..k] == Decimal(m) && (Decimal(n) + t)[..k] == Decimal(n);
    assert (Decimal(m) + s)[k..] == s && (Decimal(n) + t)[k..] == t;
    DecimalInjective(m, n);
  }

  function Whole(n: int): string {
    if n >= 0 then Decimal(n) else "-" + Decimal(-n)
  }

  lemma WholeBegins(n: int, s: string)
    ensures var x := Whole(n) + s;
            && |x| > 0 && (IsDigit(x[0]) || x[0] == '-') && (x[0] == '-' <==> n < 0)
            && (n < 0 ==> x[1..] == Decimal(-n) + s)
  {
    if n >= 0 { DecimalDigits(n, 0); }
  }

  lemma WholeReads(m: int, n: int, s: string, t: string)
    requires Whole(m) + s == Whole(n) + t && NoDigit(s) && NoDigit(t)
    ensures m == n && s == t
  {
    WholeBegins(m, s);
    WholeBegins(n, t);
    if m >= 0 { DecimalReads(m, n, s, t); } else { DecimalReads(-m, -n, s, t); }
  }

  lemma Regrouped(a: string, b: string, s: string)
    ensures a + ("/" + b) + s == a + ("/" + (b + s))
  {
  }

  lemma SlashReads(m: int, n: int, d: nat, e: nat, s: string, t: string)
    requires Whole(m) + ("/" + Decimal(d)) + s == Whole(n) + ("/" + Decimal(e)) + t && NoDigit(s) && NoDigit(t)
    ensures m == n && d == e && s == t
  {
    Regrouped(Whole(m), Decimal(d), s);
    Regrouped(Whole(n), Decimal(e), t);
    AfterSlash(m, n, Decimal(d) + s, Decimal(e) + t);
    DecimalReads(d, e, s, t);
  }

  lemma AfterSlash(m: int, n: int, a: string, b: string)
    requires Whole(m) + ("/" + a) == Whole(n) + ("/" + b)
    ensures m == n && a == b
  {
    WholeReads(m, n, "/" + a, "/" + b);
    assert ("/" + a)[1..] == a && ("/" + b)[1..] == b;
  }

  /** A whole number is not the beginning of a quotient. */
  lemma WholeIsNoQuotient(m: int, n: int, d: nat, s: string, t: string)
    requires NoDigit(s) && (s != "" ==> s[0] != '/')
    ensures Whole(m) + s != Whole(n) + ("/" + Decimal(d)) + t
  {
    var rest := "/" + Decimal(d) + t;
    assert Whole(n) + ("/" + Decimal(d)) + t == Whole(n) + rest && rest[0] == '/';
    if Whole(m) + s == Whole(n) + rest { WholeReads(m, n, s, rest); }
  }

  // ----- one line each -----

  predicate Plain(t: string) {
    forall i | 0 <= i < |t| :: !IsBreak(t[i])
  }

  lemma PlainConcat(s: string, t: string)
    requires Plain(s) && Plain(t)
    ensures Plain(s + t)
  {
  }

  lemma HexPlain(n: nat)
    requires n < 0x10000
    ensures Plain(Hex(n))
  {
  }

  lemma EscapePlain(c: char)
    ensures Plain(Escape(c))
  {
    if IsLong(c) {
      LongEscape(c, "");
      HexPlain(FirstUnit(c));
      if c as int >= 0x10000 { HexPlain(Low(c as int)); }
      assert Escape(c) == Escape(c) + "";
    }
  }

  lemma {:induction false} CharactersPlain(t: string)
    ensures Plain(Characters(t))
  {
    if t != "" {
      EscapePlain(t[0]);
      CharactersPlain(t[1..]);
      PlainConcat(Escape(t[0]), Characters(t[1..]));
    }
  }

  lemma QuotedPlain(t: string)
    ensures Plain(Quoted(t))
  {
    CharactersPlain(t);
    PlainConcat(['\"'], Characters(t));
  }

  lemma DecimalPlain(n: nat)
    ensures Plain(Decimal(n))
  {
    forall i | 0 <= i < |Decimal(n)| ensures !IsBreak(Decimal(n)[i]) { DecimalDigits(n, i); }
  }

  lemma WholePlain(n: int)
    ensures Plain(Whole(n))
  {
    DecimalPlain(if n >= 0 then n else -n);
  }
}
