/** Quotients of integers: the numbers that descriptive statistics of integer readings can take. */
module Rationals {

  predicate IsQuotient(x: real, n: int, d: nat) {
    d > 0 && x * d as real == n as real
  }

  ghost predicate Rational(x: real) {
    exists n: int, d: nat :: IsQuotient(x, n, d)
  }

  lemma IntegerIsRational(n: int)
    ensures Rational(n as real)
  {
    assert IsQuotient(n as real, n, 1);
  }

  lemma ProductOfReals(a: int, b: int)
    ensures (a * b) as real == a as real * b as real
  {
  }

  lemma SumIsRational(x: real, y: real)
    requires Rational(x) && Rational(y)
    ensures Rational(x + y)
  {
    var n: int, d: nat :| IsQuotient(x, n, d);
    var m: int, e: nat :| IsQuotient(y, m, e);
    SumOfQuotients(x, n as real, d as real, y, m as real, e as real);
    ProductOfReals(n, e);
    ProductOfReals(m, d);
    ProductOfReals(d, e);
    Positive(d, e);
    assert IsQuotient(x + y, n * e + m * d, d * e);
  }

  lemma Positive(d: nat, e: nat)
    requires d > 0 && e > 0
    ensures d * e > 0
  {
  }

  lemma SumOfQuotients(x: real, n: real, d: real, y: real, m: real, e: real)
    requires x * d == n && y * e == m
    ensures (x + y) * (d * e) == n * e + m * d
  {
    assert x * (d * e) == (x * d) * e;
    assert y * (d * e) == (y * e) * d;
    assert (x + y) * (d * e) == x * (d * e) + y * (d * e);
  }

  lemma ProductIsRational(x: real, y: real)
    requires Rational(x) && Rational(y)
    ensures Rational(x * y)
  {
    var n: int, d: nat :| IsQuotient(x, n, d);
    var m: int, e: nat :| IsQuotient(y, m, e);
    ProductOfQuotients(x, n as real, d as real, y, m as real, e as real);
    ProductOfReals(n, m);
    ProductOfReals(d, e);
    Positive(d, e);
    assert IsQuotient(x * y, n * m, d * e);
  }

  lemma ProductOfQuotients(x: real, n: real, d: real, y: real, m: real, e: real)
    requires x * d == n && y * e == m
    ensures (x * y) * (d * e) == n * m
  {
    assert (x * y) * (d * e) == (x * d) * (y * e);
  }

  lemma QuotientIsRational(x: real, k: nat)
    requires Rational(x) && k > 0
    ensures Rational(x / k as real)
  {
    var n: int, d: nat :| IsQuotient(x, n, d);
    var q := x / k as real;
    Rescaled(q, k as real, d as real);
    ProductOfReals(d, k);
    Positive(d, k);
    assert IsQuotient(q, n, d * k);
  }

  lemma Rescaled(q: real, k: real, d: real)
    ensures q * (d * k) == (q * k) * d
  {
  }
}
