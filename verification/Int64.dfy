// Go's int64: two's-complement arithmetic that wraps silently.
module Int64 {

  const TWO_63: int := 0x8000_0000_0000_0000
  const TWO_64: int := 0x1_0000_0000_0000_0000
  const MAX_INT64: int := 0x7fff_ffff_ffff_ffff

  type int64 = x: int | -0x8000_0000_0000_0000 <= x < 0x8000_0000_0000_0000

  // Equality modulo 2^64.
  predicate Congruent(a: int, b: int) {
    (a - b) % TWO_64 == 0
  }

  // The int64 that a Go expression with mathematical value x evaluates to.
  function Wrap(x: int): (r: int64)
    ensures Congruent(r, x)
  {
    (x + TWO_63) % TWO_64 - TWO_63
  }

  lemma CongruentSum(a: int, b: int, c: int, d: int)
    requires Congruent(a, b) && Congruent(c, d)
    ensures Congruent(a + c, b + d)
    ensures Congruent(a - c, b - d)
  {
    var k, l := (a - b) / TWO_64, (c - d) / TWO_64;
    assert a + c - (b + d) == (k + l) * TWO_64;
    assert a - c - (b - d) == (k - l) * TWO_64;
  }

  lemma CongruentTransitive(a: int, b: int, c: int)
    requires Congruent(a, b) && Congruent(b, c)
    ensures Congruent(a, c) && Congruent(b, a)
  {
    CongruentSum(a, b, b, c);
  }

  // An int64 is the only int64 in its residue class.
  lemma CongruentUnique(a: int64, b: int64)
    requires Congruent(a, b)
    ensures a == b
  {
  }

  lemma WrapExact(x: int)
    ensures Wrap(x) == x <==> -TWO_63 <= x < TWO_63
  {
  }

  // Wrapping early or late makes no difference.
  lemma WrapAgain(x: int, y: int)
    ensures Wrap(x) == Wrap(y) <==> Congruent(x, y)
  {
    if Congruent(x, y) {
      CongruentTransitive(Wrap(x), x, y);
      CongruentTransitive(Wrap(y), y, Wrap(y));
      CongruentTransitive(Wrap(x), y, Wrap(y));
      CongruentUnique(Wrap(x), Wrap(y));
    } else if Wrap(x) == Wrap(y) {
      CongruentTransitive(Wrap(x), x, x);
      CongruentTransitive(x, Wrap(x), y);
    }
  }

  // An int64 congruent to x is what a Go expression with value x evaluates to.
  lemma WrapOfCongruent(a: int64, x: int)
    requires Congruent(a, x)
    ensures a == Wrap(x)
  {
    WrapExact(a);
    WrapAgain(a, x);
  }

  // The sum of two non-negative int64 values turns negative exactly when it
  // does not fit, so a CHECK (balance >= 0) sees every overflow and nothing else.
  lemma OverflowShowsAsNegative(balance: int64, amount: int64)
    requires balance >= 0 && amount > 0
    ensures Wrap(balance + amount) < 0 <==> balance + amount > MAX_INT64
    ensures Wrap(balance + amount) >= 0 ==> Wrap(balance + amount) == balance + amount
  {
  }
}
