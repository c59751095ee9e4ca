/** The facts about products, quotients and remainders that the solver does not find by itself. */
module Arith {

  lemma MulMono(a: nat, b: nat, c: nat)
    requires a <= b
    ensures c * a <= c * b
  {
  }

  lemma Distributes(a: int, b: int, c: int)
    ensures a * (b + c) == a * b + a * c
  {
  }

  lemma MulOrder(c: nat, a: int, b: int)
    requires c > 0
    ensures a <= b <==> c * a <= c * b
  {
    assert c * (b - a) == c * b - c * a;
    assert c * (a - b) == c * a - c * b;
    if a <= b {
      MulMono(0, b - a, c);
    } else {
      MulMono(1, a - b, c);
    }
  }

  lemma QuotientAtLeastOne(x: nat, n: nat)
    requires 0 < n <= x
    ensures x / n >= 1
  {
    assert x == n * (x / n) + x % n;
  }

  /** A quotient and a remainder are the only ones. */
  lemma DivModUnique(x: nat, n: nat, q: nat, r: nat)
    requires x == n * q + r && r < n
    ensures x / n == q && x % n == r
  {
    var q', r' := x / n, x % n;
    assert x == n * q' + r';
    if q < q' {
      MulMono(q + 1, q', n);
      assert false;
    }
    if q' < q {
      MulMono(q' + 1, q, n);
      assert false;
    }
  }

  /** Counting on by one in a cycle of `n`. */
  lemma NextInCycle(x: nat, n: nat)
    requires n > 0
    ensures (x % n + 1) % n == (x + 1) % n
    ensures (x + 1) / n == x / n + if x % n + 1 == n then 1 else 0
  {
    var q, r := x / n, x % n;
    assert x == n * q + r;
    if r + 1 < n {
      DivModUnique(x + 1, n, q, r + 1);
      DivModUnique(r + 1, n, 0, r + 1);
    } else {
      assert x + 1 == n * (q + 1);
      DivModUnique(x + 1, n, q + 1, 0);
      DivModUnique(n, n, 1, 0);
    }
  }
}
