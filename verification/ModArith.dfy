// Remainders by a divisor that is not a constant.
module ModArith {
  type Pos = n: int | 0 < n witness 1

  lemma MultipleIsFar(n: Pos, d: int)
    ensures d >= 1 ==> n * d >= n
    ensures d <= -1 ==> n * d + n <= 0
  {
  }

  lemma Split(x: int, n: Pos)
    ensures x == n * (x / n) + x % n && 0 <= x % n < n
  {
  }

  // Quotient and remainder are determined by their defining equation.
  lemma DivModUnique(x: int, n: Pos, q: int, r: int)
    requires 0 <= r < n && x == n * q + r
    ensures x / n == q && x % n == r
  {
    Split(x, n);
    var d := q - x / n;
    assert n * d == n * q - n * (x / n);
    MultipleIsFar(n, d);
  }

  // Stepping i places on from a position less than n wraps at most once.
  function Wrap(r: nat, i: nat, n: Pos): (p: nat)
    requires r < n && i <= n
    ensures p < n
  {
    if r + i < n then r + i else r + i - n
  }

  lemma ModAdd(x: nat, i: nat, n: Pos)
    requires i <= n
    ensures (x + i) % n == Wrap(x % n, i, n)
  {
    Split(x, n);
    var q, r := x / n, x % n;
    if r + i < n {
      DivModUnique(x + i, n, q, r + i);
    } else if r + i - n < n {
      assert n * (q + 1) == n * q + n;
      DivModUnique(x + i, n, q + 1, r + i - n);
    }
  }
}
