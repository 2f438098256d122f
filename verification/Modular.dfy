/** Remainders, for the two wrap-around probes. */
module Modular {
  lemma MulAtLeast(m: int, k: int)
    requires m > 0 && k >= 1
    ensures m * k >= m
  {
  }

  /** Quotient and remainder are unique. */
  lemma Remainder(x: int, m: int, q: int, r: int)
    requires x == m * q + r && 0 <= r < m
    ensures x % m == r
  {
    var d := x / m - q;
    assert x == m * (x / m) + x % m;
    assert m * d == r - x % m by {
      assert m * d == m * (x / m) - m * q;
    }
    if d >= 1 {
      MulAtLeast(m, d);
    } else if d <= -1 {
      MulAtLeast(m, -d);
    }
  }

  /** Distinct positions of one lap are distinct. */
  lemma ModularStep(start: nat, i: nat, j: nat, m: nat)
    requires i < j < m
    ensures (start + i) % m != (start + j) % m
  {
    var q, r := (start + i) / m, (start + i) % m;
    assert start + i == m * q + r;
    var s := r + (j - i);
    if s < m {
      Remainder(start + j, m, q, s);
    } else {
      assert m * (q + 1) == m * q + m;
      Remainder(start + j, m, q + 1, s - m);
    }
  }

  /** Any target is reached by the shift that undoes the start. */
  lemma ShiftBack(start: nat, t: nat, m: nat)
    requires t < m
    ensures (start + (t + m - start % m) % m) % m == t
  {
    var q, s := start / m, start % m;
    assert start == m * q + s;
    if t >= s {
      Remainder(t + m - s, m, 1, t - s);
      Remainder(start + (t - s), m, q, t);
    } else {
      Remainder(t + m - s, m, 0, t + m - s);
      assert m * (q + 1) == m * q + m;
      Remainder(start + (t + m - s), m, q + 1, t);
    }
  }
}
