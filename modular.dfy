/** Facts about Euclidean `%` with a variable modulus, which the buffer
    cursors and phase offsets rely on. */
module Modular {

  lemma {:induction false} MulLe(a: nat, b: nat, p: nat)
    requires a <= b
    ensures a * p <= b * p
  {
    if a < b {
      MulLe(a, b - 1, p);
      assert b * p == (b - 1) * p + p;
    }
  }

  /** The remainder is the unique m < p with n == d * p + m. */
  lemma ModUnique(n: nat, d: nat, m: nat, p: nat)
    requires p > 0 && m < p && n == d * p + m
    ensures n % p == m
  {
    var d', m' := n / p, n % p;
    assert n == d' * p + m';
    if d' < d {
      MulLe(d' + 1, d, p);
      assert false;
    } else if d' > d {
      MulLe(d + 1, d', p);
      assert false;
    }
  }

  /** Adding whole periods does not change the remainder. */
  lemma ModShift(x: nat, q: nat, p: nat)
    requires p > 0
    ensures (x + q * p) % p == x % p
  {
    assert x + q * p == (x / p + q) * p + x % p;
    ModUnique(x + q * p, x / p + q, x % p, p);
  }

  /** Reducing a partial sum first does not change the final remainder. */
  lemma ModAddLeft(x: nat, y: nat, p: nat)
    requires p > 0
    ensures (x % p + y) % p == (x + y) % p
  {
    assert x + y == (x % p + y) + (x / p) * p;
    ModShift(x % p + y, x / p, p);
  }
  /** For x, k < p: x + k reduced is x + k or x + k - p, and x - k
      reduced is x - k or x - k + p. */
  lemma ModSmall(n: int, p: nat)
    requires p > 0 && 0 <= n + p && n < 2 * p
    ensures n % p == if n < 0 then n + p else if n < p then n else n - p
  {
    if n < 0 {
      ModUnique(n + p, 0, n + p, p);
      assert (n + p) % p == n % p;
    } else if n >= p {
      ModUnique(n, 1, n - p, p);
    }
  }

  /** Wrapping addition and wrapping subtraction of the same k undo each
      other. */
  lemma AddSubInverse(x: nat, k: nat, p: nat)
    requires p > 0 && x < p && k < p
    ensures ((x + k) % p - k) % p == x
    ensures ((x - k) % p + k) % p == x
  {
    ModSmall(x + k, p);
    ModSmall((x + k) % p - k, p);
    ModSmall(x - k, p);
    ModSmall((x - k) % p + k, p);
  }
}
