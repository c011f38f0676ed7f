/** Facts about Euclidean `%` used by the circular-buffer models. */
module Modular {

  /** A remainder is determined by any decomposition `x == q * n + r` with `0 <= r < n`. */
  lemma ModUnique(x: int, n: int, q: int, r: int)
    requires n > 0 && 0 <= r < n && x == q * n + r
    ensures x % n == r && x / n == q
  {
    var q0, r0 := x / n, x % n;
    assert x == q0 * n + r0;
    if q0 > q {
      assert q0 * n - q * n == (q0 - q) * n;
      MulAtLeast(q0 - q, n);
      assert false;
    } else if q0 < q {
      assert q * n - q0 * n == (q - q0) * n;
      MulAtLeast(q - q0, n);
      assert false;
    }
  }

  lemma MulAtLeast(a: int, n: int)
    requires a >= 1 && n > 0
    ensures a * n >= n
  {
  }

  /** Adding whole multiples of the modulus does not change the remainder. */
  lemma ModAddMultiple(x: int, k: int, n: int)
    requires n > 0
    ensures (x + k * n) % n == x % n
  {
    ModUnique(x + k * n, n, x / n + k, x % n);
  }

  /** Reducing one summand first does not change the remainder of a sum. */
  lemma ModOfSum(x: int, y: int, n: int)
    requires n > 0
    ensures (x % n + y) % n == (x + y) % n
  {
    var q := x / n;
    assert x + y == (x % n + y) + q * n;
    ModAddMultiple(x % n + y, q, n);
  }

  /** A value already in `[0, n)` is its own remainder. */
  lemma ModSmall(x: int, n: int)
    requires 0 <= x < n
    ensures x % n == x
  {
    ModUnique(x, n, 0, x);
  }

  /** A value in `[n, 2n)` is reduced by subtracting `n` once. */
  lemma ModOnce(x: int, n: int)
    requires n > 0 && n <= x < 2 * n
    ensures x % n == x - n
  {
    ModUnique(x, n, 1, x - n);
  }

  /** Offsetting by `start` and subtracting `start` again recovers `f` for `0 <= f < n`. */
  lemma ModSubStart(start: int, f: int, n: int)
    requires n > 0 && 0 <= f < n
    ensures ((start + f) % n - start) % n == f
  {
    var q := (start + f) / n;
    assert (start + f) % n - start == f + (-q) * n;
    ModAddMultiple(f, -q, n);
    ModSmall(f, n);
  }

  /**
   * `x` brought into `[0, n)` by adding or subtracting `n` one step at a
   * time, which is how the filters reduce their cursors.
   */
  function Wrap(x: int, n: int): (r: int)
    requires n > 0
    ensures 0 <= r < n
    decreases if x < 0 then 1 else 0, if x < 0 then -x else x
  {
    if x < 0 then Wrap(x + n, n) else if x >= n then Wrap(x - n, n) else x
  }

  /** Stepwise reduction computes the Euclidean remainder. */
  lemma {:induction false} WrapIsMod(x: int, n: int)
    requires n > 0
    ensures Wrap(x, n) == x % n
    decreases if x < 0 then 1 else 0, if x < 0 then -x else x
  {
    if x < 0 {
      WrapIsMod(x + n, n);
      ModAddMultiple(x, 1, n);
    } else if x >= n {
      WrapIsMod(x - n, n);
      ModAddMultiple(x - n, 1, n);
    } else {
      ModSmall(x, n);
    }
  }
}
