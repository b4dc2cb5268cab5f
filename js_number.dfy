/**
 * Integer arithmetic as JavaScript performs it on the frame cursor.
 *
 * JavaScript's `%` truncates the quotient toward zero, so the remainder takes
 * the sign of the dividend: `(0 - 1) % 3` is `-1`, not `2`. Dafny's `%` is
 * Euclidean, so the cursor arithmetic is written with `JsRem` throughout.
 */
module JsNumber {

  /** `a % n` in JavaScript, for a positive divisor (every divisor in the
      sequencer is a list length; a zero length would give NaN). */
  function JsRem(a: int, n: int): (r: int)
    requires n > 0
    ensures a >= 0 ==> 0 <= r < n
    ensures a < 0 ==> -n < r <= 0
    ensures a == n * TruncDiv(a, n) + r
  {
    if a >= 0 then a % n else -((-a) % n)
  }

  /** The quotient of `a / n` truncated toward zero, `Math.trunc(a / n)`. */
  function TruncDiv(a: int, n: int): int
    requires n > 0
  {
    if a >= 0 then a / n else -((-a) / n)
  }

  /** Stepping forward from a frame (or from the -1 a retreat can leave)
      lands on the next frame, wrapping to 0 after the last one. */
  lemma AdvanceIndex(c: int, n: int)
    requires n > 0 && -1 <= c < n
    ensures JsRem(c + 1, n) == if c + 1 == n then 0 else c + 1
  {
  }

  /** Stepping back from a frame gives the previous frame, except at the
      first frame, where the result is -1 (or 0 for a one-frame list, where
      JavaScript's result is -0). It never wraps to the last frame. */
  lemma RetreatIndex(c: int, n: int)
    requires 0 <= c < n
    ensures JsRem(c - 1, n) == if c >= 1 then c - 1 else if n == 1 then 0 else -1
  {
    if c >= 1 {
      ModUnique(c - 1, n, 0, c - 1);
    } else if n == 1 {
      ModUnique(1, 1, 1, 0);
    } else {
      ModUnique(1, n, 0, 1);
    }
  }

  /** Where Dafny's Euclidean `%` would wrap to the last frame, the
      truncating remainder gives -1. */
  lemma RetreatAtFirstFrameIsNegative(n: int)
    requires n >= 2
    ensures JsRem(0 - 1, n) == -1
    ensures (0 - 1) % n == n - 1
  {
  }

  /** A retreat followed by an advance always comes back to the frame it
      started from, the -1 case included. */
  lemma RetreatThenAdvance(c: int, n: int)
    requires 0 <= c < n
    ensures JsRem(JsRem(c - 1, n) + 1, n) == c
  {
    RetreatIndex(c, n);
    AdvanceIndex(JsRem(c - 1, n), n);
  }

  /** The Euclidean remainder is determined by any quotient/remainder pair. */
  lemma ModUnique(x: int, n: int, q: int, m: int)
    requires n > 0 && 0 <= m < n && x == q * n + m
    ensures x % n == m
  {
    var q', m' := x / n, x % n;
    assert x == q' * n + m';
    if q' < q {
      assert (q - q') * n == m' - m;
      MulAtLeast(q - q', n);
    } else if q' > q {
      assert (q' - q) * n == m - m';
      MulAtLeast(q' - q, n);
    }
  }

  lemma {:induction false} MulAtLeast(d: int, n: int)
    requires d >= 1 && n > 0
    ensures d * n >= n
    decreases d
  {
    if d > 1 {
      MulAtLeast(d - 1, n);
      assert d * n == (d - 1) * n + n;
    }
  }
}
