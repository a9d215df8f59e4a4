/** C#'s 32-bit `int`: unchecked wrap-around of a sum and the truncating `%`. */
module Int32 {

  const MIN: int := -0x8000_0000
  const MAX: int := 0x7fff_ffff
  const MODULUS: int := 0x1_0000_0000

  type int32 = x: int | MIN <= x <= MAX

  function Abs(x: int): int {
    if x < 0 then -x else x
  }

  /** The value C# stores when an unchecked `int` operation produces `x`. */
  function Wrap(x: int): (r: int32)
    ensures (x - r) % MODULUS == 0
    ensures MIN <= x <= MAX ==> r == x
  {
    (x - MIN) % MODULUS + MIN
  }

  /** C#'s `a % b`: the quotient is truncated toward zero, so the remainder
      takes the sign of the dividend. */
  function Rem(a: int, b: int): (r: int)
    requires b != 0
    ensures -Abs(b) < r < Abs(b)
    ensures a >= 0 ==> r >= 0
    ensures a < 0 ==> r <= 0
    ensures (a - r) % Abs(b) == 0
  {
    RemDifference(a, Abs(b));
    if a >= 0 then a % Abs(b) else -((-a) % Abs(b))
  }

  lemma RemDifference(a: int, m: int)
    requires m > 0
    ensures a >= 0 ==> (a - a % m) % m == 0
    ensures a < 0 ==> (a + (-a) % m) % m == 0
  {
    if a >= 0 {
      var q := a / m;
      assert a - a % m == q * m;
      ModUnique(q * m, m, q, 0);
    } else {
      var q := (-a) / m;
      assert -a == q * m + (-a) % m;
      assert a + (-a) % m == (-q) * m;
      ModUnique((-q) * m, m, -q, 0);
    }
  }

  /** Euclidean remainder is determined by any decomposition `a == k * n + r`. */
  lemma ModUnique(a: int, n: int, k: int, r: int)
    requires n > 0 && 0 <= r < n && a == k * n + r
    ensures a % n == r
  {
    var q := a / n;
    var d := k - q;
    assert a == q * n + a % n;
    assert d * n == a % n - r by {
      assert k * n - q * n == (k - q) * n;
    }
    if d >= 1 {
      MulAtLeast(d, n);
    }
  }

  lemma MulAtLeast(d: int, n: int)
    requires d >= 1 && n > 0
    ensures d * n >= n
  {
    assert d * n == (d - 1) * n + n;
    assert (d - 1) * n >= 0;
  }

  /** The C# idiom `t = a % n; if (t < 0) t += n;` computes the Euclidean
      remainder, for every dividend. */
  lemma CorrectedRemIsMod(a: int, n: int)
    requires n > 0
    ensures var t := Rem(a, n); (if t < 0 then t + n else t) == a % n
  {
    if a < 0 {
      var m := (-a) % n;
      var q := (-a) / n;
      assert -a == q * n + m;
      if m == 0 {
        ModUnique(a, n, -q, 0);
      } else {
        ModUnique(a, n, -q - 1, n - m);
      }
    }
  }
}
