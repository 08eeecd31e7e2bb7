/** Shared vocabulary: an optional value and the few `Math` functions the
    extension uses, stated on Dafny's unbounded reals and integers. */
module Basics {

  datatype Option<+T> = None | Some(value: T)

  /** `Math.floor` */
  function Floor(r: real): (n: int)
    ensures n as real <= r < n as real + 1.0
  {
    r.Floor
  }

  /** `Math.ceil` */
  function Ceil(r: real): (n: int)
    ensures n as real - 1.0 < r <= n as real
  {
    -((-r).Floor)
  }

  /** `Math.abs` */
  function Abs(r: real): (a: real)
    ensures a >= 0.0 && (a == r || a == -r)
  {
    if r < 0.0 then -r else r
  }

  /** `Math.max` on integers */
  function MaxInt(a: int, b: int): (m: int)
    ensures m >= a && m >= b && (m == a || m == b)
  {
    if a >= b then a else b
  }

  /** `Math.min` on reals */
  function MinReal(a: real, b: real): (m: real)
    ensures m <= a && m <= b && (m == a || m == b)
  {
    if a <= b then a else b
  }

  /** `Math.max` on reals; Dafny has no maximum generic over `int` and
      `real`, so the integer one above has this twin. */
  function MaxReal(a: real, b: real): (m: real)
    ensures m >= a && m >= b && (m == a || m == b)
  {
    if a >= b then a else b
  }

  /** Rounding an integer-valued number up or down leaves it unchanged. */
  lemma RoundIntegers(n: int)
    ensures Floor(n as real) == n && Ceil(n as real) == n
  {
  }

  /** The product of two non-negative reals is non-negative. */
  lemma MulNonNegative(x: real, y: real)
    requires x >= 0.0 && y >= 0.0
    ensures x * y >= 0.0
  {
  }

  /** Multiplying by a non-negative real preserves order. */
  lemma MulMonotonic(x: real, y: real, z: real)
    requires x >= 0.0 && y <= z
    ensures x * y <= x * z
  {
    assert x * z - x * y == x * (z - y);
    MulNonNegative(x, z - y);
  }

  /** A point `a + (b - a) * t` with `t` in [0, 1] lies between `a` and `b`. */
  lemma ConvexCombination(a: real, b: real, t: real)
    requires 0.0 <= t <= 1.0
    ensures MinReal(a, b) <= a + (b - a) * t <= MaxReal(a, b)
  {
    var d := b - a;
    var p := d * t;
    assert (b - a) * t == p;
    if a <= b {
      MulNonNegative(d, t);
      assert 0.0 <= p;
      MulMonotonic(d, t, 1.0);
      assert p <= d * 1.0;
      assert d * 1.0 == d;
      assert MinReal(a, b) == a && MaxReal(a, b) == b;
    } else {
      var q := (-d) * t;
      MulNonNegative(-d, t);
      assert 0.0 <= q;
      MulMonotonic(-d, t, 1.0);
      assert q <= (-d) * 1.0;
      assert (-d) * 1.0 == -d;
      assert p == -q;
      assert d <= p <= 0.0;
      assert b <= a + p <= a;
      assert MinReal(a, b) == b && MaxReal(a, b) == a;
    }
  }

  /** A quotient of a numerator and a denominator of the same sign, the
      numerator no larger in magnitude, lies in [0, 1]. */
  lemma UnitQuotient(n: real, d: real)
    requires (0.0 <= n <= d && d > 0.0) || (d <= n <= 0.0 && d < 0.0)
    ensures 0.0 <= n / d <= 1.0
  {
    var q := n / d;
    assert q * d == n;
    if d < 0.0 {
      assert q == (-n) / (-d);
      assert q * (-d) == -n;
    }
  }

  /** The product of two positive reals is positive. */
  lemma MulPositive(x: real, y: real)
    requires x > 0.0 && y > 0.0
    ensures x * y > 0.0
  {
  }

  /** Scaling by a fraction is scaling by the quotient. */
  lemma ScaleQuotient(d: real, a: real, m: real)
    requires m != 0.0
    ensures d * (a / m) == (d / m) * a
  {
    var q := a / m;
    var u := d / m;
    assert q * m == a;
    assert u * m == d;
    assert d * q * m == d * a;
    assert u * a * m == d * a;
    assert (d * q - u * a) * m == 0.0;
  }

  /** A magnitude of at most `c * m` divided by a positive `m` is at most
      `c`. */
  lemma QuotientBound(d: real, m: real, c: real)
    requires m > 0.0 && Abs(d) <= c * m
    ensures Abs(d / m) <= c
  {
    var u := d / m;
    assert u * m == d;
    if u > c {
      MulPositive(u - c, m);
      assert (u - c) * m == d - c * m;
    } else if u < -c {
      MulPositive(-c - u, m);
      assert (-c - u) * m == -c * m - d;
    }
  }

  /** A common positive factor cancels. */
  lemma Cancel(x: real, y: real, c: real)
    requires c > 0.0 && x * c == y * c
    ensures x == y
  {
    if x > y {
      MulPositive(x - y, c);
    } else if y > x {
      MulPositive(y - x, c);
    }
  }

  /** The square of `x` is the square of `x / m` scaled twice by `m`. */
  lemma SquareOfScaled(x: real, m: real)
    requires m != 0.0
    ensures x * x == ((x / m) * (x / m)) * m * m
  {
    var u := x / m;
    assert u * m == x;
    assert (u * m) * (u * m) == (u * u) * m * m;
  }

  /** When `z = x + y` and each is scaled twice by the same positive `m`,
      so are the unscaled values. */
  lemma SumOfScaled(a: real, b: real, c: real, m: real, x: real, y: real, z: real)
    requires m > 0.0
    requires x == a * m * m && y == b * m * m && z == c * m * m && z == x + y
    ensures a + b == c
  {
    assert (a + b) * m == a * m + b * m;
    assert (a * m + b * m) * m == a * m * m + b * m * m;
    Cancel((a + b) * m, c * m, m);
    Cancel(a + b, c, m);
  }

  /** A square of a value in [0, g] is at most `g * g`. */
  lemma SquareBound(s: real, q: real, g: real)
    requires s == q * q && 0.0 <= q <= g
    ensures s <= g * g
  {
    MulMonotonic(q, q, g);
    MulMonotonic(g, q, g);
  }

  /** A sequence that starts with `x + w` holds `w` right after `x`. */
  lemma PrefixSlice<T>(x: seq<T>, w: seq<T>, all: seq<T>)
    requires x + w <= all
    ensures all[|x|..|x| + |w|] == w
  {
    assert all[..|x| + |w|] == x + w;
    assert all[|x|..|x| + |w|] == all[..|x| + |w|][|x|..];
  }

  /** A slice of the middle part of `a + b + c`. */
  lemma MiddleSlice<T>(a: seq<T>, b: seq<T>, c: seq<T>, i: nat, j: nat)
    requires i <= j <= |b|
    ensures (a + b + c)[|a| + i..|a| + j] == b[i..j]
  {
    assert forall k :: 0 <= k < j - i ==> (a + b + c)[|a| + i..|a| + j][k] == b[i..j][k];
  }
}
