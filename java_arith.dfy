/** The parts of Java's integer arithmetic that the capturer relies on. */
module JavaArith {

  const MinInt32: int := -0x8000_0000
  const MaxInt32: int := 0x7fff_ffff
  const Int32Modulus: int := 0x1_0000_0000

  /** A Java `int`. */
  newtype int32 = x: int | MinInt32 <= x <= MaxInt32

  /** `x++` on a Java `int`: the largest value wraps around to the smallest. */
  function Inc32(x: int32): (r: int32)
    ensures (r as int) % Int32Modulus == (x as int + 1) % Int32Modulus
  {
    if x as int == MaxInt32 then MinInt32 as int32 else x + 1
  }

  /** Java's `a % b` for a positive divisor: it truncates toward zero, so the
      remainder takes the sign of `a`. */
  function JavaRem(a: int, b: int): (r: int)
    requires b > 0
    ensures -b < r < b
    ensures a >= 0 ==> r >= 0
    ensures a <= 0 ==> r <= 0
    ensures (a - r) % b == 0
  {
    if a >= 0 then
      RemainderIsUnique(a - a % b, b, a / b, 0);
      a % b
    else
      NegatedRemainder(-a, b);
      -((-a) % b)
  }

  /** Rounding `-n` toward zero instead of down still leaves a multiple of
      `b`: `-n + n % b` is `b` times `-(n / b)`. */
  lemma NegatedRemainder(n: int, b: int)
    requires n >= 0 && b > 0
    ensures (-n + n % b) % b == 0
  {
    var q := n / b;
    assert b * -q == -(b * q);
    RemainderIsUnique(-n + n % b, b, -q, 0);
  }

  /** Euclidean division has one remainder: `y = b * q + r` with
      `0 <= r < b` fixes `y % b` as `r`. */
  lemma RemainderIsUnique(y: int, b: int, q: int, r: int)
    requires b > 0 && 0 <= r < b && y == b * q + r
    ensures y % b == r
  {
    var d := y / b - q;
    assert b * d == r - y % b;
    if d >= 1 {
      ProductAtLeast(b, d);
    } else if d <= -1 {
      assert b * -d == -(b * d);
      ProductAtLeast(b, -d);
    }
  }

  /** A positive multiple of `b` is at least `b`. */
  lemma {:induction false} ProductAtLeast(b: int, d: int)
    requires b > 0 && d >= 1
    ensures b * d >= b
    decreases d
  {
    if d > 1 {
      ProductAtLeast(b, d - 1);
      assert b * d == b * (d - 1) + b;
    }
  }

  /** For a non-negative dividend Java's remainder is Dafny's. */
  lemma JavaRemOfNonNegative(a: int, b: int)
    requires a >= 0 && b > 0
    ensures JavaRem(a, b) == a % b
  {
  }

  /** `a % 2 == 0` means the same in both languages: `a` is even. */
  lemma JavaRemZeroIsEven(a: int)
    ensures JavaRem(a, 2) == 0 <==> a % 2 == 0
  {
  }

  /** Incrementing a Java `int` flips its parity, also across the wrap-around. */
  lemma Inc32FlipsParity(x: int32)
    ensures JavaRem(Inc32(x) as int, 2) == 0 <==> JavaRem(x as int, 2) != 0
  {
    JavaRemZeroIsEven(Inc32(x) as int);
    JavaRemZeroIsEven(x as int);
  }
}
