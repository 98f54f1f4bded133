/** The handful of gl-matrix `vec2` operations the crowd solver uses, over exact reals,
    and the transcendental functions of `Math` that they and the solver call.

    `Math.sqrt`, `Math.exp`, `Math.pow` and `Math.PI` are not interpreted: they are read
    from a `MathLib` value that every member needing them takes as a parameter. The
    model assumes only what it needs to be well defined (a square root of a positive
    number is positive, a power of a positive base is positive, PI is positive); the law
    of an exact square root is a separate predicate that the lemmas needing it require. */
module Vec2Math {

  datatype Vec2 = Vec2(x: real, y: real)

  const Zero: Vec2 := Vec2(0.0, 0.0)

  type PositiveReal = r: real | 0.0 < r witness 1.0

  /** The tables of `Math.sqrt`, `Math.exp` and `Math.pow`, and the value of `Math.PI`. */
  datatype MathLib = MathLib(
    sqrt: imap<real, real>,
    exp: imap<real, real>,
    pow: imap<(real, real), real>,
    pi: PositiveReal)

  /** `Math.sqrt(x)`: the table's value, which for a positive x must be positive. An entry
      that breaks this, or a missing one, reads as 1 for positive x and 0 otherwise, so
      Sqrt(m, _) ranges over exactly the functions that are positive on positive
      arguments (each is Sqrt(m, _) for m.sqrt its own table). */
  function Sqrt(m: MathLib, x: real): (r: real)
    ensures 0.0 < x ==> 0.0 < r
  {
    if x in m.sqrt && (0.0 < x ==> 0.0 < m.sqrt[x]) then m.sqrt[x]
    else if 0.0 < x then 1.0 else 0.0
  }

  /** `Math.exp(x)`: the table's value; a missing entry reads as 0. */
  function Exp(m: MathLib, x: real): real {
    if x in m.exp then m.exp[x] else 0.0
  }

  /** `Math.pow(b, e)`: the table's value, which for a positive base must be positive; as
      for `Sqrt`, other entries read as 1 for a positive base and 0 otherwise. */
  function Pow(m: MathLib, b: real, e: real): (r: real)
    ensures 0.0 < b ==> 0.0 < r
  {
    if (b, e) in m.pow && (0.0 < b ==> 0.0 < m.pow[(b, e)]) then m.pow[(b, e)]
    else if 0.0 < b then 1.0 else 0.0
  }

  /** The law of an exact square root at one point. */
  ghost predicate SqrtLawAt(m: MathLib, x: real) {
    0.0 <= Sqrt(m, x) && Sqrt(m, x) * Sqrt(m, x) == x
  }

  /** The one law of `Math.sqrt` that the speed-clamp property needs. */
  ghost predicate ExactSqrt(m: MathLib) {
    forall x :: 0.0 <= x ==> SqrtLawAt(m, x)
  }

  function Abs(x: real): real { if x < 0.0 then -x else x }

  function Add(a: Vec2, b: Vec2): Vec2 { Vec2(a.x + b.x, a.y + b.y) }

  function Sub(a: Vec2, b: Vec2): Vec2 { Vec2(a.x - b.x, a.y - b.y) }

  function Scale(a: Vec2, s: real): Vec2 { Vec2(a.x * s, a.y * s) }

  /** `vec2.scaleAndAdd(out, a, b, s)`: a + b * s. */
  function ScaleAndAdd(a: Vec2, b: Vec2, s: real): Vec2 { Vec2(a.x + b.x * s, a.y + b.y * s) }

  function Dot(a: Vec2, b: Vec2): real { a.x * b.x + a.y * b.y }

  function SquaredLength(a: Vec2): real { a.x * a.x + a.y * a.y }

  /** `vec2.length` (Math.hypot of the two components). */
  function Length(m: MathLib, a: Vec2): real { Sqrt(m, SquaredLength(a)) }

  /** `vec2.distance(a, b)`. */
  function Distance(m: MathLib, a: Vec2, b: Vec2): real { Length(m, Sub(b, a)) }

  /** `vec2.normalize`: the squared length is replaced by the inverse square root only
      when it is positive, so the zero vector is mapped to the zero vector. */
  function Normalize(m: MathLib, a: Vec2): Vec2 {
    var len := SquaredLength(a);
    var inv := if len > 0.0 then 1.0 / Sqrt(m, len) else len;
    Vec2(a.x * inv, a.y * inv)
  }

  /** `vec2.exactEquals`: a boolean, component-wise `===`. */
  function ExactEquals(a: Vec2, b: Vec2): (r: bool)
    ensures r <==> a == b
  {
    a.x == b.x && a.y == b.y
  }

  lemma SquareNonNegative(x: real)
    ensures 0.0 <= x * x
    ensures x != 0.0 ==> 0.0 < x * x
  {
  }

  lemma SquaredLengthNonNegative(a: Vec2)
    ensures 0.0 <= SquaredLength(a)
    ensures a != Zero ==> 0.0 < SquaredLength(a)
    ensures SquaredLength(Zero) == 0.0
  {
    if a.x != 0.0 {
      calc {
        SquaredLength(a);
        a.x * a.x + a.y * a.y;
      >
        0.0;
      }
    } else if a.y != 0.0 {
      calc {
        SquaredLength(a);
        a.x * a.x + a.y * a.y;
      >
        0.0;
      }
    } else {
      assert a == Zero;
    }
  }

  lemma NonZeroPositive(v: Vec2)
    requires v != Zero
    ensures 0.0 < SquaredLength(v)
  {
    SquaredLengthNonNegative(v);
  }

  /** The law of `ExactSqrt` at one point. */
  lemma SqrtAt(m: MathLib, x: real)
    requires ExactSqrt(m)
    requires 0.0 <= x
    ensures 0.0 <= Sqrt(m, x) && Sqrt(m, x) * Sqrt(m, x) == x
  {
    assert SqrtLawAt(m, x);
  }

  lemma ProductZero(a: real, b: real)
    requires a * b == 0.0
    ensures a == 0.0 || b == 0.0
  {
  }

  /** A number whose square is zero is zero. */
  lemma ZeroSquare(q: real)
    requires q * q == 0.0
    ensures q == 0.0
  {
    ProductZero(q, q);
  }

  /** An exact square root is zero exactly at zero. */
  lemma SqrtZero(m: MathLib, l: real)
    requires ExactSqrt(m)
    requires 0.0 <= l
    ensures 0.0 <= Sqrt(m, l)
    ensures Sqrt(m, l) == 0.0 <==> l == 0.0
  {
    SqrtAt(m, l);
    if l == 0.0 {
      ZeroSquare(Sqrt(m, l));
    }
  }

  /** With an exact square root, lengths are non-negative. */
  lemma LengthNonNegative(m: MathLib, a: Vec2)
    requires ExactSqrt(m)
    ensures 0.0 <= Length(m, a)
  {
    SquaredLengthNonNegative(a);
    SqrtZero(m, SquaredLength(a));
  }

  /** With an exact square root, the zero vector has length zero. */
  lemma LengthOfZero(m: MathLib)
    requires ExactSqrt(m)
    ensures Length(m, Zero) == 0.0
  {
    SquaredLengthNonNegative(Zero);
    SqrtZero(m, SquaredLength(Zero));
  }

  /** Squaring is strictly monotone on non-negative numbers. */
  lemma SquareStrictlyMonotone(a: real, b: real)
    requires 0.0 <= a && 0.0 <= b
    ensures a < b ==> a * a < b * b
  {
    if a < b {
      calc {
        a * a;
      <=
        a * b;
      <
        b * b;
      }
    }
  }

  /** Two non-negative numbers with equal squares are equal. */
  lemma EqualSquares(q: real, c: real)
    requires 0.0 <= q && 0.0 <= c
    requires q * q == c * c
    ensures q == c
  {
    SquareStrictlyMonotone(q, c);
    SquareStrictlyMonotone(c, q);
  }

  /** With an exact square root, the square root of c*c is c for c >= 0. */
  lemma SqrtOfSquare(m: MathLib, c: real)
    requires ExactSqrt(m)
    requires 0.0 <= c
    ensures Sqrt(m, c * c) == c
  {
    SquareNonNegative(c);
    SqrtAt(m, c * c);
    EqualSquares(Sqrt(m, c * c), c);
  }

  /** Scaling multiplies the squared length by the square of the factor. */
  lemma ScaleSquaredLength(v: Vec2, k: real)
    ensures SquaredLength(Scale(v, k)) == SquaredLength(v) * (k * k)
  {
  }

  /** The normal of a non-zero vector, scaled by c, is the vector scaled by c over its
      length. */
  lemma NormalizeNonZero(m: MathLib, v: Vec2, c: real)
    requires 0.0 < SquaredLength(v)
    ensures Scale(Normalize(m, v), c) == Scale(v, (1.0 / Sqrt(m, SquaredLength(v))) * c)
  {
  }

  /** If s*s == l, s > 0 and k == c/s, then l * k^2 == c*c. */
  lemma UnitFactor(l: real, s: real, c: real, k: real)
    requires 0.0 < s && s * s == l
    requires k == (1.0 / s) * c
    ensures l * (k * k) == c * c
  {
    assert s * k == c;
    calc {
      l * (k * k);
      (s * s) * (k * k);
      (s * k) * (s * k);
      c * c;
    }
  }

  /** At a positive point where the law holds, the square root is positive and squares
      back. */
  lemma SqrtPositive(m: MathLib, l: real)
    requires 0.0 < l && SqrtLawAt(m, l)
    ensures 0.0 < Sqrt(m, l) && Sqrt(m, l) * Sqrt(m, l) == l
  {
  }

  /** `ScaledNormalSquaredLength` with the length and the factor named. */
  lemma ScaledNormalSquaredLengthAt(m: MathLib, v: Vec2, c: real, l: real, s: real, k: real)
    requires l == SquaredLength(v) && 0.0 < l
    requires s == Sqrt(m, l) && 0.0 < s && s * s == l
    requires k == (1.0 / s) * c
    ensures SquaredLength(Scale(Normalize(m, v), c)) == c * c
  {
    NormalizeNonZero(m, v, c);
    ScaleSquaredLength(v, k);
    UnitFactor(l, s, c, k);
  }

  /** Where the square root of |v|^2 is exact, the normal of a non-zero v scaled by c
      has squared length c*c. */
  lemma ScaledNormalSquaredLength(m: MathLib, v: Vec2, c: real)
    requires v != Zero
    requires SqrtLawAt(m, SquaredLength(v))
    ensures SquaredLength(Scale(Normalize(m, v), c)) == c * c
  {
    NonZeroPositive(v);
    var l := SquaredLength(v);
    SqrtPositive(m, l);
    var s := Sqrt(m, l);
    ScaledNormalSquaredLengthAt(m, v, c, l, s, (1.0 / s) * c);
  }

  /** Scaling the normal of a non-zero vector by c >= 0 gives a vector of length c. */
  lemma ScaledNormalLength(m: MathLib, v: Vec2, c: real)
    requires ExactSqrt(m)
    requires v != Zero
    requires 0.0 <= c
    ensures Length(m, Scale(Normalize(m, v), c)) == c
  {
    SqrtAt(m, SquaredLength(v));
    ScaledNormalSquaredLength(m, v, c);
    SqrtOfSquare(m, c);
  }
}
