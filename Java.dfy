/** Java language semantics the model needs: nullable references, 32-bit `int`
    arithmetic with wrap-around, truncating division and the narrowing cast
    from `double` to `int` (section 5.1.3 of the Java Language Specification). */
module JavaLang {

  /** A Java reference that may be `null`. */
  datatype Nullable<T> = Null | Ref(value: T)

  const IntMin: int := -0x8000_0000
  const IntMax: int := 0x7FFF_FFFF

  predicate IsInt(x: int) {
    IntMin <= x <= IntMax
  }

  /** Reduces an exact result to the 32-bit two's-complement value Java keeps. */
  function Wrap(x: int): (r: int)
    ensures IsInt(r)
    ensures (r - x) % 0x1_0000_0000 == 0
    ensures IsInt(x) ==> r == x
  {
    var m := (x - IntMin) % 0x1_0000_0000;
    m + IntMin
  }

  /** Java's `a * b` on two `int` operands. */
  function Mul(a: int, b: int): (r: int)
    ensures IsInt(r)
    ensures (r - a * b) % 0x1_0000_0000 == 0
    ensures IsInt(a * b) ==> r == a * b
  {
    Wrap(a * b)
  }

  /** Java's `a / b` on `int` with a positive divisor: the quotient rounds
      toward zero, unlike Dafny's Euclidean `/`. */
  function Div(a: int, b: int): (r: int)
    requires b > 0
    ensures a >= 0 ==> 0 <= r && r * b <= a < r * b + b
    ensures a < 0 ==> r <= 0 && a <= r * b < a + b
    ensures IsInt(a) ==> IsInt(r)
  {
    if a >= 0 then a / b else -((-a) / b)
  }

  /** `(int) f` for a finite `float` or `double` `f`: the fraction is dropped,
      rounding toward zero, and values beyond the `int` range saturate. */
  function RealToInt(v: real): (r: int)
    ensures IsInt(r)
    ensures 0.0 <= v < (IntMax + 1) as real ==> r as real <= v < r as real + 1.0
    ensures (IntMin - 1) as real < v < 0.0 ==> r as real - 1.0 < v <= r as real
    ensures v >= (IntMax + 1) as real ==> r == IntMax
    ensures v <= (IntMin - 1) as real ==> r == IntMin
  {
    var t := if v >= 0.0 then v.Floor else -((-v).Floor);
    if t > IntMax then IntMax else if t < IntMin then IntMin else t
  }

  /** `(int) Double.MAX_VALUE`: a finite double above the `int` range
      narrows to `Integer.MAX_VALUE`. */
  const DoubleMaxAsInt: int := IntMax
}
