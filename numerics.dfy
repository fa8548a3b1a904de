/** Real-number stand-ins for the floating-point library the source calls.
    The transcendental functions are not defined here: they are carried as
    function-valued fields of a `Math` record, and every fact the model uses
    about them is an explicit law predicate that a lemma takes as a
    precondition. */
module Numerics {

  /** exp, sqrt, sin, cos and arcsin, left abstract. */
  datatype Math = Math(
    exp: real -> real,
    sqrt: real -> real,
    sin: real -> real,
    cos: real -> real,
    arcsin: real -> real)

  /** A numpy float64 where the model needs its non-finite values: a
      finite number, +inf, or NaN. */
  datatype Float = Finite(v: real) | PosInf | NaN

  /** Python's `<` on floats: false whenever either side is NaN, +inf above
      every finite number. */
  predicate Less(a: Float, b: Float)
  {
    match a
    case Finite(x) => (b.Finite? && x < b.v) || b.PosInf?
    case PosInf => false
    case NaN => false
  }

  /** Without NaN, `Less` is a strict total order. */
  lemma LessOrder(a: Float, b: Float, c: Float)
    requires !a.NaN? && !b.NaN? && !c.NaN?
    ensures !Less(a, a)
    ensures Less(a, b) || a == b || Less(b, a)
    ensures Less(a, b) && Less(b, c) ==> Less(a, c)
    ensures !Less(a, b) && !Less(b, c) ==> !Less(a, c)
  {
  }

  /** `math.pi` (as a decimal, not as the binary double). */
  const Pi: real := 3.141592653589793

  /** `math.radians` / `np.radians`. */
  function Radians(deg: real): real { deg * Pi / 180.0 }

  /** `np.degrees`. */
  function Degrees(rad: real): real { rad * 180.0 / Pi }

  function Abs(x: real): (r: real)
    ensures r >= 0.0 && (r == x || r == -x)
  {
    if x < 0.0 then -x else x
  }

  /** The identity, kept as a separate term so that a square is a product of
      two distinct terms (the arithmetic solver reasons poorly about `x * x`
      written with one variable twice). */
  function Copy(x: real): real { x }

  /** `x ** 2`. */
  function Sq(x: real): real { x * Copy(x) }

  /** exp(0) = 1. */
  ghost predicate ExpAtZero(m: Math) { m.exp(0.0) == 1.0 }

  /** exp is strictly increasing and positive. */
  ghost predicate ExpMonotone(m: Math)
  {
    && (forall x: real, y: real :: x < y ==> m.exp(x) < m.exp(y))
    && (forall x: real :: m.exp(x) > 0.0)
  }

  /** sqrt is the non-negative square root on non-negative arguments. */
  ghost predicate SqrtLaws(m: Math)
  {
    forall x: real :: x >= 0.0 ==> m.sqrt(x) >= 0.0 && Sq(m.sqrt(x)) == x
  }

  /** sin^2 + cos^2 = 1. */
  ghost predicate Pythagorean(m: Math)
  {
    forall x: real :: Sq(m.sin(x)) + Sq(m.cos(x)) == 1.0
  }

  /** The spacing of `np.linspace(start, stop, num)` with the endpoint. */
  function LinspaceStep(start: real, stop: real, num: nat): real
    requires num >= 2
  {
    (stop - start) / ((num - 1) as real)
  }

  /** `np.linspace(start, stop, num)` with the endpoint included: `num`
      points `start + i * step`. */
  function Linspace(start: real, stop: real, num: nat): (r: seq<real>)
    ensures |r| == num
  {
    if num == 1 then [start]
    else seq(num, i requires 0 <= i < num => start + (i as real) * LinspaceStep(start, stop, num))
  }

  lemma MulDivCancel(a: real, n: real)
    requires n > 0.0
    ensures n * (a / n) == a
  {
  }

  lemma LinspaceShape(start: real, stop: real, num: nat)
    requires num >= 2
    ensures Linspace(start, stop, num)[0] == start
    ensures Linspace(start, stop, num)[num - 1] == stop
    ensures forall i :: 0 <= i < num - 1 ==>
      Linspace(start, stop, num)[i + 1] - Linspace(start, stop, num)[i] == LinspaceStep(start, stop, num)
  {
    var r := Linspace(start, stop, num);
    var step := LinspaceStep(start, stop, num);
    MulDivCancel(stop - start, (num - 1) as real);
    assert r[num - 1] == start + ((num - 1) as real) * step;
    forall i | 0 <= i < num - 1
      ensures r[i + 1] - r[i] == step
    {
      assert r[i + 1] == start + ((i + 1) as real) * step;
      assert ((i + 1) as real) * step == (i as real) * step + step;
    }
  }

  function Reverse<T>(s: seq<T>): (r: seq<T>)
    ensures |r| == |s|
    ensures forall i :: 0 <= i < |s| ==> r[i] == s[|s| - 1 - i]
  {
    seq(|s|, i requires 0 <= i < |s| => s[|s| - 1 - i])
  }
}
