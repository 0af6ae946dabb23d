/** Numeric vocabulary shared by every pass of the grass renderer.

    JavaScript numbers are modelled as mathematical reals; the single-precision
    rounding of Float32Array storage is not modelled. Where a pass must cope with
    NaN or an infinity (the blade builders and their clean-up loops), a buffer
    entry is a `Float`, which adds those three values to the finite reals.

    The transcendental functions, `Math.pow(_, 2.5)`, the simplex-noise sampler
    and `Math.random` are not computed: they are parameters, constrained only by
    the range facts that the code relies on (`Lawful`, `NoiseBounded`, `UnitDraws`).
 */
module Numerics {

  /** The value of `Math.PI`. */
  const PI: real := 3.141592653589793

  /** An IEEE-754 value: a finite number, NaN or one of the two infinities. */
  datatype Float = Finite(value: real) | NaN | PosInf | NegInf

  /** IEEE product of a buffer entry by a finite factor, as `x * factor` evaluates it. */
  function Mul(a: Float, k: real): Float
  {
    match a
    case Finite(v) => Finite(v * k)
    case NaN => NaN
    case PosInf => if k > 0.0 then PosInf else if k < 0.0 then NegInf else NaN
    case NegInf => if k > 0.0 then NegInf else if k < 0.0 then PosInf else NaN
  }

  /** What one step of a clean-up loop leaves in an entry:
      `if (isNaN(v) || !isFinite(v)) v = 0`. */
  function Sanitized(a: Float): (r: Float)
    ensures r.Finite?
    ensures a.Finite? ==> r == a
    ensures !a.Finite? ==> r == Finite(0.0)
  {
    if a.Finite? then a else Finite(0.0)
  }

  function Abs(x: real): real { if x < 0.0 then -x else x }

  function Min(a: real, b: real): real { if a <= b then a else b }

  function Max(a: real, b: real): real { if a >= b then a else b }

  /** `Math.min(Math.max(v, 0), 1)` for a finite v (GLSL `clamp(v, 0.0, 1.0)` alike). */
  function Clamp01(v: real): (r: real)
    ensures 0.0 <= r <= 1.0
    ensures 0.0 <= v <= 1.0 ==> r == v
  {
    Min(Max(v, 0.0), 1.0)
  }

  /** `Math.round`: the nearest integer, halves rounded towards +infinity. */
  function Round(x: real): (r: int)
    ensures x - 0.5 < r as real <= x + 0.5
  {
    (x + 0.5).Floor
  }

  /** `Number(x.toFixed(2))`: x rounded to two decimals, a half rounded away from
      zero (toFixed rounds the magnitude and then restores the sign). */
  function ToFixed2(x: real): (r: real)
    ensures Abs(r - x) <= 0.005
  {
    if x < 0.0 then -(Round(-x * 100.0) as real / 100.0)
    else Round(x * 100.0) as real / 100.0
  }

  /** The primitives `Math.sin`, `Math.cos` and `Math.pow(_, 2.5)` as parameters. */
  datatype Prims = Prims(sin: real -> real, cos: real -> real, pow25: real -> real)

  /** The range facts about the primitives that the model relies on. */
  ghost predicate Lawful(m: Prims)
  {
    && (forall x :: -1.0 <= m.sin(x) <= 1.0)
    && (forall x :: -1.0 <= m.cos(x) <= 1.0)
    && (forall x :: 0.0 <= x <= PI / 2.0 ==> 0.0 <= m.cos(x))
    && (forall x :: 0.0 <= x < PI / 2.0 ==> 0.0 < m.cos(x))
    && (forall r :: 0.0 <= r <= 1.0 ==> 0.0 <= m.pow25(r) <= 1.0)
  }

  /** The Pythagorean identity, kept apart from the range facts because only the
      unit-length wind direction needs it. */
  ghost predicate Pythagorean(m: Prims)
  {
    forall x :: m.sin(x) * m.sin(x) + m.cos(x) * m.cos(x) == 1.0
  }

  /** A 2D simplex-noise sampler: values in [-1, 1]. */
  ghost predicate NoiseBounded(noise: (real, real) -> real)
  {
    forall x, y :: -1.0 <= noise(x, y) <= 1.0
  }

  /** The successive results of `Math.random()`, in the order the code draws them. */
  ghost predicate UnitDraws(draws: nat -> real)
  {
    forall k :: 0.0 <= draws(k) < 1.0
  }

  datatype Vec2 = Vec2(x: real, y: real)

  datatype Vec3 = Vec3(x: real, y: real, z: real)

  /** Hue in degrees, saturation and lightness in percent, as written into the
      `hsl(...)` colour string. */
  datatype Hsl = Hsl(hue: real, saturation: real, lightness: real)

  /** An object transform: position, Euler rotation (XYZ order) and scale. */
  datatype Transform = Transform(position: Vec3, rotation: Vec3, scale: Vec3)

  /** The library conversions the placers call but that are not modelled:
      `Matrix4.compose(...).toArray()` gives 16 floats and `new THREE.Color(hsl)`
      gives 3. */
  datatype Packing = Packing(matrix: Transform -> seq<real>, rgb: Hsl -> seq<real>)

  ghost predicate PackingLawful(pk: Packing)
  {
    && (forall t :: |pk.matrix(t)| == 16)
    && (forall c :: |pk.rgb(c)| == 3)
  }

  /** `(r - 0.5) * width` for a draw r in [0, 1) lies in [-width/2, width/2). */
  lemma CenteredDraw(r: real, width: real)
    requires 0.0 <= r < 1.0 && width > 0.0
    ensures -width / 2.0 <= (r - 0.5) * width < width / 2.0
  {
    assert (r - 0.5) * width == r * width - width / 2.0;
    assert 0.0 <= r * width < width by {
      assert r * width <= 1.0 * width - (1.0 - r) * width;
    }
  }

  /** `(r - 0.5) * width`: a draw centred on 0 and stretched to the width. */
  function Centered(r: real, width: real): (c: real)
    ensures 0.0 <= r < 1.0 && width > 0.0 ==> -width / 2.0 <= c < width / 2.0
  {
    if 0.0 <= r < 1.0 && width > 0.0 then
      CenteredDraw(r, width);
      (r - 0.5) * width
    else
      (r - 0.5) * width
  }

  /** `lo + r * width` for a draw r in [0, 1) lies in [lo, lo + width). */
  lemma ScaledDraw(r: real, lo: real, width: real)
    requires 0.0 <= r < 1.0 && width > 0.0
    ensures lo <= lo + r * width < lo + width
  {
    assert width - r * width == (1.0 - r) * width;
  }

  /** Multiplication by a natural number is monotone. */
  lemma MulMono(a: nat, b: nat, c: nat)
    requires a <= b
    ensures a * c <= b * c
  {
  }

  /** A factor of magnitude at most k scales c to at most k * |c|. */
  lemma BoundedProduct(n: real, c: real, k: real)
    requires Abs(n) <= k
    ensures Abs(n * c) <= k * Abs(c)
  {
    var an, ac := Abs(n), Abs(c);
    assert Abs(n * c) == an * ac by {
      if n < 0.0 && c < 0.0 { assert n * c == (-n) * (-c); }
      else if n < 0.0 { assert -(n * c) == (-n) * c; }
      else if c < 0.0 { assert -(n * c) == n * (-c); }
    }
    assert an * ac <= k * ac;
  }
}
