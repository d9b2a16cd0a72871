/** Three-component vectors and the vector helpers the physics is written in. Every helper
    returns a new vector; nothing is updated in place. A literal that leaves out `z` is
    modelled with z = 0. */
module Vector {
  import opened Numerics

  datatype Vec = Vec(x: real, y: real, z: real)

  const Zero := Vec(0.0, 0.0, 0.0)

  /** A two-component literal `{ x, y }`. */
  function Xy(x: real, y: real): Vec {
    Vec(x, y, 0.0)
  }

  function Plus(a: Vec, b: Vec): Vec {
    Vec(a.x + b.x, a.y + b.y, a.z + b.z)
  }

  /** The component sums of a list of vectors, folded from the left as `reduce` does,
      starting at 0. */
  function Sum(vs: seq<Vec>): Vec
    decreases |vs|
  {
    if |vs| == 0 then Zero else Plus(Sum(vs[..|vs| - 1]), vs[|vs| - 1])
  }

  /** `add(vector, ...vectors)`. */
  function Add(v: Vec, vs: seq<Vec>): Vec {
    Plus(v, Sum(vs))
  }

  function Subtract(a: Vec, b: Vec): Vec {
    Vec(a.x - b.x, a.y - b.y, a.z - b.z)
  }

  function Multiply(v: Vec, s: real): Vec {
    Vec(v.x * s, v.y * s, v.z * s)
  }

  function Divide(v: Vec, s: real): Vec
    requires s != 0.0
  {
    Vec(v.x / s, v.y / s, v.z / s)
  }

  function Invert(v: Vec): Vec {
    Vec(-v.x, -v.y, -v.z)
  }

  /** The squared Euclidean length, the argument of the square root in `magnitude`. */
  function NormSq(v: Vec): real {
    v.x * v.x + v.y * v.y + v.z * v.z
  }

  function Magnitude(m: Math, v: Vec): real {
    m.sqrt(NormSq(v))
  }

  /** `withMagnitude`: v rescaled to length n, or (n, 0, 0) when v has length 0. Each
      component (c / len) * n is written as c * (n / len), the same real number. */
  function WithMagnitude(m: Math, v: Vec, n: real): Vec {
    var len := Magnitude(m, v);
    if len == 0.0 then Vec(n, 0.0, 0.0) else Multiply(v, n / len)
  }

  /** `interpolateMagnitude`: v rescaled to its length clamped to [minSource, maxSource]
      and remapped linearly onto [minTarget, maxTarget]. The source calls withMagnitude in
      each of its three branches; the branch only chooses the length, InterpolatedLength. */
  function InterpolateMagnitude(m: Math, v: Vec, minSource: real, maxSource: real,
                                minTarget: real, maxTarget: real): Vec
  {
    WithMagnitude(m, v, InterpolatedLength(Magnitude(m, v), minSource, maxSource,
                                           minTarget, maxTarget))
  }

  /** The length interpolateMagnitude aims at: maxTarget at or above maxSource (the first
      branch), minTarget at or below minSource, and the linear remap of the length in
      between. */
  function InterpolatedLength(len: real, minSource: real, maxSource: real,
                              minTarget: real, maxTarget: real): real
  {
    if len >= maxSource then maxTarget
    else if len <= minSource then minTarget
    else minTarget + (maxTarget - minTarget) * ((len - minSource) / (maxSource - minSource))
  }

  /** `clampMagnitude`, with components scaled as in WithMagnitude. A negative bound applied to the zero vector divides by zero in the
      source (the result is NaN); that input is excluded here. */
  function ClampMagnitude(m: Math, v: Vec, max: real): Vec
    requires 0.0 <= max || Magnitude(m, v) != 0.0
  {
    var len := Magnitude(m, v);
    if len <= max then v else Multiply(v, max / len)
  }

  function Clamp(v: Vec, minX: real, maxX: real, minY: real, maxY: real,
                 minZ: real, maxZ: real): Vec
  {
    Vec(Min(maxX, Max(minX, v.x)), Min(maxY, Max(minY, v.y)), Min(maxZ, Max(minZ, v.z)))
  }

  /** `rotate`: a rotation by `angle` in the x-y plane; z is kept. */
  function Rotate(m: Math, v: Vec, angle: real): Vec {
    Vec(v.x * m.cos(angle) - v.y * m.sin(angle),
        v.x * m.sin(angle) + v.y * m.cos(angle),
        v.z)
  }

  // ---------------------------------------------------------------- add

  /** With no extra vectors, `add` returns its first argument, because the empty reduction
      is 0. With one, it adds componentwise. */
  lemma AddNoneOrOne(v: Vec, w: Vec)
    ensures Add(v, []) == v
    ensures Add(v, [w]) == Vec(v.x + w.x, v.y + w.y, v.z + w.z)
  {
    assert [w][..0] == [];
  }

  /** Extra vectors may be split anywhere: the sum of a concatenation is the sum of the
      sums, so the order in which `add` folds them does not matter. */
  lemma {:induction false} SumAppend(a: seq<Vec>, b: seq<Vec>)
    ensures Sum(a + b) == Plus(Sum(a), Sum(b))
    decreases |b|
  {
    if |b| == 0 {
      assert a + b == a;
    } else {
      var b' := b[..|b| - 1];
      assert (a + b)[..|a + b| - 1] == a + b';
      SumAppend(a, b');
    }
  }

  /** `add(v, a, b)` equals `add(add(v, a), b)`. */
  lemma AddThree(v: Vec, a: Vec, b: Vec)
    ensures Add(v, [a, b]) == Add(Add(v, [a]), [b])
  {
    assert [a, b][..1] == [a];
    assert [a][..0] == [];
    assert [b][..0] == [];
    assert Sum([a]) == Plus(Zero, a);
    assert Sum([b]) == Plus(Zero, b);
    assert Sum([a, b]) == Plus(Sum([a]), b);
  }

  // ---------------------------------------------------------------- inverses

  /** Adding back what was subtracted gives the original; invert is an involution. */
  lemma SubtractInverse(a: Vec, b: Vec)
    ensures Add(Subtract(a, b), [b]) == a
    ensures Subtract(Add(a, [b]), b) == a
    ensures Invert(Invert(a)) == a
    ensures Subtract(a, b) == Add(a, [Invert(b)])
  {
    AddNoneOrOne(Subtract(a, b), b);
    AddNoneOrOne(a, b);
    AddNoneOrOne(a, Invert(b));
  }

  /** Dividing by a non-zero scalar undoes multiplying by it, and the other way round. */
  lemma DivideInverse(v: Vec, s: real)
    requires s != 0.0
    ensures Divide(Multiply(v, s), s) == v
    ensures Multiply(Divide(v, s), s) == v
  {
    DivideMultiply(v, s);
    MultiplyDivide(v, s);
  }

  lemma DivideMultiply(v: Vec, s: real)
    requires s != 0.0
    ensures Divide(Multiply(v, s), s) == v
  {
    var d := Divide(Multiply(v, s), s);
    assert d.x == v.x by { DivMulCancel(v.x, s); }
    assert d.y == v.y by { DivMulCancel(v.y, s); }
    assert d.z == v.z by { DivMulCancel(v.z, s); }
  }

  lemma MultiplyDivide(v: Vec, s: real)
    requires s != 0.0
    ensures Multiply(Divide(v, s), s) == v
  {
    var e := Multiply(Divide(v, s), s);
    assert e.x == v.x by { DivMulCancel(v.x, s); }
    assert e.y == v.y by { DivMulCancel(v.y, s); }
    assert e.z == v.z by { DivMulCancel(v.z, s); }
  }

  // ---------------------------------------------------------------- magnitude

  lemma NormSqNonNegative(v: Vec)
    ensures 0.0 <= NormSq(v)
    ensures NormSq(v) == 0.0 <==> v == Zero
  {
    SquareLaw(v.x);
    SquareLaw(v.y);
    SquareLaw(v.z);
  }

  /** The magnitude is a non-negative length whose square is x² + y² + z², and it is zero
      exactly for the zero vector. */
  lemma MagnitudeLaw(m: Math, v: Vec)
    requires SqrtLaw(m)
    ensures 0.0 <= Magnitude(m, v)
    ensures Magnitude(m, v) * Magnitude(m, v) == NormSq(v)
    ensures Magnitude(m, v) == 0.0 <==> v == Zero
  {
    MagnitudeSquare(m, v);
    MagnitudeZero(m, v);
  }

  lemma MagnitudeNonNegative(m: Math, v: Vec)
    requires SqrtLaw(m)
    ensures 0.0 <= Magnitude(m, v)
  {
    NormSqNonNegative(v);
  }

  lemma MagnitudeSquare(m: Math, v: Vec)
    requires SqrtLaw(m)
    ensures 0.0 <= Magnitude(m, v)
    ensures Magnitude(m, v) * Magnitude(m, v) == NormSq(v)
  {
    NormSqNonNegative(v);
    var n := NormSq(v);
    assert 0.0 <= m.sqrt(n) && m.sqrt(n) * m.sqrt(n) == n;
  }

  lemma MagnitudeZero(m: Math, v: Vec)
    requires SqrtLaw(m)
    ensures Magnitude(m, v) == 0.0 <==> v == Zero
  {
    NormSqNonNegative(v);
    SqrtZero(m, NormSq(v));
  }

  /** A vector whose components are all zero has length zero. */
  lemma NullLength(m: Math, v: Vec)
    requires SqrtLaw(m)
    requires v.x == 0.0 && v.y == 0.0 && v.z == 0.0
    ensures Magnitude(m, v) == 0.0
  {
    NullNorm(v);
    NullNormLength(m, v);
  }

  lemma NullNorm(v: Vec)
    requires v.x == 0.0 && v.y == 0.0 && v.z == 0.0
    ensures NormSq(v) == 0.0
  {
  }

  lemma NullNormLength(m: Math, v: Vec)
    requires SqrtLaw(m) && NormSq(v) == 0.0
    ensures Magnitude(m, v) == 0.0
  {
    SqrtUnique(m, 0.0, 0.0);
  }

  lemma NormSqScale(v: Vec, s: real)
    ensures NormSq(Multiply(v, s)) == s * s * NormSq(v)
  {
    assert (v.x * s) * (v.x * s) == s * s * (v.x * v.x);
    assert (v.y * s) * (v.y * s) == s * s * (v.y * v.y);
    assert (v.z * s) * (v.z * s) == s * s * (v.z * v.z);
  }

  /** Scaling by s multiplies the length by |s|. */
  lemma MagnitudeScale(m: Math, v: Vec, s: real)
    requires SqrtLaw(m)
    ensures Magnitude(m, Multiply(v, s)) == Abs(s) * Magnitude(m, v)
  {
    var len := Magnitude(m, v);
    MagnitudeSquare(m, v);
    NormSqScale(v, s);
    ScaledSquare(s, len, NormSq(v));
    SqrtUnique(m, NormSq(Multiply(v, s)), Abs(s) * len);
  }

  lemma ScaledSquare(s: real, len: real, n: real)
    requires 0.0 <= len && len * len == n
    ensures 0.0 <= Abs(s) * len
    ensures (Abs(s) * len) * (Abs(s) * len) == s * s * n
  {
    assert Abs(s) * Abs(s) == s * s;
    assert (Abs(s) * len) * (Abs(s) * len) == (Abs(s) * Abs(s)) * (len * len);
  }

  /** A vector of length len rescaled by n / len has length |n|. */
  lemma RescaledLength(m: Math, v: Vec, n: real)
    requires SqrtLaw(m) && Magnitude(m, v) != 0.0
    ensures Magnitude(m, Multiply(v, n / Magnitude(m, v))) == Abs(n)
  {
    var len := Magnitude(m, v);
    MagnitudeLaw(m, v);
    MagnitudeScale(m, v, n / len);
    AbsRatio(n, len);
  }

  lemma AbsRatio(n: real, len: real)
    requires 0.0 < len
    ensures Abs(n / len) * len == Abs(n)
  {
    assert n / len * len == n;
  }

  // ---------------------------------------------------------------- withMagnitude

  /** withMagnitude of a zero-length vector is (n, 0, 0); otherwise it points along v
      (a positive multiple of v when n > 0). Either way its length is |n|, so exactly n
      when n >= 0. */
  lemma WithMagnitudeLaw(m: Math, v: Vec, n: real)
    requires SqrtLaw(m)
    ensures v == Zero ==> WithMagnitude(m, v, n) == Vec(n, 0.0, 0.0)
    ensures v != Zero ==>
      0.0 < Magnitude(m, v) && WithMagnitude(m, v, n) == Multiply(v, n / Magnitude(m, v))
    ensures Magnitude(m, WithMagnitude(m, v, n)) == Abs(n)
  {
    MagnitudeLaw(m, v);
    WithMagnitudeLength(m, v, n);

  }

  lemma WithMagnitudeLength(m: Math, v: Vec, n: real)
    requires SqrtLaw(m)
    ensures Magnitude(m, WithMagnitude(m, v, n)) == Abs(n)
  {
    var len := Magnitude(m, v);
    if len == 0.0 {
      AxisLength(m, n);
    } else {
      RescaledLength(m, v, n);
    }
  }

  /** The vector (n, 0, 0) has length |n|. */
  lemma AxisLength(m: Math, n: real)
    requires SqrtLaw(m)
    ensures Magnitude(m, Vec(n, 0.0, 0.0)) == Abs(n)
  {
    assert NormSq(Vec(n, 0.0, 0.0)) == n * n;
    SqrtOfSquare(m, n);
  }

  // ---------------------------------------------------------------- clampMagnitude

  /** clampMagnitude keeps a vector no longer than the bound, and otherwise rescales it to
      length exactly the bound along its own direction. For a non-negative bound the result
      is never longer than either the input or the bound. */
  lemma ClampMagnitudeLaw(m: Math, v: Vec, max: real)
    requires SqrtLaw(m)
    requires 0.0 <= max || Magnitude(m, v) != 0.0
    ensures Magnitude(m, v) <= max ==> ClampMagnitude(m, v, max) == v
    ensures Magnitude(m, v) > max ==>
      ClampMagnitude(m, v, max) == Multiply(v, max / Magnitude(m, v))
    ensures Magnitude(m, v) > max ==> Magnitude(m, ClampMagnitude(m, v, max)) == Abs(max)
    ensures 0.0 <= max ==> Magnitude(m, ClampMagnitude(m, v, max)) == Min(Magnitude(m, v), max)
  {
    var len := Magnitude(m, v);
    MagnitudeLaw(m, v);
    if len > max {
      RescaledLength(m, v, max);
    }
  }

  // ---------------------------------------------------------------- interpolateMagnitude

  /** interpolateMagnitude returns a vector whose length is |target|, where the target
      length saturates at both ends of the source range; for 0 <= minTarget <= maxTarget
      the length stays within the target range and is non-decreasing in the input length. */
  lemma InterpolateMagnitudeLaw(m: Math, v: Vec, minSource: real, maxSource: real,
                                minTarget: real, maxTarget: real)
    requires SqrtLaw(m)
    ensures Magnitude(m, InterpolateMagnitude(m, v, minSource, maxSource, minTarget, maxTarget))
      == Abs(InterpolatedLength(Magnitude(m, v), minSource, maxSource, minTarget, maxTarget))
    ensures Magnitude(m, v) >= maxSource ==>
      Magnitude(m, InterpolateMagnitude(m, v, minSource, maxSource, minTarget, maxTarget)) == Abs(maxTarget)
    ensures Magnitude(m, v) < maxSource && Magnitude(m, v) <= minSource ==>
      Magnitude(m, InterpolateMagnitude(m, v, minSource, maxSource, minTarget, maxTarget)) == Abs(minTarget)
    ensures 0.0 <= minTarget <= maxTarget ==>
      minTarget <= Magnitude(m, InterpolateMagnitude(m, v, minSource, maxSource, minTarget, maxTarget)) <= maxTarget
  {
    WithMagnitudeLength(m, v, InterpolatedLength(Magnitude(m, v), minSource, maxSource,
                                                 minTarget, maxTarget));
    if minTarget <= maxTarget {
      InterpolatedLengthBounds(Magnitude(m, v), minSource, maxSource, minTarget, maxTarget);
    }
  }

  lemma InterpolatedLengthBounds(len: real, minSource: real, maxSource: real,
                                 minTarget: real, maxTarget: real)
    requires minTarget <= maxTarget
    ensures minTarget <= InterpolatedLength(len, minSource, maxSource, minTarget, maxTarget) <= maxTarget
  {
    if minSource < len < maxSource {
      RatioInUnit(len - minSource, maxSource - minSource);
      Lerp(minTarget, maxTarget, (len - minSource) / (maxSource - minSource));
    }
  }

  /** For ordered target bounds, a longer input never gets a shorter target length. */
  lemma InterpolatedLengthMonotone(a: real, b: real, minSource: real, maxSource: real,
                                   minTarget: real, maxTarget: real)
    requires a <= b && minTarget <= maxTarget
    ensures InterpolatedLength(a, minSource, maxSource, minTarget, maxTarget)
      <= InterpolatedLength(b, minSource, maxSource, minTarget, maxTarget)
  {
    InterpolatedLengthBounds(a, minSource, maxSource, minTarget, maxTarget);
    InterpolatedLengthBounds(b, minSource, maxSource, minTarget, maxTarget);
    if minSource < a && b < maxSource {
      var range := maxSource - minSource;
      var pa, pb := (a - minSource) / range, (b - minSource) / range;
      assert pa * range == a - minSource && pb * range == b - minSource;
      assert (pb - pa) * range == b - a;
      NonNegativeFactor(pb - pa, range);
      assert 0.0 <= (maxTarget - minTarget) * (pb - pa);
    }
  }

  // ---------------------------------------------------------------- clamp

  /** With ordered bounds every component ends up inside its bounds, and a vector already
      inside them is returned unchanged. */
  lemma ClampLaw(v: Vec, minX: real, maxX: real, minY: real, maxY: real, minZ: real, maxZ: real)
    requires minX <= maxX && minY <= maxY && minZ <= maxZ
    ensures var r := Clamp(v, minX, maxX, minY, maxY, minZ, maxZ);
      minX <= r.x <= maxX && minY <= r.y <= maxY && minZ <= r.z <= maxZ
    ensures minX <= v.x <= maxX && minY <= v.y <= maxY && minZ <= v.z <= maxZ ==>
      Clamp(v, minX, maxX, minY, maxY, minZ, maxZ) == v
  {
  }

  // ---------------------------------------------------------------- rotate

  /** A rotation keeps z and, given sin² + cos² = 1, keeps the length. */
  lemma RotatePreservesMagnitude(m: Math, v: Vec, angle: real)
    requires TrigLaw(m)
    ensures Rotate(m, v, angle).z == v.z
    ensures NormSq(Rotate(m, v, angle)) == NormSq(v)
    ensures Magnitude(m, Rotate(m, v, angle)) == Magnitude(m, v)
  {
    var c, s := m.cos(angle), m.sin(angle);
    assert s * s + c * c == 1.0;
    var r := Rotate(m, v, angle);
    calc {
      r.x * r.x + r.y * r.y;
      (v.x * c - v.y * s) * (v.x * c - v.y * s) + (v.x * s + v.y * c) * (v.x * s + v.y * c);
      (v.x * v.x + v.y * v.y) * (s * s + c * c);
      v.x * v.x + v.y * v.y;
    }
  }
}
