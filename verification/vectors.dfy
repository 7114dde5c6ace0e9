/** Two-dimensional vectors over the reals, standing in for the game's `f32`
    vectors. Square roots cannot be computed over the reals, so every
    normalisation takes the vector's length as an argument and requires it to
    be that length. */
module Vectors {

  datatype Vec2 = Vec2(x: real, y: real)

  const Zero: Vec2 := Vec2(0.0, 0.0)

  function Add(a: Vec2, b: Vec2): Vec2 {
    Vec2(a.x + b.x, a.y + b.y)
  }

  function Sub(a: Vec2, b: Vec2): Vec2 {
    Vec2(a.x - b.x, a.y - b.y)
  }

  function Scale(v: Vec2, k: real): Vec2 {
    Vec2(v.x * k, v.y * k)
  }

  /** Squared Euclidean length. */
  function SqLen(v: Vec2): real {
    v.x * v.x + v.y * v.y
  }

  /** `len` is the Euclidean length (magnitude) of `v`. That only the zero
      vector has length zero follows from the squares, but it is stated here
      because the solver's non-linear reasoning does not find it. */
  predicate IsLength(v: Vec2, len: real) {
    && len >= 0.0
    && len * len == SqLen(v)
    && (len == 0.0 <==> v == Zero)
  }

  /** The unit vector pointing the same way as `v` (cgmath `normalize`,
      whose result for the zero vector is undefined). */
  function Normalize(v: Vec2, len: real): (r: Vec2)
    requires IsLength(v, len) && len > 0.0
    ensures SqLen(r) == 1.0
    ensures r.x * len == v.x && r.y * len == v.y
  {
    var r := Vec2(v.x / len, v.y / len);
    assert r.x * len == v.x && r.y * len == v.y;
    calc {
      SqLen(r) * (len * len);
      (r.x * len) * (r.x * len) + (r.y * len) * (r.y * len);
      SqLen(v);
      len * len;
    }
    r
  }

  /** Bevy's `normalize_or_zero`: the zero vector stays zero. */
  function NormalizeOrZero(v: Vec2, len: real): (r: Vec2)
    requires IsLength(v, len)
    ensures r == Zero <==> v == Zero
    ensures v != Zero ==> SqLen(r) == 1.0 && r.x * len == v.x && r.y * len == v.y
  {
    if len == 0.0 then Zero else Normalize(v, len)
  }

  /** `q * len == v` with a positive `len` gives `q` the sign of `v`. */
  lemma SignOfQuotient(q: real, len: real, v: real)
    requires len > 0.0 && q * len == v
    ensures q > 0.0 <==> v > 0.0
    ensures q < 0.0 <==> v < 0.0
  {
    if q > 0.0 { assert q * len > 0.0; }
    if q < 0.0 { assert q * len < 0.0; }
    if q == 0.0 { assert q * len == 0.0; }
  }

  /** Normalising keeps the sign of each component. */
  lemma NormalizeKeepsSigns(v: Vec2, len: real)
    requires IsLength(v, len)
    ensures var r := NormalizeOrZero(v, len);
            && (r.x > 0.0 <==> v.x > 0.0) && (r.x < 0.0 <==> v.x < 0.0)
            && (r.y > 0.0 <==> v.y > 0.0) && (r.y < 0.0 <==> v.y < 0.0)
  {
    if v != Zero {
      assert len > 0.0;
      var r := NormalizeOrZero(v, len);
      SignOfQuotient(r.x, len, v.x);
      SignOfQuotient(r.y, len, v.y);
    }
  }
}
