/** Plane vectors over the reals: the arithmetic Ball::Update does on the
    ball's velocity when it bounces off the paddle (mirror reflection across
    the boundary normal, a small rotation, renormalisation to a speed). */
module Geometry {

  datatype Vec = Vec(x: real, y: real)

  function Add(u: Vec, v: Vec): Vec { Vec(u.x + v.x, u.y + v.y) }

  function Sub(u: Vec, v: Vec): Vec { Vec(u.x - v.x, u.y - v.y) }

  function Scale(k: real, v: Vec): Vec { Vec(k * v.x, k * v.y) }

  function Dot(u: Vec, v: Vec): real { u.x * v.x + u.y * v.y }

  /** Squared Euclidean length. */
  function NormSq(v: Vec): (r: real)
    ensures r >= 0.0
  {
    v.x * v.x + v.y * v.y
  }

  predicate IsUnit(n: Vec) { NormSq(n) == 1.0 }

  /** `r` is the square root of `q`. */
  predicate IsRoot(r: real, q: real)
  {
    0.0 <= r && r * r == q
  }

  /** The root of a positive number is positive. */
  lemma RootPositive(r: real, q: real)
    requires IsRoot(r, q) && q > 0.0
    ensures r > 0.0
  {
  }

  lemma ScaleNormSq(k: real, v: Vec)
    ensures NormSq(Scale(k, v)) == k * k * NormSq(v)
  {
  }

  /** The unit normal of the boundary at offset `d` from the centre, given
      `len`, the square root of |d|^2: it has length 1 and points along `d`. */
  function UnitNormal(d: Vec, len: real): (n: Vec)
    requires len > 0.0 && len * len == NormSq(d)
    ensures IsUnit(n)
    ensures Dot(n, d) == len
  {
    var n := Vec(d.x / len, d.y / len);
    assert n == Scale(1.0 / len, d);
    ScaleNormSq(1.0 / len, d);
    assert (1.0 / len) * (1.0 / len) * (len * len) == 1.0;
    assert Dot(n, d) == (1.0 / len) * NormSq(d);
    n
  }

  /** Mirror reflection `v - 2(v.n)n` across the unit normal `n`: it keeps
      the length of `v`, turns its normal component around and keeps its
      component along the wall (the direction perpendicular to `n`). */
  function Reflect(v: Vec, n: Vec): (r: Vec)
    requires IsUnit(n)
    ensures NormSq(r) == NormSq(v)
    ensures Dot(r, n) == -Dot(v, n)
    ensures Dot(r, Vec(-n.y, n.x)) == Dot(v, Vec(-n.y, n.x))
  {
    var a := Dot(v, n);
    var r := Vec(v.x - 2.0 * a * n.x, v.y - 2.0 * a * n.y);
    calc {
      NormSq(r);
      (v.x - 2.0 * a * n.x) * (v.x - 2.0 * a * n.x) + (v.y - 2.0 * a * n.y) * (v.y - 2.0 * a * n.y);
      NormSq(v) - 4.0 * a * Dot(v, n) + 4.0 * a * a * NormSq(n);
      NormSq(v) - 4.0 * a * a + 4.0 * a * a;
    }
    calc {
      Dot(r, n);
      (v.x - 2.0 * a * n.x) * n.x + (v.y - 2.0 * a * n.y) * n.y;
      Dot(v, n) - 2.0 * a * NormSq(n);
    }
    r
  }

  /** Reflecting twice across the same normal gives the original vector back. */
  lemma ReflectTwice(v: Vec, n: Vec)
    requires IsUnit(n)
    ensures Reflect(Reflect(v, n), n) == v
  {
  }

  /** Rotation by the angle whose cosine is `c` and sine is `s`: the length
      is kept, and the result makes that angle with `v` (its components
      along `v` and along `v` turned a quarter counter-clockwise are `c` and
      `s` times |v|^2). */
  function Rotate(v: Vec, c: real, s: real): (r: Vec)
    requires c * c + s * s == 1.0
    ensures NormSq(r) == NormSq(v)
    ensures Dot(r, v) == c * NormSq(v)
    ensures Dot(r, Vec(-v.y, v.x)) == s * NormSq(v)
  {
    var r := Vec(v.x * c - v.y * s, v.x * s + v.y * c);
    calc {
      NormSq(r);
      (v.x * c - v.y * s) * (v.x * c - v.y * s) + (v.x * s + v.y * c) * (v.x * s + v.y * c);
      (c * c + s * s) * (v.x * v.x) + (c * c + s * s) * (v.y * v.y);
      NormSq(v);
    }
    r
  }

  /** Rotating by the opposite angle undoes a rotation. */
  lemma RotateBack(v: Vec, c: real, s: real)
    requires c * c + s * s == 1.0
    ensures Rotate(Rotate(v, c, s), c, -s) == v
  {
  }

  /** Scaling a vector of length `len` by `speed / len` gives length
      |speed|, along the vector. */
  lemma ScaledToSpeed(v: Vec, len: real, speed: real)
    requires len > 0.0 && len * len == NormSq(v)
    ensures NormSq(Scale(speed / len, v)) == speed * speed
    ensures Dot(Scale(speed / len, v), v) == speed * len
  {
  }

  /** `(v / len) * speed` where `len` is the length of `v`: a vector of
      length |speed| pointing along `v` (against it when speed < 0). */
  function Rescale(v: Vec, len: real, speed: real): (r: Vec)
    requires len > 0.0 && len * len == NormSq(v)
    ensures NormSq(r) == speed * speed
    ensures Dot(r, v) == speed * len
  {
    var r := Vec(v.x / len * speed, v.y / len * speed);
    assert r == Scale(speed / len, v);
    ScaledToSpeed(v, len, speed);
    r
  }
}
