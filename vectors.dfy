/** The slice of Babylon's `Vector3` that the core uses: componentwise
    addition and scaling, and a length and normalisation whose library code is
    not part of this model. The length is passed around as a function `norm`
    of which only `IsNorm` is assumed: it is non-negative and its square is
    x^2 + y^2 + z^2. */
module Vectors {
  import opened JsMath

  datatype Vec3 = Vec3(x: real, y: real, z: real) {

    /** `add` / `addInPlace`. */
    function Add(v: Vec3): Vec3 {
      Vec3(x + v.x, y + v.y, z + v.z)
    }

    /** `scale`. */
    function Scale(k: real): Vec3 {
      Vec3(k * x, k * y, k * z)
    }

    function Dot(v: Vec3): real {
      x * v.x + y * v.y + z * v.z
    }

    /** The squared Euclidean length. */
    function LengthSq(): (r: real)
      ensures r >= 0.0
    {
      var r := x * x + y * y + z * z;
      SquarePos(x, x * x);
      SquarePos(y, y * y);
      SquarePos(z, z * z);
      r
    }
  }

  /** `Vector3.Zero()`. */
  function Zero(): Vec3 {
    Vec3(0.0, 0.0, 0.0)
  }

  /** Zero is a left identity of `Add`. */
  lemma AddZero(v: Vec3)
    ensures Zero().Add(v) == v
  {
  }

  /** The squared length is zero exactly for the zero vector. */
  lemma LengthSqZero(v: Vec3)
    ensures v.LengthSq() == 0.0 <==> v == Zero()
  {
    SquarePos(v.x, v.x * v.x);
    SquarePos(v.y, v.y * v.y);
    SquarePos(v.z, v.z * v.z);
  }

  /** `n` is the Euclidean length of `v`. */
  predicate IsLength(n: real, v: Vec3) {
    n >= 0.0 && n * n == v.LengthSq()
  }

  /** What is assumed of the library's `length()`. The fact about one
      vector is brought in by asserting `IsLength(norm(v), v)`, which keeps
      the solver from instantiating it for every length in sight. */
  ghost predicate IsNorm(norm: Vec3 -> real) {
    forall v {:trigger IsLength(norm(v), v)} :: IsLength(norm(v), v)
  }

  /** `normalize()` / `normalizeToNew()`: a zero-length vector is returned
      unchanged, any other is divided by its length. */
  function Normalized(norm: Vec3 -> real, v: Vec3): Vec3 {
    var n := norm(v);
    if n == 0.0 then v else v.Scale(1.0 / n)
  }

  /** The factor by which `Normalized` scales its argument. */
  function NormalizingFactor(norm: Vec3 -> real, v: Vec3): real {
    var n := norm(v);
    if n == 0.0 then 1.0 else 1.0 / n
  }

  // Facts of nonlinear real arithmetic. Each names its products, a form in
  // which the solver keeps them apart from the linear reasoning around them.

  lemma MulPos(a: real, b: real, p: real)
    requires p == a * b && a > 0.0 && b > 0.0
    ensures p > 0.0
  {
  }

  lemma MulNonneg(a: real, b: real, p: real)
    requires p == a * b && a >= 0.0 && b >= 0.0
    ensures p >= 0.0
  {
    if a > 0.0 && b > 0.0 {
      MulPos(a, b, p);
    }
  }

  lemma SquarePos(a: real, p: real)
    requires p == a * a
    ensures p >= 0.0
    ensures a != 0.0 ==> p > 0.0
  {
    if a > 0.0 {
      MulPos(a, a, p);
    } else if a < 0.0 {
      assert p == (-a) * (-a);
      MulPos(-a, -a, p);
    }
  }

  lemma SquareMono(a: real, b: real, p: real, q: real)
    requires a >= 0.0 && b >= 0.0 && p == a * a && q == b * b && p <= q
    ensures a <= b
  {
    if a > b {
      var s := (a - b) * (a + b);
      assert s == p - q;
      MulPos(a - b, a + b, s);
    }
  }

  /** A length, when it exists, is unique. */
  lemma LengthUnique(n1: real, n2: real, v: Vec3)
    requires IsLength(n1, v) && IsLength(n2, v)
    ensures n1 == n2
  {
    SquareMono(n1, n2, n1 * n1, n2 * n2);
    SquareMono(n2, n1, n2 * n2, n1 * n1);
  }

  /** Lengths are ordered as their squares. */
  lemma LengthMono(nu: real, nv: real, u: Vec3, v: Vec3)
    requires IsLength(nu, u) && IsLength(nv, v) && u.LengthSq() <= v.LengthSq()
    ensures nu <= nv
  {
    SquareMono(nu, nv, nu * nu, nv * nv);
  }

  /** Scaling by k scales the length by |k|. */
  lemma LengthOfScaled(n: real, v: Vec3, k: real)
    requires IsLength(n, v)
    ensures IsLength(Abs(k) * n, v.Scale(k))
  {
    var a := Abs(k);
    ScaledLengthSq(v, k);
    AbsSq(k);
    ProdSq(a, n);
    MulNonneg(a, n, a * n);
  }

  lemma ScaledLengthSq(v: Vec3, k: real)
    ensures v.Scale(k).LengthSq() == (k * k) * v.LengthSq()
  {
    ProdSq(k, v.x);
    ProdSq(k, v.y);
    ProdSq(k, v.z);
    Distr(k * k, v.x * v.x, v.y * v.y, v.z * v.z);
  }

  lemma ProdSq(a: real, b: real)
    ensures (a * b) * (a * b) == (a * a) * (b * b)
  {
  }

  lemma Distr(k: real, x: real, y: real, z: real)
    ensures k * x + k * y + k * z == k * (x + y + z)
  {
  }

  lemma AbsSq(k: real)
    ensures Abs(k) * Abs(k) == k * k
  {
    if k < 0.0 {
      assert (-k) * (-k) == k * k;
    }
  }

  /** Normalising scales by a non-negative factor, and so never turns an axis
      around. */
  lemma NormalizedIsScaled(norm: Vec3 -> real, v: Vec3)
    requires norm(v) >= 0.0
    ensures Normalized(norm, v) == v.Scale(NormalizingFactor(norm, v))
    ensures NormalizingFactor(norm, v) >= 0.0
  {
  }

  /** A length is zero exactly for the zero vector. */
  lemma LengthZero(n: real, v: Vec3)
    requires IsLength(n, v)
    ensures n == 0.0 <==> v == Zero()
  {
    LengthSqZero(v);
    SquarePos(n, n * n);
  }

  /** Normalising a non-zero vector gives a vector of length 1; normalising
      zero gives zero. */
  lemma NormalizedLength(norm: Vec3 -> real, v: Vec3)
    requires IsNorm(norm)
    ensures v == Zero() ==> Normalized(norm, v) == Zero()
    ensures v != Zero() ==> norm(Normalized(norm, v)) == 1.0
  {
    assert IsLength(norm(v), v);
    LengthZero(norm(v), v);
    if v != Zero() {
      NormalizedUnit(norm, v);
    }
  }

  lemma NormalizedUnit(norm: Vec3 -> real, v: Vec3)
    requires IsNorm(norm) && v != Zero()
    ensures norm(Normalized(norm, v)) == 1.0
  {
    var n := norm(v);
    assert IsLength(n, v);
    UnitScaled(n, v);
    var u := v.Scale(1.0 / n);
    assert IsLength(norm(u), u);
    LengthUnique(1.0, norm(u), u);
  }

  /** Dividing a non-zero vector by its length gives length 1. */
  lemma UnitScaled(n: real, v: Vec3)
    requires IsLength(n, v) && v != Zero()
    ensures n > 0.0 && IsLength(1.0, v.Scale(1.0 / n))
  {
    LengthZero(n, v);
    LengthOfScaled(n, v, 1.0 / n);
    assert Abs(1.0 / n) * n == 1.0;
  }

  /** The triangle inequality |u + v| <= |u| + |v|, from the Cauchy-Schwarz
      inequality (u.v)^2 <= |u|^2 |v|^2. */
  lemma Triangle(u: Vec3, v: Vec3, nu: real, nv: real, nuv: real)
    requires IsLength(nu, u) && IsLength(nv, v) && IsLength(nuv, u.Add(v))
    ensures nuv <= nu + nv
  {
    var d := u.Dot(v);
    var m := nu * nv;
    MulNonneg(nu, nv, m);
    CauchySchwarz(u, v, nu, nv);
    var s := nu + nv;
    assert s * s == nu * nu + 2.0 * m + nv * nv;
    assert nuv * nuv == nu * nu + 2.0 * d + nv * nv by {
      assert u.Add(v).LengthSq() == u.LengthSq() + 2.0 * d + v.LengthSq();
    }
    SquareMono(nuv, s, nuv * nuv, s * s);
  }

  /** u.v <= |u| |v|. */
  lemma CauchySchwarz(u: Vec3, v: Vec3, nu: real, nv: real)
    requires IsLength(nu, u) && IsLength(nv, v)
    ensures u.Dot(v) <= nu * nv
  {
    var d := u.Dot(v);
    var m := nu * nv;
    MulNonneg(nu, nv, m);
    if d > 0.0 {
      var cx := u.y * v.z - u.z * v.y;
      var cy := u.z * v.x - u.x * v.z;
      var cz := u.x * v.y - u.y * v.x;
      var c := cx * cx + cy * cy + cz * cz;
      Lagrange(u, v);
      SquarePos(cx, cx * cx);
      SquarePos(cy, cy * cy);
      SquarePos(cz, cz * cz);
      assert m * m == (nu * nu) * (nv * nv);
      assert m * m == d * d + c;
      SquareMono(d, m, d * d, m * m);
    }
  }

  /** Lagrange's identity |u|^2 |v|^2 = (u.v)^2 + |u x v|^2. */
  lemma Lagrange(u: Vec3, v: Vec3)
    ensures var cx, cy, cz := u.y * v.z - u.z * v.y, u.z * v.x - u.x * v.z, u.x * v.y - u.y * v.x;
      u.LengthSq() * v.LengthSq() == u.Dot(v) * u.Dot(v) + (cx * cx + cy * cy + cz * cz)
  {
  }
}
