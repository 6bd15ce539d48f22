/** Three-component real vectors and 3x3 matrices: the part of NumPy's linear
    algebra that the transforms use (element-wise sums, dot and cross
    products, matrix-vector products), stated exactly over the reals.

    Proof style: the solver's nonlinear arithmetic is unreliable on whole
    vector identities, so each one is reduced to a lemma about its
    coordinates (the `...Scalar` lemmas), whose parameters are plain reals
    for every composite quantity (a coordinate, a product, a dot product).
    These lemmas carry no meaning of their own beyond the identity they
    state; they are how the vector lemmas above them are proved. */
module Vectors {

  /** A point or direction: the three numbers of a length-3 list. */
  datatype Vec3 = Vec3(x: real, y: real, z: real)

  /** A 3x3 matrix, row by row. */
  datatype Mat3 = Mat3(r0: Vec3, r1: Vec3, r2: Vec3)

  const Zero := Vec3(0.0, 0.0, 0.0)
  const UnitZ := Vec3(0.0, 0.0, 1.0)

  /** The length-3 list of the vector's coordinates. */
  function AsList(v: Vec3): (r: seq<real>)
    ensures |r| == 3 && FromList(r) == v
  {
    [v.x, v.y, v.z]
  }

  function FromList(s: seq<real>): Vec3
    requires |s| == 3
  {
    Vec3(s[0], s[1], s[2])
  }

  function Add(u: Vec3, v: Vec3): Vec3 {
    Vec3(u.x + v.x, u.y + v.y, u.z + v.z)
  }

  function Sub(u: Vec3, v: Vec3): Vec3 {
    Vec3(u.x - v.x, u.y - v.y, u.z - v.z)
  }

  function Scale(k: real, v: Vec3): Vec3 {
    Vec3(k * v.x, k * v.y, k * v.z)
  }

  /** `v / r` on a NumPy array: each coordinate divided by r. */
  function Divide(v: Vec3, r: real): Vec3
    requires r != 0.0
  {
    Vec3(v.x / r, v.y / r, v.z / r)
  }

  lemma DivideIsScale(v: Vec3, r: real)
    requires r != 0.0
    ensures Divide(v, r) == Scale(1.0 / r, v)
  {
  }

  function Neg(v: Vec3): Vec3 {
    Vec3(-v.x, -v.y, -v.z)
  }

  /** `list(-np.array(v))`: element-wise negation of a list of any length. */
  function Negated(v: seq<real>): (r: seq<real>)
    ensures |r| == |v|
    ensures forall i :: 0 <= i < |v| ==> r[i] == -v[i]
  {
    seq(|v|, i requires 0 <= i < |v| => -v[i])
  }

  /** The product of two reals under a name: the coordinate identities the
      proofs chain together are stated with it, so that the solver matches
      products by their factors instead of by arithmetic. */
  function Mul(a: real, b: real): real {
    a * b
  }

  function Dot(u: Vec3, v: Vec3): real {
    u.x * v.x + u.y * v.y + u.z * v.z
  }

  lemma DotSymmetric(u: Vec3, v: Vec3)
    ensures Dot(u, v) == Dot(v, u)
  {
  }

  function Cross(u: Vec3, v: Vec3): Vec3 {
    Vec3(u.y * v.z - u.z * v.y, u.z * v.x - u.x * v.z, u.x * v.y - u.y * v.x)
  }

  lemma WithUnitZ(n: Vec3)
    ensures Cross(UnitZ, n) == Vec3(-n.y, n.x, 0.0)
    ensures Dot(n, UnitZ) == n.z && Dot(UnitZ, n) == n.z
  {
  }

  /** `np.dot(m, v)` for a 3x3 matrix and a 3-vector. */
  function Apply(m: Mat3, v: Vec3): Vec3 {
    Vec3(Dot(m.r0, v), Dot(m.r1, v), Dot(m.r2, v))
  }

  lemma NegatedList(v: Vec3)
    ensures Negated(AsList(v)) == AsList(Neg(v))
  {
  }

  /** A product with a nonzero factor vanishes only when the other factor does. */
  lemma ProductZero(x: real, y: real)
    requires x * y == 0.0 && x != 0.0
    ensures y == 0.0
  {
    assert y == (x * y) / x;
  }

  lemma SquareNonneg(x: real)
    ensures x * x >= 0.0
  {
    if x < 0.0 {
      assert x * x == (-x) * (-x);
    }
  }

  lemma SquareZero(x: real)
    requires x * x == 0.0
    ensures x == 0.0
  {
    if x != 0.0 {
      ProductZero(x, x);
    }
  }

  /** |v|^2 is non-negative and vanishes exactly at the zero vector. */
  lemma DotSelfZero(v: Vec3)
    ensures Dot(v, v) >= 0.0
    ensures Dot(v, v) == 0.0 <==> v == Zero
  {
    SquareNonneg(v.x);
    SquareNonneg(v.y);
    SquareNonneg(v.z);
    if Dot(v, v) == 0.0 {
      assert v.x * v.x == 0.0 && v.y * v.y == 0.0 && v.z * v.z == 0.0;
      SquareZero(v.x);
      SquareZero(v.y);
      SquareZero(v.z);
    }
  }

  /** The linear combination ka a + kb b + kd d. */
  function Combo(ka: real, a: Vec3, kb: real, b: Vec3, kd: real, d: Vec3): Vec3 {
    Add(Add(Scale(ka, a), Scale(kb, b)), Scale(kd, d))
  }

  /** The coordinates of a linear combination. */
  lemma ComboCoordinates(ka: real, a: Vec3, kb: real, b: Vec3, kd: real, d: Vec3)
    ensures Combo(ka, a, kb, b, kd, d).x == ka * a.x + kb * b.x + kd * d.x
    ensures Combo(ka, a, kb, b, kd, d).y == ka * a.y + kb * b.y + kd * d.y
    ensures Combo(ka, a, kb, b, kd, d).z == ka * a.z + kb * b.z + kd * d.z
  {
  }

  lemma DotCombo(n: Vec3, ka: real, a: Vec3, kb: real, b: Vec3, kd: real, d: Vec3)
    ensures Dot(n, Combo(ka, a, kb, b, kd, d)) == ka * Dot(n, a) + kb * Dot(n, b) + kd * Dot(n, d)
  {
  }

  lemma CrossCombo(n: Vec3, ka: real, a: Vec3, kb: real, b: Vec3, kd: real, d: Vec3)
    ensures Cross(n, Combo(ka, a, kb, b, kd, d)) == Combo(ka, Cross(n, a), kb, Cross(n, b), kd, Cross(n, d))
  {
    CrossComboX(n, ka, a, kb, b, kd, d);
    CrossComboY(n, ka, a, kb, b, kd, d);
    CrossComboZ(n, ka, a, kb, b, kd, d);
  }

  /** The three coordinates of CrossCombo, one at a time. */
  lemma CrossComboX(n: Vec3, ka: real, a: Vec3, kb: real, b: Vec3, kd: real, d: Vec3)
    ensures Cross(n, Combo(ka, a, kb, b, kd, d)).x == Combo(ka, Cross(n, a), kb, Cross(n, b), kd, Cross(n, d)).x
  {
    ComboCoordinates(ka, a, kb, b, kd, d);
    CrossComboScalar(n.y, n.z, Combo(ka, a, kb, b, kd, d).y, Combo(ka, a, kb, b, kd, d).z, ka, a.y, a.z, Cross(n, a).x, kb, b.y, b.z, Cross(n, b).x, kd, d.y, d.z, Cross(n, d).x);
  }

  lemma CrossComboY(n: Vec3, ka: real, a: Vec3, kb: real, b: Vec3, kd: real, d: Vec3)
    ensures Cross(n, Combo(ka, a, kb, b, kd, d)).y == Combo(ka, Cross(n, a), kb, Cross(n, b), kd, Cross(n, d)).y
  {
    ComboCoordinates(ka, a, kb, b, kd, d);
    CrossComboScalar(n.z, n.x, Combo(ka, a, kb, b, kd, d).z, Combo(ka, a, kb, b, kd, d).x, ka, a.z, a.x, Cross(n, a).y, kb, b.z, b.x, Cross(n, b).y, kd, d.z, d.x, Cross(n, d).y);
  }

  lemma CrossComboZ(n: Vec3, ka: real, a: Vec3, kb: real, b: Vec3, kd: real, d: Vec3)
    ensures Cross(n, Combo(ka, a, kb, b, kd, d)).z == Combo(ka, Cross(n, a), kb, Cross(n, b), kd, Cross(n, d)).z
  {
    ComboCoordinates(ka, a, kb, b, kd, d);
    CrossComboScalar(n.x, n.y, Combo(ka, a, kb, b, kd, d).x, Combo(ka, a, kb, b, kd, d).y, ka, a.x, a.y, Cross(n, a).z, kb, b.x, b.y, Cross(n, b).z, kd, d.x, d.y, Cross(n, d).z);
  }

  lemma CrossComboScalar(n1: real, n2: real, v1: real, v2: real, ka: real, a1: real, a2: real, ca: real,
                         kb: real, b1: real, b2: real, cb: real, kd: real, d1: real, d2: real, cd: real)
    requires v1 == ka * a1 + kb * b1 + kd * d1 && v2 == ka * a2 + kb * b2 + kd * d2
    requires ca == n1 * a2 - n2 * a1 && cb == n1 * b2 - n2 * b1 && cd == n1 * d2 - n2 * d1
    ensures n1 * v2 - n2 * v1 == ka * ca + kb * cb + kd * cd
  {
  }

  /** n . (n x p) == 0 */
  lemma CrossOrthogonal(n: Vec3, p: Vec3)
    ensures Dot(n, Cross(n, p)) == 0.0
    ensures Dot(p, Cross(n, p)) == 0.0
  {
    TripleScalar(n.x, n.y, n.z, n.x, n.y, n.z, p.x, p.y, p.z, Cross(n, p).x, Cross(n, p).y, Cross(n, p).z);
    TripleScalar(p.x, p.y, p.z, n.x, n.y, n.z, p.x, p.y, p.z, Cross(n, p).x, Cross(n, p).y, Cross(n, p).z);
  }

  /** The scalar triple product u . (n x p) changes sign when u and n swap;
      in particular it vanishes when u is n or p. */
  lemma TripleScalar(u1: real, u2: real, u3: real, n1: real, n2: real, n3: real, p1: real, p2: real, p3: real,
                     c1: real, c2: real, c3: real)
    requires c1 == n2 * p3 - n3 * p2 && c2 == n3 * p1 - n1 * p3 && c3 == n1 * p2 - n2 * p1
    ensures u1 == n1 && u2 == n2 && u3 == n3 ==> u1 * c1 + u2 * c2 + u3 * c3 == 0.0
    ensures u1 == p1 && u2 == p2 && u3 == p3 ==> u1 * c1 + u2 * c2 + u3 * c3 == 0.0
  {
  }

  /** n x n == 0, coordinate by coordinate. */
  lemma CrossSelf(n: Vec3)
    ensures Cross(n, n).x == 0.0 && Cross(n, n).y == 0.0 && Cross(n, n).z == 0.0
  {
  }

  /** n x (n x p) == (n.p) n - (n.n) p, coordinate by coordinate. */
  lemma DoubleCrossCoordinates(n: Vec3, p: Vec3)
    ensures Cross(n, Cross(n, p)).x == Mul(Dot(n, p), n.x) - Mul(Dot(n, n), p.x)
    ensures Cross(n, Cross(n, p)).y == Mul(Dot(n, p), n.y) - Mul(Dot(n, n), p.y)
    ensures Cross(n, Cross(n, p)).z == Mul(Dot(n, p), n.z) - Mul(Dot(n, n), p.z)
  {
    DoubleCross(n, p);
  }

  /** n x (n x p) == (n.p) n - (n.n) p */
  lemma DoubleCross(n: Vec3, p: Vec3)
    ensures Cross(n, Cross(n, p)) == Sub(Scale(Dot(n, p), n), Scale(Dot(n, n), p))
  {
    DoubleCrossScalar(n.x, n.y, n.z, p.x, p.y, p.z, Cross(n, p).y, Cross(n, p).z, Dot(n, p), Dot(n, n));
    DoubleCrossScalar(n.y, n.z, n.x, p.y, p.z, p.x, Cross(n, p).z, Cross(n, p).x, Dot(n, p), Dot(n, n));
    DoubleCrossScalar(n.z, n.x, n.y, p.z, p.x, p.y, Cross(n, p).x, Cross(n, p).y, Dot(n, p), Dot(n, n));
  }

  lemma DoubleCrossScalar(x: real, y: real, z: real, p: real, q: real, r: real, cq: real, cr: real, k: real, m: real)
    requires cq == z * p - x * r && cr == x * q - y * p
    requires k == x * p + y * q + z * r && m == x * x + y * y + z * z
    ensures y * cr - z * cq == k * x - m * p
  {
  }

  /** Lagrange's identity: |a|^2 |b|^2 - (a.b)^2 == |a x b|^2. */
  lemma Lagrange(a: Vec3, b: Vec3)
    ensures Dot(a, a) * Dot(b, b) - Dot(a, b) * Dot(a, b) == Dot(Cross(a, b), Cross(a, b))
  {
  }
}
