/** The rotation matrix that `rotate` builds, and Rodrigues' formula, which
    that matrix applies.

    Proof style: the identities about turns are proved coordinate by
    coordinate. Each `...Scalar` lemma takes every composite quantity (the
    versine, n . p, a coordinate of a cross product) as a separate real
    parameter, and products are written with `Vectors.Mul`, so that the
    solver matches them by name rather than re-deriving them by
    nonlinear arithmetic. The many parameters are this scaffolding, not
    part of the model. */
module Rodrigues {
  import opened Vectors

  /** 1 - cos, the factor of the matrix's symmetric part. */
  function Versine(c: real): real {
    1.0 - c
  }

  /** The matrix of `rotate`, entry by entry, for the normalised axis `n` and
      the cosine `c` and sine `s` of the angle. */
  function RotationMatrix(n: Vec3, c: real, s: real): Mat3 {
    var x, y, z, v := n.x, n.y, n.z, Versine(c);
    Mat3(Vec3(c + x * x * v, x * y * v - z * s, x * z * v + y * s),
         Vec3(y * x * v + z * s, c + y * y * v, y * z * v - x * s),
         Vec3(z * x * v - y * s, z * y * v + x * s, c + z * z * v))
  }

  /** Rodrigues' rotation formula: c p + (1 - c)(n.p) n + s (n x p). */
  function Turn(n: Vec3, c: real, s: real, p: Vec3): Vec3 {
    Combo(c, p, Versine(c) * Dot(n, p), n, s, Cross(n, p))
  }

  /** One row of the matrix applied to p is one coordinate of Rodrigues'
      formula; the three rows are this identity with the coordinates shifted.
      Every composite quantity is a parameter: the versine v, the row entries
      m1, m2, m3, the product k = n.p and the coordinate cx of n x p. */
  lemma MatrixRowScalar(c: real, s: real, v: real, x: real, y: real, z: real,
                        p1: real, p2: real, p3: real, m1: real, m2: real, m3: real, k: real, cx: real)
    requires m1 == c + Mul(Mul(x, x), v) && m2 == Mul(Mul(x, y), v) - Mul(z, s) && m3 == Mul(Mul(x, z), v) + Mul(y, s)
    requires v == 1.0 - c && k == Mul(x, p1) + Mul(y, p2) + Mul(z, p3) && cx == Mul(y, p3) - Mul(z, p2)
    ensures Mul(m1, p1) + Mul(m2, p2) + Mul(m3, p3) == Mul(c, p1) + Mul(Mul(v, k), x) + Mul(s, cx)
  {
  }

  /** The matrix applies Rodrigues' formula. */
  lemma MatrixIsTurn(n: Vec3, c: real, s: real, p: Vec3)
    ensures Apply(RotationMatrix(n, c, s), p) == Turn(n, c, s, p)
  {
    MatrixIsTurnX(n, c, s, p);
    MatrixIsTurnY(n, c, s, p);
    MatrixIsTurnZ(n, c, s, p);
  }

  /** The three rows of MatrixIsTurn, one at a time. */
  lemma MatrixIsTurnX(n: Vec3, c: real, s: real, p: Vec3)
    ensures Apply(RotationMatrix(n, c, s), p).x == Turn(n, c, s, p).x
  {
    FirstRow(n, c, s);
    ProductCoordinates(RotationMatrix(n, c, s), n, c, p);
    TurnCoordinates(n, c, s, p);
    MatrixRowScalar(c, s, Versine(c), n.x, n.y, n.z, p.x, p.y, p.z,
                    RotationMatrix(n, c, s).r0.x, RotationMatrix(n, c, s).r0.y, RotationMatrix(n, c, s).r0.z, Dot(n, p), Cross(n, p).x);
  }

  lemma MatrixIsTurnY(n: Vec3, c: real, s: real, p: Vec3)
    ensures Apply(RotationMatrix(n, c, s), p).y == Turn(n, c, s, p).y
  {
    SecondRow(n, c, s);
    ProductCoordinates(RotationMatrix(n, c, s), n, c, p);
    TurnCoordinates(n, c, s, p);
    MatrixRowScalar(c, s, Versine(c), n.y, n.z, n.x, p.y, p.z, p.x,
                    RotationMatrix(n, c, s).r1.y, RotationMatrix(n, c, s).r1.z, RotationMatrix(n, c, s).r1.x, Dot(n, p), Cross(n, p).y);
  }

  lemma MatrixIsTurnZ(n: Vec3, c: real, s: real, p: Vec3)
    ensures Apply(RotationMatrix(n, c, s), p).z == Turn(n, c, s, p).z
  {
    ThirdRow(n, c, s);
    ProductCoordinates(RotationMatrix(n, c, s), n, c, p);
    TurnCoordinates(n, c, s, p);
    MatrixRowScalar(c, s, Versine(c), n.z, n.x, n.y, p.z, p.x, p.y,
                    RotationMatrix(n, c, s).r2.z, RotationMatrix(n, c, s).r2.x, RotationMatrix(n, c, s).r2.y, Dot(n, p), Cross(n, p).z);
  }

  /** The first row of the matrix, entry by entry. */
  lemma FirstRow(n: Vec3, c: real, s: real)
    ensures RotationMatrix(n, c, s).r0.x == c + Mul(Mul(n.x, n.x), Versine(c))
    ensures RotationMatrix(n, c, s).r0.y == Mul(Mul(n.x, n.y), Versine(c)) - Mul(n.z, s)
    ensures RotationMatrix(n, c, s).r0.z == Mul(Mul(n.x, n.z), Versine(c)) + Mul(n.y, s)
  {
  }

  /** The second row, starting from its diagonal entry. */
  lemma SecondRow(n: Vec3, c: real, s: real)
    ensures RotationMatrix(n, c, s).r1.y == c + Mul(Mul(n.y, n.y), Versine(c))
    ensures RotationMatrix(n, c, s).r1.z == Mul(Mul(n.y, n.z), Versine(c)) - Mul(n.x, s)
    ensures RotationMatrix(n, c, s).r1.x == Mul(Mul(n.y, n.x), Versine(c)) + Mul(n.z, s)
  {
  }

  /** The third row, starting from its diagonal entry. */
  lemma ThirdRow(n: Vec3, c: real, s: real)
    ensures RotationMatrix(n, c, s).r2.z == c + Mul(Mul(n.z, n.z), Versine(c))
    ensures RotationMatrix(n, c, s).r2.x == Mul(Mul(n.z, n.x), Versine(c)) - Mul(n.y, s)
    ensures RotationMatrix(n, c, s).r2.y == Mul(Mul(n.z, n.y), Versine(c)) + Mul(n.x, s)
  {
  }

  /** The products the matrix proof needs, written out. */
  lemma ProductCoordinates(m: Mat3, n: Vec3, c: real, p: Vec3)
    ensures Versine(c) == 1.0 - c
    ensures Dot(n, p) == Mul(n.x, p.x) + Mul(n.y, p.y) + Mul(n.z, p.z)
    ensures Cross(n, p).x == Mul(n.y, p.z) - Mul(n.z, p.y)
    ensures Cross(n, p).y == Mul(n.z, p.x) - Mul(n.x, p.z)
    ensures Cross(n, p).z == Mul(n.x, p.y) - Mul(n.y, p.x)
    ensures Apply(m, p).x == Mul(m.r0.x, p.x) + Mul(m.r0.y, p.y) + Mul(m.r0.z, p.z)
    ensures Apply(m, p).y == Mul(m.r1.y, p.y) + Mul(m.r1.z, p.z) + Mul(m.r1.x, p.x)
    ensures Apply(m, p).z == Mul(m.r2.z, p.z) + Mul(m.r2.x, p.x) + Mul(m.r2.y, p.y)
  {
  }

  lemma TurnCoordinates(n: Vec3, c: real, s: real, p: Vec3)
    ensures Turn(n, c, s, p).x == Mul(c, p.x) + Mul(Mul(Versine(c), Dot(n, p)), n.x) + Mul(s, Cross(n, p).x)
    ensures Turn(n, c, s, p).y == Mul(c, p.y) + Mul(Mul(Versine(c), Dot(n, p)), n.y) + Mul(s, Cross(n, p).y)
    ensures Turn(n, c, s, p).z == Mul(c, p.z) + Mul(Mul(Versine(c), Dot(n, p)), n.z) + Mul(s, Cross(n, p).z)
  {
  }

  /** The component along a unit axis, with its parts named. */
  lemma AxialScalar(c: real, s: real, v: real, k: real, m: real, o: real)
    requires v == 1.0 - c && m == 1.0 && o == 0.0
    ensures c * k + (v * k) * m + s * o == k
  {
  }

  /** The component of the point along a unit axis is kept. */
  lemma TurnKeepsAxial(n: Vec3, c: real, s: real, p: Vec3)
    requires Dot(n, n) == 1.0
    ensures Dot(n, Turn(n, c, s, p)) == Dot(n, p)
  {
    DotCombo(n, c, p, Versine(c) * Dot(n, p), n, s, Cross(n, p));
    CrossOrthogonal(n, p);
    AxialScalar(c, s, Versine(c), Dot(n, p), Dot(n, n), Dot(n, Cross(n, p)));
  }

  /** One coordinate of TurnBack, with every composite quantity named:
      q = Turn(p), w = n x (n x p), cq = n x q, z = n x n, the opposite sine
      t = -s and the versine v. */
  lemma TurnBackScalar(c: real, s: real, t: real, v: real, k: real, kq: real, m: real,
                       pi: real, ni: real, xi: real, qi: real, cqi: real, wi: real, zi: real)
    requires Mul(c, c) + Mul(s, s) == 1.0 && t == -s && v == 1.0 - c && kq == k && m == 1.0 && zi == 0.0
    requires qi == Mul(c, pi) + Mul(Mul(v, k), ni) + Mul(s, xi)
    requires cqi == Mul(c, xi) + Mul(Mul(v, k), zi) + Mul(s, wi)
    requires wi == Mul(k, ni) - Mul(m, pi)
    ensures Mul(c, qi) + Mul(Mul(v, kq), ni) + Mul(t, cqi) == pi
  {
    TurnBackAlgebra(c, s, t, v, k, kq, m, pi, ni, xi, qi, cqi, wi, zi);
  }

  lemma TurnBackAlgebra(c: real, s: real, t: real, v: real, k: real, kq: real, m: real,
                        pi: real, ni: real, xi: real, qi: real, cqi: real, wi: real, zi: real)
    requires c * c + s * s == 1.0 && t == -s && v == 1.0 - c && kq == k && m == 1.0 && zi == 0.0
    requires qi == c * pi + (v * k) * ni + s * xi
    requires cqi == c * xi + (v * k) * zi + s * wi
    requires wi == k * ni - m * pi
    ensures c * qi + (v * kq) * ni + t * cqi == pi
  {
    var h := c * c + s * s;
    calc {
      c * qi + (v * kq) * ni + t * cqi;
      c * (c * pi + (1.0 - c) * k * ni + s * xi) + (1.0 - c) * k * ni - s * (c * xi + s * (k * ni - pi));
      h * pi + (1.0 - h) * k * ni;
      pi;
    }
  }

  /** Turning by the opposite sine undoes a turn about a unit axis. */
  lemma TurnBack(n: Vec3, c: real, s: real, t: real, p: Vec3)
    requires Dot(n, n) == 1.0 && c * c + s * s == 1.0 && t == -s
    ensures Turn(n, c, t, Turn(n, c, s, p)) == p
  {
    assert Mul(c, c) + Mul(s, s) == 1.0;
    TurnBackX(n, c, s, t, p);
    TurnBackY(n, c, s, t, p);
    TurnBackZ(n, c, s, t, p);
  }

  /** The three coordinates of TurnBack, one at a time. */
  lemma TurnBackX(n: Vec3, c: real, s: real, t: real, p: Vec3)
    requires Dot(n, n) == 1.0 && Mul(c, c) + Mul(s, s) == 1.0 && t == -s
    ensures Turn(n, c, t, Turn(n, c, s, p)).x == p.x
  {
    TurnCoordinates(n, c, s, p);
    TurnCoordinates(n, c, t, Turn(n, c, s, p));
    TurnKeepsAxial(n, c, s, p);
    CrossOfTurnCoordinates(n, c, s, p);
    DoubleCrossCoordinates(n, p);
    CrossSelf(n);
    TurnBackScalar(c, s, t, Versine(c), Dot(n, p), Dot(n, Turn(n, c, s, p)), Dot(n, n),
                   p.x, n.x, Cross(n, p).x, Turn(n, c, s, p).x, Cross(n, Turn(n, c, s, p)).x,
                   Cross(n, Cross(n, p)).x, Cross(n, n).x);
  }

  lemma TurnBackY(n: Vec3, c: real, s: real, t: real, p: Vec3)
    requires Dot(n, n) == 1.0 && Mul(c, c) + Mul(s, s) == 1.0 && t == -s
    ensures Turn(n, c, t, Turn(n, c, s, p)).y == p.y
  {
    TurnCoordinates(n, c, s, p);
    TurnCoordinates(n, c, t, Turn(n, c, s, p));
    TurnKeepsAxial(n, c, s, p);
    CrossOfTurnCoordinates(n, c, s, p);
    DoubleCrossCoordinates(n, p);
    CrossSelf(n);
    TurnBackScalar(c, s, t, Versine(c), Dot(n, p), Dot(n, Turn(n, c, s, p)), Dot(n, n),
                   p.y, n.y, Cross(n, p).y, Turn(n, c, s, p).y, Cross(n, Turn(n, c, s, p)).y,
                   Cross(n, Cross(n, p)).y, Cross(n, n).y);
  }

  lemma TurnBackZ(n: Vec3, c: real, s: real, t: real, p: Vec3)
    requires Dot(n, n) == 1.0 && Mul(c, c) + Mul(s, s) == 1.0 && t == -s
    ensures Turn(n, c, t, Turn(n, c, s, p)).z == p.z
  {
    TurnCoordinates(n, c, s, p);
    TurnCoordinates(n, c, t, Turn(n, c, s, p));
    TurnKeepsAxial(n, c, s, p);
    CrossOfTurnCoordinates(n, c, s, p);
    DoubleCrossCoordinates(n, p);
    CrossSelf(n);
    TurnBackScalar(c, s, t, Versine(c), Dot(n, p), Dot(n, Turn(n, c, s, p)), Dot(n, n),
                   p.z, n.z, Cross(n, p).z, Turn(n, c, s, p).z, Cross(n, Turn(n, c, s, p)).z,
                   Cross(n, Cross(n, p)).z, Cross(n, n).z);
  }

  /** n x Turn(p), coordinate by coordinate. */
  lemma CrossOfTurnCoordinates(n: Vec3, c: real, s: real, p: Vec3)
    ensures Cross(n, Turn(n, c, s, p)).x
         == Mul(c, Cross(n, p).x) + Mul(Mul(Versine(c), Dot(n, p)), Cross(n, n).x) + Mul(s, Cross(n, Cross(n, p)).x)
    ensures Cross(n, Turn(n, c, s, p)).y
         == Mul(c, Cross(n, p).y) + Mul(Mul(Versine(c), Dot(n, p)), Cross(n, n).y) + Mul(s, Cross(n, Cross(n, p)).y)
    ensures Cross(n, Turn(n, c, s, p)).z
         == Mul(c, Cross(n, p).z) + Mul(Mul(Versine(c), Dot(n, p)), Cross(n, n).z) + Mul(s, Cross(n, Cross(n, p)).z)
  {
    CrossCombo(n, c, p, Versine(c) * Dot(n, p), n, s, Cross(n, p));
  }

  /** A turn by cosine 1 and sine 0 changes nothing. */
  lemma TurnByZero(n: Vec3, p: Vec3)
    ensures Turn(n, 1.0, 0.0, p) == p
  {
  }

  /** The origin is on every axis, so every turn keeps it. */
  lemma TurnOfZero(n: Vec3, c: real, s: real)
    ensures Turn(n, c, s, Zero) == Zero
  {
  }

  /** A turn commutes with the point reflection through the origin. */
  lemma TurnOdd(n: Vec3, c: real, s: real, p: Vec3)
    ensures Turn(n, c, s, Neg(p)) == Neg(Turn(n, c, s, p))
  {
    NegInside(n, p);
    TurnCoordinates(n, c, s, p);
    TurnCoordinates(n, c, s, Neg(p));
    OddScalar(c, s, Versine(c), n.x, p.x, Dot(n, p), Cross(n, p).x, Neg(p).x, Dot(n, Neg(p)), Cross(n, Neg(p)).x);
    OddScalar(c, s, Versine(c), n.y, p.y, Dot(n, p), Cross(n, p).y, Neg(p).y, Dot(n, Neg(p)), Cross(n, Neg(p)).y);
    OddScalar(c, s, Versine(c), n.z, p.z, Dot(n, p), Cross(n, p).z, Neg(p).z, Dot(n, Neg(p)), Cross(n, Neg(p)).z);
  }

  lemma NegInside(n: Vec3, p: Vec3)
    ensures Dot(n, Neg(p)) == -Dot(n, p)
    ensures Cross(n, Neg(p)) == Neg(Cross(n, p))
  {
  }

  lemma OddScalar(c: real, s: real, v: real, ni: real, pi: real, k: real, ci: real, qi: real, kq: real, cq: real)
    requires qi == -pi && kq == -k && cq == -ci
    ensures Mul(c, qi) + Mul(Mul(v, kq), ni) + Mul(s, cq) == -(Mul(c, pi) + Mul(Mul(v, k), ni) + Mul(s, ci))
  {
  }

  /** A turn is linear: it maps w - k z to Turn(w) - k Turn(z). */
  lemma TurnLinear(n: Vec3, c: real, s: real, w: Vec3, k: real, z: Vec3)
    ensures Turn(n, c, s, Sub(w, Scale(k, z))) == Sub(Turn(n, c, s, w), Scale(k, Turn(n, c, s, z)))
  {
    var q := Sub(w, Scale(k, z));
    TurnCoordinates(n, c, s, w);
    TurnCoordinates(n, c, s, z);
    TurnCoordinates(n, c, s, q);
    LinearParts(n, w, k, z);
    LinearParts(n, Turn(n, c, s, w), k, Turn(n, c, s, z));
    LinearScalar(c, s, Versine(c), n.x, w.x, z.x, q.x, Dot(n, w), Dot(n, z), Dot(n, q), k,
                 Cross(n, w).x, Cross(n, z).x, Cross(n, q).x);
    LinearScalar(c, s, Versine(c), n.y, w.y, z.y, q.y, Dot(n, w), Dot(n, z), Dot(n, q), k,
                 Cross(n, w).y, Cross(n, z).y, Cross(n, q).y);
    LinearScalar(c, s, Versine(c), n.z, w.z, z.z, q.z, Dot(n, w), Dot(n, z), Dot(n, q), k,
                 Cross(n, w).z, Cross(n, z).z, Cross(n, q).z);
  }

  /** The parts of Rodrigues' formula at w - k z. */
  lemma LinearParts(n: Vec3, w: Vec3, k: real, z: Vec3)
    ensures Sub(w, Scale(k, z)).x == w.x - Mul(k, z.x)
    ensures Sub(w, Scale(k, z)).y == w.y - Mul(k, z.y)
    ensures Sub(w, Scale(k, z)).z == w.z - Mul(k, z.z)
    ensures Dot(n, Sub(w, Scale(k, z))) == Dot(n, w) - Mul(k, Dot(n, z))
    ensures Cross(n, Sub(w, Scale(k, z))).x == Cross(n, w).x - Mul(k, Cross(n, z).x)
    ensures Cross(n, Sub(w, Scale(k, z))).y == Cross(n, w).y - Mul(k, Cross(n, z).y)
    ensures Cross(n, Sub(w, Scale(k, z))).z == Cross(n, w).z - Mul(k, Cross(n, z).z)
  {
    DotLinear(n, w, k, z);
    CrossLinear(n, w, k, z);
  }

  lemma DotLinear(n: Vec3, w: Vec3, k: real, z: Vec3)
    ensures Dot(n, Sub(w, Scale(k, z))) == Dot(n, w) - Mul(k, Dot(n, z))
  {
  }

  lemma CrossLinear(n: Vec3, w: Vec3, k: real, z: Vec3)
    ensures Cross(n, Sub(w, Scale(k, z))).x == Cross(n, w).x - Mul(k, Cross(n, z).x)
    ensures Cross(n, Sub(w, Scale(k, z))).y == Cross(n, w).y - Mul(k, Cross(n, z).y)
    ensures Cross(n, Sub(w, Scale(k, z))).z == Cross(n, w).z - Mul(k, Cross(n, z).z)
  {
    var q := Sub(w, Scale(k, z));
    CrossProducts(n, q);
    CrossProducts(n, w);
    CrossProducts(n, z);
    assert q.x == w.x - Mul(k, z.x) && q.y == w.y - Mul(k, z.y) && q.z == w.z - Mul(k, z.z);
    LinearPair(n.y, n.z, w.z, w.y, z.z, z.y, k, q.z, q.y);
    LinearPair(n.z, n.x, w.x, w.z, z.x, z.z, k, q.x, q.z);
    LinearPair(n.x, n.y, w.y, w.x, z.y, z.x, k, q.y, q.x);
  }

  lemma CrossProducts(n: Vec3, p: Vec3)
    ensures Cross(n, p).x == Mul(n.y, p.z) - Mul(n.z, p.y)
    ensures Cross(n, p).y == Mul(n.z, p.x) - Mul(n.x, p.z)
    ensures Cross(n, p).z == Mul(n.x, p.y) - Mul(n.y, p.x)
  {
  }

  /** a (w1 - k z1) - b (w2 - k z2) == (a w1 - b w2) - k (a z1 - b z2). */
  lemma LinearPair(a: real, b: real, w1: real, w2: real, z1: real, z2: real, k: real, q1: real, q2: real)
    requires q1 == w1 - Mul(k, z1) && q2 == w2 - Mul(k, z2)
    ensures Mul(a, q1) - Mul(b, q2) == (Mul(a, w1) - Mul(b, w2)) - Mul(k, Mul(a, z1) - Mul(b, z2))
  {
  }

  /** One coordinate of TurnLinear, with every composite quantity named. */
  lemma LinearScalar(c: real, s: real, v: real, ni: real, wi: real, zi: real, qi: real,
                     kw: real, kz: real, kq: real, k: real, cw: real, cz: real, cq: real)
    requires qi == wi - Mul(k, zi) && kq == kw - Mul(k, kz) && cq == cw - Mul(k, cz)
    ensures Mul(c, qi) + Mul(Mul(v, kq), ni) + Mul(s, cq) ==
      (Mul(c, wi) + Mul(Mul(v, kw), ni) + Mul(s, cw)) - Mul(k, Mul(c, zi) + Mul(Mul(v, kz), ni) + Mul(s, cz))
  {
  }

  /** The turn by the opposite sine is the adjoint of the turn: moving it
      across a dot product reverses the angle. */
  lemma TurnAdjoint(n: Vec3, c: real, s: real, t: real, p: Vec3, w: Vec3)
    requires t == -s
    ensures Dot(w, Turn(n, c, t, p)) == Dot(p, Turn(n, c, s, w))
  {
    DotTurn(n, c, t, p, w);
    DotTurn(n, c, s, w, p);
    TripleSwap(n, p, w);
    AdjointScalar(c, s, t, Versine(c), Dot(w, p), Dot(p, w), Dot(n, p), Dot(p, n), Dot(n, w), Dot(w, n),
                  Dot(w, Cross(n, p)), Dot(p, Cross(n, w)));
  }

  /** The dot product of w with Rodrigues' formula, term by term. */
  lemma DotTurn(n: Vec3, c: real, s: real, p: Vec3, w: Vec3)
    ensures Dot(w, Turn(n, c, s, p)) ==
      Mul(c, Dot(w, p)) + Mul(Mul(Versine(c), Dot(n, p)), Dot(w, n)) + Mul(s, Dot(w, Cross(n, p)))
  {
    DotCombo(w, c, p, Versine(c) * Dot(n, p), n, s, Cross(n, p));
  }

  /** Dot products are symmetric, and swapping the outer vectors of a triple
      product changes its sign. */
  lemma TripleSwap(n: Vec3, p: Vec3, w: Vec3)
    ensures Dot(w, p) == Dot(p, w) && Dot(n, p) == Dot(p, n) && Dot(n, w) == Dot(w, n)
    ensures Dot(w, Cross(n, p)) == -Dot(p, Cross(n, w))
  {
  }

  lemma AdjointScalar(c: real, s: real, t: real, v: real, wp: real, pw: real, np: real, pn: real,
                      nw: real, wn: real, wc: real, pc: real)
    requires wp == pw && np == pn && nw == wn && t == -s && wc == -pc
    ensures Mul(c, wp) + Mul(Mul(v, np), wn) + Mul(t, wc) == Mul(c, pw) + Mul(Mul(v, nw), pn) + Mul(s, pc)
  {
  }
}
