/** `reflect` and `glide`: the mirror image of a point in the plane through
    three given points. The plane is moved to pass through the origin, its
    three edge lengths decide whether the points are collinear, its unit
    normal is turned onto +z, the point is mirrored in the xy-plane, turned
    back and moved back. */
module Reflection {
  import opened Vectors
  import opened NumericLibrary
  import opened Rodrigues
  import opened Validation
  import opened Transforms

  // ---------------------------------------------------------------------
  // The collinearity test on the sorted edge lengths

  /** `np.sort` of three numbers. */
  function Sort3(a: real, b: real, c: real): (r: seq<real>)
    ensures |r| == 3 && r[0] <= r[1] <= r[2]
    ensures multiset{r[0], r[1], r[2]} == multiset{a, b, c}
  {
    if a <= b then
      if b <= c then [a, b, c] else if a <= c then [a, c, b] else [c, a, b]
    else
      if a <= c then [b, a, c] else if b <= c then [b, c, a] else [c, b, a]
  }

  /** The test of `reflect`: the two shorter edges add up to the longest. */
  predicate CollinearTest(n0: real, n1: real, n2: real) {
    var sorted := Sort3(n0, n1, n2);
    sorted[0] + sorted[1] == sorted[2]
  }

  /** For lengths, the sorted test holds exactly when one length is the sum
      of the other two, in whichever position. */
  lemma CollinearTestMeaning(a: real, b: real, c: real)
    requires 0.0 <= a && 0.0 <= b && 0.0 <= c
    ensures CollinearTest(a, b, c) <==> a + b == c || a + c == b || b + c == a
  {
  }

  // ---------------------------------------------------------------------
  // Edge lengths and collinearity

  lemma DotOfSum(a: Vec3, b: Vec3)
    ensures Dot(Add(a, b), Add(a, b)) == Dot(a, a) + 2.0 * Dot(a, b) + Dot(b, b)
  {
  }

  lemma DotOfDifference(a: Vec3, b: Vec3)
    ensures Dot(Sub(b, a), Sub(b, a)) == Dot(a, a) - 2.0 * Dot(a, b) + Dot(b, b)
  {
  }

  /** The scalar core of the equality case of the triangle inequality. */
  lemma TriangleScalar(na: real, nb: real, nab: real, aa: real, bb: real, ab: real, cc: real)
    requires na * na == aa && nb * nb == bb && nab * nab == aa + 2.0 * ab + bb && na + nb == nab
    requires aa * bb - ab * ab == cc
    ensures cc == 0.0
  {
    assert (na + nb) * (na + nb) == na * na + 2.0 * (na * nb) + nb * nb;
    assert ab == na * nb;
    assert aa * bb == (na * nb) * (na * nb);
  }

  /** When |a| + |b| = |a + b| the two vectors are parallel. */
  lemma TriangleEquality(lib: Lib, a: Vec3, b: Vec3)
    requires Lawful(lib)
    requires Norm(lib, a) + Norm(lib, b) == Norm(lib, Add(a, b))
    ensures Cross(a, b) == Zero
  {
    NormFacts(lib, a);
    NormFacts(lib, b);
    NormFacts(lib, Add(a, b));
    LengthsAddUp(a, b, Norm(lib, a), Norm(lib, b), Norm(lib, Add(a, b)));
  }

  /** The equality case of the triangle inequality, for any lengths. */
  lemma LengthsAddUp(a: Vec3, b: Vec3, na: real, nb: real, nab: real)
    requires na * na == Dot(a, a) && nb * nb == Dot(b, b) && nab * nab == Dot(Add(a, b), Add(a, b))
    requires na + nb == nab
    ensures Cross(a, b) == Zero
  {
    DotOfSum(a, b);
    Lagrange(a, b);
    TriangleScalar(na, nb, nab, Dot(a, a), Dot(b, b), Dot(a, b), Dot(Cross(a, b), Cross(a, b)));
    DotSelfZero(Cross(a, b));
  }

  /** The scalar core of ParallelIsCollinear: for parallel vectors the dot
      product is plus or minus the product of the lengths. */
  lemma ParallelScalar(na: real, nb: real, aa: real, bb: real, ab: real)
    requires na * na == aa && nb * nb == bb && aa * bb - ab * ab == 0.0
    ensures ab == na * nb || ab == -(na * nb)
  {
    assert (ab - na * nb) * (ab + na * nb) == ab * ab - (na * na) * (nb * nb);
    assert (na * na) * (nb * nb) == aa * bb;
    if ab - na * nb != 0.0 {
      ProductZero(ab - na * nb, ab + na * nb);
    }
  }

  /** The third edge of two parallel edges: its length is the difference or
      the sum of theirs. */
  lemma ParallelThirdEdge(lib: Lib, a: Vec3, b: Vec3)
    requires Lawful(lib) && Dot(Cross(a, b), Cross(a, b)) == 0.0
    ensures Norm(lib, Sub(b, a)) == Norm(lib, a) - Norm(lib, b) ||
            Norm(lib, Sub(b, a)) == Norm(lib, b) - Norm(lib, a) ||
            Norm(lib, Sub(b, a)) == Norm(lib, a) + Norm(lib, b)
  {
    var na, nb, nc := TriangleNorms(lib, a, b);
    ParallelEdgeNorm(a, b, na, nb, nc);
  }

  /** The lengths of the edges a, b and b - a of a triangle. */
  lemma TriangleNorms(lib: Lib, a: Vec3, b: Vec3) returns (na: real, nb: real, nc: real)
    requires Lawful(lib)
    ensures na == Norm(lib, a) && nb == Norm(lib, b) && nc == Norm(lib, Sub(b, a))
    ensures 0.0 <= na && 0.0 <= nb && 0.0 <= nc
    ensures na * na == Dot(a, a) && nb * nb == Dot(b, b) && nc * nc == Dot(Sub(b, a), Sub(b, a))
  {
    na, nb, nc := Norm(lib, a), Norm(lib, b), Norm(lib, Sub(b, a));
    NormSquare(lib, a);
    NormSquare(lib, b);
    NormSquare(lib, Sub(b, a));
  }

  lemma ParallelEdgeNorm(a: Vec3, b: Vec3, na: real, nb: real, nc: real)
    requires Dot(Cross(a, b), Cross(a, b)) == 0.0 && 0.0 <= na && 0.0 <= nb && 0.0 <= nc
    requires na * na == Dot(a, a) && nb * nb == Dot(b, b) && nc * nc == Dot(Sub(b, a), Sub(b, a))
    ensures nc == na - nb || nc == nb - na || nc == na + nb
  {
    var r := ParallelEdgeLength(a, b, na, nb);
    SameSquare(r, nc, Dot(Sub(b, a), Sub(b, a)));
  }

  lemma SameSquare(r: real, q: real, d: real)
    requires 0.0 <= r && 0.0 <= q && r * r == d && q * q == d
    ensures r == q
  {
    assert (r - q) * (r + q) == 0.0;
    if r + q != 0.0 {
      ProductZero(r + q, r - q);
    }
  }

  /** For parallel a and b with lengths na and nb, |b - a| is |na - nb| or
      na + nb. */
  lemma ParallelEdgeLength(a: Vec3, b: Vec3, na: real, nb: real) returns (r: real)
    requires Dot(Cross(a, b), Cross(a, b)) == 0.0 && 0.0 <= na && 0.0 <= nb
    requires na * na == Dot(a, a) && nb * nb == Dot(b, b)
    ensures 0.0 <= r && r * r == Dot(Sub(b, a), Sub(b, a))
    ensures r == na - nb || r == nb - na || r == na + nb
  {
    ParallelDot(a, b, na, nb);
    DotOfDifference(a, b);
    r := EdgeScalar(na, nb, Dot(a, a), Dot(b, b), Dot(a, b), Dot(Sub(b, a), Sub(b, a)));
  }

  /** For parallel a and b (|a x b| = 0), a.b is plus or minus |a| |b|. */
  lemma ParallelDot(a: Vec3, b: Vec3, na: real, nb: real)
    requires Dot(Cross(a, b), Cross(a, b)) == 0.0 && na * na == Dot(a, a) && nb * nb == Dot(b, b)
    ensures Dot(a, b) == na * nb || Dot(a, b) == -(na * nb)
  {
    ParallelLagrange(a, b);
    ParallelScalar(na, nb, Dot(a, a), Dot(b, b), Dot(a, b));
  }

  /** Lagrange's identity for parallel vectors: (a.b)^2 = |a|^2 |b|^2. */
  lemma ParallelLagrange(a: Vec3, b: Vec3)
    requires Dot(Cross(a, b), Cross(a, b)) == 0.0
    ensures Dot(a, a) * Dot(b, b) - Dot(a, b) * Dot(a, b) == 0.0
  {
    Lagrange(a, b);
  }

  lemma ZeroCrossSquare(a: Vec3, b: Vec3)
    requires Cross(a, b) == Zero
    ensures Dot(Cross(a, b), Cross(a, b)) == 0.0
  {
  }

  lemma EdgeScalar(na: real, nb: real, aa: real, bb: real, ab: real, dd: real) returns (r: real)
    requires 0.0 <= na && 0.0 <= nb && na * na == aa && nb * nb == bb
    requires ab == na * nb || ab == -(na * nb)
    requires dd == aa - 2.0 * ab + bb
    ensures 0.0 <= r && r * r == dd
    ensures r == na - nb || r == nb - na || r == na + nb
  {
    if ab == na * nb {
      r := if nb <= na then na - nb else nb - na;
      assert r * r == na * na - 2.0 * (na * nb) + nb * nb;
    } else {
      r := na + nb;
      assert r * r == na * na + 2.0 * (na * nb) + nb * nb;
    }
  }

  lemma CrossOfDifferences(a: Vec3, b: Vec3)
    ensures Cross(a, Sub(b, a)) == Cross(a, b)
    ensures Cross(b, Sub(a, b)) == Neg(Cross(a, b))
    ensures Cross(b, Neg(a)) == Cross(a, b)
  {
  }

  lemma NormsOfOpposites(lib: Lib, a: Vec3, b: Vec3)
    ensures Norm(lib, Neg(a)) == Norm(lib, a)
    ensures Norm(lib, Sub(a, b)) == Norm(lib, Sub(b, a))
    ensures Add(b, Neg(a)) == Sub(b, a) && Add(a, Sub(b, a)) == b && Add(b, Sub(a, b)) == a
  {
    assert Dot(Neg(a), Neg(a)) == Dot(a, a);
    assert Dot(Sub(a, b), Sub(a, b)) == Dot(Sub(b, a), Sub(b, a));
  }

  /** The test on the edge lengths of the triangle with edges a and b from
      one corner holds exactly when a and b are parallel, that is when the
      three corners are collinear (two of them coinciding included). */
  lemma CollinearTestExact(lib: Lib, a: Vec3, b: Vec3)
    requires Lawful(lib)
    ensures CollinearTest(Norm(lib, a), Norm(lib, b), Norm(lib, Sub(b, a))) <==> Cross(a, b) == Zero
  {
    if Cross(a, b) == Zero {
      ZeroCrossSquare(a, b);
      ParallelPassesTest(lib, a, b);
    }
    if CollinearTest(Norm(lib, a), Norm(lib, b), Norm(lib, Sub(b, a))) {
      TestImpliesParallel(lib, a, b);
    }
  }

  /** Parallel edges pass the test. */
  lemma ParallelPassesTest(lib: Lib, a: Vec3, b: Vec3)
    requires Lawful(lib) && Dot(Cross(a, b), Cross(a, b)) == 0.0
    ensures CollinearTest(Norm(lib, a), Norm(lib, b), Norm(lib, Sub(b, a)))
  {
    NormFacts(lib, a);
    NormFacts(lib, b);
    NormFacts(lib, Sub(b, a));
    ParallelThirdEdge(lib, a, b);
    CollinearTestMeaning(Norm(lib, a), Norm(lib, b), Norm(lib, Sub(b, a)));
  }

  /** Edges that pass the test are parallel: one of the lengths is the sum
      of the other two, which only a degenerate triangle has. */
  lemma TestImpliesParallel(lib: Lib, a: Vec3, b: Vec3)
    requires Lawful(lib) && CollinearTest(Norm(lib, a), Norm(lib, b), Norm(lib, Sub(b, a)))
    ensures Cross(a, b) == Zero
  {
    var na, nb, nc := Norm(lib, a), Norm(lib, b), Norm(lib, Sub(b, a));
    NormFacts(lib, a);
    NormFacts(lib, b);
    NormFacts(lib, Sub(b, a));
    CollinearTestMeaning(na, nb, nc);
    NormsOfOpposites(lib, a, b);
    CrossOfDifferences(a, b);
    if na + nb == nc {
      TriangleEquality(lib, b, Neg(a));
    } else if na + nc == nb {
      TriangleEquality(lib, a, Sub(b, a));
    } else {
      TriangleEquality(lib, b, Sub(a, b));
    }
  }

  /** Offsets from a common point have the differences of the points. */
  lemma SubOfOffsets(p: Vec3, q: Vec3, o: Vec3)
    ensures Sub(Sub(p, o), Sub(q, o)) == Sub(p, q)
  {
  }

  /** When the test fails on the corners t0, t1, t2, the normal of the plane
      has a nonzero norm. */
  lemma NonCollinearNormal(lib: Lib, t0: Vec3, t1: Vec3, t2: Vec3)
    requires Lawful(lib)
    requires !CollinearTest(Norm(lib, Sub(t1, t0)), Norm(lib, Sub(t2, t0)), Norm(lib, Sub(t2, t1)))
    ensures Norm(lib, Cross(Sub(t1, t0), Sub(t2, t0))) != 0.0
  {
    SubOfOffsets(t2, t1, t0);
    CollinearTestExact(lib, Sub(t1, t0), Sub(t2, t0));
    NormFacts(lib, Cross(Sub(t1, t0), Sub(t2, t0)));
  }

  // ---------------------------------------------------------------------
  // The mirror image in a plane

  /** The mirror image of q in the plane through the origin with unit normal n. */
  function MirrorThroughOrigin(n: Vec3, q: Vec3): Vec3 {
    Sub(q, Scale(2.0 * Dot(n, q), n))
  }

  /** The mirror image of p in the plane through o with unit normal n. */
  function Mirror(n: Vec3, o: Vec3, p: Vec3): Vec3 {
    Add(MirrorThroughOrigin(n, Sub(p, o)), o)
  }

  /** Mirroring twice in the same plane restores the point. */
  lemma MirrorInvolution(n: Vec3, o: Vec3, p: Vec3)
    requires Dot(n, n) == 1.0
    ensures Mirror(n, o, Mirror(n, o, p)) == p
  {
    var q := Sub(p, o);
    var m := MirrorThroughOrigin(n, q);
    DotLinear(n, q, 2.0 * Dot(n, q), n);
    assert Dot(n, m) == -Dot(n, q);
    SubAdd(m, o);
    assert MirrorThroughOrigin(n, m) == q;
    AddSub(p, o);
  }

  /** The points of the plane are their own mirror images. */
  lemma MirrorFixesPlane(n: Vec3, o: Vec3, p: Vec3)
    requires Dot(n, Sub(p, o)) == 0.0
    ensures Mirror(n, o, p) == p
  {
    AddSub(p, o);
  }

  /** The point one unit along the normal from o goes to the point one unit
      against it. */
  lemma MirrorReversesNormal(n: Vec3, o: Vec3)
    requires Dot(n, n) == 1.0
    ensures Mirror(n, o, Add(o, n)) == Sub(o, n)
  {
    assert Sub(Add(o, n), o) == n;
  }

  // ---------------------------------------------------------------------
  // Turning the plane normal onto the z axis

  /** `np.dot(reflection_matrix, v)` with `reflection_matrix = diag(1, 1, -1)`. */
  const MirrorMatrix := Mat3(Vec3(1.0, 0.0, 0.0), Vec3(0.0, 1.0, 0.0), Vec3(0.0, 0.0, -1.0))

  /** The default `rotation_origin` of `rotate`. */
  const Origin: seq<real> := [0.0, 0.0, 0.0]

  lemma MirrorMatrixFlips(v: Vec3)
    ensures Apply(MirrorMatrix, v) == Sub(v, Scale(2.0 * v.z, UnitZ))
    ensures Apply(MirrorMatrix, v) == Vec3(v.x, v.y, -v.z)
  {
  }

  /** The turn about z x n, normalised by the sine s of the angle whose cosine
      is n.z, carries +z onto n. */
  lemma TurnZToNormal(n: Vec3, c: real, s: real)
    requires s != 0.0 && c == n.z
    ensures Turn(Divide(Cross(UnitZ, n), s), c, s, UnitZ) == n
  {
    var u := Divide(Cross(UnitZ, n), s);
    WithUnitZ(n);
    assert u.x == -n.y / s && u.y == n.x / s && u.z == 0.0;
    assert Dot(u, UnitZ) == 0.0;
    assert Cross(u, UnitZ) == Vec3(n.x / s, n.y / s, 0.0);
    assert s * (n.x / s) == n.x && s * (n.y / s) == n.y;
  }

  /** Turning by the opposite angle, mirroring in the xy-plane and turning back
      is the mirror image in the plane with normal n, once the turn carries +z
      onto n. */
  lemma MirrorConjugate(u: Vec3, n: Vec3, c: real, s: real, q: Vec3)
    requires Dot(u, u) == 1.0 && c * c + s * s == 1.0
    requires Turn(u, c, s, UnitZ) == n
    ensures Turn(u, c, s, Apply(MirrorMatrix, Turn(u, c, -s, q))) == MirrorThroughOrigin(n, q)
  {
    var r := Turn(u, c, -s, q);
    MirrorMatrixFlips(r);
    TurnLinear(u, c, s, r, 2.0 * r.z, UnitZ);
    assert c * c + (-s) * (-s) == 1.0;
    TurnBack(u, c, -s, s, q);
    TurnAdjoint(u, c, s, -s, q, UnitZ);
    assert r.z == Dot(UnitZ, r);
    DotSymmetric(q, n);
  }

  /** The coordinates of a unit vector lie in [-1, 1]. */
  lemma UnitCoordinate(n: Vec3)
    requires Dot(n, n) == 1.0
    ensures -1.0 <= n.z <= 1.0
    ensures n.x * n.x + n.y * n.y == 1.0 - n.z * n.z
  {
    SquareNonneg(n.x);
    SquareNonneg(n.y);
    SquareAtMostOne(n.z);
  }

  lemma SquareAtMostOne(x: real)
    requires x * x <= 1.0
    ensures -1.0 <= x <= 1.0
  {
  }

  /** The angle of `reflect`, arccos n.z, and the axis z x n of its turns:
      the axis has the length of the sine of the angle. */
  lemma FrameAngle(lib: Lib, n: Vec3)
    requires Lawful(lib) && Dot(n, n) == 1.0
    ensures var theta := lib.arccos(Dot(n, UnitZ));
      && lib.cos(theta) == n.z && 0.0 <= lib.sin(theta)
      && Norm(lib, Cross(UnitZ, n)) == lib.sin(theta)
      && lib.cos(-theta) == lib.cos(theta) && lib.sin(-theta) == -lib.sin(theta)
      && lib.cos(theta) * lib.cos(theta) + lib.sin(theta) * lib.sin(theta) == 1.0
  {
    var theta := lib.arccos(Dot(n, UnitZ));
    UnitCoordinate(n);
    WithUnitZ(n);
    assert lib.cos(theta) == n.z && 0.0 <= lib.sin(theta);
    Pythagoras(lib, theta);
    Negation(lib, theta);
    var s := lib.sin(theta);
    AxisLength(n);
    assert s * s == 1.0 - n.z * n.z;
    SqrtUnique(lib, Dot(Cross(UnitZ, n), Cross(UnitZ, n)), s);
  }

  lemma AxisLength(n: Vec3)
    ensures Dot(Cross(UnitZ, n), Cross(UnitZ, n)) == n.x * n.x + n.y * n.y
  {
    WithUnitZ(n);
  }

  /** A rotation about an axis through the origin is the bare turn. */
  lemma RotateAboutOrigin(u: Vec3, c: real, s: real, p: Vec3)
    ensures RotateAbout(u, c, s, Zero, p) == Turn(u, c, s, p)
  {
    assert Sub(p, Zero) == p;
  }

  /** The two turns of `reflect` around the mirror in the xy-plane give the
      mirror image in the plane with unit normal n, whenever the axis z x n
      is not zero. */
  lemma FrameTurns(lib: Lib, n: Vec3, q: Vec3)
    requires Lawful(lib) && Dot(n, n) == 1.0 && Norm(lib, Cross(UnitZ, n)) != 0.0
    ensures
      var u, theta := UnitAxis(lib, Cross(UnitZ, n)), lib.arccos(Dot(n, UnitZ));
      RotateAbout(u, lib.cos(theta), lib.sin(theta), Zero,
                  Apply(MirrorMatrix, RotateAbout(u, lib.cos(-theta), lib.sin(-theta), Zero, q)))
        == MirrorThroughOrigin(n, q)
  {
    var a := Cross(UnitZ, n);
    var theta := lib.arccos(Dot(n, UnitZ));
    FrameAngle(lib, n);
    NormFacts(lib, a);
    UnitAxisIsUnit(lib, a);
    TurnsAroundMirror(UnitAxis(lib, a), n, lib.cos(theta), lib.sin(theta), q);
  }

  /** FrameTurns for a turn given by its unit axis u = (z x n) / s and the
      cosine c and sine s of its angle. */
  lemma TurnsAroundMirror(u: Vec3, n: Vec3, c: real, s: real, q: Vec3)
    requires Dot(u, u) == 1.0 && c * c + s * s == 1.0 && s != 0.0 && c == n.z
    requires u == Divide(Cross(UnitZ, n), s)
    ensures RotateAbout(u, c, s, Zero, Apply(MirrorMatrix, RotateAbout(u, c, -s, Zero, q))) == MirrorThroughOrigin(n, q)
  {
    TurnZToNormal(n, c, s);
    RotateAboutOrigin(u, c, -s, q);
    RotateAboutOrigin(u, c, s, Apply(MirrorMatrix, Turn(u, c, -s, q)));
    MirrorConjugate(u, n, c, s, q);
  }

  /** With the axis z x n zero the normal is +z or -z, and the mirror in the
      xy-plane alone is the mirror image in the plane. */
  lemma FlatMirror(lib: Lib, n: Vec3, q: Vec3)
    requires Lawful(lib) && Dot(n, n) == 1.0 && Norm(lib, Cross(UnitZ, n)) == 0.0
    ensures Apply(MirrorMatrix, q) == MirrorThroughOrigin(n, q)
  {
    ZeroAxisFlat(lib, n);
    FlatNormal(n, q);
  }

  /** The axis z x n vanishes only for a normal along z. */
  lemma ZeroAxisFlat(lib: Lib, n: Vec3)
    requires Lawful(lib) && Norm(lib, Cross(UnitZ, n)) == 0.0
    ensures n.x == 0.0 && n.y == 0.0
  {
    NormSquare(lib, Cross(UnitZ, n));
    AxisLength(n);
    SquaresSumZero(n.x, n.y);
  }

  lemma SquaresSumZero(x: real, y: real)
    requires x * x + y * y == 0.0
    ensures x == 0.0 && y == 0.0
  {
    SquareNonneg(x);
    SquareNonneg(y);
    SquareZero(x);
    SquareZero(y);
  }

  lemma FlatNormal(n: Vec3, q: Vec3)
    requires n.x == 0.0 && n.y == 0.0 && Dot(n, n) == 1.0
    ensures Apply(MirrorMatrix, q) == MirrorThroughOrigin(n, q)
  {
    FlatScalar(n.x, n.y, n.z, q.x, q.y, q.z, Dot(n, q));
    MirrorMatrixFlips(q);
  }

  lemma FlatScalar(nx: real, ny: real, nz: real, qx: real, qy: real, qz: real, d: real)
    requires nx == 0.0 && ny == 0.0 && nx * nx + ny * ny + nz * nz == 1.0 && d == nx * qx + ny * qy + nz * qz
    ensures qx - (2.0 * d) * nx == qx && qy - (2.0 * d) * ny == qy && qz - (2.0 * d) * nz == -qz
  {
  }

  // ---------------------------------------------------------------------
  // `reflect`, step by step

  /** The state of `reflect` once the plane is checked: the point's offset
      from the first plane point, the unit normal of the plane and that first
      plane point. */
  datatype Frame = Frame(offset: Vec3, normal: Vec3, anchor: Vec3)

  /** Every point given for the plane has three coordinates. */
  predicate AllTriples(points: seq<seq<real>>) {
    forall i :: 0 <= i < |points| ==> |points[i]| == 3
  }

  /** The list comprehension of `reflect` that moves every plane point by the
      displacement. */
  function TranslateAll(points: seq<seq<real>>, d: seq<real>): (r: Result<seq<seq<real>>>)
    ensures r.Ok? <==> (|points| == 0 || |d| == 3) && AllTriples(points)
    ensures r.Err? ==> r.error == Shape
    ensures r.Ok? ==>
      |r.value| == |points| && forall i :: 0 <= i < |points| ==> Translate(Lift(points[i]), d) == Ok(r.value[i])
  {
    if |points| == 0 then Ok([])
    else
      TranslateOutcome(Lift(points[0]), d);
      var first :- Translate(Lift(points[0]), d);
      var rest :- TranslateAll(points[1..], d);
      assert forall i :: 1 <= i < |points| ==> points[i] == points[1..][i - 1];
      Ok([first] + rest)
  }

  /** The unit normal of the plane through a, b and c, as `reflect` computes
      it: the cross product of the edges from a, divided by its norm. */
  function UnitNormal(lib: Lib, a: Vec3, b: Vec3, c: Vec3): Vec3
    requires Norm(lib, Cross(Sub(b, a), Sub(c, a))) != 0.0
  {
    Divide(Cross(Sub(b, a), Sub(c, a)), Norm(lib, Cross(Sub(b, a), Sub(c, a))))
  }

  /** The first part of `reflect(xyz, reflection_plane_coordinates)`: the type
      check on the point, the translation of the point and of every plane
      point by minus the first plane point (each a length error), the
      collinearity test on the three edges, and the unit normal. */
  function PlaneFrame(lib: Lib, xyz: seq<Leaf>, plane: seq<seq<real>>): (r: Result<Frame>)
    requires Lawful(lib) && |plane| >= 3
    ensures r.Ok? ==> Dot(r.value.normal, r.value.normal) == 1.0
  {
    if !FirstArgumentConverts([List(xyz), List(Lift(plane[0])), List(Lift(plane[1])), List(Lift(plane[2]))]) then
      Err(Type)
    else
      var displacement := Negated(plane[0]);
      var translated := Translate(xyz, displacement);
      if translated.Err? then Err(translated.error)
      else
        var corners := TranslateAll(plane, displacement);
        if corners.Err? then Err(corners.error)
        else
          FrameOfOffsets(lib, FromList(translated.value), FromList(corners.value[0]), FromList(corners.value[1]),
                         FromList(corners.value[2]), FromList(plane[0]))
  }

  /** The end of the first part of `reflect`, on the offset of the point and
      the offsets t0, t1, t2 of the plane points: the collinearity test on the
      lengths of the three edges, then the unit normal. */
  function FrameOfOffsets(lib: Lib, offset: Vec3, t0: Vec3, t1: Vec3, t2: Vec3, anchor: Vec3): (r: Result<Frame>)
    requires Lawful(lib)
    ensures r.Ok? ==> Dot(r.value.normal, r.value.normal) == 1.0
  {
    if CollinearTest(Norm(lib, Sub(t1, t0)), Norm(lib, Sub(t2, t0)), Norm(lib, Sub(t2, t1))) then
      Err(Collinear)
    else
      NonCollinearNormal(lib, t0, t1, t2);
      NormFacts(lib, Cross(Sub(t1, t0), Sub(t2, t0)));
      Normalised(lib, Cross(Sub(t1, t0), Sub(t2, t0)));
      Ok(Frame(offset, UnitNormal(lib, t0, t1, t2), anchor))
  }

  /** The second part of `reflect`: turn about z x n by minus arccos n.z
      through the origin, mirror with diag(1, 1, -1), turn back and translate
      back by the first plane point. */
  function MirrorInFrame(lib: Lib, f: Frame): (r: Result<seq<real>>)
    ensures r.Ok? ==> |r.value| == 3
  {
    var axis := AsList(Cross(UnitZ, f.normal));
    var angle := lib.arccos(Dot(f.normal, UnitZ));
    var rotated := Rotate(lib, Lift(AsList(f.offset)), axis, -angle, Origin);
    if rotated.Err? then rotated
    else
      var reflected := AsList(Apply(MirrorMatrix, FromList(rotated.value)));
      var back := Rotate(lib, Lift(reflected), axis, angle, Origin);
      if back.Err? then back
      else Translate(Lift(back.value), AsList(f.anchor))
  }

  /** `reflect(xyz, reflection_plane_coordinates)` as written. */
  function Reflect(lib: Lib, xyz: seq<Leaf>, plane: seq<seq<real>>): (r: Result<seq<real>>)
    requires Lawful(lib) && |plane| >= 3
    ensures r.Ok? ==> |r.value| == 3
  {
    var f :- PlaneFrame(lib, xyz, plane);
    MirrorInFrame(lib, f)
  }

  /** The second part of `reflect` as evidently intended: when the normal is
      already along z the turns are skipped, since the mirror in the
      xy-plane is then the mirror in the plane. */
  function MirrorInFrameCorrected(lib: Lib, f: Frame): (r: Result<seq<real>>)
    ensures r.Ok? ==> |r.value| == 3
  {
    if Norm(lib, Cross(UnitZ, f.normal)) == 0.0 then
      Translate(Lift(AsList(Apply(MirrorMatrix, f.offset))), AsList(f.anchor))
    else
      MirrorInFrame(lib, f)
  }

  /** `reflect` with the turns skipped for planes parallel to the xy-plane. */
  function ReflectCorrected(lib: Lib, xyz: seq<Leaf>, plane: seq<seq<real>>): (r: Result<seq<real>>)
    requires Lawful(lib) && |plane| >= 3
    ensures r.Ok? ==> |r.value| == 3
  {
    var f :- PlaneFrame(lib, xyz, plane);
    MirrorInFrameCorrected(lib, f)
  }

  /** Moving the plane points by minus the first one: every point becomes its
      offset from the first. */
  lemma CornersOutcome(plane: seq<seq<real>>)
    requires |plane| >= 3 && AllTriples(plane)
    ensures TranslateAll(plane, Negated(plane[0])).Ok?
    ensures forall i :: 0 <= i < 3 ==>
      FromList(TranslateAll(plane, Negated(plane[0])).value[i]) == Sub(FromList(plane[i]), FromList(plane[0]))
  {
    var d := Negated(plane[0]);
    forall i | 0 <= i < 3
      ensures FromList(TranslateAll(plane, d).value[i]) == Sub(FromList(plane[i]), FromList(plane[0]))
    {
      CornerOffset(plane[i], plane[0]);
    }
  }

  /** One plane point moved by minus the first one. */
  lemma CornerOffset(p: seq<real>, p0: seq<real>)
    requires |p| == 3 && |p0| == 3
    ensures Translate(Lift(p), Negated(p0)) == Ok(AsList(Sub(FromList(p), FromList(p0))))
  {
    TranslateOutcome(Lift(p), Negated(p0));
    ValuesOfLift(p);
  }

  /** The collinearity test of `reflect` on the offsets t0, t1, t2 of the
      plane points from the first one fails exactly when the normal of the
      plane points is not zero, and the unit normal of the offsets is the
      unit normal of the points. */
  lemma OffsetCorners(lib: Lib, p0: Vec3, p1: Vec3, p2: Vec3, t0: Vec3, t1: Vec3, t2: Vec3)
    requires Lawful(lib)
    requires t0 == Sub(p0, p0) && t1 == Sub(p1, p0) && t2 == Sub(p2, p0)
    ensures CollinearTest(Norm(lib, Sub(t1, t0)), Norm(lib, Sub(t2, t0)), Norm(lib, Sub(t2, t1)))
      <==> Cross(Sub(p1, p0), Sub(p2, p0)) == Zero
    ensures Norm(lib, Cross(Sub(p1, p0), Sub(p2, p0))) != 0.0 <==> Cross(Sub(p1, p0), Sub(p2, p0)) != Zero
    ensures Cross(Sub(t1, t0), Sub(t2, t0)) == Cross(Sub(p1, p0), Sub(p2, p0))
  {
    SubOfOffsets(p1, p0, p0);
    SubOfOffsets(p2, p0, p0);
    SubOfOffsets(p2, p1, p0);
    CollinearTestExact(lib, Sub(p1, p0), Sub(p2, p0));
    NormFacts(lib, Cross(Sub(p1, p0), Sub(p2, p0)));
  }

  /** The errors of the first part of `reflect` before the collinearity
      test: the type error for a non-numeric point, else the length error for
      a point or a plane point of the wrong length. */
  lemma PlaneFrameErrors(lib: Lib, xyz: seq<Leaf>, plane: seq<seq<real>>)
    requires Lawful(lib) && |plane| >= 3
    ensures PlaneFrame(lib, xyz, plane) == Err(Type) <==> !AllNumbers(xyz)
    ensures PlaneFrame(lib, xyz, plane) == Err(Shape) <==> AllNumbers(xyz) && (|xyz| != 3 || !AllTriples(plane))
  {
    assert [List(xyz), List(Lift(plane[0])), List(Lift(plane[1])), List(Lift(plane[2]))][0] == List(xyz);
    if AllNumbers(xyz) {
      TranslateOutcome(xyz, Negated(plane[0]));
      if |xyz| == 3 && AllTriples(plane) {
        CornersOutcome(plane);
      }
    }
  }

  /** The outcome of the first part of `reflect` on a numeric point and
      plane points of length 3: the collinear error exactly for collinear
      plane points, else the frame of the point's offset from the first plane
      point and the unit normal of the plane. */
  lemma PlaneFrameOutcome(lib: Lib, xyz: seq<Leaf>, plane: seq<seq<real>>)
    requires Lawful(lib) && |plane| >= 3 && AllNumbers(xyz) && |xyz| == 3 && AllTriples(plane)
    ensures
      var p0, p1, p2 := FromList(plane[0]), FromList(plane[1]), FromList(plane[2]);
      (PlaneFrame(lib, xyz, plane) == Err(Collinear) <==> Cross(Sub(p1, p0), Sub(p2, p0)) == Zero)
    ensures
      var p0, p1, p2 := FromList(plane[0]), FromList(plane[1]), FromList(plane[2]);
      Norm(lib, Cross(Sub(p1, p0), Sub(p2, p0))) != 0.0 ==>
        PlaneFrame(lib, xyz, plane) == Ok(Frame(Sub(Point(xyz), p0), UnitNormal(lib, p0, p1, p2), p0))
  {
    var p0, p1, p2 := FromList(plane[0]), FromList(plane[1]), FromList(plane[2]);
    PlaneFrameOfOffsets(lib, xyz, plane);
    FrameOfOffsetsOutcome(lib, Sub(Point(xyz), p0), p0, p1, p2, Sub(p0, p0), Sub(p1, p0), Sub(p2, p0));
  }

  /** On a numeric point and plane points of length 3, the first part of
      `reflect` reaches the collinearity test with the offsets from the first
      plane point. */
  lemma PlaneFrameOfOffsets(lib: Lib, xyz: seq<Leaf>, plane: seq<seq<real>>)
    requires Lawful(lib) && |plane| >= 3 && AllNumbers(xyz) && |xyz| == 3 && AllTriples(plane)
    ensures
      var p0, p1, p2 := FromList(plane[0]), FromList(plane[1]), FromList(plane[2]);
      PlaneFrame(lib, xyz, plane) ==
        FrameOfOffsets(lib, Sub(Point(xyz), p0), Sub(p0, p0), Sub(p1, p0), Sub(p2, p0), p0)
  {
    assert [List(xyz), List(Lift(plane[0])), List(Lift(plane[1])), List(Lift(plane[2]))][0] == List(xyz);
    TranslateOutcome(xyz, Negated(plane[0]));
    CornersOutcome(plane);
  }

  /** FrameOfOffsets on the offsets of p0, p1, p2 from p0. */
  lemma FrameOfOffsetsOutcome(lib: Lib, offset: Vec3, p0: Vec3, p1: Vec3, p2: Vec3, t0: Vec3, t1: Vec3, t2: Vec3)
    requires Lawful(lib)
    requires t0 == Sub(p0, p0) && t1 == Sub(p1, p0) && t2 == Sub(p2, p0)
    ensures FrameOfOffsets(lib, offset, t0, t1, t2, p0) == Err(Collinear) <==> Cross(Sub(p1, p0), Sub(p2, p0)) == Zero
    ensures Norm(lib, Cross(Sub(p1, p0), Sub(p2, p0))) != 0.0 ==>
      FrameOfOffsets(lib, offset, t0, t1, t2, p0) == Ok(Frame(offset, UnitNormal(lib, p0, p1, p2), p0))
  {
    OffsetCorners(lib, p0, p1, p2, t0, t1, t2);
  }

  /** The outcome of the second part of `reflect`: the zero-axis error of
      the first turn when z x n vanishes, else the two turns around the
      mirror in the xy-plane, moved back by the anchor. */
  lemma MirrorInFrameOutcome(lib: Lib, f: Frame)
    ensures Norm(lib, Cross(UnitZ, f.normal)) == 0.0 ==> MirrorInFrame(lib, f) == Err(ZeroAxis)
    ensures Norm(lib, Cross(UnitZ, f.normal)) != 0.0 ==>
      var u, theta := UnitAxis(lib, Cross(UnitZ, f.normal)), lib.arccos(Dot(f.normal, UnitZ));
      MirrorInFrame(lib, f) ==
        Ok(AsList(Add(RotateAbout(u, lib.cos(theta), lib.sin(theta), Zero,
                                  Apply(MirrorMatrix, RotateAbout(u, lib.cos(-theta), lib.sin(-theta), Zero, f.offset))),
                      f.anchor)))
  {
    var axis := AsList(Cross(UnitZ, f.normal));
    var theta := lib.arccos(Dot(f.normal, UnitZ));
    assert FromList(Origin) == Zero;
    PointOfList(f.offset);
    RotateOutcome(lib, Lift(AsList(f.offset)), axis, -theta, Origin);
    if Norm(lib, Cross(UnitZ, f.normal)) != 0.0 {
      var u := UnitAxis(lib, Cross(UnitZ, f.normal));
      var q := RotateAbout(u, lib.cos(-theta), lib.sin(-theta), Zero, f.offset);
      var m := Apply(MirrorMatrix, q);
      PointOfList(m);
      RotateOutcome(lib, Lift(AsList(m)), axis, theta, Origin);
      TranslateSum(RotateAbout(u, lib.cos(theta), lib.sin(theta), Zero, m), f.anchor);
    }
  }

  /** When the axis z x n is not zero, the second part of `reflect` is the
      mirror image of the offset in the plane through the origin with normal
      n, moved back by the anchor. */
  lemma MirrorInFrameIsMirror(lib: Lib, f: Frame)
    requires Lawful(lib) && Dot(f.normal, f.normal) == 1.0 && Norm(lib, Cross(UnitZ, f.normal)) != 0.0
    ensures MirrorInFrame(lib, f) == Ok(AsList(Add(MirrorThroughOrigin(f.normal, f.offset), f.anchor)))
  {
    MirrorInFrameOutcome(lib, f);
    FrameTurns(lib, f.normal, f.offset);
  }

  /** The corrected second part of `reflect` is the mirror image for every
      unit normal. */
  lemma MirrorInFrameCorrectedIsMirror(lib: Lib, f: Frame)
    requires Lawful(lib) && Dot(f.normal, f.normal) == 1.0
    ensures MirrorInFrameCorrected(lib, f) == Ok(AsList(Add(MirrorThroughOrigin(f.normal, f.offset), f.anchor)))
  {
    if Norm(lib, Cross(UnitZ, f.normal)) == 0.0 {
      FlatMirror(lib, f.normal, f.offset);
      TranslateSum(Apply(MirrorMatrix, f.offset), f.anchor);
    } else {
      MirrorInFrameIsMirror(lib, f);
    }
  }

  // ---------------------------------------------------------------------
  // What `reflect` computes

  /** The cross product of two edges that is not zero has no x and y part
      exactly when both edges lie in a plane parallel to the xy-plane. */
  lemma FlatCross(a: Vec3, b: Vec3)
    requires Cross(a, b) != Zero
    ensures Cross(a, b).x == 0.0 && Cross(a, b).y == 0.0 <==> a.z == 0.0 && b.z == 0.0
  {
    var c := Cross(a, b);
    if c.x == 0.0 && c.y == 0.0 {
      FlatCrossScalar(a.x, a.y, a.z, b.x, b.y, b.z, c.z);
      ProductZero(c.z, a.z);
      ProductZero(c.z, b.z);
    }
  }

  lemma FlatCrossScalar(a1: real, a2: real, a3: real, b1: real, b2: real, b3: real, c3: real)
    requires a2 * b3 - a3 * b2 == 0.0 && a3 * b1 - a1 * b3 == 0.0 && c3 == a1 * b2 - a2 * b1
    ensures c3 * a3 == 0.0 && c3 * b3 == 0.0
  {
    assert c3 * a3 == a1 * (a3 * b2) - a2 * (a3 * b1);
    assert c3 * b3 == b2 * (a1 * b3) - b1 * (a2 * b3);
  }

  /** The axis z x n of `reflect` has norm zero exactly when the normal of
      the plane has no x and y part. */
  lemma AxisOfUnitNormal(lib: Lib, c: Vec3)
    requires Lawful(lib) && Norm(lib, c) != 0.0
    ensures Norm(lib, Cross(UnitZ, Divide(c, Norm(lib, c)))) == 0.0 <==> c.x == 0.0 && c.y == 0.0
  {
    AxisOfNormal(lib, Divide(c, Norm(lib, c)));
    DivideKeepsZeros(c, Norm(lib, c));
  }

  /** The axis z x n has norm zero exactly when n has no x and y part. */
  lemma AxisOfNormal(lib: Lib, n: Vec3)
    requires Lawful(lib)
    ensures Norm(lib, Cross(UnitZ, n)) == 0.0 <==> n.x == 0.0 && n.y == 0.0
  {
    WithUnitZ(n);
    NormFacts(lib, Cross(UnitZ, n));
  }

  lemma DivideKeepsZeros(c: Vec3, k: real)
    requires k != 0.0
    ensures Divide(c, k).x == 0.0 <==> c.x == 0.0
    ensures Divide(c, k).y == 0.0 <==> c.y == 0.0
  {
    assert Divide(c, k).x * k == c.x && Divide(c, k).y * k == c.y;
  }

  /** The plane points p0, p1, p2 have one z coordinate exactly when the axis
      z x n of their unit normal n has norm zero. */
  lemma FlatPlaneAxis(lib: Lib, p0: Vec3, p1: Vec3, p2: Vec3)
    requires Lawful(lib) && Norm(lib, Cross(Sub(p1, p0), Sub(p2, p0))) != 0.0
    ensures Norm(lib, Cross(UnitZ, UnitNormal(lib, p0, p1, p2))) == 0.0 <==> p0.z == p1.z == p2.z
  {
    var c := Cross(Sub(p1, p0), Sub(p2, p0));
    NormFacts(lib, c);
    AxisOfUnitNormal(lib, c);
    FlatCross(Sub(p1, p0), Sub(p2, p0));
  }

  /** `reflect` as written, on a numeric point and non-collinear plane
      points of length 3: the zero-axis error exactly when the plane points
      share their z coordinate, that is for a plane parallel to the
      xy-plane. */
  lemma ReflectZeroAxis(lib: Lib, xyz: seq<Leaf>, plane: seq<seq<real>>)
    requires Lawful(lib) && |plane| >= 3 && AllNumbers(xyz) && |xyz| == 3 && AllTriples(plane)
    requires Norm(lib, Cross(Sub(FromList(plane[1]), FromList(plane[0])), Sub(FromList(plane[2]), FromList(plane[0])))) != 0.0
    ensures Reflect(lib, xyz, plane) == Err(ZeroAxis) <==> plane[0][2] == plane[1][2] == plane[2][2]
  {
    var p0, p1, p2 := FromList(plane[0]), FromList(plane[1]), FromList(plane[2]);
    PlaneFrameOutcome(lib, xyz, plane);
    var f := Frame(Sub(Point(xyz), p0), UnitNormal(lib, p0, p1, p2), p0);
    MirrorInFrameOutcome(lib, f);
    FlatPlaneAxis(lib, p0, p1, p2);
  }

  /** `reflect` as written, on a plane not parallel to the xy-plane: the
      mirror image of the point in the plane. */
  lemma ReflectIsMirror(lib: Lib, xyz: seq<Leaf>, plane: seq<seq<real>>)
    requires Lawful(lib) && |plane| >= 3 && AllNumbers(xyz) && |xyz| == 3 && AllTriples(plane)
    requires Norm(lib, Cross(Sub(FromList(plane[1]), FromList(plane[0])), Sub(FromList(plane[2]), FromList(plane[0])))) != 0.0
    requires !(plane[0][2] == plane[1][2] == plane[2][2])
    ensures
      var p0, p1, p2 := FromList(plane[0]), FromList(plane[1]), FromList(plane[2]);
      Reflect(lib, xyz, plane) == Ok(AsList(Mirror(UnitNormal(lib, p0, p1, p2), p0, Point(xyz))))
  {
    var p0, p1, p2 := FromList(plane[0]), FromList(plane[1]), FromList(plane[2]);
    PlaneFrameOutcome(lib, xyz, plane);
    FlatPlaneAxis(lib, p0, p1, p2);
    MirrorInFrameIsMirror(lib, Frame(Sub(Point(xyz), p0), UnitNormal(lib, p0, p1, p2), p0));
  }

  /** The errors of `reflect` as written before its rotations: the type
      error exactly for a non-numeric point, the length error exactly for a
      point or a plane point of the wrong length, and the collinear error
      exactly for collinear plane points. */
  lemma ReflectErrors(lib: Lib, xyz: seq<Leaf>, plane: seq<seq<real>>)
    requires Lawful(lib) && |plane| >= 3
    ensures Reflect(lib, xyz, plane) == Err(Type) <==> !AllNumbers(xyz)
    ensures Reflect(lib, xyz, plane) == Err(Shape) <==> AllNumbers(xyz) && (|xyz| != 3 || !AllTriples(plane))
    ensures AllNumbers(xyz) && |xyz| == 3 && AllTriples(plane) ==>
      var p0, p1, p2 := FromList(plane[0]), FromList(plane[1]), FromList(plane[2]);
      (Reflect(lib, xyz, plane) == Err(Collinear) <==> Cross(Sub(p1, p0), Sub(p2, p0)) == Zero)
  {
    PlaneFrameErrors(lib, xyz, plane);
    var f := PlaneFrame(lib, xyz, plane);
    if f.Ok? {
      MirrorInFrameOutcome(lib, f.value);
    }
    if AllNumbers(xyz) && |xyz| == 3 && AllTriples(plane) {
      PlaneFrameOutcome(lib, xyz, plane);
    }
  }

  /** Two equal plane points, in any two positions, give the collinear
      error. */
  lemma ReflectCoincidentPoints(lib: Lib, xyz: seq<Leaf>, plane: seq<seq<real>>, i: int, j: int)
    requires Lawful(lib) && |plane| >= 3 && AllNumbers(xyz) && |xyz| == 3 && AllTriples(plane)
    requires 0 <= i < j < 3 && plane[i] == plane[j]
    ensures Reflect(lib, xyz, plane) == Err(Collinear)
  {
    CoincidentCross(plane, i, j);
    ReflectErrors(lib, xyz, plane);
  }

  lemma CoincidentCross(plane: seq<seq<real>>, i: int, j: int)
    requires |plane| >= 3 && AllTriples(plane) && 0 <= i < j < 3 && plane[i] == plane[j]
    ensures Cross(Sub(FromList(plane[1]), FromList(plane[0])), Sub(FromList(plane[2]), FromList(plane[0]))) == Zero
  {
    var p0, p1, p2 := FromList(plane[0]), FromList(plane[1]), FromList(plane[2]);
    assert p0 == p1 || p0 == p2 || p1 == p2;
    CrossSelf(Sub(p1, p0));
  }

  /** The correction changes only the zero-axis outcome of `reflect`. */
  lemma ReflectAgreesWithCorrected(lib: Lib, xyz: seq<Leaf>, plane: seq<seq<real>>)
    requires Lawful(lib) && |plane| >= 3
    ensures Reflect(lib, xyz, plane) != Err(ZeroAxis) ==> Reflect(lib, xyz, plane) == ReflectCorrected(lib, xyz, plane)
  {
    var f := PlaneFrame(lib, xyz, plane);
    if f.Ok? {
      MirrorInFrameOutcome(lib, f.value);
    }
  }

  /** The corrected `reflect` on a numeric point and non-collinear plane
      points of length 3: the mirror image of the point in the plane. */
  lemma ReflectCorrectedIsMirror(lib: Lib, xyz: seq<Leaf>, plane: seq<seq<real>>)
    requires Lawful(lib) && |plane| >= 3 && AllNumbers(xyz) && |xyz| == 3 && AllTriples(plane)
    requires Norm(lib, Cross(Sub(FromList(plane[1]), FromList(plane[0])), Sub(FromList(plane[2]), FromList(plane[0])))) != 0.0
    ensures
      var p0, p1, p2 := FromList(plane[0]), FromList(plane[1]), FromList(plane[2]);
      ReflectCorrected(lib, xyz, plane) == Ok(AsList(Mirror(UnitNormal(lib, p0, p1, p2), p0, Point(xyz))))
  {
    var p0, p1, p2 := FromList(plane[0]), FromList(plane[1]), FromList(plane[2]);
    PlaneFrameOutcome(lib, xyz, plane);
    MirrorInFrameCorrectedIsMirror(lib, Frame(Sub(Point(xyz), p0), UnitNormal(lib, p0, p1, p2), p0));
  }

  /** The errors of the corrected `reflect`: the type error, the length
      error and the collinear error of its first part, and never the
      zero-axis error. */
  lemma ReflectCorrectedErrors(lib: Lib, xyz: seq<Leaf>, plane: seq<seq<real>>)
    requires Lawful(lib) && |plane| >= 3
    ensures ReflectCorrected(lib, xyz, plane) == Err(Type) <==> !AllNumbers(xyz)
    ensures ReflectCorrected(lib, xyz, plane) == Err(Shape) <==> AllNumbers(xyz) && (|xyz| != 3 || !AllTriples(plane))
    ensures AllNumbers(xyz) && |xyz| == 3 && AllTriples(plane) ==>
      var p0, p1, p2 := FromList(plane[0]), FromList(plane[1]), FromList(plane[2]);
      (ReflectCorrected(lib, xyz, plane) == Err(Collinear) <==> Cross(Sub(p1, p0), Sub(p2, p0)) == Zero)
    ensures ReflectCorrected(lib, xyz, plane) != Err(ZeroAxis)
  {
    PlaneFrameErrors(lib, xyz, plane);
    var f := PlaneFrame(lib, xyz, plane);
    if f.Ok? {
      MirrorInFrameCorrectedIsMirror(lib, f.value);
    }
    if AllNumbers(xyz) && |xyz| == 3 && AllTriples(plane) {
      PlaneFrameOutcome(lib, xyz, plane);
    }
  }

  /** Reflecting the image again in the same plane restores the point. */
  lemma ReflectCorrectedInvolution(lib: Lib, xyz: seq<Leaf>, plane: seq<seq<real>>)
    requires Lawful(lib) && |plane| >= 3 && AllNumbers(xyz) && |xyz| == 3 && AllTriples(plane)
    requires Norm(lib, Cross(Sub(FromList(plane[1]), FromList(plane[0])), Sub(FromList(plane[2]), FromList(plane[0])))) != 0.0
    ensures ReflectCorrected(lib, xyz, plane).Ok?
    ensures ReflectCorrected(lib, Lift(ReflectCorrected(lib, xyz, plane).value), plane) == Ok(Values(xyz))
  {
    var p0, p1, p2 := FromList(plane[0]), FromList(plane[1]), FromList(plane[2]);
    var n := UnitNormal(lib, p0, p1, p2);
    ReflectCorrectedIsMirror(lib, xyz, plane);
    var m := Mirror(n, p0, Point(xyz));
    PointOfList(m);
    ReflectCorrectedIsMirror(lib, Lift(AsList(m)), plane);
    UnitNormalIsUnit(lib, p0, p1, p2);
    MirrorInvolution(n, p0, Point(xyz));
    ListOfPoint(xyz);
  }

  lemma UnitNormalIsUnit(lib: Lib, p0: Vec3, p1: Vec3, p2: Vec3)
    requires Lawful(lib) && Norm(lib, Cross(Sub(p1, p0), Sub(p2, p0))) != 0.0
    ensures Dot(UnitNormal(lib, p0, p1, p2), UnitNormal(lib, p0, p1, p2)) == 1.0
  {
    NormFacts(lib, Cross(Sub(p1, p0), Sub(p2, p0)));
    Normalised(lib, Cross(Sub(p1, p0), Sub(p2, p0)));
  }

  /** The unit normal is orthogonal to the edges from p0. */
  lemma UnitNormalOrthogonal(lib: Lib, p0: Vec3, p1: Vec3, p2: Vec3)
    requires Norm(lib, Cross(Sub(p1, p0), Sub(p2, p0))) != 0.0
    ensures Dot(UnitNormal(lib, p0, p1, p2), Sub(p1, p0)) == 0.0
    ensures Dot(UnitNormal(lib, p0, p1, p2), Sub(p2, p0)) == 0.0
    ensures Dot(UnitNormal(lib, p0, p1, p2), Sub(p0, p0)) == 0.0
  {
    var a, b := Sub(p1, p0), Sub(p2, p0);
    var k := Norm(lib, Cross(a, b));
    CrossOrthogonal(a, b);
    DivideIsScale(Cross(a, b), k);
    DotScale(1.0 / k, Cross(a, b), a);
    DotScale(1.0 / k, Cross(a, b), b);
    DotSymmetric(a, Cross(a, b));
    DotSymmetric(b, Cross(a, b));
  }

  /** The three plane points are their own images under the corrected
      `reflect`. */
  lemma ReflectCorrectedFixesPlane(lib: Lib, plane: seq<seq<real>>, i: int)
    requires Lawful(lib) && |plane| >= 3 && AllTriples(plane) && 0 <= i < 3
    requires Norm(lib, Cross(Sub(FromList(plane[1]), FromList(plane[0])), Sub(FromList(plane[2]), FromList(plane[0])))) != 0.0
    ensures ReflectCorrected(lib, Lift(plane[i]), plane) == Ok(plane[i])
  {
    var p0, p1, p2 := FromList(plane[0]), FromList(plane[1]), FromList(plane[2]);
    ReflectCorrectedIsMirror(lib, Lift(plane[i]), plane);
    PointOfLift(plane[i]);
    PlanePointOnPlane(lib, plane, i);
    MirrorFixesPlane(UnitNormal(lib, p0, p1, p2), p0, FromList(plane[i]));
  }

  lemma PointOfLift(p: seq<real>)
    requires |p| == 3
    ensures Point(Lift(p)) == FromList(p) && AsList(FromList(p)) == p
  {
    ValuesOfLift(p);
  }

  /** Each of the three plane points lies in the plane through the first
      with the unit normal. */
  lemma PlanePointOnPlane(lib: Lib, plane: seq<seq<real>>, i: int)
    requires |plane| >= 3 && AllTriples(plane) && 0 <= i < 3
    requires Norm(lib, Cross(Sub(FromList(plane[1]), FromList(plane[0])), Sub(FromList(plane[2]), FromList(plane[0])))) != 0.0
    ensures
      var p0, p1, p2 := FromList(plane[0]), FromList(plane[1]), FromList(plane[2]);
      Dot(UnitNormal(lib, p0, p1, p2), Sub(FromList(plane[i]), p0)) == 0.0
  {
    UnitNormalOrthogonal(lib, FromList(plane[0]), FromList(plane[1]), FromList(plane[2]));
  }

  /** The plane z = 0 through (0, 0, 0), (1, 0, 0) and (0, 1, 0): `reflect`
      as written fails with the zero-axis error on every point. */
  lemma ReflectInXyPlane(lib: Lib, xyz: seq<Leaf>, plane: seq<seq<real>>)
    requires Lawful(lib) && |xyz| == 3 && AllNumbers(xyz)
    requires |plane| == 3 && plane[0] == [0.0, 0.0, 0.0] && plane[1] == [1.0, 0.0, 0.0] && plane[2] == [0.0, 1.0, 0.0]
    ensures Reflect(lib, xyz, plane) == Err(ZeroAxis)
  {
    NormOfUnitZ(lib);
    XyPlane(lib, plane);
    ReflectZeroAxis(lib, xyz, plane);
  }

  /** The corrected `reflect` returns the mirror image (x, y, -z) of the
      point (x, y, z) in the plane z = 0. */
  lemma ReflectCorrectedInXyPlane(lib: Lib, xyz: seq<Leaf>, plane: seq<seq<real>>)
    requires Lawful(lib) && |xyz| == 3 && AllNumbers(xyz)
    requires |plane| == 3 && plane[0] == [0.0, 0.0, 0.0] && plane[1] == [1.0, 0.0, 0.0] && plane[2] == [0.0, 1.0, 0.0]
    ensures ReflectCorrected(lib, xyz, plane) == Ok([xyz[0].x, xyz[1].x, -xyz[2].x])
  {
    XyPlaneNormal(lib, plane);
    ReflectCorrectedAcrossZ(lib, xyz, plane);
  }

  /** The plane z = 0 meets the requirements of `ReflectCorrectedAcrossZ`. */
  lemma XyPlaneNormal(lib: Lib, plane: seq<seq<real>>)
    requires Lawful(lib)
    requires |plane| == 3 && plane[0] == [0.0, 0.0, 0.0] && plane[1] == [1.0, 0.0, 0.0] && plane[2] == [0.0, 1.0, 0.0]
    ensures |plane| >= 3 && AllTriples(plane) && FromList(plane[0]) == Zero
    ensures Norm(lib, Cross(Sub(FromList(plane[1]), FromList(plane[0])), Sub(FromList(plane[2]), FromList(plane[0])))) != 0.0
    ensures UnitNormal(lib, FromList(plane[0]), FromList(plane[1]), FromList(plane[2])) == UnitZ
  {
    NormOfUnitZ(lib);
    XyPlane(lib, plane);
    XyUnitNormal(lib, FromList(plane[0]), FromList(plane[1]), FromList(plane[2]));
  }

  /** The corrected `reflect` in a plane through the origin with normal +z. */
  lemma ReflectCorrectedAcrossZ(lib: Lib, xyz: seq<Leaf>, plane: seq<seq<real>>)
    requires Lawful(lib) && |xyz| == 3 && AllNumbers(xyz) && |plane| >= 3 && AllTriples(plane)
    requires FromList(plane[0]) == Zero
    requires Norm(lib, Cross(Sub(FromList(plane[1]), FromList(plane[0])), Sub(FromList(plane[2]), FromList(plane[0])))) != 0.0
    requires UnitNormal(lib, FromList(plane[0]), FromList(plane[1]), FromList(plane[2])) == UnitZ
    ensures ReflectCorrected(lib, xyz, plane) == Ok([xyz[0].x, xyz[1].x, -xyz[2].x])
  {
    ReflectCorrectedIsMirror(lib, xyz, plane);
    XyMirror(Point(xyz));
    assert Point(xyz) == Vec3(xyz[0].x, xyz[1].x, xyz[2].x);
  }

  /** The facts about the plane z = 0 that the general lemmas ask for. */
  lemma XyPlane(lib: Lib, plane: seq<seq<real>>)
    requires Norm(lib, UnitZ) == 1.0
    requires |plane| == 3 && plane[0] == [0.0, 0.0, 0.0] && plane[1] == [1.0, 0.0, 0.0] && plane[2] == [0.0, 1.0, 0.0]
    ensures |plane| >= 3 && AllTriples(plane)
    ensures FromList(plane[0]) == Zero && FromList(plane[1]) == Vec3(1.0, 0.0, 0.0) && FromList(plane[2]) == Vec3(0.0, 1.0, 0.0)
    ensures Norm(lib, Cross(Sub(FromList(plane[1]), FromList(plane[0])), Sub(FromList(plane[2]), FromList(plane[0])))) == 1.0
    ensures plane[0][2] == plane[1][2] == plane[2][2]
  {
    forall i | 0 <= i < |plane|
      ensures |plane[i]| == 3
    {
      if i == 0 {
      } else if i == 1 {
      } else {
      }
    }
    assert FromList(plane[0]) == Zero && FromList(plane[1]) == Vec3(1.0, 0.0, 0.0) && FromList(plane[2]) == Vec3(0.0, 1.0, 0.0);
    CrossOfPoints(plane, Zero, Vec3(1.0, 0.0, 0.0), Vec3(0.0, 1.0, 0.0));
    XyCross();
  }

  lemma CrossOfPoints(plane: seq<seq<real>>, v0: Vec3, v1: Vec3, v2: Vec3)
    requires |plane| >= 3 && AllTriples(plane)
    requires FromList(plane[0]) == v0 && FromList(plane[1]) == v1 && FromList(plane[2]) == v2
    ensures Cross(Sub(FromList(plane[1]), FromList(plane[0])), Sub(FromList(plane[2]), FromList(plane[0]))) ==
      Cross(Sub(v1, v0), Sub(v2, v0))
  {
  }

  lemma XyCross()
    ensures Cross(Sub(Vec3(1.0, 0.0, 0.0), Zero), Sub(Vec3(0.0, 1.0, 0.0), Zero)) == UnitZ
  {
  }

  lemma NormOfUnitZ(lib: Lib)
    requires Lawful(lib)
    ensures Norm(lib, UnitZ) == 1.0
  {
    SqrtUnique(lib, Dot(UnitZ, UnitZ), 1.0);
  }

  /** The unit normal of the plane through (0, 0, 0), (1, 0, 0) and
      (0, 1, 0) is +z. */
  lemma XyUnitNormal(lib: Lib, p0: Vec3, p1: Vec3, p2: Vec3)
    requires Norm(lib, UnitZ) == 1.0
    requires p0 == Zero && p1 == Vec3(1.0, 0.0, 0.0) && p2 == Vec3(0.0, 1.0, 0.0)
    ensures Norm(lib, Cross(Sub(p1, p0), Sub(p2, p0))) == 1.0
    ensures UnitNormal(lib, p0, p1, p2) == UnitZ
  {
    XyCross();
    DivideByOne(Cross(Sub(p1, p0), Sub(p2, p0)));
  }

  lemma DivideByOne(v: Vec3)
    ensures Divide(v, 1.0) == v
  {
  }

  /** The mirror image in the plane z = 0 flips the sign of z. */
  lemma XyMirror(q: Vec3)
    ensures AsList(Mirror(UnitZ, Zero, q)) == [q.x, q.y, -q.z]
  {
  }

  /** `glide(xyz, directional_xyz, glide_plane_coordinates)`: `reflect` as
      written, then `translate` by the displacement. */
  function Glide(lib: Lib, xyz: seq<Leaf>, d: seq<real>, plane: seq<seq<real>>): (r: Result<seq<real>>)
    requires Lawful(lib) && |plane| >= 3
    ensures r.Ok? ==> |r.value| == 3
  {
    var reflected :- Reflect(lib, xyz, plane);
    Translate(Lift(reflected), d)
  }

  /** `glide` composed with the corrected `reflect`. */
  function GlideCorrected(lib: Lib, xyz: seq<Leaf>, d: seq<real>, plane: seq<seq<real>>): (r: Result<seq<real>>)
    requires Lawful(lib) && |plane| >= 3
    ensures r.Ok? ==> |r.value| == 3
  {
    var reflected :- ReflectCorrected(lib, xyz, plane);
    Translate(Lift(reflected), d)
  }

  /** `glide` differs from its corrected form only where `reflect` gives the
      zero-axis error. */
  lemma GlideAgreesWithCorrected(lib: Lib, xyz: seq<Leaf>, d: seq<real>, plane: seq<seq<real>>)
    requires Lawful(lib) && |plane| >= 3
    ensures Reflect(lib, xyz, plane) != Err(ZeroAxis) ==> Glide(lib, xyz, d, plane) == GlideCorrected(lib, xyz, d, plane)
    ensures Reflect(lib, xyz, plane) == Err(ZeroAxis) ==> Glide(lib, xyz, d, plane) == Err(ZeroAxis)
  {
    ReflectAgreesWithCorrected(lib, xyz, plane);
  }

  /** A valid point and a non-collinear plane not parallel to the xy-plane:
      `glide` fails with the length error when the displacement does not hold
      three values, and otherwise moves the mirror image of the point by the
      displacement. */
  lemma GlideOutcome(lib: Lib, xyz: seq<Leaf>, d: seq<real>, plane: seq<seq<real>>)
    requires Lawful(lib) && |plane| >= 3 && AllNumbers(xyz) && |xyz| == 3 && AllTriples(plane)
    requires Norm(lib, Cross(Sub(FromList(plane[1]), FromList(plane[0])), Sub(FromList(plane[2]), FromList(plane[0])))) != 0.0
    requires !(plane[0][2] == plane[1][2] == plane[2][2])
    ensures |d| != 3 ==> Glide(lib, xyz, d, plane) == Err(Shape)
    ensures |d| == 3 ==>
      var p0, p1, p2 := FromList(plane[0]), FromList(plane[1]), FromList(plane[2]);
      Glide(lib, xyz, d, plane) == Ok(AsList(Add(Mirror(UnitNormal(lib, p0, p1, p2), p0, Point(xyz)), FromList(d))))
  {
    ReflectZeroAxis(lib, xyz, plane);
    GlideAgreesWithCorrected(lib, xyz, d, plane);
    GlideCorrectedOutcome(lib, xyz, d, plane);
  }

  /** The errors of `glide`: those of `reflect` pass through, so a
      non-collinear plane parallel to the xy-plane gives the zero-axis
      error. */
  lemma GlideErrors(lib: Lib, xyz: seq<Leaf>, d: seq<real>, plane: seq<seq<real>>)
    requires Lawful(lib) && |plane| >= 3
    ensures Glide(lib, xyz, d, plane) == Err(Type) <==> !AllNumbers(xyz)
    ensures AllNumbers(xyz) && (|xyz| != 3 || !AllTriples(plane)) ==> Glide(lib, xyz, d, plane) == Err(Shape)
    ensures AllNumbers(xyz) && |xyz| == 3 && AllTriples(plane) ==>
      var p0, p1, p2 := FromList(plane[0]), FromList(plane[1]), FromList(plane[2]);
      (Glide(lib, xyz, d, plane) == Err(Collinear) <==> Cross(Sub(p1, p0), Sub(p2, p0)) == Zero)
    ensures Glide(lib, xyz, d, plane) == Err(ZeroAxis) <==> Reflect(lib, xyz, plane) == Err(ZeroAxis)
  {
    ReflectErrors(lib, xyz, plane);
    var r := Reflect(lib, xyz, plane);
    if r.Ok? {
      TranslateLifted(r.value, d);
    }
  }

  /** For a valid point and a non-collinear plane, `glide` gives the
      zero-axis error exactly when the plane points share their z
      coordinate. */
  lemma GlideZeroAxis(lib: Lib, xyz: seq<Leaf>, d: seq<real>, plane: seq<seq<real>>)
    requires Lawful(lib) && |plane| >= 3 && AllNumbers(xyz) && |xyz| == 3 && AllTriples(plane)
    requires Norm(lib, Cross(Sub(FromList(plane[1]), FromList(plane[0])), Sub(FromList(plane[2]), FromList(plane[0])))) != 0.0
    ensures Glide(lib, xyz, d, plane) == Err(ZeroAxis) <==> plane[0][2] == plane[1][2] == plane[2][2]
  {
    GlideErrors(lib, xyz, d, plane);
    ReflectZeroAxis(lib, xyz, plane);
  }

  /** Two glides by a displacement parallel to a plane not parallel to the
      xy-plane move the point by twice the displacement. */
  lemma GlideTwice(lib: Lib, xyz: seq<Leaf>, d: seq<real>, plane: seq<seq<real>>)
    requires Lawful(lib) && |plane| >= 3 && AllNumbers(xyz) && |xyz| == 3 && AllTriples(plane) && |d| == 3
    requires Norm(lib, Cross(Sub(FromList(plane[1]), FromList(plane[0])), Sub(FromList(plane[2]), FromList(plane[0])))) != 0.0
    requires !(plane[0][2] == plane[1][2] == plane[2][2])
    requires
      var p0, p1, p2 := FromList(plane[0]), FromList(plane[1]), FromList(plane[2]);
      Dot(UnitNormal(lib, p0, p1, p2), FromList(d)) == 0.0
    ensures Glide(lib, xyz, d, plane).Ok?
    ensures Glide(lib, Lift(Glide(lib, xyz, d, plane).value), d, plane) ==
      Ok(AsList(Add(Point(xyz), Scale(2.0, FromList(d)))))
  {
    var p0, p1, p2 := FromList(plane[0]), FromList(plane[1]), FromList(plane[2]);
    var n, v := UnitNormal(lib, p0, p1, p2), FromList(d);
    GlideOutcome(lib, xyz, d, plane);
    var g := Add(Mirror(n, p0, Point(xyz)), v);
    PointOfList(g);
    GlideOutcome(lib, Lift(AsList(g)), d, plane);
    UnitNormalIsUnit(lib, p0, p1, p2);
    GlideTwiceVectors(n, p0, Point(xyz), v);
  }

  /** The plane z = 0 through (0, 0, 0), (1, 0, 0) and (0, 1, 0): `glide`
      as written fails with the zero-axis error. */
  lemma GlideInXyPlane(lib: Lib, xyz: seq<Leaf>, d: seq<real>, plane: seq<seq<real>>)
    requires Lawful(lib) && |xyz| == 3 && AllNumbers(xyz)
    requires |plane| == 3 && plane[0] == [0.0, 0.0, 0.0] && plane[1] == [1.0, 0.0, 0.0] && plane[2] == [0.0, 1.0, 0.0]
    ensures Glide(lib, xyz, d, plane) == Err(ZeroAxis)
  {
    ReflectInXyPlane(lib, xyz, plane);
    GlideAgreesWithCorrected(lib, xyz, d, plane);
  }

  /** A valid point and a non-collinear plane: the corrected `glide` fails
      with the length error when the displacement does not hold three
      values, and otherwise moves the mirror image of the point by the
      displacement. */
  lemma GlideCorrectedOutcome(lib: Lib, xyz: seq<Leaf>, d: seq<real>, plane: seq<seq<real>>)
    requires Lawful(lib) && |plane| >= 3 && AllNumbers(xyz) && |xyz| == 3 && AllTriples(plane)
    requires Norm(lib, Cross(Sub(FromList(plane[1]), FromList(plane[0])), Sub(FromList(plane[2]), FromList(plane[0])))) != 0.0
    ensures |d| != 3 ==> GlideCorrected(lib, xyz, d, plane) == Err(Shape)
    ensures |d| == 3 ==>
      var p0, p1, p2 := FromList(plane[0]), FromList(plane[1]), FromList(plane[2]);
      GlideCorrected(lib, xyz, d, plane) == Ok(AsList(Add(Mirror(UnitNormal(lib, p0, p1, p2), p0, Point(xyz)), FromList(d))))
  {
    var p0, p1, p2 := FromList(plane[0]), FromList(plane[1]), FromList(plane[2]);
    ReflectCorrectedIsMirror(lib, xyz, plane);
    var m := Mirror(UnitNormal(lib, p0, p1, p2), p0, Point(xyz));
    PointOfList(m);
    TranslateOutcome(Lift(AsList(m)), d);
  }

  /** The errors of the corrected mirror step pass through the corrected
      `glide` unchanged; it never gives the zero-axis error. */
  lemma GlideCorrectedErrors(lib: Lib, xyz: seq<Leaf>, d: seq<real>, plane: seq<seq<real>>)
    requires Lawful(lib) && |plane| >= 3
    ensures GlideCorrected(lib, xyz, d, plane) == Err(Type) <==> !AllNumbers(xyz)
    ensures AllNumbers(xyz) && (|xyz| != 3 || !AllTriples(plane)) ==> GlideCorrected(lib, xyz, d, plane) == Err(Shape)
    ensures AllNumbers(xyz) && |xyz| == 3 && AllTriples(plane) ==>
      var p0, p1, p2 := FromList(plane[0]), FromList(plane[1]), FromList(plane[2]);
      (GlideCorrected(lib, xyz, d, plane) == Err(Collinear) <==> Cross(Sub(p1, p0), Sub(p2, p0)) == Zero)
    ensures GlideCorrected(lib, xyz, d, plane) != Err(ZeroAxis)
  {
    ReflectCorrectedErrors(lib, xyz, plane);
    var r := ReflectCorrected(lib, xyz, plane);
    if r.Ok? {
      TranslateLifted(r.value, d);
    }
  }

  /** Translating a list of three numbers fails, if at all, with the length
      error. */
  lemma TranslateLifted(v: seq<real>, d: seq<real>)
    requires |v| == 3
    ensures Translate(Lift(v), d).Ok? || Translate(Lift(v), d) == Err(Shape)
  {
    TranslateOutcome(Lift(v), d);
  }

  /** Moving a point along the mirror plane commutes with mirroring in it. */
  lemma MirrorAlongPlane(n: Vec3, o: Vec3, p: Vec3, d: Vec3)
    requires Dot(n, d) == 0.0
    ensures Mirror(n, o, Add(p, d)) == Add(Mirror(n, o, p), d)
  {
    assert Dot(n, Sub(Add(p, d), o)) == Dot(n, Sub(p, o)) + Dot(n, d);
  }

  /** Two corrected glides by a displacement parallel to the plane move the
      point by twice the displacement, for every non-collinear plane. */
  lemma GlideCorrectedTwice(lib: Lib, xyz: seq<Leaf>, d: seq<real>, plane: seq<seq<real>>)
    requires Lawful(lib) && |plane| >= 3 && AllNumbers(xyz) && |xyz| == 3 && AllTriples(plane) && |d| == 3
    requires Norm(lib, Cross(Sub(FromList(plane[1]), FromList(plane[0])), Sub(FromList(plane[2]), FromList(plane[0])))) != 0.0
    requires
      var p0, p1, p2 := FromList(plane[0]), FromList(plane[1]), FromList(plane[2]);
      Dot(UnitNormal(lib, p0, p1, p2), FromList(d)) == 0.0
    ensures GlideCorrected(lib, xyz, d, plane).Ok?
    ensures GlideCorrected(lib, Lift(GlideCorrected(lib, xyz, d, plane).value), d, plane) ==
      Ok(AsList(Add(Point(xyz), Scale(2.0, FromList(d)))))
  {
    var p0, p1, p2 := FromList(plane[0]), FromList(plane[1]), FromList(plane[2]);
    var n, v := UnitNormal(lib, p0, p1, p2), FromList(d);
    GlideCorrectedOutcome(lib, xyz, d, plane);
    var g := Add(Mirror(n, p0, Point(xyz)), v);
    PointOfList(g);
    GlideCorrectedOutcome(lib, Lift(AsList(g)), d, plane);
    UnitNormalIsUnit(lib, p0, p1, p2);
    GlideTwiceVectors(n, p0, Point(xyz), v);
  }

  /** Mirror, move along the plane, mirror and move again: the point moves
      by twice the displacement. */
  lemma GlideTwiceVectors(n: Vec3, o: Vec3, p: Vec3, v: Vec3)
    requires Dot(n, n) == 1.0 && Dot(n, v) == 0.0
    ensures Add(Mirror(n, o, Add(Mirror(n, o, p), v)), v) == Add(p, Scale(2.0, v))
  {
    MirrorAlongPlane(n, o, Mirror(n, o, p), v);
    MirrorInvolution(n, o, p);
  }
}
