/** The point transforms of the library: `translate`, `rotate`, `invert`,
    `rotoinvert` and `screw`. Each takes the point as a list that may hold
    non-numbers, checks the lengths, runs the type check on the point, and
    then computes with matrices. */
module Transforms {
  import opened Vectors
  import opened NumericLibrary
  import opened Rodrigues
  import opened Validation

  /** The homogeneous 4x4 matrix of `translate`, row by row. */
  function TranslationMatrix(d: seq<real>): (m: seq<seq<real>>)
    requires |d| == 3
    ensures |m| == 4 && forall i :: 0 <= i < 4 ==> |m[i]| == 4
  {
    [[1.0, 0.0, 0.0, d[0]],
     [0.0, 1.0, 0.0, d[1]],
     [0.0, 0.0, 1.0, d[2]],
     [0.0, 0.0, 0.0, 1.0]]
  }

  /** One row of a 4x4 matrix times a 4-vector. */
  function Row4(r: seq<real>, v: seq<real>): real
    requires |r| == 4 && |v| == 4
  {
    r[0] * v[0] + r[1] * v[1] + r[2] * v[2] + r[3] * v[3]
  }

  /** `np.dot` of a 4x4 matrix and a 4-vector. */
  function Apply4(m: seq<seq<real>>, v: seq<real>): seq<real>
    requires |m| == 4 && (forall i :: 0 <= i < 4 ==> |m[i]| == 4) && |v| == 4
  {
    [Row4(m[0], v), Row4(m[1], v), Row4(m[2], v), Row4(m[3], v)]
  }

  /** `translate(xyz, directional_xyz)`: the length error first, then the
      type check on the point, then the homogeneous product with its last
      coordinate dropped. */
  function Translate(xyz: seq<Leaf>, d: seq<real>): (r: Result<seq<real>>)
    ensures r.Ok? ==> |xyz| == 3 && |d| == 3 && |r.value| == 3
  {
    if |xyz| != 3 || |d| != 3 then Err(Shape)
    else if !FirstArgumentConverts([List(xyz), List(Lift(d))]) then Err(Type)
    else
      var v := Values(xyz);
      Ok(Apply4(TranslationMatrix(d), [v[0], v[1], v[2], 1.0])[..3])
  }

  /** The three numbers of a point that passed the checks, as a vector. */
  function Point(xyz: seq<Leaf>): Vec3
    requires |xyz| == 3 && AllNumbers(xyz)
  {
    FromList(Values(xyz))
  }

  lemma ListOfPoint(xyz: seq<Leaf>)
    requires |xyz| == 3 && AllNumbers(xyz)
    ensures AsList(Point(xyz)) == Values(xyz)
  {
  }

  lemma PointOfList(v: Vec3)
    ensures Point(Lift(AsList(v))) == v
  {
    ValuesOfLift(AsList(v));
  }

  /** The errors of `translate`: the length error whenever a list does not
      hold three values, else the type error exactly when the point holds a
      non-number; otherwise the point is moved by the displacement. */
  lemma TranslateOutcome(xyz: seq<Leaf>, d: seq<real>)
    ensures Translate(xyz, d) == Err(Shape) <==> |xyz| != 3 || |d| != 3
    ensures Translate(xyz, d) == Err(Type) <==> |xyz| == 3 && |d| == 3 && !AllNumbers(xyz)
    ensures |xyz| == 3 && |d| == 3 && AllNumbers(xyz) ==>
      Translate(xyz, d) == Ok(AsList(Add(Point(xyz), FromList(d))))
  {
    if |xyz| == 3 && |d| == 3 {
      assert [List(xyz), List(Lift(d))][0] == List(xyz);
      if AllNumbers(xyz) {
        var v := Values(xyz);
        var e := Apply4(TranslationMatrix(d), [v[0], v[1], v[2], 1.0]);
        assert e[0] == v[0] + d[0] && e[1] == v[1] + d[1] && e[2] == v[2] + d[2];
        assert e[..3] == [v[0] + d[0], v[1] + d[1], v[2] + d[2]];
      }
    }
  }

  /** `translate` on a list of numbers is the sum of the two vectors. */
  lemma TranslateSum(p: Vec3, d: Vec3)
    ensures Translate(Lift(AsList(p)), AsList(d)) == Ok(AsList(Add(p, d)))
  {
    TranslateOutcome(Lift(AsList(p)), AsList(d));
    PointOfList(p);
  }

  /** Translating back by the opposite displacement restores the point. */
  lemma TranslateRoundTrip(xyz: seq<Leaf>, d: seq<real>)
    requires |xyz| == 3 && |d| == 3 && AllNumbers(xyz)
    ensures Translate(xyz, d).Ok?
    ensures Translate(Lift(Translate(xyz, d).value), Negated(d)) == Ok(Values(xyz))
  {
    TranslateOutcome(xyz, d);
    var p, e := Point(xyz), FromList(d);
    NegatedList(e);
    TranslateSum(Add(p, e), Neg(e));
    assert Add(Add(p, e), Neg(e)) == p;
    ListOfPoint(xyz);
  }

  /** Two translations in a row are one translation by the sum. */
  lemma TranslateTwice(xyz: seq<Leaf>, d: seq<real>, e: seq<real>)
    requires |xyz| == 3 && |d| == 3 && |e| == 3 && AllNumbers(xyz)
    ensures Translate(xyz, d).Ok?
    ensures Translate(Lift(Translate(xyz, d).value), e) == Translate(xyz, AsList(Add(FromList(d), FromList(e))))
  {
    TranslateOutcome(xyz, d);
    TranslateOutcome(xyz, AsList(Add(FromList(d), FromList(e))));
    var p := Point(xyz);
    TranslateSum(Add(p, FromList(d)), FromList(e));
    assert AsList(FromList(e)) == e;
    assert Add(Add(p, FromList(d)), FromList(e)) == Add(p, Add(FromList(d), FromList(e)));
  }

  /** The unit vector along a nonzero axis, as `rotate` normalises it. */
  function UnitAxis(lib: Lib, a: Vec3): Vec3
    requires Norm(lib, a) != 0.0
  {
    Divide(a, Norm(lib, a))
  }

  /** `rotate(xyz, rotation_axis_direction, angle, rotation_origin)`: the
      length error, the type check on the point, then the point is moved to
      the origin, multiplied by the rotation matrix of the normalised axis and
      moved back; an axis of norm zero is the zero-axis error. */
  function Rotate(lib: Lib, xyz: seq<Leaf>, axis: seq<real>, angle: real, origin: seq<real>): (r: Result<seq<real>>)
    ensures r.Ok? ==> |r.value| == 3
  {
    if |xyz| != 3 || |axis| != 3 || |origin| != 3 then Err(Shape)
    else if !FirstArgumentConverts([List(xyz), List(Lift(axis)), Scalar(Num(angle)), List(Lift(origin))]) then Err(Type)
    else
      var start := Translate(xyz, Negated(origin));
      if start.Err? then start
      else
        var direction := FromList(axis);
        if Norm(lib, direction) != 0.0 then
          var n := UnitAxis(lib, direction);
          var rotated := Apply(RotationMatrix(n, lib.cos(angle), lib.sin(angle)), FromList(start.value));
          Translate(Lift(AsList(rotated)), origin)
        else
          Err(ZeroAxis)
  }

  /** A rotation about the axis along the unit vector n through o, by the
      angle whose cosine and sine are c and s, in Rodrigues' form. */
  function RotateAbout(n: Vec3, c: real, s: real, o: Vec3, p: Vec3): Vec3 {
    Add(Turn(n, c, s, Sub(p, o)), o)
  }

  /** The outcome of `rotate`: the length error, else the type error, else
      (for an axis of nonzero norm) the point turned about the axis through
      the origin by Rodrigues' formula. */
  lemma RotateOutcome(lib: Lib, xyz: seq<Leaf>, axis: seq<real>, angle: real, origin: seq<real>)
    ensures Rotate(lib, xyz, axis, angle, origin) == Err(Shape) <==> |xyz| != 3 || |axis| != 3 || |origin| != 3
    ensures Rotate(lib, xyz, axis, angle, origin) == Err(Type) <==>
      |xyz| == 3 && |axis| == 3 && |origin| == 3 && !AllNumbers(xyz)
    ensures |xyz| == 3 && |axis| == 3 && |origin| == 3 && AllNumbers(xyz) ==>
      (Rotate(lib, xyz, axis, angle, origin) == Err(ZeroAxis) <==> Norm(lib, FromList(axis)) == 0.0)
    ensures |xyz| == 3 && |axis| == 3 && |origin| == 3 && AllNumbers(xyz) && Norm(lib, FromList(axis)) != 0.0 ==>
      Rotate(lib, xyz, axis, angle, origin) ==
        Ok(AsList(RotateAbout(UnitAxis(lib, FromList(axis)), lib.cos(angle), lib.sin(angle), FromList(origin), Point(xyz))))
  {
    if |xyz| == 3 && |axis| == 3 && |origin| == 3 {
      assert [List(xyz), List(Lift(axis)), Scalar(Num(angle)), List(Lift(origin))][0] == List(xyz);
      if AllNumbers(xyz) {
        var o := FromList(origin);
        TranslateOutcome(xyz, Negated(origin));
        NegatedList(o);
        assert Add(Point(xyz), FromList(Negated(origin))) == Sub(Point(xyz), o);
        if Norm(lib, FromList(axis)) != 0.0 {
          var n := UnitAxis(lib, FromList(axis));
          MatrixIsTurn(n, lib.cos(angle), lib.sin(angle), Sub(Point(xyz), o));
          TranslateSum(Turn(n, lib.cos(angle), lib.sin(angle), Sub(Point(xyz), o)), o);
        }
      }
    }
  }

  /** With the laws of the numeric library, the zero-axis error happens
      exactly for the zero axis. */
  lemma RotateZeroAxis(lib: Lib, xyz: seq<Leaf>, axis: seq<real>, angle: real, origin: seq<real>)
    requires Lawful(lib)
    ensures Rotate(lib, xyz, axis, angle, origin) == Err(ZeroAxis) <==>
      |xyz| == 3 && |axis| == 3 && |origin| == 3 && AllNumbers(xyz) && FromList(axis) == Zero
  {
    RotateOutcome(lib, xyz, axis, angle, origin);
    if |axis| == 3 {
      NormFacts(lib, FromList(axis));
    }
  }

  /** The normalised axis of a nonzero direction is a unit vector. */
  lemma UnitAxisIsUnit(lib: Lib, a: Vec3)
    requires Lawful(lib) && a != Zero
    ensures Norm(lib, a) != 0.0
    ensures Dot(UnitAxis(lib, a), UnitAxis(lib, a)) == 1.0
  {
    Normalised(lib, a);
  }

  lemma SubAdd(u: Vec3, o: Vec3)
    ensures Sub(Add(u, o), o) == u
  {
  }

  lemma AddSub(p: Vec3, o: Vec3)
    ensures Add(Sub(p, o), o) == p
  {
  }

  /** Rodrigues' rotation by the opposite sine undoes the rotation. */
  lemma RotateAboutBack(n: Vec3, c: real, s: real, t: real, o: Vec3, p: Vec3)
    requires Dot(n, n) == 1.0 && c * c + s * s == 1.0 && t == -s
    ensures RotateAbout(n, c, t, o, RotateAbout(n, c, s, o, p)) == p
  {
    SubAdd(Turn(n, c, s, Sub(p, o)), o);
    TurnBack(n, c, s, t, Sub(p, o));
    AddSub(p, o);
  }

  /** The centre of a rotation stays where it is. */
  lemma RotateAboutCentre(n: Vec3, c: real, s: real, o: Vec3)
    ensures RotateAbout(n, c, s, o, o) == o
  {
    assert Sub(o, o) == Zero;
    TurnOfZero(n, c, s);
    assert Add(Zero, o) == o;
  }

  /** The rotation by cosine 1 and sine 0 is the identity. */
  lemma RotateAboutNothing(n: Vec3, o: Vec3, p: Vec3)
    ensures RotateAbout(n, 1.0, 0.0, o, p) == p
  {
    TurnByZero(n, Sub(p, o));
    AddSub(p, o);
  }

  /** Two rotations about the same axis and origin, the second applied to
      the result of the first. */
  lemma RotateTwice(lib: Lib, xyz: seq<Leaf>, axis: seq<real>, a1: real, a2: real, origin: seq<real>)
    requires |xyz| == 3 && |axis| == 3 && |origin| == 3 && AllNumbers(xyz) && Norm(lib, FromList(axis)) != 0.0
    ensures Rotate(lib, xyz, axis, a1, origin).Ok?
    ensures
      var n, o := UnitAxis(lib, FromList(axis)), FromList(origin);
      Rotate(lib, Lift(Rotate(lib, xyz, axis, a1, origin).value), axis, a2, origin) ==
        Ok(AsList(RotateAbout(n, lib.cos(a2), lib.sin(a2), o, RotateAbout(n, lib.cos(a1), lib.sin(a1), o, Point(xyz)))))
  {
    RotateOutcome(lib, xyz, axis, a1, origin);
    var q := RotateAbout(UnitAxis(lib, FromList(axis)), lib.cos(a1), lib.sin(a1), FromList(origin), Point(xyz));
    PointOfList(q);
    RotateOutcome(lib, Lift(AsList(q)), axis, a2, origin);
  }

  /** Rotating by the angle and then by its opposite about the same axis
      restores the point. */
  lemma RotateRoundTrip(lib: Lib, xyz: seq<Leaf>, axis: seq<real>, angle: real, origin: seq<real>)
    requires Lawful(lib)
    requires |xyz| == 3 && |axis| == 3 && |origin| == 3 && AllNumbers(xyz) && FromList(axis) != Zero
    ensures Rotate(lib, xyz, axis, angle, origin).Ok?
    ensures Rotate(lib, Lift(Rotate(lib, xyz, axis, angle, origin).value), axis, -angle, origin) == Ok(Values(xyz))
  {
    UnitAxisIsUnit(lib, FromList(axis));
    RotateTwice(lib, xyz, axis, angle, -angle, origin);
    RotateAboutOpposite(lib, UnitAxis(lib, FromList(axis)), angle, FromList(origin), Point(xyz));
    ListOfPoint(xyz);
  }

  /** Rotating about a unit axis by an angle and then by its opposite. */
  lemma RotateAboutOpposite(lib: Lib, n: Vec3, angle: real, o: Vec3, p: Vec3)
    requires Lawful(lib) && Dot(n, n) == 1.0
    ensures RotateAbout(n, lib.cos(-angle), lib.sin(-angle), o, RotateAbout(n, lib.cos(angle), lib.sin(angle), o, p)) == p
  {
    Negation(lib, angle);
    Pythagoras(lib, angle);
    RotateAboutBack(n, lib.cos(angle), lib.sin(angle), lib.sin(-angle), o, p);
  }

  /** A rotation by the angle 0 leaves every point where it is. */
  lemma RotateZeroAngle(lib: Lib, xyz: seq<Leaf>, axis: seq<real>, origin: seq<real>)
    requires Lawful(lib)
    requires |xyz| == 3 && |axis| == 3 && |origin| == 3 && AllNumbers(xyz) && FromList(axis) != Zero
    ensures Rotate(lib, xyz, axis, 0.0, origin) == Ok(Values(xyz))
  {
    UnitAxisIsUnit(lib, FromList(axis));
    RotateOutcome(lib, xyz, axis, 0.0, origin);
    SineOfZero(lib);
    RotateAboutNothing(UnitAxis(lib, FromList(axis)), FromList(origin), Point(xyz));
    ListOfPoint(xyz);
  }

  /** The rotation origin lies on the axis and does not move. */
  lemma RotateFixesOrigin(lib: Lib, axis: seq<real>, angle: real, origin: seq<real>)
    requires Lawful(lib)
    requires |axis| == 3 && |origin| == 3 && FromList(axis) != Zero
    ensures Rotate(lib, Lift(origin), axis, angle, origin) == Ok(origin)
  {
    UnitAxisIsUnit(lib, FromList(axis));
    RotateOutcome(lib, Lift(origin), axis, angle, origin);
    ValuesOfLift(origin);
    RotateAboutCentre(UnitAxis(lib, FromList(axis)), lib.cos(angle), lib.sin(angle), FromList(origin));
    assert AsList(FromList(origin)) == origin;
  }

  /** A rotation keeps the component along its axis of the point's offset
      from the origin. */
  lemma RotateKeepsAxialComponent(lib: Lib, xyz: seq<Leaf>, axis: seq<real>, angle: real, origin: seq<real>)
    requires Lawful(lib)
    requires |xyz| == 3 && |axis| == 3 && |origin| == 3 && AllNumbers(xyz) && FromList(axis) != Zero
    ensures Rotate(lib, xyz, axis, angle, origin).Ok?
    ensures Dot(FromList(axis), Sub(FromList(Rotate(lib, xyz, axis, angle, origin).value), FromList(origin)))
         == Dot(FromList(axis), Sub(Point(xyz), FromList(origin)))
  {
    UnitAxisIsUnit(lib, FromList(axis));
    var n, o, p := UnitAxis(lib, FromList(axis)), FromList(origin), Point(xyz);
    RotateOutcome(lib, xyz, axis, angle, origin);
    TurnKeepsAxial(n, lib.cos(angle), lib.sin(angle), Sub(p, o));
    assert Sub(RotateAbout(n, lib.cos(angle), lib.sin(angle), o, p), o) == Turn(n, lib.cos(angle), lib.sin(angle), Sub(p, o));
    DivideIsScale(FromList(axis), Norm(lib, FromList(axis)));
    AxialOfScaled(FromList(axis), Norm(lib, FromList(axis)),
                  Turn(n, lib.cos(angle), lib.sin(angle), Sub(p, o)), Sub(p, o));
  }

  /** Dot products with a vector agree when they agree with its nonzero multiple. */
  lemma AxialOfScaled(a: Vec3, r: real, u: Vec3, w: Vec3)
    requires r != 0.0
    requires Dot(Scale(1.0 / r, a), u) == Dot(Scale(1.0 / r, a), w)
    ensures Dot(a, u) == Dot(a, w)
  {
    DotScale(1.0 / r, a, u);
    DotScale(1.0 / r, a, w);
    assert (1.0 / r) * Dot(a, u) == (1.0 / r) * Dot(a, w);
    CancelFactor(1.0 / r, Dot(a, u), Dot(a, w));
  }

  lemma DotScale(k: real, a: Vec3, u: Vec3)
    ensures Dot(Scale(k, a), u) == k * Dot(a, u)
  {
  }

  lemma CancelFactor(k: real, x: real, y: real)
    requires k != 0.0 && k * x == k * y
    ensures x == y
  {
    assert k * (x - y) == 0.0;
    ProductZero(k, x - y);
  }

  /** The matrix `-I` of `invert`. */
  const InversionMatrix := Mat3(Vec3(-1.0, 0.0, 0.0), Vec3(0.0, -1.0, 0.0), Vec3(0.0, 0.0, -1.0))

  /** `invert(xyz, inversion_origin)`: the length error, the type check on
      the point, then the offset from the centre multiplied by `-I`. */
  function Invert(xyz: seq<Leaf>, origin: seq<real>): (r: Result<seq<real>>)
    ensures r.Ok? ==> |r.value| == 3
  {
    if |xyz| != 3 || |origin| != 3 then Err(Shape)
    else if !FirstArgumentConverts([List(xyz), List(Lift(origin))]) then Err(Type)
    else
      var start := Translate(xyz, Negated(origin));
      if start.Err? then start
      else
        var inverted := Apply(InversionMatrix, FromList(start.value));
        Translate(Lift(AsList(inverted)), origin)
  }

  /** The point reflection through c: the image of p is 2c - p. */
  function PointReflection(c: Vec3, p: Vec3): Vec3 {
    Sub(Scale(2.0, c), p)
  }

  /** The outcome of `invert`: the length error, else the type error, else
      the point reflected through the centre. */
  lemma InvertOutcome(xyz: seq<Leaf>, origin: seq<real>)
    ensures Invert(xyz, origin) == Err(Shape) <==> |xyz| != 3 || |origin| != 3
    ensures Invert(xyz, origin) == Err(Type) <==> |xyz| == 3 && |origin| == 3 && !AllNumbers(xyz)
    ensures |xyz| == 3 && |origin| == 3 && AllNumbers(xyz) ==>
      Invert(xyz, origin) == Ok(AsList(PointReflection(FromList(origin), Point(xyz))))
  {
    if |xyz| == 3 && |origin| == 3 {
      assert [List(xyz), List(Lift(origin))][0] == List(xyz);
      if AllNumbers(xyz) {
        var o := FromList(origin);
        TranslateOutcome(xyz, Negated(origin));
        NegatedList(o);
        assert Add(Point(xyz), FromList(Negated(origin))) == Sub(Point(xyz), o);
        var inverted := Apply(InversionMatrix, Sub(Point(xyz), o));
        assert inverted == Neg(Sub(Point(xyz), o));
        TranslateSum(inverted, o);
        assert Add(inverted, o) == PointReflection(o, Point(xyz));
      }
    }
  }

  /** The point reflection is its own inverse. */
  lemma PointReflectionTwice(c: Vec3, p: Vec3)
    ensures PointReflection(c, PointReflection(c, p)) == p
  {
  }

  /** The centre is the only fixed point of the point reflection. */
  lemma PointReflectionFixed(c: Vec3, p: Vec3)
    ensures PointReflection(c, p) == p <==> p == c
  {
  }

  /** Inverting twice through the same centre restores the point. */
  lemma InvertInvolution(xyz: seq<Leaf>, origin: seq<real>)
    requires |xyz| == 3 && |origin| == 3 && AllNumbers(xyz)
    ensures Invert(xyz, origin).Ok?
    ensures Invert(Lift(Invert(xyz, origin).value), origin) == Ok(Values(xyz))
  {
    InvertOutcome(xyz, origin);
    var q := PointReflection(FromList(origin), Point(xyz));
    PointOfList(q);
    InvertOutcome(Lift(AsList(q)), origin);
    PointReflectionTwice(FromList(origin), Point(xyz));
    ListOfPoint(xyz);
  }

  /** The inversion centre is the one fixed point of the inversion. */
  lemma InvertFixesOnlyCentre(xyz: seq<Leaf>, origin: seq<real>)
    requires |xyz| == 3 && |origin| == 3 && AllNumbers(xyz)
    ensures Invert(xyz, origin) == Ok(Values(xyz)) <==> Values(xyz) == origin
  {
    InvertOutcome(xyz, origin);
    ListOfPoint(xyz);
    PointReflectionFixed(FromList(origin), Point(xyz));
    ListsOfThree(Values(xyz), origin);
  }

  /** Two lists of three numbers are equal exactly when their vectors are. */
  lemma ListsOfThree(u: seq<real>, v: seq<real>)
    requires |u| == 3 && |v| == 3
    ensures u == v <==> FromList(u) == FromList(v)
  {
    if FromList(u) == FromList(v) {
      assert u == AsList(FromList(u)) && v == AsList(FromList(v));
    }
  }

  /** The rotoinversion about o: the rotated offset from o, reversed. */
  function Rotoinversion(n: Vec3, c: real, s: real, o: Vec3, p: Vec3): Vec3 {
    Sub(o, Turn(n, c, s, Sub(p, o)))
  }

  /** `rotoinvert(xyz, rotation_axis_direction, angle, rotoinversion_origin)`:
      the type check on the point comes before any length check, then a
      rotation followed by the inversion through the same origin. */
  function Rotoinvert(lib: Lib, xyz: seq<Leaf>, axis: seq<real>, angle: real, origin: seq<real>): (r: Result<seq<real>>)
    ensures r.Ok? ==> |r.value| == 3
  {
    if !FirstArgumentConverts([List(xyz), List(Lift(axis)), Scalar(Num(angle)), List(Lift(origin))]) then Err(Type)
    else
      var rotated :- Rotate(lib, xyz, axis, angle, origin);
      Invert(Lift(rotated), origin)
  }

  /** The outcome of `rotoinvert`: a non-number in the point is the type
      error whatever the lengths; otherwise the errors of `rotate`, and on
      success the rotated offset from the origin, reversed. */
  lemma RotoinvertOutcome(lib: Lib, xyz: seq<Leaf>, axis: seq<real>, angle: real, origin: seq<real>)
    ensures !AllNumbers(xyz) ==> Rotoinvert(lib, xyz, axis, angle, origin) == Err(Type)
    ensures AllNumbers(xyz) && Rotate(lib, xyz, axis, angle, origin).Err? ==>
      Rotoinvert(lib, xyz, axis, angle, origin) == Rotate(lib, xyz, axis, angle, origin)
    ensures |xyz| == 3 && |axis| == 3 && |origin| == 3 && AllNumbers(xyz) && Norm(lib, FromList(axis)) != 0.0 ==>
      Rotoinvert(lib, xyz, axis, angle, origin) ==
        Ok(AsList(Rotoinversion(UnitAxis(lib, FromList(axis)), lib.cos(angle), lib.sin(angle), FromList(origin), Point(xyz))))
  {
    assert [List(xyz), List(Lift(axis)), Scalar(Num(angle)), List(Lift(origin))][0] == List(xyz);
    RotateOutcome(lib, xyz, axis, angle, origin);
    if |xyz| == 3 && |axis| == 3 && |origin| == 3 && AllNumbers(xyz) && Norm(lib, FromList(axis)) != 0.0 {
      var o := FromList(origin);
      var q := RotateAbout(UnitAxis(lib, FromList(axis)), lib.cos(angle), lib.sin(angle), o, Point(xyz));
      PointOfList(q);
      InvertOutcome(Lift(AsList(q)), origin);
      ReflectedRotation(o, Turn(UnitAxis(lib, FromList(axis)), lib.cos(angle), lib.sin(angle), Sub(Point(xyz), o)));
    }
  }

  /** Reflecting o + w through o gives o - w. */
  lemma ReflectedRotation(o: Vec3, w: Vec3)
    ensures PointReflection(o, Add(w, o)) == Sub(o, w)
  {
  }

  /** `rotoinvert` reports a non-number in a point of the wrong length as
      the type error, where `rotate` reports the length error. */
  lemma RotoinvertTypeBeforeShape(lib: Lib)
    ensures Rotoinvert(lib, [NonNumeric], [0.0, 0.0, 1.0], 0.0, [0.0, 0.0, 0.0]) == Err(Type)
    ensures Rotate(lib, [NonNumeric], [0.0, 0.0, 1.0], 0.0, [0.0, 0.0, 0.0]) == Err(Shape)
  {
    assert !AllNumbers([NonNumeric]) by {
      assert [NonNumeric][0].NonNumeric?;
    }
    RotoinvertOutcome(lib, [NonNumeric], [0.0, 0.0, 1.0], 0.0, [0.0, 0.0, 0.0]);
  }

  /** A rotoinversion by the opposite sine undoes the rotoinversion. */
  lemma RotoinversionBack(n: Vec3, c: real, s: real, t: real, o: Vec3, p: Vec3)
    requires Dot(n, n) == 1.0 && c * c + s * s == 1.0 && t == -s
    ensures Rotoinversion(n, c, t, o, Rotoinversion(n, c, s, o, p)) == p
  {
    var w := Turn(n, c, s, Sub(p, o));
    OffsetOfReversed(o, w);
    TurnOdd(n, c, t, w);
    TurnBack(n, c, s, t, Sub(p, o));
    ReversedOffset(o, Sub(p, o));
    AddSub(p, o);
  }

  lemma OffsetOfReversed(o: Vec3, w: Vec3)
    ensures Sub(Sub(o, w), o) == Neg(w)
  {
  }

  lemma ReversedOffset(o: Vec3, u: Vec3)
    ensures Sub(o, Neg(u)) == Add(u, o)
  {
  }

  /** Two rotoinversions about the same axis and origin, the second applied
      to the result of the first. */
  lemma RotoinvertTwice(lib: Lib, xyz: seq<Leaf>, axis: seq<real>, a1: real, a2: real, origin: seq<real>)
    requires |xyz| == 3 && |axis| == 3 && |origin| == 3 && AllNumbers(xyz) && Norm(lib, FromList(axis)) != 0.0
    ensures Rotoinvert(lib, xyz, axis, a1, origin).Ok?
    ensures
      var n, o := UnitAxis(lib, FromList(axis)), FromList(origin);
      Rotoinvert(lib, Lift(Rotoinvert(lib, xyz, axis, a1, origin).value), axis, a2, origin) ==
        Ok(AsList(Rotoinversion(n, lib.cos(a2), lib.sin(a2), o, Rotoinversion(n, lib.cos(a1), lib.sin(a1), o, Point(xyz)))))
  {
    RotoinvertOutcome(lib, xyz, axis, a1, origin);
    var q := Rotoinversion(UnitAxis(lib, FromList(axis)), lib.cos(a1), lib.sin(a1), FromList(origin), Point(xyz));
    PointOfList(q);
    RotoinvertOutcome(lib, Lift(AsList(q)), axis, a2, origin);
  }

  /** A rotoinversion by the angle followed by one by its opposite, about the
      same axis and origin, restores the point. */
  lemma RotoinvertRoundTrip(lib: Lib, xyz: seq<Leaf>, axis: seq<real>, angle: real, origin: seq<real>)
    requires Lawful(lib)
    requires |xyz| == 3 && |axis| == 3 && |origin| == 3 && AllNumbers(xyz) && FromList(axis) != Zero
    ensures Rotoinvert(lib, xyz, axis, angle, origin).Ok?
    ensures Rotoinvert(lib, Lift(Rotoinvert(lib, xyz, axis, angle, origin).value), axis, -angle, origin) == Ok(Values(xyz))
  {
    UnitAxisIsUnit(lib, FromList(axis));
    RotoinvertTwice(lib, xyz, axis, angle, -angle, origin);
    RotoinversionOpposite(lib, UnitAxis(lib, FromList(axis)), angle, FromList(origin), Point(xyz));
    ListOfPoint(xyz);
  }

  /** A rotoinversion about a unit axis by an angle and then by its opposite. */
  lemma RotoinversionOpposite(lib: Lib, n: Vec3, angle: real, o: Vec3, p: Vec3)
    requires Lawful(lib) && Dot(n, n) == 1.0
    ensures Rotoinversion(n, lib.cos(-angle), lib.sin(-angle), o, Rotoinversion(n, lib.cos(angle), lib.sin(angle), o, p)) == p
  {
    Negation(lib, angle);
    Pythagoras(lib, angle);
    RotoinversionBack(n, lib.cos(angle), lib.sin(angle), lib.sin(-angle), o, p);
  }

  /** `screw(xyz, directional_xyz, angle, screw_origin)`: a rotation about
      the displacement's direction through the origin, then the translation
      by the displacement. */
  function Screw(lib: Lib, xyz: seq<Leaf>, d: seq<real>, angle: real, origin: seq<real>): (r: Result<seq<real>>)
    ensures r.Ok? ==> |r.value| == 3
  {
    var rotated :- Rotate(lib, xyz, d, angle, origin);
    Translate(Lift(rotated), d)
  }

  /** The outcome of `screw`: the errors of `rotate`, and on success the
      rotated point moved along the axis by the displacement. */
  lemma ScrewOutcome(lib: Lib, xyz: seq<Leaf>, d: seq<real>, angle: real, origin: seq<real>)
    ensures Rotate(lib, xyz, d, angle, origin).Err? ==>
      Screw(lib, xyz, d, angle, origin) == Rotate(lib, xyz, d, angle, origin)
    ensures |xyz| == 3 && |d| == 3 && |origin| == 3 && AllNumbers(xyz) && Norm(lib, FromList(d)) != 0.0 ==>
      Screw(lib, xyz, d, angle, origin) ==
        Ok(AsList(Add(RotateAbout(UnitAxis(lib, FromList(d)), lib.cos(angle), lib.sin(angle), FromList(origin), Point(xyz)),
                      FromList(d))))
  {
    RotateOutcome(lib, xyz, d, angle, origin);
    if |xyz| == 3 && |d| == 3 && |origin| == 3 && AllNumbers(xyz) && Norm(lib, FromList(d)) != 0.0 {
      var q := RotateAbout(UnitAxis(lib, FromList(d)), lib.cos(angle), lib.sin(angle), FromList(origin), Point(xyz));
      TranslateSum(q, FromList(d));
      assert AsList(FromList(d)) == d;
    }
  }

  /** A screw by the angle 0 is the bare translation. */
  lemma ScrewZeroAngle(lib: Lib, xyz: seq<Leaf>, d: seq<real>, origin: seq<real>)
    requires Lawful(lib)
    requires |xyz| == 3 && |d| == 3 && |origin| == 3 && AllNumbers(xyz) && FromList(d) != Zero
    ensures Screw(lib, xyz, d, 0.0, origin) == Translate(xyz, d)
  {
    RotateZeroAngle(lib, xyz, d, origin);
    TranslateOutcome(xyz, d);
    TranslateOutcome(Lift(Values(xyz)), d);
    ValuesOfLift(Values(xyz));
    ListOfPoint(xyz);
  }

  /** A screw moves the points of its axis along the axis: the origin goes
      to origin + displacement. */
  lemma ScrewMovesOriginAlongAxis(lib: Lib, d: seq<real>, angle: real, origin: seq<real>)
    requires Lawful(lib)
    requires |d| == 3 && |origin| == 3 && FromList(d) != Zero
    ensures Screw(lib, Lift(origin), d, angle, origin) == Ok(AsList(Add(FromList(origin), FromList(d))))
  {
    RotateFixesOrigin(lib, d, angle, origin);
    TranslateOutcome(Lift(origin), d);
    ValuesOfLift(origin);
  }

  /** A screw about the zero direction is the zero-axis error. */
  lemma ScrewZeroAxis(lib: Lib, xyz: seq<Leaf>, angle: real, origin: seq<real>)
    requires Lawful(lib)
    requires |xyz| == 3 && |origin| == 3 && AllNumbers(xyz)
    ensures Screw(lib, xyz, [0.0, 0.0, 0.0], angle, origin) == Err(ZeroAxis)
  {
    RotateZeroAxis(lib, xyz, [0.0, 0.0, 0.0], angle, origin);
  }
}
