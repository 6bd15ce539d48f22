/** The NumPy routines whose values are irrational: `np.cos`, `np.sin`,
    `np.arccos` and the square root inside `np.linalg.norm`. They are not
    computed here; every transform that needs them receives them as a `Lib`
    value, and the proofs use only the laws collected in `Lawful`. */
module NumericLibrary {
  import opened Vectors

  datatype Lib = Lib(cos: real -> real, sin: real -> real, arccos: real -> real, sqrt: real -> real)

  /** The laws of the real cosine, sine, arc cosine and square root that the
      proofs rely on, and nothing more. */
  ghost predicate Lawful(lib: Lib) {
    && lib.cos(0.0) == 1.0
    && (forall a, b :: a + b == 0.0 ==> lib.cos(a) == lib.cos(b) && lib.sin(a) == -lib.sin(b))
    && (forall a :: lib.cos(a) * lib.cos(a) + lib.sin(a) * lib.sin(a) == 1.0)
    && (forall q :: 0.0 <= q ==> 0.0 <= lib.sqrt(q) && lib.sqrt(q) * lib.sqrt(q) == q)
    && (forall d :: -1.0 <= d <= 1.0 ==> lib.cos(lib.arccos(d)) == d && 0.0 <= lib.sin(lib.arccos(d)))
  }

  /** `np.linalg.norm` of a 3-vector: the square root of the sum of squares. */
  function Norm(lib: Lib, v: Vec3): real {
    lib.sqrt(Dot(v, v))
  }

  lemma SineOfZero(lib: Lib)
    requires Lawful(lib)
    ensures lib.cos(0.0) == 1.0 && lib.sin(0.0) == 0.0
  {
    assert 0.0 + 0.0 == 0.0;
  }

  lemma Negation(lib: Lib, a: real)
    requires Lawful(lib)
    ensures lib.cos(-a) == lib.cos(a) && lib.sin(-a) == -lib.sin(a)
  {
    assert -a + a == 0.0;
  }

  lemma Pythagoras(lib: Lib, a: real)
    requires Lawful(lib)
    ensures lib.cos(a) * lib.cos(a) + lib.sin(a) * lib.sin(a) == 1.0
  {
  }

  /** A non-negative number whose square is q is the square root of q. */
  lemma SqrtUnique(lib: Lib, q: real, r: real)
    requires Lawful(lib)
    requires 0.0 <= r && r * r == q
    ensures lib.sqrt(q) == r
  {
    SquareNonneg(r);
    var s := lib.sqrt(q);
    assert 0.0 <= s && s * s == q;
    assert (s - r) * (s + r) == 0.0;
    if s + r != 0.0 {
      ProductZero(s + r, s - r);
    }
  }

  /** The norm is non-negative, squares to |v|^2 and vanishes exactly at the zero vector. */
  lemma NormFacts(lib: Lib, v: Vec3)
    requires Lawful(lib)
    ensures 0.0 <= Norm(lib, v)
    ensures Norm(lib, v) * Norm(lib, v) == Dot(v, v)
    ensures Norm(lib, v) == 0.0 <==> v == Zero
  {
    DotSelfZero(v);
    var r := Norm(lib, v);
    assert r == lib.sqrt(Dot(v, v));
    assert 0.0 <= r && r * r == Dot(v, v);
    if v == Zero {
      SquareZero(r);
    }
  }

  /** The norm is the non-negative square root of |v|^2. */
  lemma NormSquare(lib: Lib, v: Vec3)
    requires Lawful(lib)
    ensures 0.0 <= Norm(lib, v) && Norm(lib, v) * Norm(lib, v) == Dot(v, v)
  {
    NormFacts(lib, v);
  }

  /** Dividing a nonzero vector by its norm gives a unit vector. */
  lemma Normalised(lib: Lib, v: Vec3)
    requires Lawful(lib) && v != Zero
    ensures Norm(lib, v) > 0.0
    ensures Dot(Divide(v, Norm(lib, v)), Divide(v, Norm(lib, v))) == 1.0
  {
    NormFacts(lib, v);
    DivideIsScale(v, Norm(lib, v));
    UnitScale(v, Norm(lib, v));
  }

  lemma UnitScale(v: Vec3, r: real)
    requires r > 0.0 && r * r == Dot(v, v)
    ensures Dot(Scale(1.0 / r, v), Scale(1.0 / r, v)) == 1.0
  {
    var k := 1.0 / r;
    calc {
      Dot(Scale(k, v), Scale(k, v));
      k * k * Dot(v, v);
      k * k * (r * r);
      (k * r) * (k * r);
      1.0;
    }
  }
}
