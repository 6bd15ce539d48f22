/** `clean`: fractional coordinates reduced to the unit cell at a given
    number of decimals. */
module Clean {
  import opened Validation

  /** 10^p as a real. */
  function Pow10(p: nat): (r: real)
    ensures r >= 1.0
  {
    if p == 0 then 1.0 else 10.0 * Pow10(p - 1)
  }

  /** Python's `x % 1` on a float: what is left after the floor, always in [0, 1). */
  function Frac(x: real): (r: real)
    ensures 0.0 <= r < 1.0
    ensures (x - r).Floor as real == x - r
  {
    x - x.Floor as real
  }

  /** The value of the decimal string `"{:.{p}f}".format(x)`: x rounded to p
      decimals, ties upward. */
  function Round(x: real, p: nat): real {
    (Scaled(x, p) + 0.5).Floor as real / Pow10(p)
  }

  /** x with its decimal point moved p places to the right. */
  function Scaled(x: real, p: nat): real {
    x * Pow10(p)
  }

  /** Whether x has at most p decimals. */
  predicate HasDecimals(x: real, p: nat) {
    Scaled(x, p).Floor as real == Scaled(x, p)
  }

  /** One coordinate as `clean` computes it: rounded and reduced, reduced
      again, then rounded and reduced once more. */
  function CleanCoordinate(x: real, p: nat): real {
    Frac(Round(Frac(Frac(Round(x, p))), p))
  }

  /** `clean(fractional_xyz, precision)`: the shape error for a list that does
      not hold three values, the type error when a value is not a number,
      otherwise each coordinate cleaned. */
  function Clean(xyz: seq<Leaf>, precision: nat): (r: Result<seq<real>>)
    ensures |xyz| != 3 ==> r == Err(Shape)
    ensures |xyz| == 3 && !AllNumbers(xyz) ==> r == Err(Type)
    ensures |xyz| == 3 && AllNumbers(xyz) ==> r.Ok? && |r.value| == 3
    ensures r.Ok? ==> forall i :: 0 <= i < 3 ==> 0.0 <= r.value[i] < 1.0
  {
    if |xyz| != 3 then Err(Shape)
    else if !FirstArgumentConverts([List(xyz), Scalar(Num(precision as real))]) then Err(Type)
    else
      var v := Values(xyz);
      Ok([CleanCoordinate(v[0], precision), CleanCoordinate(v[1], precision), CleanCoordinate(v[2], precision)])
  }

  /** Adding one half to a whole number does not move its floor. */
  lemma FloorOfWholePlusHalf(y: real)
    requires y.Floor as real == y
    ensures (y + 0.5).Floor == y.Floor
  {
  }

  /** Scaling undone: x scaled by 10^p, divided by 10^p, is x. */
  lemma Unscale(x: real, p: nat)
    ensures Scaled(x, p) / Pow10(p) == x
  {
  }

  /** A whole number k divided by 10^p scales back to k. */
  lemma ScaleWhole(k: int, p: nat)
    ensures Scaled(k as real / Pow10(p), p) == k as real
  {
  }

  /** Scaling distributes over a difference. */
  lemma ScaledDifference(a: real, b: real, p: nat)
    ensures Scaled(a - b, p) == Scaled(a, p) - Scaled(b, p)
  {
  }

  /** A value with p decimals is kept by rounding to p decimals. */
  lemma RoundKeepsDecimals(x: real, p: nat)
    requires HasDecimals(x, p)
    ensures Round(x, p) == x
  {
    FloorOfWholePlusHalf(Scaled(x, p));
    Unscale(x, p);
  }

  /** Rounding to p decimals gives a value with p decimals. */
  lemma RoundHasDecimals(x: real, p: nat)
    ensures HasDecimals(Round(x, p), p)
  {
    ScaleWhole((Scaled(x, p) + 0.5).Floor, p);
  }

  /** A whole number has p decimals for every p. */
  lemma {:induction false} WholeHasDecimals(k: int, p: nat)
    ensures HasDecimals(k as real, p)
  {
    if p > 0 {
      WholeHasDecimals(k, p - 1);
      TenTimesScaled(k as real, p);
      assert Scaled(k as real, p) == (10 * Scaled(k as real, p - 1).Floor) as real;
    }
  }

  /** One more decimal place is a factor of ten. */
  lemma TenTimesScaled(x: real, p: nat)
    requires p > 0
    ensures Scaled(x, p) == 10.0 * Scaled(x, p - 1)
  {
  }

  /** Reducing modulo 1 keeps the number of decimals. */
  lemma FracHasDecimals(x: real, p: nat)
    requires HasDecimals(x, p)
    ensures HasDecimals(Frac(x), p)
  {
    WholeHasDecimals(x.Floor, p);
    ScaledDifference(x, x.Floor as real, p);
    WholeDifference(Scaled(x, p), Scaled(x.Floor as real, p));
  }

  /** The difference of two whole numbers is whole. */
  lemma WholeDifference(a: real, b: real)
    requires a.Floor as real == a && b.Floor as real == b
    ensures (a - b).Floor as real == a - b
  {
    assert a - b == (a.Floor - b.Floor) as real;
  }

  /** Reducing modulo 1 twice is reducing once. */
  lemma FracIdempotent(x: real)
    ensures Frac(Frac(x)) == Frac(x)
  {
  }

  /** Each coordinate of `clean` is the coordinate rounded to p decimals and
      reduced modulo 1, so it lies in [0, 1) and has at most p decimals. */
  lemma CleanCoordinateValue(x: real, p: nat)
    ensures CleanCoordinate(x, p) == Frac(Round(x, p))
    ensures 0.0 <= CleanCoordinate(x, p) < 1.0
    ensures HasDecimals(CleanCoordinate(x, p), p)
  {
    var y := Frac(Round(x, p));
    RoundHasDecimals(x, p);
    FracHasDecimals(Round(x, p), p);
    FracIdempotent(Round(x, p));
    RoundKeepsDecimals(y, p);
    FracIdempotent(y);
  }

  /** What `clean` returns for three numbers: each rounded to `precision`
      decimals and reduced to [0, 1), with at most `precision` decimals. */
  lemma CleanValue(xyz: seq<Leaf>, precision: nat)
    requires |xyz| == 3 && AllNumbers(xyz)
    ensures Clean(xyz, precision).Ok?
    ensures forall i :: 0 <= i < 3 ==> Clean(xyz, precision).value[i] == Frac(Round(Values(xyz)[i], precision))
    ensures forall i :: 0 <= i < 3 ==> HasDecimals(Clean(xyz, precision).value[i], precision)
  {
    var v := Values(xyz);
    CleanCoordinateValue(v[0], precision);
    CleanCoordinateValue(v[1], precision);
    CleanCoordinateValue(v[2], precision);
  }

  /** Cleaning a cleaned triple changes nothing. */
  lemma CleanIdempotent(xyz: seq<Leaf>, precision: nat)
    requires |xyz| == 3 && AllNumbers(xyz)
    ensures Clean(Lift(Clean(xyz, precision).value), precision) == Clean(xyz, precision)
  {
    var w := Clean(xyz, precision).value;
    CleanValue(xyz, precision);
    ValuesOfLift(w);
    forall i | 0 <= i < 3
      ensures CleanCoordinate(w[i], precision) == w[i]
    {
      CleanCoordinateValue(Values(xyz)[i], precision);
      RoundKeepsDecimals(w[i], precision);
      FracIdempotent(Round(Values(xyz)[i], precision));
    }
  }

  /** A negative coordinate is wrapped into the cell: -0.25 becomes 0.75. */
  lemma CleanWrapsNegative()
    ensures Clean([Num(-0.25), Num(1.5), Num(0.126)], 2) == Ok([0.75, 0.5, 0.13])
  {
    assert Pow10(2) == 100.0;
    assert Round(-0.25, 2) == -0.25;
    assert Frac(-0.25) == 0.75;
    assert Round(0.75, 2) == 0.75;
    assert CleanCoordinate(-0.25, 2) == 0.75;
    assert Round(1.5, 2) == 1.5;
    assert Frac(1.5) == 0.5;
    assert Round(0.5, 2) == 0.5;
    assert CleanCoordinate(1.5, 2) == 0.5;
    assert (0.126 * 100.0 + 0.5).Floor == 13;
    assert Round(0.126, 2) == 0.13;
    assert Frac(0.13) == 0.13;
    assert Round(0.13, 2) == 0.13;
    assert CleanCoordinate(0.126, 2) == 0.13;
  }
}
