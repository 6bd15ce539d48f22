# SymmPy symmetry operations in Dafny

SymmPy (`Symmpy.py`) is a small library of crystallographic symmetry
operations on points in Cartesian space. It has:

- a shared argument check (`__float_test`) and four error kinds
  (`ERROR_CODE`: shape, zero rotation axis, collinear plane points, data
  type);
- `clean`, which reduces fractional coordinates to the unit cell;
- the primitive transforms `translate`, `rotate` (Rodrigues' rotation
  matrix about an axis through an origin) and `invert` (inversion through
  a centre);
- `reflect`, which mirrors a point in the plane through three points. It
  turns the plane normal onto +z, mirrors with `diag(1, 1, -1)`, turns
  back and moves back;
- the compositions `rotoinvert`, `glide` and `screw`.

Every operation is pure. The model therefore uses datatypes, functions
and lemmas:

- A Python list of coordinates is a `seq` whose length is checked as the
  source checks it.
- The first argument of each operation is a `seq<Leaf>`, where
  `Leaf = Num(real) | NonNumeric`. This makes the validator's behaviour
  expressible.
- Each operation returns a `Result`: the list of coordinates or one
  `ErrorCode`.
- Arithmetic is exact, over `real`.
- `cos`, `sin`, `arccos` and the square root behind `np.linalg.norm`
  belong to a `Lib` value passed as a parameter. The ghost predicate
  `Lawful(lib)` states the laws the proofs use:
  - cos 0 = 1;
  - cos is even and sin is odd;
  - cos² + sin² = 1;
  - sqrt is the non-negative square root;
  - cos(arccos d) = d and sin(arccos d) >= 0 on [-1, 1].

Modules:

- `Validation` (validation.dfy): the error kinds, `Result`, argument
  values and `__float_test`. `FloatTest` is a method with the source's
  loops.
- `Vectors` (vectors.dfy): 3-vectors, dot and cross products, and the
  algebra used by the other modules.
- `NumericLibrary` (numeric_library.dfy): `Lib`, `Lawful` and the norm.
- `Rodrigues` (rodrigues.dfy): the rotation matrix of `rotate` and
  Rodrigues' formula.
- `Clean` (clean.dfy): `clean`, with rounding to `precision` decimals.
- `Transforms` (transforms.dfy): `translate`, `rotate`, `invert`,
  `rotoinvert` and `screw`.
- `Reflection` (reflection.dfy): `reflect` and `glide` as written, and
  both corrected for planes parallel to the xy-plane (see Findings).

## Model

| member | source | states |
|---|---|---|
| Validation.FirstArgumentConverts | Symmpy.py:11-22 | the validator's verdict as a definition: no arguments, or a first argument that converts (every element of a list, or the value itself); `Validation.FloatTest` is proved equal to it |
| Validation.FloatTest | Symmpy.py:11-22 | the loop's verdict is exactly "the first argument converts": every element if it is a list, the value itself otherwise; no arguments passes |
| Validation.OnlyFirstArgumentChecked | Symmpy.py:12-22 | the verdict depends only on the first argument; any later arguments give the same verdict |
| Validation.LaterArgumentsUnchecked | Symmpy.py:12-22 | a non-numeric second argument after a numeric first list still passes |
| Clean.Clean | Symmpy.py:25-41 | the shape error exactly for a list that does not hold 3 values; otherwise the type error exactly for a non-number; otherwise 3 coordinates, each in [0, 1) |
| Clean.Round | Symmpy.py:38-40 | `eval("{:.{dec}f}".format(x))` as rounding half up to `precision` decimals; `Clean.RoundHasDecimals` and `Clean.RoundKeepsDecimals` state what it computes |
| Clean.CleanCoordinate | Symmpy.py:38-40 | one coordinate of `clean`, step by step: round, mod 1, mod 1, round, mod 1; `Clean.CleanCoordinateValue` states its value |
| Clean.Frac | Symmpy.py:38-40 | `x % 1` is in [0, 1) and differs from x by a whole number |
| Clean.Pow10 | Symmpy.py:38 | 10 to the power `precision` is at least 1 |
| Clean.CleanCoordinateValue | Symmpy.py:38-40 | rounding, reducing, reducing, rounding and reducing again equals one rounding then one reduction; the result is in [0, 1) with at most `precision` decimals |
| Clean.CleanValue | Symmpy.py:38-41 | each output coordinate is the fractional part of the input rounded to `precision` decimals, with at most `precision` decimals |
| Clean.CleanIdempotent | Symmpy.py:38-41 | cleaning a cleaned triple returns it unchanged |
| Clean.CleanWrapsNegative | Symmpy.py:38-41 | at precision 2, (-0.25, 1.5, 0.126) becomes (0.75, 0.5, 0.13) |
| Clean.RoundKeepsDecimals | Symmpy.py:38 | rounding keeps a value that already has at most `precision` decimals |
| Clean.RoundHasDecimals | Symmpy.py:38 | a rounded value has at most `precision` decimals |
| Clean.FracHasDecimals | Symmpy.py:39 | reducing modulo 1 keeps a value's decimals |
| Clean.FracIdempotent | Symmpy.py:39 | reducing modulo 1 twice is reducing once |
| Clean.WholeHasDecimals | Symmpy.py:38 | a whole number has at most `precision` decimals for every precision |
| NumericLibrary.NormFacts | Symmpy.py:84 | the norm is non-negative, its square is v.v, and it is zero exactly for the zero vector |
| NumericLibrary.Normalised | Symmpy.py:85 | a nonzero vector divided by its norm is a unit vector |
| Rodrigues.RotationMatrix | Symmpy.py:89-97 | the matrix of `rotate`, entry by entry, for the normalised axis and the cosine and sine of the angle; `Rodrigues.MatrixIsTurn` states what it applies |
| Rodrigues.MatrixIsTurn | Symmpy.py:89-99 | the matrix built entry by entry applied to p equals Rodrigues' formula c p + (1 - c)(n.p) n + s (n x p) |
| Rodrigues.TurnBack | Symmpy.py:89-97 | for a unit axis and c² + s² = 1, turning by (c, s) then by (c, -s) restores the point |
| Rodrigues.TurnKeepsAxial | Symmpy.py:89-97 | a turn about a unit axis keeps the component along the axis |
| Rodrigues.TurnByZero | Symmpy.py:89-97 | with cosine 1 and sine 0 the turn is the identity |
| Transforms.Translate | Symmpy.py:44-63 | `translate`: a result holds 3 values and needs both lists of length 3; its full outcome is `Transforms.TranslateOutcome` |
| Transforms.TranslateOutcome | Symmpy.py:52-63 | the shape error exactly when a list does not hold 3 values; otherwise the type error exactly for a non-numeric point; otherwise the sum x + d |
| Transforms.TranslateRoundTrip | Symmpy.py:57-63 | translating by d and then by -d returns the point |
| Transforms.TranslateTwice | Symmpy.py:57-63 | translating by d and then by e is translating by d + e |
| Transforms.TranslateSum | Symmpy.py:57-63 | translating a point of numbers is vector addition |
| Transforms.Rotate | Symmpy.py:66-103 | `rotate`: a result holds 3 values; its full outcome is `Transforms.RotateOutcome` |
| Transforms.RotateOutcome | Symmpy.py:76-103 | the shape error exactly when a list does not hold 3 values; then the type error exactly for a non-numeric point; then the zero-axis error exactly when the axis has norm 0; otherwise Rodrigues' formula about the normalised axis through the origin |
| Transforms.RotateZeroAxis | Symmpy.py:84-103 | for a valid call, the zero-axis error happens exactly when the axis is the zero vector |
| Transforms.RotateZeroAngle | Symmpy.py:81-101 | the angle 0 returns the point unchanged |
| Transforms.RotateFixesOrigin | Symmpy.py:81-101 | the rotation origin is mapped to itself |
| Transforms.RotateRoundTrip | Symmpy.py:81-101 | rotating by θ and then by -θ about the same axis and origin returns the point |
| Transforms.RotateTwice | Symmpy.py:81-101 | two rotations about the same axis and origin compose the two turns |
| Transforms.RotateKeepsAxialComponent | Symmpy.py:81-101 | the offset from the origin keeps its component along the axis |
| Transforms.RotateAboutBack | Symmpy.py:81-101 | turning about o by (c, s) and then by (c, -s) restores the point |
| Transforms.RotateAboutOpposite | Symmpy.py:81-101 | turning by the angle and by its negative restores the point |
| Transforms.Invert | Symmpy.py:106-126 | `invert`: a result holds 3 values; its full outcome is `Transforms.InvertOutcome` |
| Transforms.InvertOutcome | Symmpy.py:114-126 | the shape error exactly when a list does not hold 3 values; then the type error exactly for a non-numeric point; otherwise 2c - x |
| Transforms.InvertInvolution | Symmpy.py:119-126 | inverting twice through the same centre returns the point |
| Transforms.InvertFixesOnlyCentre | Symmpy.py:119-126 | a point is unchanged exactly when it is the centre |
| Transforms.PointReflectionTwice | Symmpy.py:119-126 | 2c - (2c - p) = p |
| Transforms.PointReflectionFixed | Symmpy.py:119-126 | 2c - p = p exactly when p = c |
| Transforms.Rotoinvert | Symmpy.py:129-145 | `rotoinvert`: a result holds 3 values; its full outcome is `Transforms.RotoinvertOutcome` |
| Transforms.RotoinvertOutcome | Symmpy.py:140-145 | a non-number in the point is the type error whatever the lengths; otherwise the errors of `rotate`; on success the rotated offset from the origin, reversed through the origin |
| Transforms.RotoinvertTypeBeforeShape | Symmpy.py:140-143 | on a one-element non-numeric point, `rotoinvert` gives the type error while `rotate` gives the shape error |
| Transforms.RotoinvertTwice | Symmpy.py:143-144 | two rotoinversions about the same axis and origin compose |
| Transforms.RotoinvertRoundTrip | Symmpy.py:143-144 | rotoinverting by θ and then by -θ returns the point |
| Transforms.RotoinversionBack | Symmpy.py:143-144 | the rotoinversion by (c, -s) undoes the rotoinversion by (c, s) |
| Transforms.RotoinversionOpposite | Symmpy.py:143-144 | the rotoinversion by -θ undoes the one by θ |
| Transforms.Screw | Symmpy.py:211-224 | `screw`: a result holds 3 values; its full outcome is `Transforms.ScrewOutcome` |
| Transforms.ScrewOutcome | Symmpy.py:222-223 | the errors of `rotate` pass through; on success the rotated point moved by the unnormalised direction |
| Transforms.ScrewZeroAngle | Symmpy.py:222-223 | a screw by angle 0 is the translation by the direction |
| Transforms.ScrewMovesOriginAlongAxis | Symmpy.py:222-223 | the screw origin moves by exactly the direction |
| Transforms.ScrewZeroAxis | Symmpy.py:222-223 | a zero direction gives the zero-axis error |
| Reflection.CollinearTest | Symmpy.py:172-176 | the collinearity test on three lengths: the two smallest add up to the largest; `Reflection.CollinearTestMeaning` and `Reflection.CollinearTestExact` state what it decides |
| Reflection.Sort3 | Symmpy.py:175 | the sorted edge lengths are ascending and a permutation of the three lengths |
| Reflection.CollinearTestMeaning | Symmpy.py:175-176 | for lengths, the sorted test holds exactly when one length is the sum of the other two, in any position |
| Reflection.CollinearTestExact | Symmpy.py:166-176 | the test on the edge lengths |a|, |b|, |b - a| holds exactly when a x b is zero, that is when the points are collinear |
| Reflection.TriangleEquality | Symmpy.py:176 | |a| + |b| = |a + b| forces a x b = 0 |
| Reflection.ParallelThirdEdge | Symmpy.py:176 | for parallel edges, the third edge's length is the sum or difference of the other two |
| Reflection.TranslateAll | Symmpy.py:165 | the comprehension of translations succeeds exactly when every plane point holds 3 values; it otherwise fails with the shape error; each element is that point's translation |
| Reflection.CornersOutcome | Symmpy.py:163-165 | the translated plane points are the offsets from the first point |
| Reflection.PlaneFrame | Symmpy.py:157-182 | the first part of `reflect` (type check, translations, collinearity test, unit normal): a frame it returns has a unit normal; its outcome is `Reflection.PlaneFrameErrors` and `Reflection.PlaneFrameOutcome` |
| Reflection.PlaneFrameErrors | Symmpy.py:157-165 | the type error exactly for a non-numeric point; otherwise the shape error exactly for a point or plane point of the wrong length |
| Reflection.PlaneFrameOutcome | Symmpy.py:163-182 | the collinear error exactly for collinear plane points; otherwise the point's offset from the first plane point and the unit normal of the plane |
| Reflection.MirrorInFrame | Symmpy.py:183-192 | the second part of `reflect` (turn, flip, turn back, move back): a result holds 3 values; its outcome is `Reflection.MirrorInFrameOutcome` |
| Reflection.MirrorInFrameOutcome | Symmpy.py:183-192 | the zero-axis error when z x n has norm 0; otherwise the turn by -arccos n.z, the mirror `diag(1, 1, -1)`, the turn back and the move back |
| Reflection.MirrorInFrameIsMirror | Symmpy.py:183-192 | when z x n is not zero, the two turns around the flip are the mirror image in the plane with normal n |
| Reflection.Reflect | Symmpy.py:148-193 | `reflect` as written: a result holds 3 values; its outcome is `Reflection.ReflectErrors`, `Reflection.ReflectZeroAxis` and `Reflection.ReflectIsMirror` |
| Reflection.ReflectErrors | Symmpy.py:157-178 | the type error exactly for a non-numeric point; the shape error exactly for a point or plane point of the wrong length; for valid input, the collinear error exactly for collinear plane points |
| Reflection.ReflectCoincidentPoints | Symmpy.py:166-178 | two equal plane points, in any two positions, give the collinear error |
| Reflection.ReflectZeroAxis | Symmpy.py:183-186 | for valid non-collinear input, the zero-axis error happens exactly when the three plane points share their z coordinate |
| Reflection.FlatPlaneAxis | Symmpy.py:179-184 | z x n has norm 0 exactly when the plane points share their z coordinate |
| Reflection.ReflectIsMirror | Symmpy.py:163-193 | for a plane not parallel to the xy-plane, the result is the mirror image of the point in the plane |
| Reflection.ReflectInXyPlane | Symmpy.py:183-186 | the plane through (0,0,0), (1,0,0) and (0,1,0) gives the zero-axis error for every numeric point |
| Reflection.ReflectCorrected | Symmpy.py:148-193 | `reflect` with the turns skipped for a plane parallel to the xy-plane: a result holds 3 values; its outcome is `Reflection.ReflectCorrectedErrors` and `Reflection.ReflectCorrectedIsMirror` |
| Reflection.MirrorInFrameCorrected | Symmpy.py:183-192 | the corrected second part: the flip applied directly when z x n has norm 0; `Reflection.MirrorInFrameCorrectedIsMirror` states its value |
| Reflection.ReflectAgreesWithCorrected | Symmpy.py:148-193 | the corrected `reflect` differs from the source's only where the source gives the zero-axis error |
| Reflection.MirrorInFrameCorrectedIsMirror | Symmpy.py:183-192 | the corrected second part is the mirror image for every unit normal |
| Reflection.ReflectCorrectedIsMirror | Symmpy.py:148-193 | for valid non-collinear input, the corrected `reflect` is the mirror image of the point in the plane |
| Reflection.ReflectCorrectedErrors | Symmpy.py:157-178 | the type, shape and collinear errors exactly as in `reflect`; never the zero-axis error |
| Reflection.ReflectCorrectedInvolution | Symmpy.py:148-193 | reflecting twice in the same plane returns the point |
| Reflection.ReflectCorrectedFixesPlane | Symmpy.py:148-193 | each of the three plane points is its own reflection |
| Reflection.ReflectCorrectedInXyPlane | Symmpy.py:148-193 | in the plane z = 0, (x, y, z) is reflected to (x, y, -z) |
| Reflection.ReflectCorrectedAcrossZ | Symmpy.py:148-193 | for a plane through the origin with unit normal +z, (x, y, z) is reflected to (x, y, -z) |
| Reflection.MirrorInvolution | Symmpy.py:187-190 | mirroring twice in the same plane is the identity |
| Reflection.MirrorFixesPlane | Symmpy.py:187-190 | the points of the plane are fixed |
| Reflection.MirrorReversesNormal | Symmpy.py:187-190 | the point one unit along the normal goes to the point one unit against it |
| Reflection.UnitNormalIsUnit | Symmpy.py:179-182 | the normalised normal of non-collinear points has length 1 |
| Reflection.UnitNormalOrthogonal | Symmpy.py:179-182 | the normal is orthogonal to both plane edges |
| Reflection.PlanePointOnPlane | Symmpy.py:179-182 | each plane point lies on the plane through the first one with that normal |
| Reflection.Glide | Symmpy.py:196-208 | `glide`: `reflect` as written, then `translate`; a result holds 3 values; its outcome is `Reflection.GlideErrors`, `Reflection.GlideZeroAxis` and `Reflection.GlideOutcome` |
| Reflection.GlideErrors | Symmpy.py:206-207 | the errors of `reflect` pass through: type exactly for a non-numeric point, shape for a wrong length, collinear exactly for collinear plane points, zero axis exactly when `reflect` gives it |
| Reflection.GlideZeroAxis | Symmpy.py:206-207 | for valid non-collinear input, the zero-axis error happens exactly when the plane points share their z coordinate |
| Reflection.GlideOutcome | Symmpy.py:206-207 | for valid non-collinear input on a plane not parallel to the xy-plane, the shape error for a displacement that does not hold 3 values; otherwise the mirror image moved by the displacement |
| Reflection.GlideTwice | Symmpy.py:206-207 | for a plane not parallel to the xy-plane and a displacement parallel to it, two glides move the point by twice the displacement |
| Reflection.GlideInXyPlane | Symmpy.py:206-207 | the plane through (0,0,0), (1,0,0) and (0,1,0) gives the zero-axis error for every numeric point and displacement |
| Reflection.GlideAgreesWithCorrected | Symmpy.py:196-208 | `glide` equals the corrected glide except where `reflect` gives the zero-axis error, and then it gives that error too |
| Reflection.GlideCorrected | Symmpy.py:196-208 | `glide` composed with the corrected `reflect`: a result holds 3 values |
| Reflection.GlideCorrectedOutcome | Symmpy.py:206-207 | for valid non-collinear input, on any plane, the shape error for a displacement that does not hold 3 values; otherwise the mirror image moved by the displacement |
| Reflection.GlideCorrectedErrors | Symmpy.py:206-207 | the type, shape and collinear errors as in `glide`; never the zero-axis error |
| Reflection.GlideCorrectedTwice | Symmpy.py:206-207 | for any non-collinear plane and a displacement parallel to it, two corrected glides move the point by twice the displacement |
| Reflection.MirrorAlongPlane | Symmpy.py:206-207 | a move parallel to the plane commutes with the mirror |

## Left out

- Floating point. Everything is exact over `real`. This leaves out rounding in the matrix products. It also leaves out the exact float comparison `a + b == c` of the collinearity test, which over floats can miss near-collinear points or flag ones that are not.
- The values of `np.cos`, `np.sin`, `np.arccos` and `np.linalg.norm`. They are the fields of a `Lib` parameter and obey only the laws in `Lawful`.
- Clean.Clean: `"{:.{dec}f}".format` followed by `eval` is modelled as rounding half up on reals, `Floor(x * 10^p + 1/2) / 10^p`. Half-even ties on binary floats are not modelled, and neither is a negative `precision` (`precision` is a `nat`).
- Numeric strings, tuples and numpy arrays as arguments. Every value is a number (`Num`) or something `float()` rejects (`NonNumeric`), and a list is a `seq`.
- Later arguments that are not numbers. Axes, origins, displacements and angles are `real`s: `__float_test` never looks at them, and numpy would then fail with its own exceptions, outside the module's error kinds.
- Plane points that are not numbers. Plane points are `seq<real>`. In the source, a non-numeric entry in the first plane point fails with a Python or NumPy `TypeError` when it is negated (Symmpy.py:163). A non-numeric entry in the second or third plane point reaches `translate` as its first argument (Symmpy.py:165), whose check raises the module's type error (Symmpy.py:54-56). `Reflection.ReflectErrors`, `Reflection.PlaneFrameErrors` and `Reflection.GlideErrors` cannot express that path: their type error covers only the point.
- Integer width. Coordinates are unbounded reals. When every input of `translate` is a Python `int`, NumPy computes the matrix product (Symmpy.py:57-62) in 64-bit integers, which wrap silently past 2^63, for example `translate([2**62, 0, 0], [2**62, 0, 0])`. The same holds for the other operations built on it.
- The message strings of `ERROR_CODE` and the exception classes (`IndexError`, `ValueError`, `ZeroDivisionError`). Each error is one `ErrorCode` tag.
- `np.squeeze`, `np.delete` and the mutable default `[0, 0, 0]` arguments. The defaults are never mutated, so the model passes the origin explicitly.
- Reflection.Reflect: requires at least three plane points. With fewer, the Python list indexing at Symmpy.py:158 raises an `IndexError`, the exception class of the shape error, but with Python's own message rather than the module's.
- Reflection.Reflect: requires `Lawful(lib)`. The source divides by the norm of the plane normal, and only the laws guarantee that the collinearity test leaves a nonzero normal; without them numpy would give `nan` values rather than an error.

## Findings

| source | as written | input that shows it | evidently intended | confidence | as-written member | corrected member |
|---|---|---|---|---|---|---|
| Symmpy.py:183-186, raised at Symmpy.py:103 | `reflect` turns the plane normal n onto +z about z x n. For a plane parallel to the xy-plane that axis is the zero vector, so the inner `rotate` raises the zero-axis error | `reflect([1, 2, 3], [[0, 0, 0], [1, 0, 0], [0, 1, 0]])`, or any point with any three non-collinear plane points of equal z | a plane parallel to the xy-plane needs no turn: the mirror `diag(1, 1, -1)` applies directly, giving (1, 2, -3) | not executed | Reflection.ReflectZeroAxis, Reflection.ReflectInXyPlane, Reflection.GlideInXyPlane | Reflection.ReflectCorrectedIsMirror, Reflection.ReflectCorrectedInXyPlane, Reflection.GlideCorrectedOutcome |
