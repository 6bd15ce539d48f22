/** The argument checks shared by every transform (`__float_test`) and the
    four error kinds of `ERROR_CODE`. */
module Validation {

  /** One tag per entry of `ERROR_CODE`: 1 wrong shape, 2 zero-length rotation
      axis, 3 collinear plane points, 4 wrong data type. */
  datatype ErrorCode = Shape | ZeroAxis | Collinear | Type

  /** What a transform returns: its list of coordinates, or the error it raises. */
  datatype Result<T> = Ok(value: T) | Err(error: ErrorCode) {
    predicate IsFailure() {
      Err?
    }

    function PropagateFailure<U>(): Result<U>
      requires Err?
    {
      Err(error)
    }

    function Extract(): T
      requires Ok?
    {
      value
    }
  }

  /** A Python value where a number is expected: one that `float()` accepts
      (an int, a float, a bool) or one it rejects with ValueError or TypeError
      (None, a non-numeric string, a nested list, ...). */
  datatype Leaf = Num(x: real) | NonNumeric

  /** One argument handed to `__float_test`: a Python list, whose elements are
      each given to `float()`, or any other value, given to `float()` whole. */
  datatype Arg = List(items: seq<Leaf>) | Scalar(leaf: Leaf)

  predicate AllNumbers(xs: seq<Leaf>) {
    forall i :: 0 <= i < |xs| ==> xs[i].Num?
  }

  /** Whether `float()` succeeds on the argument (on each element of a list). */
  predicate Converts(a: Arg) {
    match a
    case List(items) => AllNumbers(items)
    case Scalar(leaf) => leaf.Num?
  }

  /** The verdict of `__float_test`: both branches of its `try` return, so only
      the first argument is ever examined. With no argument at all it returns
      None, which no caller compares equal to 0. */
  predicate FirstArgumentConverts(values: seq<Arg>) {
    |values| == 0 || Converts(values[0])
  }

  /** `__float_test(*values)`, step by step: `passed` is false where the source
      returns 0 (and the caller raises the type error). */
  method FloatTest(values: seq<Arg>) returns (passed: bool)
    ensures passed == FirstArgumentConverts(values)
  {
    for i := 0 to |values|
      invariant i == 0  // every iteration returns
    {
      match values[i] {
        case List(items) =>
          var j := 0;
          while j < |items|
            invariant 0 <= j <= |items|
            invariant forall k :: 0 <= k < j ==> items[k].Num?
          {
            if items[j].NonNumeric? {
              return false;
            }
            j := j + 1;
          }
        case Scalar(leaf) =>
          if leaf.NonNumeric? {
            return false;
          }
      }
      return true;
    }
    passed := true;
  }

  /** The verdict is decided by the first argument alone: any later arguments,
      numeric or not, give the same verdict. */
  lemma OnlyFirstArgumentChecked(first: Arg, rest: seq<Arg>, others: seq<Arg>)
    ensures FirstArgumentConverts([first] + rest) == FirstArgumentConverts([first] + others)
    ensures FirstArgumentConverts([first] + rest) == Converts(first)
  {
    assert ([first] + rest)[0] == first;
    assert ([first] + others)[0] == first;
  }

  /** A non-numeric value in a later argument goes undetected. */
  lemma LaterArgumentsUnchecked(xyz: seq<Leaf>, rest: seq<Arg>)
    requires AllNumbers(xyz)
    ensures FirstArgumentConverts([List(xyz), Scalar(NonNumeric)] + rest)
  {
    assert ([List(xyz), Scalar(NonNumeric)] + rest)[0] == List(xyz);
  }

  /** A list of numbers, as one transform hands its result to the next. */
  function Lift(v: seq<real>): (r: seq<Leaf>)
    ensures |r| == |v| && AllNumbers(r)
    ensures forall i :: 0 <= i < |v| ==> r[i] == Num(v[i])
  {
    seq(|v|, i requires 0 <= i < |v| => Num(v[i]))
  }

  /** The numbers of a list that passed the type check. */
  function Values(xs: seq<Leaf>): (r: seq<real>)
    requires AllNumbers(xs)
    ensures |r| == |xs|
    ensures forall i :: 0 <= i < |xs| ==> xs[i] == Num(r[i])
  {
    seq(|xs|, i requires 0 <= i < |xs| => xs[i].x)
  }

  lemma ValuesOfLift(v: seq<real>)
    ensures Values(Lift(v)) == v
  {
  }
}
